# Violin Studio: the deterministic core, in Dafny

Violin Studio is a pair of Streamlit prototypes for violin practice. `app.py`
compares a user's WAV recording with a benchmark recording. `public/app.py`
walks a player through naming a piece, recording it and reading simulated
feedback. Most of both files is page layout. This project models the logic
underneath it:

- the repertoire search `fetch_piece_info`, in both of its versions.
  The query is lower-cased and split on whitespace. The result is the first
  database entry whose search text contains every term, or a "not found"
  placeholder. The `app.py` version also searches the composer and returns
  `None` for an empty query.
- `analyze_audio_features`:
  - it rejects empty input and MP3 (ID3-tagged) input;
  - it reads the WAV frame payload as signed 16-bit little-endian integers
    and scales them by 1/32768;
  - it reduces them to a duration, a mean and a peak magnitude, and a
    dynamic range.
- `get_human_comparative_analysis`. It puts each of three metrics in one of
  three bands relative to the benchmark, and writes a fixed three-paragraph
  report from the bands.
- the `st.session_state` callbacks, as classes whose methods update fields:
  - the two upload handlers of `app.py`;
  - `handle_submit_questions` (with its tempo remark), `handle_move_to_recording`,
    `handle_analyze` and `handle_start_new_analysis` of `public/app.py`.

Modules, one per file:

- `Wrappers`: `Option` and `Result`.
- `Text`: the parts of Python's `str` the search uses: `lower()`, `split()`,
  `' '.join` and `in`.
- `Search`: the first-match loop both searches share.
- `AudioFeatures`: the decode and the reductions.
- `Comparison`: the band classifier, the report, and a decoder that reads
  the bands back from a report.
- `StudioApp`: `app.py`'s search and upload handlers.
- `PracticeApp`: `public/app.py`'s search, tempo remark and session callbacks.

Numbers are exact: Python floats become `real`, and integers become unbounded
`int`. The `wave` module is not modelled. Its answer for an accepted
container (frame count, frame rate, raw payload) is an input, `WavReading`,
and `None` stands for a container it refused. Each of the paths that return
`None` from `analyze_audio_features` is kept apart as its own `AudioError`.

## Model

| member | source | states |
|---|---|---|
| Text.Lower | app.py:20 | `str.lower()` keeps the length and maps each character on its own: an upper-case ASCII or Latin-1 letter to its lower-case pair, anything else to itself |
| Text.LowerKeepsSpacesAndIsIdempotent | app.py:20 | lower-casing keeps exactly the separator characters, leaves no upper-case letter, and lower-casing twice equals lower-casing once |
| Text.Split | app.py:20 | every term `split()` produces is non-empty and holds no separator |
| Text.SplitOfEmpty | app.py:20 | the empty string has no terms |
| Text.SplitSkipsLeadingSpace | app.py:20 | a leading separator is dropped: `([c] + s).split() == s.split()` |
| Text.SplitOfLeadingWord | app.py:20 | a word followed by a separator is the first term, and the rest is split on its own; with `Text.SplitOfEmpty`, `Text.SplitSkipsLeadingSpace` and `Text.SplitOfWord` this fixes `split()` on every string as the maximal runs of non-separators |
| Text.SplitKeepsContent | app.py:20 | the terms, put back together, are exactly the non-separator characters of the input, in order |
| Text.SplitEmptyIffBlank | public/app.py:65 | the query has no terms if and only if it consists of separators only |
| Text.SplitOfWord | public/app.py:65 | a single word splits to the one-term list holding it |
| Text.Contains | app.py:23 | `term in text` holds if and only if the term occurs in the text at some index |
| Text.ContainsInAppend | app.py:22-23 | a term found in either part of a concatenated search text is found in the whole |
| Text.Join | app.py:22 | every string joined by `sep.join` occurs in the result |
| Text.SplitJoin | app.py:22 | words joined by a space split back into the same words |
| Text.JoinedAfter | app.py:22 | every keyword occurs in any text that ends with the joined keywords |
| Search.SearchTexts | app.py:21-22 | one search text per database entry, in database order, the i-th built from the i-th entry |
| Search.Terms | app.py:20 | every term of `query.lower().split()` is non-empty and holds no separator |
| Search.TermsOfQuery | app.py:20 | a query has no terms exactly when it is blank, and its terms put together are its lower-cased non-separator characters, in order |
| Search.FirstMatch | app.py:21-24 | a returned index is an entry matching every term, with no matching entry before it; no index is returned only when no entry matches |
| Search.FirstMatchIsUnique | app.py:21-24 | the first matching index is the only answer the loop can give |
| Search.NoTermsMatchFirst | public/app.py:68 | with no terms, `all([])` holds, so the first entry is returned |
| Search.MatchIsFound | app.py:21-24 | if some entry matches, an entry at that index or before it is returned |
| StudioApp.SearchText | app.py:22 | the search text contains the lower-cased title, the lower-cased composer and every keyword as stored |
| StudioApp.NotFoundRecord | app.py:25 | the placeholder is a "not found" record whose title is the query as typed and whose composer is "Unknown" |
| StudioApp.FetchPieceInfo | app.py:18-25 | `None` exactly for the empty query; otherwise the first entry whose "title composer keywords" text contains every term, or the placeholder (title = query, composer "Unknown") exactly when none does |
| StudioApp.BlankQueryReturnsFirst | app.py:19-24 | a non-empty query of separators only passes the guard and returns the first entry |
| StudioApp.KeywordIsFound | app.py:20-24 | searching for a stored lower-case single-word keyword returns an entry, at that keyword's entry or before it |
| StudioApp.UnmatchedQueryGivesPlaceholder | app.py:25 | with no match, the result keeps the query as its title and names the composer "Unknown" |
| StudioApp.Session.constructor | app.py:70-75 | the initial session: empty query, no piece information, no audio, empty feedback and error |
| StudioApp.Session.HandleBenchmarkUpload | app.py:77-80 | with a file selected, the benchmark bytes become its content and the feedback is cleared; without one nothing changes; no other field ever changes |
| StudioApp.Session.HandleUserUpload | app.py:82-85 | the same for the user's recording; the benchmark bytes are untouched |
| AudioFeatures.Int16LE | app.py:39 | two bytes give a value in [-32768, 32767] whose two's-complement form is `lo + 256*hi` |
| AudioFeatures.DecodeInt16LE | app.py:39 | an even payload of n bytes decodes to n/2 integers, the i-th read from bytes 2i and 2i+1 |
| AudioFeatures.DecodeEncode | app.py:39 | writing int16 values as byte pairs and decoding them gives the values back |
| AudioFeatures.EncodeDecode | app.py:39 | decoding loses nothing: re-encoding the decoded values gives back the payload |
| AudioFeatures.Samples | app.py:39-40 | the stream has one sample per byte pair, and the i-th sample times 32768 is the int16 read little-endian from bytes 2i and 2i+1 |
| AudioFeatures.Normalize | app.py:40 | each normalized sample times 32768 is the decoded integer |
| AudioFeatures.SampleBounds | app.py:39-40 | every normalized sample lies in [-1, 32767/32768] |
| AudioFeatures.MaxAbs | app.py:41 | `np.max(np.abs(s))` bounds every magnitude from above and is attained |
| AudioFeatures.MinAbs | app.py:41 | `np.min(np.abs(s))` bounds every magnitude from below and is attained |
| AudioFeatures.SumAbsBetween | app.py:41 | a sum of n magnitudes each in [lo, hi] lies between n·lo and n·hi |
| AudioFeatures.MeanAbsBetween | app.py:41 | the mean magnitude lies between any lower and upper bound of the magnitudes |
| AudioFeatures.ExtractFeatures | app.py:36-41 | the record keeps the stream and the frame rate; its duration is frame count / frame rate, positive when frames exist; the average is the sum of the magnitudes over their number, the peak is the largest magnitude and the dynamic range is the largest minus the smallest magnitude |
| AudioFeatures.AnalyzeAudioFeatures | app.py:27-44 | empty input and ID3 input are refused. The analysis succeeds exactly when the container is read, has frames, a frame rate and a non-empty even payload. On success the record is the features of the decoded, scaled payload under the container's frame count and frame rate, and its duration is positive, so a zero-filled record is never returned |
| AudioFeatures.ReductionBounds | app.py:41 | for magnitudes at most 1: 0 <= avg <= peak <= 1, and the dynamic range is peak - min magnitude, in [0, peak] |
| AudioFeatures.FeatureBounds | app.py:39-41 | every successful analysis satisfies 0 <= avg <= peak <= 1 and dynamic range = peak - min magnitude, in [0, peak] |
| AudioFeatures.ConstantMagnitude | app.py:41 | a stream of constant magnitude c has average and peak c and no dynamic range |
| AudioFeatures.DurationIgnoresPayload | app.py:36-41 | the duration depends on the header alone: payloads of any size under the same header give the same duration |
| Comparison.Classify | app.py:49-54 | "higher" exactly when the value exceeds `bench*upper`; "lower" only below `bench*lower`; "similar" only between the two thresholds, both included |
| Comparison.Assess | app.py:48-54 | for each metric the band is fixed by the value: tone "higher" exactly when the peak exceeds the benchmark's times 1.1, "lower" only below it times 0.9, "similar" only between the two; dynamics (average) and style (dynamic range) likewise with 1.15 and 0.85. Together these fix the band on every input, as the if/elif chain does: when the "higher" test fails, "lower" holds exactly below the lower threshold |
| Comparison.ClassifyBands | app.py:49-54 | for a non-negative benchmark each band is an interval: strictly above `bench*upper`, strictly below `bench*lower`, or the closed interval between |
| Comparison.ThresholdsAreSimilar | app.py:49-54 | a value exactly at either threshold is "similar" |
| Comparison.ClassifyMonotone | app.py:49-54 | a larger user value never falls in a lower band |
| Comparison.ZeroBenchmark | app.py:49-54 | against a zero benchmark, any positive value is "higher" and zero is "similar" |
| Comparison.LowerSwapsToHigher | app.py:49-54 | since `lower*upper <= 1`, a value "lower" than the benchmark makes the benchmark "higher" than it when the roles swap |
| Comparison.HigherNeedNotSwapToLower | app.py:49-52 | the converse fails: with the 15% factors 1.16 against 1.0 is "higher" but 1.0 against 1.16 is "similar"; with the 10% factors of the tone, 1.105 against 1.0 is "higher" but 1.0 against 1.105 is "similar" |
| Comparison.AnalysedFeaturesAreNonNegative | app.py:41 | every successful analysis gives non-negative average, peak and dynamic range |
| Comparison.SelfComparisonIsSimilar | app.py:48-54 | a recording compared with itself is "similar" on all three metrics |
| Comparison.AssessSwapsLowerToHigher | app.py:49-54 | for every metric, swapping the two recordings turns "lower" into "higher" |
| Comparison.Render | app.py:55-57 | the report opens with the dynamics heading and the dynamics band's phrase, and ends with the style paragraph of the style band |
| Comparison.GetHumanComparativeAnalysis | app.py:46-57 | a missing analysis gives the fixed failure message; otherwise the report is rendered from the three bands |
| Comparison.DecodeRender | app.py:55-57 | the report text determines its three bands, whatever the loudness figures and their formatting |
| Comparison.FailureMessageIsNotAReport | app.py:47 | no report equals the failure message, and the failure message decodes to no bands |
| PracticeApp.PieceDatabaseIsValid | public/app.py:14-21 | the eight entries all have a positive performance tempo, the divisor of the tempo remark |
| PracticeApp.SearchText | public/app.py:67 | the search text contains the lower-cased title and every keyword as stored |
| PracticeApp.FetchPieceInfo | public/app.py:63-70 | the first entry whose "title keywords" text contains every term, taken from the database; the placeholder (title = query) exactly when no entry matches |
| PracticeApp.BlankQueryReturnsFirst | public/app.py:65-69 | an empty or separator-only query returns the first entry |
| PracticeApp.KeywordIsFound | public/app.py:65-69 | searching for a stored lower-case single-word keyword returns an entry, at that keyword's entry or before it |
| PracticeApp.RatioWithin | public/app.py:133 | for a positive target, `d / target <= 0.08` holds exactly when 25·d <= 2·target |
| PracticeApp.TempoVerdict | public/app.py:133-138 | "great" exactly when 25·abs(user - target) <= 2·target (within 8%); beyond that, "faster" exactly when user > target and "practice" exactly when user < target |
| PracticeApp.TempoMessagesDiffer | public/app.py:134-138 | the three remarks are distinct texts, so the remark shown names its band |
| PracticeApp.Session.constructor | public/app.py:103-113 | the initial session: stage 'welcome', every other field empty |
| PracticeApp.Session.HandleSubmitQuestions | public/app.py:117-138 | with an empty name nothing changes. Otherwise the stage becomes 'describing', the name and tempo are copied and the search result is stored. The tempo remark is recomputed only when a tempo is given and the piece was found, and is kept otherwise |
| PracticeApp.Session.ShowPiece | public/app.py:122-138 | given a search result that is a database entry or the placeholder for the name, the stage becomes 'describing', the name, tempo and result are stored, and the tempo remark is recomputed only for a non-zero tempo and a found piece; the audio, feedback and error are untouched |
| PracticeApp.Session.HandleMoveToRecording | public/app.py:140-141 | only the stage changes, to 'recording' |
| PracticeApp.Session.HandleAnalyze | public/app.py:143-149 | without a non-empty recording nothing changes; with one the stage becomes 'analyzing' and the feedback and error are cleared; the audio is untouched |
| PracticeApp.Session.HandleStartNewAnalysis | public/app.py:151-164 | the saved recording becomes the current one if there is one and is kept otherwise; every other field is reset and the stage becomes 'questions' |

Every callback of `PracticeApp.Session` also preserves `Valid()`, the session
invariant. Under it, piece information is held exactly while a piece name is.
It is a database entry, or the placeholder carrying that name.

## Behaviour of the code worth knowing

- The band classifier is not antisymmetric. Swapping the two recordings
  turns "lower" into "higher" (`Comparison.LowerSwapsToHigher`), but it
  does not always turn "higher" into "lower": when the user's value is
  above the benchmark's by a ratio between 1.15 and 1/0.85 (dynamics and
  style) or between 1.1 and 1/0.9 (tone), the swapped comparison is
  "similar" (`Comparison.HigherNeedNotSwapToLower`).
- `tempo_feedback` keeps the previous remark when a new piece is not found
  or no tempo is given (public/app.py:130,
  `PracticeApp.Session.HandleSubmitQuestions`).
- Both searches lower-case the title (and `app.py` the composer) but join
  the keywords as stored (app.py:22, public/app.py:67), while the query is
  always lower-cased. A query term holding one of a keyword's upper-case
  letters therefore never occurs in that keyword: typing such a keyword as
  stored does not find its entry through the keyword, though a term made
  of its lower-case part alone still does.
- The payload is always read as one int16 stream (app.py:39), whatever the
  container's sample width and channel count: an 8-bit or stereo file is
  read as if it were 16-bit mono. The duration still comes from the
  header's frame count.

## Left out

- Page layout, CSS, images, tabs, widgets and `st.rerun`: UI with no contract (app.py:87-164, public/app.py:167-296).
- The button handlers written inline in the layout: the search button, the compare button, the analyzing stage, the recording capture and "Start Your Analysis". They are layout code, not named callbacks.
- Parsing the WAV container (`wave`) and decoding with pydub. These are foreign libraries; their results are inputs.
- `AudioRecorder.recv`: a WebRTC callback on a media thread, which is concurrency and I/O. So is `webrtc_ctx` in the session state.
- `get_advanced_ai_analysis`: random choices and sleeps, with no algorithmic contract.
- `plot_waveform`: matplotlib rendering.
- Floating point: the model uses exact reals. At the thresholds `* 1.1`, `* 0.9`, `* 1.15`, `* 0.85` and `<= 0.08`, float rounding can put a boundary value in the other band.
- The `:.2f` formatting of the loudness figures is the parameter `fmt` of `Comparison.GetHumanComparativeAnalysis`.
- The `st.error` and `st.warning` messages are side effects; the `AudioError` value says which path was taken.
- Text.Lower: models `str.lower()` for ASCII and Latin-1 upper-case letters only. Other scripts and multi-character case mappings are not lower-cased.
- PracticeApp.Session.Valid: does not state that the stored piece information is the search's answer for the stored name. HandleSubmitQuestions ensures that when it stores the result, and every other callback either leaves both fields alone or clears both. Keeping the search inside the invariant made every callback's proof too costly.
- PracticeApp.Session: `tempoFeedback` holds which remark is shown, a `TempoNote`, rather than its text. `TempoMessage` gives the text, and `PracticeApp.TempoMessagesDiffer` shows no two remarks share a text.
- PracticeApp.Session: `userTempo` is the number widget's value. A tempo of 0 counts as "no tempo", as in Python. The widget's 30..250 range is not modelled.
- The concrete databases appear only as constants, with one fact about `public/app.py`'s: its tempos are positive. No search over their particular titles is worked through.
