/** The non-layout logic of app.py besides the audio analysis: the repertoire
    search (`fetch_piece_info`) and the two upload callbacks over the session
    state. */
module StudioApp {
  import opened Wrappers
  import opened Text
  import opened Search
  import opened AudioFeatures

  datatype Piece = Piece(
    composer: string,
    title: string,
    keywords: seq<string>,
    duration: string,
    description: string,
    usualTempo: int,
    practiceTempo: int)

  /** What the search returns for a non-empty query: a database entry, or the
      placeholder record whose `notFound` flag is set. */
  datatype PieceInfo =
    | Entry(piece: Piece)
    | NotFound(title: string, description: string, composer: string)

  /** `pieceDatabase` of app.py, in insertion order. */
  const PieceDatabase: seq<Piece> := [
    Piece("Edward Elgar", "Salut d'amour, Op. 12", ["elgar", "love's greeting"], "03:13",
      "Composed as an engagement present to his future wife, 'Salut d'amour' (Love's Greeting) is one of Edward Elgar's most beloved short pieces. It is a heartfelt and lyrical romance that captures a sense of gentle affection and warmth. The graceful melody requires a pure, singing tone and sincere expression from the performer. It remains a popular encore piece and a staple of the light classical repertoire, showcasing Elgar's gift for melody.",
      66, 54),
    Piece("Frédéric Chopin", "Nocturne in E-flat Major, Op. 9 No. 2", ["chopin", "nocturne", "op9", "no2"], "04:41",
      "Arguably the most famous of all his nocturnes, this piece is a quintessential example of the Romantic piano style, here beautifully transcribed for violin. The main theme is a deeply lyrical and ornamented melody that flows with grace and elegance. It requires a beautiful, singing tone and a flexible sense of rhythm (rubato) to capture its poetic nature. The piece's structure is relatively simple, allowing the performer to focus on expressive phrasing and delicate nuance.",
      60, 50),
    Piece("Claude Debussy", "Clair de Lune", ["debussy", "bergamasque"], "04:38",
      "The third and most celebrated movement of the 'Suite bergamasque,' 'Clair de Lune' is one of the most iconic pieces of Impressionist music. Its name, meaning 'moonlight,' perfectly captures the music's delicate, atmospheric, and dreamlike quality. The piece requires exceptional control over dynamics and tone color to create its shimmering textures. The fluid, almost improvisatory-sounding melody floats above rich and innovative harmonies, evoking a serene and magical nighttime scene.",
      50, 40)
  ]

  /** "title composer keywords": title and composer lower-cased, the keywords
      joined by spaces as they are stored. */
  function SearchText(p: Piece): (text: string)
    ensures Contains(text, Lower(p.title))
    ensures Contains(text, Lower(p.composer))
    ensures forall k :: 0 <= k < |p.keywords| ==> Contains(text, p.keywords[k])
  {
    var head := Lower(p.title) + " ";
    var text := head + Lower(p.composer) + " " + Join(p.keywords, " ");
    assert OccursAt(text, Lower(p.title), 0);
    assert text[|head|..|head| + |p.composer|] == Lower(p.composer);
    assert OccursAt(text, Lower(p.composer), |head|);
    JoinedAfter(head + Lower(p.composer) + " ", p.keywords, " ");
    text
  }

  /** The placeholder: the query as the title and "Unknown" as the composer. */
  function NotFoundRecord(query: string): (r: PieceInfo)
    ensures r.NotFound? && r.title == query && r.composer == "Unknown"
  {
    NotFound(query, "Information for '" + query + "' could not be found.", "Unknown")
  }

  /** `fetch_piece_info` of app.py. */
  function FetchPieceInfo(db: seq<Piece>, query: string): (r: Option<PieceInfo>)
    ensures query == [] <==> r.None?
    ensures r.Some? && r.value.Entry? ==>
              exists i :: IsFirstMatch(SearchTexts(db, SearchText), Terms(query), i) && db[i] == r.value.piece
    ensures r.Some? && r.value.NotFound? ==>
              && r.value == NotFoundRecord(query)
              && forall i :: 0 <= i < |db| ==> !MatchesAll(SearchText(db[i]), Terms(query))
  {
    if query == [] then None
    else
      match FirstMatch(SearchTexts(db, SearchText), Terms(query))
      case Some(i) => Some(Entry(db[i]))
      case None => Some(NotFoundRecord(query))
  }

  /** A query that is not empty but holds only separators has no terms, so
      it returns the first entry of the database. */
  lemma BlankQueryReturnsFirst(db: seq<Piece>, query: string)
    requires db != [] && query != [] && IsBlank(query)
    ensures FetchPieceInfo(db, query) == Some(Entry(db[0]))
  {
    LowerKeepsSpacesAndIsIdempotent(query);
    SplitEmptyIffBlank(Lower(query));
    NoTermsMatchFirst(SearchTexts(db, SearchText));
  }

  /** Searching for one of an entry's keywords finds an entry: that one or
      one stored before it. */
  lemma {:induction false} KeywordIsFound(db: seq<Piece>, k: nat, j: nat)
    requires k < |db| && j < |db[k].keywords|
    requires IsWord(db[k].keywords[j]) && Lower(db[k].keywords[j]) == db[k].keywords[j]
    ensures var r := FetchPieceInfo(db, db[k].keywords[j]);
      r.Some? && r.value.Entry? &&
      exists i :: 0 <= i <= k && IsFirstMatch(SearchTexts(db, SearchText), Terms(db[k].keywords[j]), i) && db[i] == r.value.piece
  {
    var w := db[k].keywords[j];
    SplitOfWord(w);
    assert Terms(w) == [w];
    assert MatchesAll(SearchTexts(db, SearchText)[k], [w]);
    MatchIsFound(SearchTexts(db, SearchText), [w], k);
  }

  /** The placeholder keeps the query as typed and names no composer. */
  lemma UnmatchedQueryGivesPlaceholder(db: seq<Piece>, query: string)
    requires query != []
    requires forall i :: 0 <= i < |db| ==> !MatchesAll(SearchText(db[i]), Terms(query))
    ensures var r := FetchPieceInfo(db, query);
      r.Some? && r.value.NotFound? && r.value.title == query && r.value.composer == "Unknown"
  {
  }

  /** The part of `st.session_state` that app.py's callbacks touch
      (initialised once, app.py:70-75). */
  class Session {
    var searchQuery: string
    var searchedPieceInfo: Option<PieceInfo>
    var userAudioBytes: Option<seq<byte>>
    var benchmarkAudioBytes: Option<seq<byte>>
    var aiFeedback: string
    var analysisError: string

    constructor ()
      ensures searchQuery == "" && searchedPieceInfo == None
      ensures userAudioBytes == None && benchmarkAudioBytes == None
      ensures aiFeedback == "" && analysisError == ""
    {
      searchQuery := "";
      searchedPieceInfo := None;
      userAudioBytes := None;
      benchmarkAudioBytes := None;
      aiFeedback := "";
      analysisError := "";
    }

    /** `handle_benchmark_upload`: `uploader` is the file widget's content,
        `None` when no file is selected. */
    method HandleBenchmarkUpload(uploader: Option<seq<byte>>)
      modifies this
      ensures uploader.Some? ==> benchmarkAudioBytes == uploader && aiFeedback == ""
      ensures uploader.None? ==> benchmarkAudioBytes == old(benchmarkAudioBytes) && aiFeedback == old(aiFeedback)
      ensures userAudioBytes == old(userAudioBytes)
      ensures searchQuery == old(searchQuery) && searchedPieceInfo == old(searchedPieceInfo)
      ensures analysisError == old(analysisError)
    {
      if uploader.Some? {
        benchmarkAudioBytes := uploader;
        aiFeedback := "";
      }
    }

    /** `handle_user_upload`, the same for the user's own recording. */
    method HandleUserUpload(uploader: Option<seq<byte>>)
      modifies this
      ensures uploader.Some? ==> userAudioBytes == uploader && aiFeedback == ""
      ensures uploader.None? ==> userAudioBytes == old(userAudioBytes) && aiFeedback == old(aiFeedback)
      ensures benchmarkAudioBytes == old(benchmarkAudioBytes)
      ensures searchQuery == old(searchQuery) && searchedPieceInfo == old(searchedPieceInfo)
      ensures analysisError == old(analysisError)
    {
      if uploader.Some? {
        userAudioBytes := uploader;
        aiFeedback := "";
      }
    }
  }
}
