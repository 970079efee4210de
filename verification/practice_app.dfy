/** The non-layout logic of public/app.py: its repertoire search, the tempo
    remark and the button callbacks over the session state. */
module PracticeApp {
  import opened Wrappers
  import opened Text
  import opened Search
  import opened AudioFeatures

  datatype Piece = Piece(
    title: string,
    keywords: seq<string>,
    description: string,
    usualTempo: int,
    practiceTempo: int)

  /** A database entry, or the placeholder record whose `notFound` flag is set. */
  datatype PieceInfo =
    | Entry(piece: Piece)
    | NotFound(title: string, description: string)

  /** `pieceDatabase` of public/app.py, in insertion order. */
  const PieceDatabase: seq<Piece> := [
    Piece("Partita No. 2 in D minor, BWV 1004", ["bach", "chaconne", "ciaccona"],
      "A cornerstone of the solo violin repertoire by J.S. Bach...", 76, 60),
    Piece("The Four Seasons", ["vivaldi", "winter", "spring", "summer", "autumn", "fall"],
      "A set of four violin concertos by Antonio Vivaldi...", 100, 80),
    Piece("Zigeunerweisen, Op. 20", ["sarasate", "gypsy airs"],
      "Pablo de Sarasate's most famous work, a fantasy on Romani themes...", 138, 100),
    Piece("Méditation from Thaïs", ["massenet", "thais", "meditation"],
      "A beautiful and serene intermezzo from the opera Thaïs by Jules Massenet...", 52, 44),
    Piece("Salut d'amour, Op. 12", ["elgar", "love's greeting"],
      "A short, charming musical work composed by Edward Elgar...", 66, 56),
    Piece("Vocalise, Op. 34 No. 14", ["rachmaninoff"],
      "A wordless song by Sergei Rachmaninoff...", 60, 50),
    Piece("Hungarian Dance No. 1, WoO 1", ["brahms", "hungarian", "dance", "1"],
      "A lively and fiery piece by Johannes Brahms...", 110, 88),
    Piece("Mazurka in A Minor, Op. 67 No. 4", ["chopin", "mazurka"],
      "A posthumously published Mazurka by Frédéric Chopin...", 120, 96)
  ]

  /** Every entry has a positive performance tempo, the divisor of the tempo remark. */
  predicate ValidDatabase(db: seq<Piece>) {
    forall i :: 0 <= i < |db| ==> db[i].usualTempo > 0
  }

  lemma PieceDatabaseIsValid()
    ensures ValidDatabase(PieceDatabase) && |PieceDatabase| == 8
  {
  }

  /** "title keywords": the title lower-cased, the keywords joined as stored. */
  function SearchText(p: Piece): (text: string)
    ensures Contains(text, Lower(p.title))
    ensures forall k :: 0 <= k < |p.keywords| ==> Contains(text, p.keywords[k])
  {
    assert OccursAt(Lower(p.title) + " " + Join(p.keywords, " "), Lower(p.title), 0);
    JoinedAfter(Lower(p.title) + " ", p.keywords, " ");
    Lower(p.title) + " " + Join(p.keywords, " ")
  }

  const NotFoundDescription: string := "Information for this piece could not be found."

  /** `fetch_piece_info` of public/app.py: no guard against an empty query. */
  function FetchPieceInfo(db: seq<Piece>, query: string): (r: PieceInfo)
    ensures r.Entry? ==>
              && (exists i :: IsFirstMatch(SearchTexts(db, SearchText), Terms(query), i) && db[i] == r.piece)
              && r.piece in db
    ensures r.NotFound? <==> forall i :: 0 <= i < |db| ==> !MatchesAll(SearchText(db[i]), Terms(query))
    ensures r.NotFound? ==> r == NotFound(query, NotFoundDescription)
  {
    match FirstMatch(SearchTexts(db, SearchText), Terms(query))
    case Some(i) => Entry(db[i])
    case None => NotFound(query, NotFoundDescription)
  }

  /** An empty or separator-only query has no terms, so it returns the first
      entry of the database. */
  lemma BlankQueryReturnsFirst(db: seq<Piece>, query: string)
    requires db != [] && IsBlank(query)
    ensures FetchPieceInfo(db, query) == Entry(db[0])
  {
    LowerKeepsSpacesAndIsIdempotent(query);
    SplitEmptyIffBlank(Lower(query));
    NoTermsMatchFirst(SearchTexts(db, SearchText));
  }

  /** Searching for one of an entry's keywords finds that entry or one stored before it. */
  lemma {:induction false} KeywordIsFound(db: seq<Piece>, k: nat, j: nat)
    requires k < |db| && j < |db[k].keywords|
    requires IsWord(db[k].keywords[j]) && Lower(db[k].keywords[j]) == db[k].keywords[j]
    ensures var r := FetchPieceInfo(db, db[k].keywords[j]);
      r.Entry? &&
      exists i :: 0 <= i <= k && IsFirstMatch(SearchTexts(db, SearchText), Terms(db[k].keywords[j]), i) && db[i] == r.piece
  {
    var w := db[k].keywords[j];
    SplitOfWord(w);
    assert Terms(w) == [w];
    assert MatchesAll(SearchTexts(db, SearchText)[k], [w]);
    MatchIsFound(SearchTexts(db, SearchText), [w], k);
  }

  // ---- The tempo remark ----

  datatype TempoNote = Great | Faster | Practice

  function TempoMessage(n: TempoNote): string {
    match n
    case Great => "This is a great performance tempo!"
    case Faster => "This is a bit faster than a typical performance tempo."
    case Practice => "This is a solid practice tempo, good for working out tough spots."
  }

  function AbsInt(x: int): nat {
    if x < 0 then -x else x
  }

  /** The 8% test on reals, restated in integers. */
  lemma RatioWithin(d: int, t: int)
    requires d >= 0 && t > 0
    ensures d as real / t as real <= 0.08 <==> 25 * d <= 2 * t
  {
    var x, y := d as real, t as real;
    var q := x / y;
    assert q * y == x;
    assert 25.0 * x - 2.0 * y == (25.0 * y) * (q - 0.08);
    assert 25.0 * y > 0.0;
    assert q <= 0.08 <==> (25.0 * y) * (q - 0.08) <= 0.0;
    assert (25 * d) as real == 25.0 * x && (2 * t) as real == 2.0 * y;
  }

  /** `abs(user - target) / target <= 0.08` first, then `user > target`:
      within 8% of the target, in either direction, is "great"; beyond that
      a faster tempo is "faster" and a slower one "practice". */
  function TempoVerdict(user: int, target: int): (note: TempoNote)
    requires target > 0
    ensures note == Great <==> 25 * AbsInt(user - target) <= 2 * target
    ensures note == Faster <==> 25 * (user - target) > 2 * target
    ensures note == Practice <==> 25 * (target - user) > 2 * target
  {
    RatioWithin(AbsInt(user - target), target);
    if AbsInt(user - target) as real / target as real <= 0.08 then Great
    else if user > target then Faster
    else Practice
  }

  /** The three remarks are distinct, so the remark names its band. */
  lemma TempoMessagesDiffer(a: TempoNote, b: TempoNote)
    requires a != b
    ensures TempoMessage(a) != TempoMessage(b)
  {
    assert |TempoMessage(Great)| == 34;
    assert |TempoMessage(Faster)| == 54;
    assert |TempoMessage(Practice)| == 65;
  }

  // ---- The session state and its callbacks ----

  datatype Stage = Welcome | Questions | Describing | Recording | Analyzing | Feedback

  /** One line of the simulated analysis shown in the feedback stage. */
  datatype FeedbackItem = FeedbackItem(timestamp: string, note: string)

  /** Python truthiness of the stored recording: present and not empty. */
  predicate HasAudio(b: Option<seq<byte>>) {
    b.Some? && b.value != []
  }

  /** The session fields of public/app.py:103-113; `userTempo` is `None`
      while it holds the empty string, and `tempoFeedback` names the remark
      shown (`TempoMessage`), `None` while it holds the empty string. */
  class Session {
    const db: seq<Piece>
    var uiStage: Stage
    var pieceName: string
    var userTempo: Option<int>
    var pieceInfo: Option<PieceInfo>
    var tempoFeedback: Option<TempoNote>
    var audioBytes: Option<seq<byte>>
    var savedAudioBytes: Option<seq<byte>>
    var aiFeedback: seq<FeedbackItem>
    var analysisError: string

    /** Piece information is held exactly while a piece name is: a database
        entry, or the placeholder for that name. Which of the two is the
        search's answer is stated by `HandleSubmitQuestions`, the only
        callback that sets either field to something new. */
    ghost predicate Valid()
      reads this`pieceName, this`pieceInfo
    {
      && ValidDatabase(db)
      && (pieceInfo.Some? <==> pieceName != "")
      && (pieceInfo.Some? && pieceInfo.value.Entry? ==> pieceInfo.value.piece in db)
      && (pieceInfo.Some? && pieceInfo.value.NotFound? ==> pieceInfo.value == NotFound(pieceName, NotFoundDescription))
    }

    constructor (db: seq<Piece>)
      requires ValidDatabase(db)
      ensures Valid() && this.db == db
      ensures uiStage == Welcome && pieceName == "" && userTempo == None
      ensures pieceInfo == None && tempoFeedback == None
      ensures audioBytes == None && savedAudioBytes == None
      ensures aiFeedback == [] && analysisError == ""
    {
      this.db := db;
      uiStage := Welcome;
      pieceName := "";
      userTempo := None;
      pieceInfo := None;
      tempoFeedback := None;
      audioBytes := None;
      savedAudioBytes := None;
      aiFeedback := [];
      analysisError := "";
    }

    /** `handle_submit_questions`; `nameInput` and `tempoInput` are the text
        and number widgets' values. An empty name changes nothing. */
    method HandleSubmitQuestions(nameInput: string, tempoInput: int)
      requires Valid()
      modifies this
      ensures Valid()
      ensures nameInput == "" ==>
                && uiStage == old(uiStage) && pieceName == old(pieceName)
                && userTempo == old(userTempo) && pieceInfo == old(pieceInfo)
                && tempoFeedback == old(tempoFeedback)
      ensures nameInput != "" ==>
                && uiStage == Describing && pieceName == nameInput
                && userTempo == Some(tempoInput)
                && pieceInfo == Some(FetchPieceInfo(db, nameInput))
      ensures nameInput != "" && tempoInput != 0 && pieceInfo.value.Entry? ==>
                tempoFeedback == Some(TempoVerdict(tempoInput, pieceInfo.value.piece.usualTempo))
      ensures nameInput != "" && (tempoInput == 0 || pieceInfo.value.NotFound?) ==>
                tempoFeedback == old(tempoFeedback)
      ensures audioBytes == old(audioBytes) && savedAudioBytes == old(savedAudioBytes)
      ensures aiFeedback == old(aiFeedback) && analysisError == old(analysisError)
    {
      if nameInput == "" {
        return;
      }
      var info := FetchPieceInfo(db, nameInput);
      ShowPiece(nameInput, tempoInput, info);
    }

    /** The part of `handle_submit_questions` after the search: the stage,
        name, tempo and search result are stored, and the tempo remark is
        computed only for a non-zero tempo and a piece that was found. */
    method ShowPiece(nameInput: string, tempoInput: int, info: PieceInfo)
      requires Valid() && nameInput != ""
      requires info.Entry? ==> info.piece in db
      requires info.NotFound? ==> info == NotFound(nameInput, NotFoundDescription)
      modifies this
      ensures Valid()
      ensures uiStage == Describing && pieceName == nameInput
      ensures userTempo == Some(tempoInput) && pieceInfo == Some(info)
      ensures tempoInput != 0 && info.Entry? ==>
                tempoFeedback == Some(TempoVerdict(tempoInput, info.piece.usualTempo))
      ensures tempoInput == 0 || info.NotFound? ==> tempoFeedback == old(tempoFeedback)
      ensures audioBytes == old(audioBytes) && savedAudioBytes == old(savedAudioBytes)
      ensures aiFeedback == old(aiFeedback) && analysisError == old(analysisError)
    {
      uiStage := Describing;
      pieceName := nameInput;
      userTempo := Some(tempoInput);
      pieceInfo := Some(info);
      if tempoInput != 0 && info.Entry? {
        tempoFeedback := Some(TempoVerdict(tempoInput, info.piece.usualTempo));
      }
    }

    /** `handle_move_to_recording`: only the stage changes. */
    method HandleMoveToRecording()
      requires Valid()
      modifies this
      ensures Valid()
      ensures uiStage == Recording
      ensures pieceName == old(pieceName) && userTempo == old(userTempo)
      ensures pieceInfo == old(pieceInfo) && tempoFeedback == old(tempoFeedback)
      ensures audioBytes == old(audioBytes) && savedAudioBytes == old(savedAudioBytes)
      ensures aiFeedback == old(aiFeedback) && analysisError == old(analysisError)
    {
      uiStage := Recording;
    }

    /** `handle_analyze`: without a recording nothing changes; with one the
        stage becomes 'analyzing' and the previous results are cleared. */
    method HandleAnalyze()
      requires Valid()
      modifies this
      ensures Valid()
      ensures !HasAudio(audioBytes) ==>
                uiStage == old(uiStage) && aiFeedback == old(aiFeedback) && analysisError == old(analysisError)
      ensures HasAudio(audioBytes) ==>
                uiStage == Analyzing && aiFeedback == [] && analysisError == ""
      ensures pieceName == old(pieceName) && userTempo == old(userTempo)
      ensures pieceInfo == old(pieceInfo) && tempoFeedback == old(tempoFeedback)
      ensures audioBytes == old(audioBytes) && savedAudioBytes == old(savedAudioBytes)
    {
      if !HasAudio(audioBytes) {
        return;
      }
      uiStage := Analyzing;
      aiFeedback := [];
      analysisError := "";
    }

    /** `handle_start_new_analysis`: the current recording, if any, becomes
        the saved one; every other field is reset and the stage is 'questions'. */
    method HandleStartNewAnalysis()
      requires Valid()
      modifies this
      ensures Valid()
      ensures savedAudioBytes == (if HasAudio(old(audioBytes)) then old(audioBytes) else old(savedAudioBytes))
      ensures uiStage == Questions && pieceName == "" && userTempo == None
      ensures pieceInfo == None && tempoFeedback == None && audioBytes == None
      ensures aiFeedback == [] && analysisError == ""
    {
      if HasAudio(audioBytes) {
        savedAudioBytes := audioBytes;
      }
      uiStage := Questions;
      pieceName := "";
      userTempo := None;
      pieceInfo := None;
      tempoFeedback := None;
      audioBytes := None;
      aiFeedback := [];
      analysisError := "";
    }
  }
}
