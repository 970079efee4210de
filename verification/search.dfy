/** The first-match scan shared by both versions of `fetch_piece_info`: the
    query is lower-cased and split into terms, and the first entry (in database
    order) whose searchable text contains every term wins. */
module Search {
  import opened Wrappers
  import opened Text

  /** `all(term in text for term in terms)`. */
  predicate MatchesAll(text: string, terms: seq<string>) {
    forall k :: 0 <= k < |terms| ==> Contains(text, terms[k])
  }

  /** Entry `i` is the first of `texts` that matches every term. */
  predicate IsFirstMatch(texts: seq<string>, terms: seq<string>, i: int) {
    && 0 <= i < |texts|
    && MatchesAll(texts[i], terms)
    && forall j :: 0 <= j < i ==> !MatchesAll(texts[j], terms)
  }

  /** The searchable text of every entry, in database order. */
  function SearchTexts<P>(db: seq<P>, text: P -> string): (texts: seq<string>)
    ensures |texts| == |db|
    ensures forall i :: 0 <= i < |db| ==> texts[i] == text(db[i])
  {
    seq(|db|, i requires 0 <= i < |db| => text(db[i]))
  }

  /** `query.lower().split()`. */
  function Terms(query: string): (terms: seq<string>)
    ensures forall k :: 0 <= k < |terms| ==> IsWord(terms[k])
  {
    Split(Lower(query))
  }

  /** A query has no terms exactly when it is blank, and its terms are its
      non-separator characters, lower-cased, in their order. */
  lemma TermsOfQuery(query: string)
    ensures Terms(query) == [] <==> IsBlank(query)
    ensures Concat(Terms(query)) == NonSpaces(Lower(query))
  {
    LowerKeepsSpacesAndIsIdempotent(query);
    SplitEmptyIffBlank(Lower(query));
    SplitKeepsContent(Lower(query));
  }

  /** The index the `for ... : if all(...): return piece` loop stops at, if any. */
  function FirstMatch(texts: seq<string>, terms: seq<string>): (r: Option<nat>)
    ensures r.Some? ==> IsFirstMatch(texts, terms, r.value)
    ensures r.None? ==> forall j :: 0 <= j < |texts| ==> !MatchesAll(texts[j], terms)
  {
    if texts == [] then None
    else if MatchesAll(texts[0], terms) then Some(0)
    else
      match FirstMatch(texts[1..], terms)
      case None => None
      case Some(i) => Some(i + 1)
  }

  /** There is at most one first match, so `FirstMatch` is the only answer. */
  lemma FirstMatchIsUnique(texts: seq<string>, terms: seq<string>, i: int)
    requires IsFirstMatch(texts, terms, i)
    ensures FirstMatch(texts, terms) == Some(i)
  {
  }

  /** With no terms every entry matches, so the first entry is returned. */
  lemma NoTermsMatchFirst(texts: seq<string>)
    requires texts != []
    ensures FirstMatch(texts, []) == Some(0)
  {
  }

  /** An entry that matches is found, at its own index or an earlier one. */
  lemma MatchIsFound(texts: seq<string>, terms: seq<string>, k: nat)
    requires k < |texts| && MatchesAll(texts[k], terms)
    ensures FirstMatch(texts, terms).Some? && FirstMatch(texts, terms).value <= k
  {
  }
}
