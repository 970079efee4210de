/** The pieces of Python's `str` behaviour that the repertoire search relies on:
    `str.lower()`, `str.split()` with no argument, `' '.join(...)` and the
    substring test `term in text`. */
module Text {

  /** `str.isspace()` for one character: the separators of `str.split()`. */
  predicate IsSpace(c: char) {
    var n := c as int;
    || (0x09 <= n <= 0x0D) || (0x1C <= n <= 0x20) || n == 0x85 || n == 0xA0
    || n == 0x1680 || (0x2000 <= n <= 0x200A) || n == 0x2028 || n == 0x2029
    || n == 0x202F || n == 0x205F || n == 0x3000
  }

  /** Upper-case letters of ASCII and Latin-1 (U+00C0..U+00DE except U+00D7). */
  predicate IsUpper(c: char) {
    var n := c as int;
    (0x41 <= n <= 0x5A) || (0xC0 <= n <= 0xDE && n != 0xD7)
  }

  function LowerChar(c: char): char {
    if IsUpper(c) then (c as int + 32) as char else c
  }

  /** `s.lower()`, restricted to the ASCII and Latin-1 case pairs. */
  function Lower(s: string): (r: string)
    ensures |r| == |s|
    ensures forall i :: 0 <= i < |s| ==> r[i] == LowerChar(s[i])
  {
    seq(|s|, i requires 0 <= i < |s| => LowerChar(s[i]))
  }

  lemma LowerKeepsSpacesAndIsIdempotent(s: string)
    ensures forall i :: 0 <= i < |s| ==> (IsSpace(Lower(s)[i]) <==> IsSpace(s[i]))
    ensures forall i :: 0 <= i < |s| ==> !IsUpper(Lower(s)[i])
    ensures Lower(Lower(s)) == Lower(s)
  {
  }

  predicate IsBlank(s: string) {
    forall i :: 0 <= i < |s| ==> IsSpace(s[i])
  }

  /** A term produced by `split()`: non-empty and free of separators. */
  predicate IsWord(w: string) {
    w != [] && forall i :: 0 <= i < |w| ==> !IsSpace(w[i])
  }

  /** The suffix of `s` left after its leading separators. */
  function SkipSpaces(s: string): (r: string)
    ensures |r| <= |s|
    ensures r == [] || !IsSpace(r[0])
    ensures forall i :: 0 <= i < |s| - |r| ==> IsSpace(s[i])
  {
    if s != [] && IsSpace(s[0]) then SkipSpaces(s[1..]) else s
  }

  lemma {:induction false} SkipSpacesIsSuffix(s: string)
    ensures SkipSpaces(s) == s[|s| - |SkipSpaces(s)|..]
    decreases |s|
  {
    if s != [] && IsSpace(s[0]) {
      SkipSpacesIsSuffix(s[1..]);
      assert s[1..][|s| - 1 - |SkipSpaces(s)|..] == s[|s| - |SkipSpaces(s)|..];
    }
  }

  /** The length of the run of non-separators that `s` starts with. */
  function WordLength(s: string): (n: nat)
    ensures n <= |s|
    ensures forall i :: 0 <= i < n ==> !IsSpace(s[i])
    ensures n == |s| || IsSpace(s[n])
  {
    if s == [] || IsSpace(s[0]) then 0 else 1 + WordLength(s[1..])
  }

  /** `s.split()`: the maximal runs of non-separators, left to right. */
  function Split(s: string): (terms: seq<string>)
    ensures forall k :: 0 <= k < |terms| ==> IsWord(terms[k])
    decreases |s|
  {
    var t := SkipSpaces(s);
    if t == [] then []
    else
      var n := WordLength(t);
      [t[..n]] + Split(t[n..])
  }

  /** The characters of `s` that are not separators, in order. */
  function NonSpaces(s: string): string {
    if s == [] then []
    else if IsSpace(s[0]) then NonSpaces(s[1..])
    else [s[0]] + NonSpaces(s[1..])
  }

  function Concat(ws: seq<string>): string {
    if ws == [] then [] else ws[0] + Concat(ws[1..])
  }

  lemma {:induction false} NonSpacesSkipsSpaces(s: string)
    ensures NonSpaces(SkipSpaces(s)) == NonSpaces(s)
    decreases |s|
  {
    if s != [] && IsSpace(s[0]) {
      NonSpacesSkipsSpaces(s[1..]);
    }
  }

  lemma {:induction false} NonSpacesOfLeadingWord(t: string)
    ensures NonSpaces(t) == t[..WordLength(t)] + NonSpaces(t[WordLength(t)..])
    decreases |t|
  {
    if t != [] && !IsSpace(t[0]) {
      NonSpacesOfLeadingWord(t[1..]);
      assert t[1..][..WordLength(t[1..])] == t[1..WordLength(t)];
      assert t[1..][WordLength(t[1..])..] == t[WordLength(t)..];
      assert t[..WordLength(t)] == [t[0]] + t[1..WordLength(t)];
    }
  }

  lemma ConcatCons(w: string, ws: seq<string>)
    ensures Concat([w] + ws) == w + Concat(ws)
  {
    assert ([w] + ws)[0] == w;
    assert ([w] + ws)[1..] == ws;
  }

  /** Splitting loses exactly the separators: the terms, put back together,
      are the non-separator characters of the input in their order. */
  lemma {:induction false} SplitKeepsContent(s: string)
    ensures Concat(Split(s)) == NonSpaces(s)
    decreases |s|
  {
    var t := SkipSpaces(s);
    NonSpacesSkipsSpaces(s);
    if t != [] {
      var n := WordLength(t);
      NonSpacesOfLeadingWord(t);
      SplitKeepsContent(t[n..]);
      ConcatCons(t[..n], Split(t[n..]));
    }
  }

  /** `s.split()` is empty exactly when `s` holds separators only. */
  lemma SplitEmptyIffBlank(s: string)
    ensures Split(s) == [] <==> IsBlank(s)
  {
    var t := SkipSpaces(s);
    SkipSpacesIsSuffix(s);
    if t != [] {
      assert s[|s| - |t|] == t[0];
    }
  }

  /** A single word splits to itself. */
  lemma SplitOfWord(w: string)
    requires IsWord(w)
    ensures Split(w) == [w]
  {
    assert SkipSpaces(w) == w;
    var n := WordLength(w);
    assert n == |w|;
    assert w[..n] == w;
    assert w[n..] == [];
    assert SkipSpaces([]) == [];
    assert Split([]) == [];
  }

  /** The empty string has no terms. */
  lemma SplitOfEmpty()
    ensures Split([]) == []
  {
    assert SkipSpaces([]) == [];
  }

  /** A leading separator is dropped. */
  lemma SplitSkipsLeadingSpace(c: char, s: string)
    requires IsSpace(c)
    ensures Split([c] + s) == Split(s)
  {
    assert ([c] + s)[1..] == s;
    assert SkipSpaces([c] + s) == SkipSpaces(s);
  }

  /** A word followed by a separator is read as a whole. */
  lemma {:induction false} WordLengthOfWord(w: string, rest: string)
    requires IsWord(w) && rest != [] && IsSpace(rest[0])
    ensures WordLength(w + rest) == |w|
    decreases |w|
  {
    if |w| > 1 {
      assert (w + rest)[1..] == w[1..] + rest;
      WordLengthOfWord(w[1..], rest);
    } else {
      assert (w + rest)[1..] == rest;
    }
  }

  /** A word followed by a separator becomes the first term, the rest is
      split on its own: with `SplitOfEmpty`, `SplitSkipsLeadingSpace` and
      `SplitOfWord` this fixes `Split` on every string, so its terms are
      the maximal runs of non-separators. */
  lemma SplitOfLeadingWord(w: string, c: char, s: string)
    requires IsWord(w) && IsSpace(c)
    ensures Split(w + [c] + s) == [w] + Split([c] + s)
  {
    var t := w + [c] + s;
    assert t == w + ([c] + s);
    assert SkipSpaces(t) == t;
    WordLengthOfWord(w, [c] + s);
    assert t[..|w|] == w;
    assert t[|w|..] == [c] + s;
  }

  /** `term` occurs in `text` starting at index `i`. */
  predicate OccursAt(text: string, term: string, i: int) {
    0 <= i && i + |term| <= |text| && text[i..i + |term|] == term
  }

  /** Python's `term in text` for strings. */
  function Contains(text: string, term: string): (r: bool)
    ensures r <==> exists i :: OccursAt(text, term, i)
  {
    if |term| > |text| then false
    else if text[..|term|] == term then
      assert OccursAt(text, term, 0);
      true
    else
      var r := Contains(text[1..], term);
      assert r ==> exists i :: OccursAt(text, term, i) by {
        if r {
          var j :| OccursAt(text[1..], term, j);
          assert text[j + 1..j + 1 + |term|] == text[1..][j..j + |term|];
          assert OccursAt(text, term, j + 1);
        }
      }
      assert (exists i :: OccursAt(text, term, i)) ==> r by {
        if exists i :: OccursAt(text, term, i) {
          var j :| OccursAt(text, term, j);
          assert j != 0;
          assert text[1..][j - 1..j - 1 + |term|] == text[j..j + |term|];
          assert OccursAt(text[1..], term, j - 1);
        }
      }
      r
  }

  /** A term found in either half is found in the concatenation. */
  lemma ContainsInAppend(a: string, b: string, term: string)
    requires Contains(a, term) || Contains(b, term)
    ensures Contains(a + b, term)
  {
    if Contains(a, term) {
      var i :| OccursAt(a, term, i);
      assert (a + b)[i..i + |term|] == a[i..i + |term|];
      assert OccursAt(a + b, term, i);
    } else {
      var i :| OccursAt(b, term, i);
      assert (a + b)[|a| + i..|a| + i + |term|] == b[i..i + |term|];
      assert OccursAt(a + b, term, |a| + i);
    }
  }

  /** `sep.join(ws)`: every joined string can be found in the result. */
  function Join(ws: seq<string>, sep: string): (r: string)
    ensures forall k :: 0 <= k < |ws| ==> Contains(r, ws[k])
  {
    if ws == [] then []
    else if |ws| == 1 then
      assert OccursAt(ws[0], ws[0], 0);
      ws[0]
    else
      var rest := Join(ws[1..], sep);
      var r := ws[0] + sep + rest;
      assert forall k :: 0 <= k < |ws| ==> Contains(r, ws[k]) by {
        forall k | 0 <= k < |ws|
          ensures Contains(r, ws[k])
        {
          if k == 0 {
            assert r[..|ws[0]|] == ws[0];
            assert OccursAt(r, ws[0], 0);
          } else {
            assert ws[1..][k - 1] == ws[k];
            ContainsInAppend(ws[0] + sep, rest, ws[k]);
          }
        }
      }
      r
  }

  /** Words joined by a space split back into the same words. */
  lemma {:induction false} SplitJoin(ws: seq<string>)
    requires forall k :: 0 <= k < |ws| ==> IsWord(ws[k])
    ensures Split(Join(ws, " ")) == ws
    decreases |ws|
  {
    if ws == [] {
      SplitOfEmpty();
    } else if |ws| == 1 {
      SplitOfWord(ws[0]);
    } else {
      var rest := Join(ws[1..], " ");
      SplitJoin(ws[1..]);
      SplitOfLeadingWord(ws[0], ' ', rest);
      SplitSkipsLeadingSpace(' ', rest);
      assert ws[0] + " " + rest == ws[0] + [' '] + rest;
      assert ws == [ws[0]] + ws[1..];
    }
  }

  /** Whatever precedes a joined text, each joined string is found in it. */
  lemma JoinedAfter(prefix: string, ws: seq<string>, sep: string)
    ensures forall k :: 0 <= k < |ws| ==> Contains(prefix + Join(ws, sep), ws[k])
  {
    forall k | 0 <= k < |ws|
      ensures Contains(prefix + Join(ws, sep), ws[k])
    {
      ContainsInAppend(prefix, Join(ws, sep), ws[k]);
    }
  }
}
