/** The string operations the operator takes from Go's standard library. */
module Text {
  import opened Wrappers

  /** White space as Go's `unicode.IsSpace` defines it. */
  predicate IsSpace(c: char) {
    || '\t' <= c <= '\r' || c == ' ' || c == '\U{85}' || c == '\U{A0}'
    || c == '\U{1680}' || '\U{2000}' <= c <= '\U{200A}' || c == '\U{2028}' || c == '\U{2029}'
    || c == '\U{202F}' || c == '\U{205F}' || c == '\U{3000}'
  }

  /** The first position from `i` on whose character is not cut. */
  function Skip(s: string, cut: char -> bool, i: nat): (r: nat)
    requires i <= |s|
    ensures i <= r <= |s|
    decreases |s| - i
  {
    if i < |s| && cut(s[i]) then Skip(s, cut, i + 1) else i
  }

  /** The end of what remains of the first `j` characters when cut characters at the end go. */
  function SkipBack(s: string, cut: char -> bool, j: nat): (r: nat)
    requires j <= |s|
    ensures r <= j
  {
    if j > 0 && cut(s[j - 1]) then SkipBack(s, cut, j - 1) else j
  }

  function TrimRight(s: string, cut: char -> bool): string {
    s[..SkipBack(s, cut, |s|)]
  }

  /** Go's `strings.Trim` and its relatives, for a set of characters to cut at both ends. */
  function Trim(s: string, cut: char -> bool): string {
    var lo, hi := Skip(s, cut, 0), SkipBack(s, cut, |s|);
    if lo < hi then s[lo..hi] else ""
  }

  /** Go's `strings.TrimSpace`. */
  function TrimSpace(s: string): string {
    Trim(s, IsSpace)
  }

  predicate IsTrimmed(s: string, cut: char -> bool) {
    s != [] ==> !cut(s[0]) && !cut(s[|s| - 1])
  }

  lemma {:induction false} SkipStops(s: string, cut: char -> bool, i: nat)
    requires i <= |s|
    ensures var r := Skip(s, cut, i); (r < |s| ==> !cut(s[r])) && forall j | i <= j < r :: cut(s[j])
    decreases |s| - i
  {
    if i < |s| && cut(s[i]) {
      SkipStops(s, cut, i + 1);
    }
  }

  lemma {:induction false} SkipBackStops(s: string, cut: char -> bool, j: nat)
    requires j <= |s|
    ensures var r := SkipBack(s, cut, j); (r > 0 ==> !cut(s[r - 1])) && forall i | r <= i < j :: cut(s[i])
  {
    if j > 0 && cut(s[j - 1]) {
      SkipBackStops(s, cut, j - 1);
    }
  }

  /**
   Trimming returns the part of the text between its first and last character that is not cut, and the
   empty text if there is none.
   */
  lemma TrimIsPart(s: string, cut: char -> bool) returns (lo: nat, hi: nat)
    ensures lo <= hi <= |s| && Trim(s, cut) == s[lo..hi]
    ensures IsTrimmed(s[lo..hi], cut)
    ensures forall i | 0 <= i < |s| && !(lo <= i < hi) :: cut(s[i])
  {
    lo, hi := Skip(s, cut, 0), SkipBack(s, cut, |s|);
    SkipStops(s, cut, 0);
    SkipBackStops(s, cut, |s|);
    if lo >= hi {
      lo, hi := 0, 0;
    }
  }

  /** Trimming leaves no cut character at either end, and a trimmed text is a fixed point. */
  lemma TrimIsTrimmed(s: string, cut: char -> bool)
    ensures IsTrimmed(Trim(s, cut), cut)
    ensures IsTrimmed(s, cut) ==> Trim(s, cut) == s
  {
    var lo, hi := TrimIsPart(s, cut);
    if s != [] && IsTrimmed(s, cut) {
      assert lo == 0 && hi == |s|;
    }
  }

  function LowerChar(c: char): char {
    if 'A' <= c <= 'Z' then c - 'A' + 'a' else c
  }

  /** `strings.ToLower` on ASCII text. */
  function ToLower(s: string): (r: string)
    ensures |r| == |s|
    ensures forall i | 0 <= i < |s| :: r[i] == LowerChar(s[i])
  {
    seq(|s|, i requires 0 <= i < |s| => LowerChar(s[i]))
  }

  predicate IsLower(s: string) {
    forall c | c in s :: !('A' <= c <= 'Z')
  }

  lemma LowerIsFixed(s: string)
    requires IsLower(s)
    ensures ToLower(s) == s
  {
    forall i | 0 <= i < |s|
      ensures LowerChar(s[i]) == s[i]
    {
      assert s[i] in s;
    }
  }

  lemma LoweredIsLower(s: string)
    ensures IsLower(ToLower(s))
  {
    forall c | c in ToLower(s)
      ensures !('A' <= c <= 'Z')
    {
      var i :| 0 <= i < |s| && ToLower(s)[i] == c;
    }
  }

  /** A text without capitals or outer white space survives lower-casing after trimming. */
  lemma NormalFormIsFixed(s: string)
    requires IsLower(s) && IsTrimmed(s, IsSpace)
    ensures ToLower(TrimSpace(s)) == s
  {
    TrimIsTrimmed(s, IsSpace);
    LowerIsFixed(s);
  }

  /** `strings.EqualFold` on ASCII text. */
  predicate EqualFold(a: string, b: string) {
    ToLower(a) == ToLower(b)
  }

  predicate OccursAt(s: string, sep: string, i: int) {
    0 <= i && i + |sep| <= |s| && s[i..i + |sep|] == sep
  }

  /** `strings.Index`: the first place where `sep` occurs. */
  function Index(s: string, sep: string): (r: Option<nat>)
    ensures r.Some? ==> OccursAt(s, sep, r.value) && forall i | 0 <= i < r.value :: !OccursAt(s, sep, i)
    ensures r.None? ==> forall i :: !OccursAt(s, sep, i)
  {
    IndexFrom(s, sep, 0)
  }

  function IndexFrom(s: string, sep: string, from: nat): (r: Option<nat>)
    requires from <= |s| + 1
    requires forall i | 0 <= i < from :: !OccursAt(s, sep, i)
    ensures r.Some? ==> OccursAt(s, sep, r.value) && forall i | 0 <= i < r.value :: !OccursAt(s, sep, i)
    ensures r.None? ==> forall i :: !OccursAt(s, sep, i)
    decreases |s| + 1 - from
  {
    if from + |sep| > |s| then None
    else if OccursAt(s, sep, from) then Some(from)
    else IndexFrom(s, sep, from + 1)
  }

  /** What `strings.Cut` returns. */
  datatype Pieces = Pieces(before: string, after: string, found: bool)

  function Cut(s: string, sep: string): Pieces {
    match Index(s, sep)
    case Some(i) => Pieces(s[..i], s[i + |sep|..], true)
    case None => Pieces(s, "", false)
  }

  lemma OccurrenceStarts(s: string, sep: string, i: int)
    requires sep != []
    ensures OccursAt(s, sep, i) ==> s[i] == sep[0] && s[i] in s
  {
    assert OccursAt(s, sep, i) ==> s[i] == s[i..i + |sep|][0];
  }

  /** Cutting at a separator whose first character is foreign to the head gives back head and tail. */
  lemma CutConcat(head: string, sep: string, tail: string)
    requires sep != [] && sep[0] !in head
    ensures Cut(head + sep + tail, sep) == Pieces(head, tail, true)
  {
    var s := head + sep + tail;
    assert OccursAt(s, sep, |head|);
    forall i | 0 <= i < |head|
      ensures !OccursAt(s, sep, i)
    {
      assert s[i] == head[i] && head[i] in head;
      OccurrenceStarts(s, sep, i);
    }
    assert Index(s, sep) == Some(|head|);
    assert s[..|head|] == head;
    assert s[|head| + |sep|..] == tail;
  }

  /** A text without the separator's first character is not cut. */
  lemma CutAbsent(s: string, sep: string)
    requires sep != [] && sep[0] !in s
    ensures Cut(s, sep) == Pieces(s, "", false)
  {
    forall i
      ensures !OccursAt(s, sep, i)
    {
      OccurrenceStarts(s, sep, i);
    }
  }

  /** The head of a cut at a single character is free of that character. */
  lemma CutHeadIsFree(s: string, sep: string)
    requires |sep| == 1
    ensures sep[0] !in Cut(s, sep).before
  {
    var head := Cut(s, sep).before;
    forall i | 0 <= i < |head|
      ensures head[i] != sep[0]
    {
      assert !OccursAt(s, sep, i);
      assert s[i..i + 1] == [s[i]];
    }
  }

  /** `strings.Contains`. */
  predicate Contains(s: string, sep: string) {
    Index(s, sep).Some?
  }
}
