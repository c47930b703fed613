/**
  The string operations the app relies on: Foundation's `range(of:)` (first
  occurrence of a substring), `replacingOccurrences(of:with:)` for one
  character, and `components(separatedBy:)`. Strings are sequences of
  characters; grapheme clustering and locale-aware comparison are not modelled.
 */
module Text {
  import opened Wrappers

  /** `pat` occurs in `s` starting at index `i`. */
  predicate OccursAt(s: string, pat: string, i: nat) {
    i + |pat| <= |s| && s[i..i + |pat|] == pat
  }

  /** `pat` occurs somewhere in `s`. */
  ghost predicate Occurs(s: string, pat: string) {
    exists i: nat :: OccursAt(s, pat, i)
  }

  /** `i` is where the first occurrence of the non-empty `pat` starts in `s`. */
  ghost predicate IsFirstOccurrence(s: string, pat: string, i: nat) {
    |pat| > 0 && OccursAt(s, pat, i) && forall j: nat :: j < i ==> !OccursAt(s, pat, j)
  }

  /** Search for `pat` in `s` from index `i` onwards. */
  function IndexFrom(s: string, pat: string, i: nat): Option<nat>
    requires |pat| > 0
    decreases |s| - i
  {
    if i + |pat| > |s| then None
    else if s[i..i + |pat|] == pat then Some(i)
    else IndexFrom(s, pat, i + 1)
  }

  /** The search from `i` finds the first occurrence at or after `i`, if there is one. */
  lemma {:induction false} IndexFromMeaning(s: string, pat: string, i: nat)
    requires |pat| > 0
    ensures IndexFrom(s, pat, i).Some? ==>
      var k := IndexFrom(s, pat, i).value;
      i <= k && OccursAt(s, pat, k) && forall j: nat :: i <= j < k ==> !OccursAt(s, pat, j)
    ensures IndexFrom(s, pat, i).None? ==> forall j: nat :: i <= j ==> !OccursAt(s, pat, j)
    decreases |s| - i
  {
    if i + |pat| <= |s| && s[i..i + |pat|] != pat {
      IndexFromMeaning(s, pat, i + 1);
    }
  }

  /** `s.range(of: pat)?.lowerBound`: where the first occurrence of `pat` starts. */
  function IndexOf(s: string, pat: string): Option<nat> {
    if |pat| == 0 then None else IndexFrom(s, pat, 0)
  }

  /** A match is found exactly when the pattern is non-empty and occurs (like Foundation, an
      empty pattern is never found), and it is the first occurrence. */
  lemma IndexOfMeaning(s: string, pat: string)
    ensures IndexOf(s, pat).Some? <==> |pat| > 0 && Occurs(s, pat)
    ensures IndexOf(s, pat).Some? ==> IsFirstOccurrence(s, pat, IndexOf(s, pat).value)
  {
    if |pat| > 0 {
      IndexFromMeaning(s, pat, 0);
      if IndexOf(s, pat).None? {
        assert !Occurs(s, pat);
      }
    }
  }

  /** `s.replacingOccurrences(of: [from], with: [to])`. */
  function ReplaceChar(s: string, from: char, to: char): (r: string)
    ensures |r| == |s|
    ensures forall i :: 0 <= i < |s| ==> r[i] == (if s[i] == from then to else s[i])
    ensures from != to ==> forall i :: 0 <= i < |r| ==> r[i] != from
  {
    if s == [] then []
    else [if s[0] == from then to else s[0]] + ReplaceChar(s[1..], from, to)
  }

  /** `s.components(separatedBy: sep)`: the pieces of `s` between occurrences of `sep`,
      found left to right. */
  function Split(s: string, sep: string): (r: seq<string>)
    ensures |r| >= 1
    decreases |s|
  {
    IndexOfMeaning(s, sep);
    match IndexOf(s, sep)
    case None => [s]
    case Some(i) => [s[..i]] + Split(s[i + |sep|..], sep)
  }

  /** The text before the first occurrence of `pat` does not contain `pat`. */
  lemma PrefixBeforeFirstFree(s: string, pat: string, i: nat)
    requires IsFirstOccurrence(s, pat, i)
    ensures !Occurs(s[..i], pat)
  {
    forall j: nat ensures !OccursAt(s[..i], pat, j) {
      if j + |pat| <= i {
        assert s[..i][j..j + |pat|] == s[j..j + |pat|];
        assert j < i;
        assert !OccursAt(s, pat, j);
      }
    }
  }

  /** No piece of a split contains the (non-empty) separator. */
  lemma {:induction false} SplitPiecesFree(s: string, sep: string)
    requires |sep| > 0
    ensures forall k :: 0 <= k < |Split(s, sep)| ==> !Occurs(Split(s, sep)[k], sep)
    decreases |s|
  {
    var r := IndexOf(s, sep);
    IndexOfMeaning(s, sep);
    if r.Some? {
      var i := r.value;
      var rest := s[i + |sep|..];
      SplitUnfold(s, sep, i);
      SplitPiecesFree(rest, sep);
      PrefixBeforeFirstFree(s, sep, i);
    }
  }

  /** The pieces glued back together with `sep` between neighbours. */
  function Join(parts: seq<string>, sep: string): string {
    if parts == [] then ""
    else if |parts| == 1 then parts[0]
    else parts[0] + sep + Join(parts[1..], sep)
  }

  /** Splitting loses nothing: joining the pieces with the separator gives back the text. */
  lemma {:induction false} JoinSplit(s: string, sep: string)
    ensures Join(Split(s, sep), sep) == s
    decreases |s|
  {
    var r := IndexOf(s, sep);
    IndexOfMeaning(s, sep);
    if r.Some? {
      var i := r.value;
      var piece, rest := s[..i], s[i + |sep|..];
      SplitUnfold(s, sep, i);
      JoinSplit(rest, sep);
      JoinCons(piece, Split(rest, sep), sep);
      GlueAround(s, sep, i);
    }
  }

  lemma SplitUnfold(s: string, sep: string, i: nat)
    requires IndexOf(s, sep) == Some(i)
    ensures OccursAt(s, sep, i)
    ensures Split(s, sep) == [s[..i]] + Split(s[i + |sep|..], sep)
  {
    IndexOfMeaning(s, sep);
  }

  lemma GlueAround(s: string, sep: string, i: nat)
    requires OccursAt(s, sep, i)
    ensures s[..i] + sep + s[i + |sep|..] == s
  {
  }

  lemma JoinCons(first: string, parts: seq<string>, sep: string)
    requires |parts| >= 1
    ensures Join([first] + parts, sep) == first + sep + Join(parts, sep)
  {
    assert ([first] + parts)[1..] == parts;
  }

  /** `extractValue(from:startMarker:endMarker:)`: the text between the end of the first
      `startMarker` and the first `endMarker` after it, if both are there. */
  function ExtractValue(text: string, startMarker: string, endMarker: string): (r: Option<string>)
    ensures !(|startMarker| > 0 && Occurs(text, startMarker)) ==> r.None?
    ensures r.Some? ==> !Occurs(r.value, endMarker)
  {
    IndexOfMeaning(text, startMarker);
    match IndexOf(text, startMarker)
    case None => None
    case Some(i) =>
      var after := text[i + |startMarker|..];
      IndexOfMeaning(after, endMarker);
      match IndexOf(after, endMarker)
      case None => None
      case Some(j) =>
        PrefixBeforeFirstFree(after, endMarker, j);
        Some(after[..j])
  }

  /** Where the first `startMarker` ends at `from`, the value is found exactly when `endMarker`
      occurs in the rest, and it is what precedes that rest's first `endMarker`. */
  lemma ExtractValueAfterStart(text: string, startMarker: string, endMarker: string, i: nat)
    requires IsFirstOccurrence(text, startMarker, i)
    ensures ExtractValue(text, startMarker, endMarker).Some?
      <==> |endMarker| > 0 && Occurs(text[i + |startMarker|..], endMarker)
    ensures ExtractValue(text, startMarker, endMarker).Some? ==>
      var v := ExtractValue(text, startMarker, endMarker).value;
      var after := text[i + |startMarker|..];
      |v| <= |after| && after[..|v|] == v && IsFirstOccurrence(after, endMarker, |v|)
  {
    IndexOfMeaning(text, startMarker);
    var k := IndexOf(text, startMarker);
    assert k.Some?;
    assert k.value == i;
    IndexOfMeaning(text[i + |startMarker|..], endMarker);
  }
}
