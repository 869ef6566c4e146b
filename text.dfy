/**
 * The string primitives the quiz engine relies on: `trim()`, `toLowerCase()`
 * and `includes()` of JavaScript strings, restricted to ASCII.
 *
 * `Includes` is the executable substring search; `Contains` is its
 * specification (some position where the needle occurs), and the contract of
 * `Includes` ties the two together.
 */
module Text {

  /** The ASCII characters that `String.prototype.trim` strips. */
  predicate IsSpace(c: char) {
    c == ' ' || c == '\t' || c == '\n' || c == '\r' || c == '\U{0B}' || c == '\U{0C}'
  }

  predicate IsUpper(c: char) {
    'A' <= c <= 'Z'
  }

  /** ASCII case folding of one character; everything else is left alone. */
  function LowerChar(c: char): char {
    if IsUpper(c) then (c as int + 32) as char else c
  }

  /** `toLowerCase()`: every upper-case letter is folded, nothing else moves. */
  function ToLower(s: string): (r: string)
    ensures |r| == |s|
    ensures forall i :: 0 <= i < |s| ==> r[i] == LowerChar(s[i])
    ensures forall i :: 0 <= i < |r| ==> !IsUpper(r[i])
  {
    if s == [] then [] else [LowerChar(s[0])] + ToLower(s[1..])
  }

  /** Number of whitespace characters at the front of `s`. */
  function LeadingSpaces(s: string): (n: nat)
    ensures n <= |s|
    ensures forall i :: 0 <= i < n ==> IsSpace(s[i])
    ensures n < |s| ==> !IsSpace(s[n])
  {
    if s != [] && IsSpace(s[0]) then 1 + LeadingSpaces(s[1..]) else 0
  }

  /** Number of whitespace characters at the back of `s`. */
  function TrailingSpaces(s: string): (n: nat)
    ensures n <= |s|
    ensures forall i :: |s| - n <= i < |s| ==> IsSpace(s[i])
    ensures n < |s| ==> !IsSpace(s[|s| - n - 1])
  {
    if s != [] && IsSpace(s[|s| - 1]) then 1 + TrailingSpaces(s[..|s| - 1]) else 0
  }

  /** Everything of `s` before position `a` and from position `b` on is whitespace. */
  ghost predicate BlankOutside(s: string, a: int, b: int) {
    0 <= a <= b <= |s|
    && (forall i :: 0 <= i < a ==> IsSpace(s[i]))
    && (forall i :: b <= i < |s| ==> IsSpace(s[i]))
  }

  /** `trim()`: the slice of `s` between its leading and trailing whitespace. */
  function Trim(s: string): (r: string)
    ensures r == [] || (!IsSpace(r[0]) && !IsSpace(r[|r| - 1]))
    ensures |r| <= |s|
  {
    var t := s[LeadingSpaces(s)..];
    t[..|t| - TrailingSpaces(t)]
  }

  /** `sub` occurs in `s` starting at index `i`. */
  ghost predicate OccursAt(s: string, sub: string, i: int) {
    0 <= i && i + |sub| <= |s| && s[i..i + |sub|] == sub
  }

  /** `sub` occurs somewhere in `s`. */
  ghost predicate Contains(s: string, sub: string) {
    exists i :: OccursAt(s, sub, i)
  }

  /** `s.includes(sub)`: try each start position from the left. */
  function Includes(s: string, sub: string): (b: bool)
    ensures b <==> Contains(s, sub)
    decreases |s|
  {
    if |sub| > |s| then
      false
    else if s[..|sub|] == sub then
      assert OccursAt(s, sub, 0);
      true
    else
      ContainsShift(s, sub);
      Includes(s[1..], sub)
  }

  /** When `sub` does not start `s`, it occurs in `s` exactly when it occurs in `s[1..]`. */
  lemma ContainsShift(s: string, sub: string)
    requires |sub| <= |s| && s[..|sub|] != sub
    ensures |s| > 0
    ensures Contains(s, sub) <==> Contains(s[1..], sub)
  {
    if Contains(s, sub) {
      var i :| OccursAt(s, sub, i);
      assert i != 0;
      assert s[1..][i - 1..i - 1 + |sub|] == s[i..i + |sub|];
      assert OccursAt(s[1..], sub, i - 1);
    }
    if Contains(s[1..], sub) {
      var i :| OccursAt(s[1..], sub, i);
      assert s[1..][i..i + |sub|] == s[i + 1..i + 1 + |sub|];
      assert OccursAt(s, sub, i + 1);
    }
  }

  /** Some key of `keys` occurs in `s`. */
  ghost predicate ContainsAny(s: string, keys: seq<string>) {
    exists k :: k in keys && Contains(s, k)
  }

  /** `keys.some(k => s.includes(k))`. */
  function IncludesAny(s: string, keys: seq<string>): (b: bool)
    ensures b <==> ContainsAny(s, keys)
  {
    if keys == [] then
      false
    else
      assert forall k :: k in keys <==> k == keys[0] || k in keys[1..];
      Includes(s, keys[0]) || IncludesAny(s, keys[1..])
  }

  /** Folding a folded string changes nothing. */
  lemma {:induction false} ToLowerIdempotent(s: string)
    ensures ToLower(ToLower(s)) == ToLower(s)
  {
    var r := ToLower(s);
    forall i | 0 <= i < |r| ensures ToLower(r)[i] == r[i] {
      assert !IsUpper(r[i]);
    }
  }

  /** Case folding never turns a character into whitespace or back. */
  lemma LowerKeepsSpace(c: char)
    ensures IsSpace(LowerChar(c)) == IsSpace(c)
  {
  }

  /** Folding commutes with slicing. */
  lemma {:induction false} ToLowerSlice(s: string, a: nat, b: nat)
    requires a <= b <= |s|
    ensures ToLower(s)[a..b] == ToLower(s[a..b])
  {
    assert forall i :: 0 <= i < b - a ==> ToLower(s)[a..b][i] == LowerChar(s[a + i]);
  }

  /** Two strings with whitespace at the same places have the same leading and trailing runs. */
  lemma {:induction false} SameSpacesSameRuns(s: string, t: string)
    requires |s| == |t| && forall i :: 0 <= i < |s| ==> IsSpace(s[i]) == IsSpace(t[i])
    ensures LeadingSpaces(s) == LeadingSpaces(t) && TrailingSpaces(s) == TrailingSpaces(t)
  {
  }

  /** Case folding moves no whitespace, so the leading and trailing runs keep their lengths. */
  lemma {:induction false} FoldedRuns(s: string)
    ensures LeadingSpaces(ToLower(s)) == LeadingSpaces(s)
    ensures TrailingSpaces(ToLower(s)) == TrailingSpaces(s)
  {
    var l := ToLower(s);
    forall i | 0 <= i < |s| ensures IsSpace(s[i]) == IsSpace(l[i]) {
      LowerKeepsSpace(s[i]);
    }
    SameSpacesSameRuns(s, l);
  }

  /** Trimming and case folding can be done in either order. */
  lemma {:induction false} TrimToLowerCommute(s: string)
    ensures Trim(ToLower(s)) == ToLower(Trim(s))
  {
    var a := LeadingSpaces(s);
    var t := s[a..];
    var b := TrailingSpaces(t);
    var lt := ToLower(s)[a..];
    assert LeadingSpaces(ToLower(s)) == a by { FoldedRuns(s); }
    assert lt == ToLower(t) by { ToLowerSlice(s, a, |s|); }
    assert TrailingSpaces(lt) == b by { FoldedRuns(t); }
    assert lt[..|lt| - b] == ToLower(t[..|t| - b]) by { ToLowerSlice(t, 0, |t| - b); }
  }

  /** `Trim(s)` is the slice `s[a..b]`, with only whitespace outside it. */
  lemma TrimBounds(s: string) returns (a: nat, b: nat)
    ensures BlankOutside(s, a, b) && Trim(s) == s[a..b]
  {
    a := LeadingSpaces(s);
    var t := s[a..];
    b := |s| - TrailingSpaces(t);
    forall i | b <= i < |s| ensures IsSpace(s[i]) {
      assert s[i] == t[i - a];
    }
  }

  /** A non-empty string that neither starts nor ends with whitespace. */
  predicate IsNeedle(k: string) {
    |k| > 0 && !IsSpace(k[0]) && !IsSpace(k[|k| - 1])
  }

  /** A slice of a slice is a slice of the original. */
  lemma {:induction false} SliceOfSlice(s: string, a: nat, b: nat, c: nat, d: nat)
    requires a <= b <= |s| && c <= d <= b - a
    ensures s[a..b][c..d] == s[a + c..a + d]
  {
    assert forall p :: 0 <= p < d - c ==> s[a..b][c..d][p] == s[a + c + p];
  }

  /** An occurrence inside the trimmed text is an occurrence in the whole text. */
  lemma {:induction false} TrimmedOccurrenceLifts(s: string, k: string)
    requires Contains(Trim(s), k)
    ensures Contains(s, k)
  {
    var a, b := TrimBounds(s);
    var i :| OccursAt(Trim(s), k, i);
    SliceOfSlice(s, a, b, i, i + |k|);
    assert OccursAt(s, k, a + i);
  }

  /** A needle's occurrence lies inside the trimmed text, since it neither starts nor ends with whitespace. */
  lemma {:induction false} NeedleStaysInTrim(s: string, k: string)
    requires IsNeedle(k) && Contains(s, k)
    ensures Contains(Trim(s), k)
  {
    var a, b := TrimBounds(s);
    var i :| OccursAt(s, k, i);
    assert a <= i by { assert s[i] == k[0]; }
    assert i + |k| <= b by { assert s[i + |k| - 1] == k[|k| - 1]; }
    assert Trim(s)[i - a..i - a + |k|] == k by { SliceOfSlice(s, a, b, i - a, i - a + |k|); }
    assert OccursAt(Trim(s), k, i - a);
  }

  /** Trimming cannot destroy or create an occurrence of a needle. */
  lemma {:induction false} TrimKeepsNeedle(s: string, k: string)
    requires IsNeedle(k)
    ensures Contains(Trim(s), k) <==> Contains(s, k)
  {
    if Contains(Trim(s), k) {
      TrimmedOccurrenceLifts(s, k);
    }
    if Contains(s, k) {
      NeedleStaysInTrim(s, k);
    }
  }

  /** A needle holding a character that `s` lacks cannot occur in `s`. */
  lemma MissingCharExcludes(s: string, k: string, c: char)
    requires c in k && c !in s
    ensures !Contains(s, k)
  {
  }

  /** A needle placed between any two strings occurs in the result. */
  lemma ContainsInfix(a: string, k: string, b: string)
    ensures Contains(a + k + b, k)
  {
    assert (a + k + b)[|a|..|a| + |k|] == k;
    assert OccursAt(a + k + b, k, |a|);
  }

  /** Folding distributes over concatenation. */
  lemma ToLowerConcat(a: string, b: string)
    ensures ToLower(a + b) == ToLower(a) + ToLower(b)
  {
  }

  /** A string without upper-case letters is its own folding. */
  lemma ToLowerFixed(s: string)
    requires forall c :: c in s ==> !IsUpper(c)
    ensures ToLower(s) == s
  {
    assert forall i :: 0 <= i < |s| ==> s[i] in s;
  }

  /**
   * A needle holding a lower-case letter that `s` lacks in both cases cannot
   * occur in the folding of `s`.
   */
  lemma FoldedMissingLetterExcludes(s: string, k: string, c: char)
    requires 'a' <= c <= 'z' && c in k
    requires c !in s && (c as int - 32) as char !in s
    ensures !Contains(ToLower(s), k)
  {
    assert c !in ToLower(s);
    MissingCharExcludes(ToLower(s), k, c);
  }
}
