/**
 * The four answer checks of the cookie quiz. Each free-text answer is first
 * normalised (trimmed, then lower-cased) and then tested only by substring
 * containment, combined with `&&`, `||` and "any of these keys".
 *
 * Each check's contract states its verdict in terms of the specification
 * predicate `Contains`; the lemmas below show that letter case and
 * surrounding whitespace never change a verdict, and replay the worked
 * examples of the quiz.
 */
module Validators {
  import opened Text

  /** `value.trim().toLowerCase()`. */
  function Normalize(raw: string): (a: string)
    ensures |a| <= |raw|
    ensures forall i :: 0 <= i < |a| ==> !IsUpper(a[i])
    ensures a == [] || (!IsSpace(a[0]) && !IsSpace(a[|a| - 1]))
  {
    var t := Trim(raw);
    forall i | 0 <= i < |t| ensures IsSpace(LowerChar(t[i])) == IsSpace(t[i]) {
      LowerKeepsSpace(t[i]);
    }
    ToLower(t)
  }

  /**
   * What `Normalize` returns: the answer between its leading and trailing
   * whitespace, lower-cased.
   */
  lemma {:induction false} NormalizeBounds(raw: string) returns (i: nat, j: nat)
    ensures BlankOutside(raw, i, j) && Normalize(raw) == ToLower(raw[i..j])
  {
    i, j := TrimBounds(raw);
  }

  /** The clue words of mission 3, any one of which must appear. */
  const Q3Keys: seq<string> := ["behind the counter", "cleaning", "couldn't see", "could not see", "lying"]

  /** The clue words of mission 4, any one of which must appear in the reason. */
  const Q4Keys: seq<string> := ["lisa", "lying", "behind the counter", "couldn't see", "could not see", "to blame"]

  /** The only suspect value mission 4 accepts, compared exactly. */
  const Culprit: string := "Lisa"

  /** What mission 1 demands of the normalised answer: three phrases, anywhere, in any order. */
  ghost predicate Q1Accepts(a: string) {
    Contains(a, "it was") && Contains(a, "the delivery boy") && Contains(a, "that")
  }

  /** What mission 2 demands of the normalised answer. */
  ghost predicate Q2Accepts(a: string) {
    Contains(a, "it was") && (Contains(a, "the new cashier") || Contains(a, "lisa")) && Contains(a, "that")
  }

  /** What mission 3 demands of the normalised answer. */
  ghost predicate Q3Accepts(a: string) {
    Contains(a, "lisa") && ContainsAny(a, Q3Keys)
  }

  /** What mission 4 demands of the normalised reason. */
  ghost predicate Q4ReasonAccepts(a: string) {
    Contains(a, "it was") && Contains(a, "that") && ContainsAny(a, Q4Keys)
  }

  /** Mission 1: "It was the delivery boy that ...". */
  function CheckQ1(answer: string): (ok: bool)
    ensures ok <==> Q1Accepts(Normalize(answer))
  {
    var a := Normalize(answer);
    Includes(a, "it was") && Includes(a, "the delivery boy") && Includes(a, "that")
  }

  /** Mission 2: "It was the new cashier / Lisa that ...". */
  function CheckQ2(answer: string): (ok: bool)
    ensures ok <==> Q2Accepts(Normalize(answer))
  {
    var a := Normalize(answer);
    Includes(a, "it was") && (Includes(a, "the new cashier") || Includes(a, "lisa")) && Includes(a, "that")
  }

  /** Mission 3: names Lisa and at least one clue about where she stood. */
  function CheckQ3(answer: string): (ok: bool)
    ensures ok <==> Q3Accepts(Normalize(answer))
  {
    var a := Normalize(answer);
    var clue := IncludesAny(a, Q3Keys);
    Includes(a, "lisa") && clue
  }

  /**
   * Mission 4: the suspect must be exactly "Lisa" (neither trimmed nor
   * lower-cased), and the reason must read "It was ... that ..." with one of
   * the clue words.
   */
  function CheckQ4(suspect: string, reason: string): (ok: bool)
    ensures ok <==> suspect == Culprit && Q4ReasonAccepts(Normalize(reason))
  {
    var a := Normalize(reason);
    var clue := IncludesAny(a, Q4Keys);
    suspect == Culprit && Includes(a, "it was") && Includes(a, "that") && clue
  }

  /** Two answers that differ only in letter case normalise alike. */
  lemma {:induction false} NormalizeIgnoresCase(s: string, t: string)
    requires ToLower(s) == ToLower(t)
    ensures Normalize(s) == Normalize(t)
  {
    TrimToLowerCommute(s);
    TrimToLowerCommute(t);
  }

  /** No verdict changes when only the letter case of the answers changes. */
  lemma {:induction false} VerdictsIgnoreCase(s: string, t: string, suspect: string)
    requires ToLower(s) == ToLower(t)
    ensures CheckQ1(s) == CheckQ1(t)
    ensures CheckQ2(s) == CheckQ2(t)
    ensures CheckQ3(s) == CheckQ3(t)
    ensures CheckQ4(suspect, s) == CheckQ4(suspect, t)
  {
    NormalizeIgnoresCase(s, t);
  }

  /** Lower-casing an answer before it is checked changes no verdict. */
  lemma {:induction false} VerdictsOfLowered(s: string, suspect: string)
    ensures CheckQ1(ToLower(s)) == CheckQ1(s)
    ensures CheckQ2(ToLower(s)) == CheckQ2(s)
    ensures CheckQ3(ToLower(s)) == CheckQ3(s)
    ensures CheckQ4(suspect, ToLower(s)) == CheckQ4(suspect, s)
  {
    ToLowerIdempotent(s);
    VerdictsIgnoreCase(ToLower(s), s, suspect);
  }

  /** Contains in the normalised answer is contains in the lower-cased raw answer. */
  lemma {:induction false} NeedleIgnoresTrim(raw: string, k: string)
    requires IsNeedle(k)
    ensures Contains(Normalize(raw), k) <==> Contains(ToLower(raw), k)
  {
    TrimToLowerCommute(raw);
    TrimKeepsNeedle(ToLower(raw), k);
  }

  /** Every clue word is a needle that trimming cannot cut into. */
  lemma {:induction false} KeysAreNeedles()
    ensures forall k :: k in Q3Keys ==> IsNeedle(k)
    ensures forall k :: k in Q4Keys ==> IsNeedle(k)
  {
  }

  /** Any key of `keys` occurs in the normalised answer iff one occurs in the lower-cased raw answer. */
  lemma {:induction false} KeysIgnoreTrim(raw: string, keys: seq<string>)
    requires forall k :: k in keys ==> IsNeedle(k)
    ensures ContainsAny(Normalize(raw), keys) <==> ContainsAny(ToLower(raw), keys)
  {
    forall k | k in keys ensures Contains(Normalize(raw), k) <==> Contains(ToLower(raw), k) {
      NeedleIgnoresTrim(raw, k);
    }
  }

  /** Mission 1's verdict does not depend on surrounding whitespace: trimming is redundant. */
  lemma {:induction false} CheckQ1Untrimmed(answer: string)
    ensures CheckQ1(answer) <==> Q1Accepts(ToLower(answer))
  {
    NeedleIgnoresTrim(answer, "it was");
    NeedleIgnoresTrim(answer, "the delivery boy");
    NeedleIgnoresTrim(answer, "that");
  }

  /** Mission 2's verdict does not depend on surrounding whitespace. */
  lemma {:induction false} CheckQ2Untrimmed(answer: string)
    ensures CheckQ2(answer) <==> Q2Accepts(ToLower(answer))
  {
    NeedleIgnoresTrim(answer, "it was");
    NeedleIgnoresTrim(answer, "the new cashier");
    NeedleIgnoresTrim(answer, "lisa");
    NeedleIgnoresTrim(answer, "that");
  }

  /** Mission 3's verdict does not depend on surrounding whitespace. */
  lemma {:induction false} CheckQ3Untrimmed(answer: string)
    ensures CheckQ3(answer) <==> Q3Accepts(ToLower(answer))
  {
    var n, l := Normalize(answer), ToLower(answer);
    assert Contains(n, "lisa") <==> Contains(l, "lisa") by {
      NeedleIgnoresTrim(answer, "lisa");
    }
    assert ContainsAny(n, Q3Keys) <==> ContainsAny(l, Q3Keys) by {
      KeysAreNeedles();
      KeysIgnoreTrim(answer, Q3Keys);
    }
  }

  /** Mission 4's verdict does not depend on whitespace around the reason. */
  lemma {:induction false} CheckQ4Untrimmed(suspect: string, reason: string)
    ensures CheckQ4(suspect, reason) <==> suspect == Culprit && Q4ReasonAccepts(ToLower(reason))
  {
    var n, l := Normalize(reason), ToLower(reason);
    assert Contains(n, "it was") <==> Contains(l, "it was") by {
      NeedleIgnoresTrim(reason, "it was");
    }
    assert Contains(n, "that") <==> Contains(l, "that") by {
      NeedleIgnoresTrim(reason, "that");
    }
    assert ContainsAny(n, Q4Keys) <==> ContainsAny(l, Q4Keys) by {
      KeysAreNeedles();
      KeysIgnoreTrim(reason, Q4Keys);
    }
  }

  /** An empty (or all-blank) answer never passes missions 1 to 3, nor a mission-4 reason. */
  lemma {:induction false} BlankAnswerRejected(answer: string, suspect: string)
    requires forall i :: 0 <= i < |answer| ==> IsSpace(answer[i])
    ensures !CheckQ1(answer) && !CheckQ2(answer) && !CheckQ3(answer) && !CheckQ4(suspect, answer)
  {
    var a, b := TrimBounds(answer);
    assert Normalize(answer) == [];
    assert !Contains([], "that") && !Contains([], "lisa");
  }
}
