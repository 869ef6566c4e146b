/**
 * The worked answers of the cookie quiz, checked against the validators:
 * a model answer that each mission accepts and a wrong answer it rejects.
 *
 * An accepted answer is proved in small steps, each its own lemma so that
 * no proof has to reason about long string literals all at once: the answer
 * is spelled as a concatenation of its phrases (`...Spelled`), it folds to
 * the same phrases in lower case (`...Folds`), the folded text holds the
 * required phrases (`...Holds`), and, trimming being redundant, the check
 * accepts it. A rejected answer lacks some letter of a required phrase.
 * Played in order from a fresh page, on the specification and on the page
 * object itself, the model answers solve the case.
 */
module Examples {
  import opened Text
  import opened Validators
  import opened Engine

  /** Folding `head + tail` when `tail` holds no upper-case letter only folds `head`. */
  lemma {:induction false} FoldHead(head: string, folded: string, tail: string)
    requires ToLower(head) == folded
    requires forall c :: c in tail ==> !IsUpper(c)
    ensures ToLower(head + tail) == folded + tail
  {
    ToLowerConcat(head, tail);
    ToLowerFixed(tail);
  }

  // Mission 1

  lemma {:induction false} Q1ModelSpelled(s: string)
    requires s == "It was the delivery boy that did it"
    ensures s == "It was" + (" " + "the delivery boy" + " " + "that" + " did it")
  {
  }

  lemma {:induction false} Q1ModelFolds(s: string)
    requires s == "It was" + (" " + "the delivery boy" + " " + "that" + " did it")
    ensures ToLower(s) == "it was" + (" " + "the delivery boy" + " " + "that" + " did it")
  {
    FoldHead("It was", "it was", " " + "the delivery boy" + " " + "that" + " did it");
  }

  lemma {:induction false} Q1ModelHolds(l: string)
    requires l == "it was" + (" " + "the delivery boy" + " " + "that" + " did it")
    ensures Q1Accepts(l)
  {
    var a, b, c, d, e, f := "it was", " ", "the delivery boy", " ", "that", " did it";
    assert l == [] + a + (b + c + d + e + f);
    ContainsInfix([], a, b + c + d + e + f);
    assert l == (a + b) + c + (d + e + f);
    ContainsInfix(a + b, c, d + e + f);
    assert l == (a + b + c + d) + e + f;
    ContainsInfix(a + b + c + d, e, f);
  }

  /** Mission 1 accepts its model answer. */
  lemma {:induction false} Q1ModelAnswer(s: string)
    requires s == "It was the delivery boy that did it"
    ensures CheckQ1(s)
  {
    Q1ModelSpelled(s);
    Q1ModelFolds(s);
    Q1ModelHolds(ToLower(s));
    CheckQ1Untrimmed(s);
  }

  /** Mission 1 rejects an answer without "it was ... that": it has no letter a. */
  lemma {:induction false} Q1WrongAnswer(s: string)
    requires s == "the delivery boy did it"
    ensures !CheckQ1(s)
  {
    FoldedMissingLetterExcludes(s, "that", 'a');
    CheckQ1Untrimmed(s);
  }

  // Missions 2 and 4 share the opening "It was Lisa".

  lemma {:induction false} ItWasLisaFolds()
    ensures ToLower("It was" + " " + "Lisa") == "it was" + " " + "lisa"
  {
    ToLowerConcat("It was" + " ", "Lisa");
  }

  // Mission 2

  lemma {:induction false} Q2ModelSpelled(s: string)
    requires s == "It was Lisa that I saw"
    ensures s == ("It was" + " " + "Lisa") + (" " + "that" + " I saw")
  {
  }

  lemma {:induction false} Q2ModelTailFolds()
    ensures ToLower(" " + "that" + " I saw") == " " + "that" + " i saw"
  {
    ToLowerConcat(" " + "that", " I saw");
  }

  lemma {:induction false} Q2ModelFolds(s: string)
    requires s == ("It was" + " " + "Lisa") + (" " + "that" + " I saw")
    ensures ToLower(s) == ("it was" + " " + "lisa") + (" " + "that" + " i saw")
  {
    ItWasLisaFolds();
    Q2ModelTailFolds();
    ToLowerConcat("It was" + " " + "Lisa", " " + "that" + " I saw");
  }

  lemma {:induction false} Q2ModelHolds(l: string)
    requires l == ("it was" + " " + "lisa") + (" " + "that" + " i saw")
    ensures Q2Accepts(l)
  {
    var a, b, c, d, e, f := "it was", " ", "lisa", " ", "that", " i saw";
    assert l == [] + a + (b + c + d + e + f);
    ContainsInfix([], a, b + c + d + e + f);
    assert l == (a + b) + c + (d + e + f);
    ContainsInfix(a + b, c, d + e + f);
    assert l == (a + b + c + d) + e + f;
    ContainsInfix(a + b + c + d, e, f);
  }

  /** Mission 2 accepts "It was Lisa that I saw". */
  lemma {:induction false} Q2ModelAnswer(s: string)
    requires s == "It was Lisa that I saw"
    ensures CheckQ2(s)
  {
    Q2ModelSpelled(s);
    Q2ModelFolds(s);
    Q2ModelHolds(ToLower(s));
    CheckQ2Untrimmed(s);
  }

  /** An answer with no letter l and no letter n, in either case, names neither Lisa nor the new cashier, so mission 2 rejects it. */
  lemma {:induction false} Q2NeedsSomeone(s: string)
    requires 'l' !in s && 'L' !in s && 'n' !in s && 'N' !in s
    ensures !CheckQ2(s)
  {
    FoldedMissingLetterExcludes(s, "lisa", 'l');
    FoldedMissingLetterExcludes(s, "the new cashier", 'n');
    CheckQ2Untrimmed(s);
  }

  /** Mission 2 rejects "It was Tim that I saw". */
  lemma {:induction false} Q2WrongAnswer(s: string)
    requires s == "It was Tim that I saw"
    ensures !CheckQ2(s)
  {
    Q2NeedsSomeone(s);
  }

  // Mission 3

  lemma {:induction false} Q3ModelSpelled(s: string)
    requires s == "Lisa was cleaning behind the counter"
    ensures s == "Lisa" + (" was " + "cleaning" + " behind the counter")
  {
  }

  lemma {:induction false} Q3ModelFolds(s: string)
    requires s == "Lisa" + (" was " + "cleaning" + " behind the counter")
    ensures ToLower(s) == "lisa" + (" was " + "cleaning" + " behind the counter")
  {
    FoldHead("Lisa", "lisa", " was " + "cleaning" + " behind the counter");
  }

  lemma {:induction false} Q3ModelHolds(l: string)
    requires l == "lisa" + (" was " + "cleaning" + " behind the counter")
    ensures Q3Accepts(l)
  {
    var a, b, c, d := "lisa", " was ", "cleaning", " behind the counter";
    assert l == [] + a + (b + c + d);
    ContainsInfix([], a, b + c + d);
    assert l == (a + b) + c + d;
    ContainsInfix(a + b, c, d);
    assert c in Q3Keys;
  }

  /** Mission 3 accepts "Lisa was cleaning behind the counter". */
  lemma {:induction false} Q3ModelAnswer(s: string)
    requires s == "Lisa was cleaning behind the counter"
    ensures CheckQ3(s)
  {
    Q3ModelSpelled(s);
    Q3ModelFolds(s);
    Q3ModelHolds(ToLower(s));
    CheckQ3Untrimmed(s);
  }

  /** Mission 3 rejects "Tim was near the cookies", which has no l and so never names Lisa. */
  lemma {:induction false} Q3WrongAnswer(s: string)
    requires s == "Tim was near the cookies"
    ensures !CheckQ3(s)
  {
    FoldedMissingLetterExcludes(s, "lisa", 'l');
    CheckQ3Untrimmed(s);
  }

  // Mission 4

  lemma {:induction false} Q4ModelSpelled(s: string)
    requires s == "It was Lisa that was lying"
    ensures s == ("It was" + " " + "Lisa") + (" " + "that" + " was lying")
  {
  }

  lemma {:induction false} Q4ModelFolds(s: string)
    requires s == ("It was" + " " + "Lisa") + (" " + "that" + " was lying")
    ensures ToLower(s) == ("it was" + " " + "lisa") + (" " + "that" + " was lying")
  {
    ItWasLisaFolds();
    ToLowerFixed(" " + "that" + " was lying");
    ToLowerConcat("It was" + " " + "Lisa", " " + "that" + " was lying");
  }

  lemma {:induction false} Q4ModelHolds(l: string)
    requires l == ("it was" + " " + "lisa") + (" " + "that" + " was lying")
    ensures Q4ReasonAccepts(l)
  {
    var a, b, c, d, e, f := "it was", " ", "lisa", " ", "that", " was lying";
    assert l == [] + a + (b + c + d + e + f);
    ContainsInfix([], a, b + c + d + e + f);
    assert l == (a + b) + c + (d + e + f);
    ContainsInfix(a + b, c, d + e + f);
    assert l == (a + b + c + d) + e + f;
    ContainsInfix(a + b + c + d, e, f);
    assert c in Q4Keys;
  }

  /** Mission 4 accepts Lisa with "It was Lisa that was lying", and no other suspect with any reason. */
  lemma {:induction false} Q4Answers(reason: string, other: string)
    requires reason == "It was Lisa that was lying"
    requires other != "Lisa"
    ensures CheckQ4("Lisa", reason)
    ensures !CheckQ4(other, reason)
  {
    Q4ModelSpelled(reason);
    Q4ModelFolds(reason);
    Q4ModelHolds(ToLower(reason));
    CheckQ4Untrimmed("Lisa", reason);
  }

  /** Playing the four model answers from a freshly loaded page reaches the success page. */
  lemma {:induction false} ModelAnswersSolveCase(a1: string, a2: string, a3: string, reason: string)
    requires a1 == "It was the delivery boy that did it"
    requires a2 == "It was Lisa that I saw"
    requires a3 == "Lisa was cleaning behind the counter"
    requires reason == "It was Lisa that was lying"
    ensures SolvedUpTo(Run(Initial(), Playthrough(a1, a2, a3, "Lisa", reason)), 4)
  {
    Q1ModelAnswer(a1);
    Q2ModelAnswer(a2);
    Q3ModelAnswer(a3);
    Q4Answers(reason, "Tim");
    CorrectAnswersSolveCase(a1, a2, a3, "Lisa", reason);
  }

  /** The page itself, played with the model answers from load, ends on the success page with four success lines. */
  method PlayModelAnswers() returns (q: Quiz)
    ensures fresh(q) && q.Valid() && SolvedUpTo(q.Snapshot(), 4)
  {
    var a1, a2, a3 := "It was the delivery boy that did it", "It was Lisa that I saw", "Lisa was cleaning behind the counter";
    var reason := "It was Lisa that was lying";
    q := new Quiz();
    q.Play(Playthrough(a1, a2, a3, "Lisa", reason));
    ModelAnswersSolveCase(a1, a2, a3, reason);
  }
}
