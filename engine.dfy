/**
 * The mission navigator of the cookie quiz: six panels (the introduction,
 * missions 1 to 4, and the success page), exactly one of which is on screen,
 * four feedback lines, and the five answer fields.
 *
 * `Step` is the specification: the screen after one user event, as a pure
 * function of the screen before it. The class `Quiz` is the page itself,
 * whose click handlers update the panel array, the feedback lines and the
 * fields in place; each handler is proved to take the page exactly where
 * `Step` says. The lemmas state what the navigator promises over whole runs
 * of events.
 */
module Engine {
  import opened Validators

  /** Panels in page order: 0 is the introduction, 1 to 4 the missions, 5 the success page. */
  const PanelCount: nat := 6

  /** The panel shown once mission 4 is solved. */
  const SuccessPanel: nat := 5

  /** A mission number. */
  type Mission = m: int | 1 <= m <= 4 witness 1

  /** The colour of a feedback line: its class before any answer, after a correct one, after a wrong one. */
  datatype Tone = Neutral | Correct | Wrong

  /** A feedback line: its text and its colour. */
  datatype Feedback = Feedback(text: string, tone: Tone)

  /** The five fields the player fills in; the suspect is the value of the drop-down. */
  datatype Field = Q1Answer | Q2Answer | Q3Answer | Q4Suspect | Q4Reason

  /** The current values of the five fields. */
  datatype Inputs = Inputs(q1: string, q2: string, q3: string, suspect: string, reason: string)

  /** What the player can do: press Start, type into a field, submit a mission, press Restart. */
  datatype Event = Start | Type(field: Field, text: string) | Submit(mission: Mission) | Restart

  /** Everything on the page that the engine changes. */
  datatype Screen = Screen(visible: seq<bool>, feedback: seq<Feedback>, inputs: Inputs)

  const Cleared: Feedback := Feedback("", Neutral)

  /** Fresh fields: empty text, and the drop-down on its empty placeholder option. */
  const BlankInputs: Inputs := Inputs("", "", "", "", "")

  /** The praise shown when mission `m` is answered correctly; it differs from the mission's error line. */
  function SuccessText(m: Mission): (t: string)
    ensures t != ErrorText(m)
  {
    if m == 1 then "Correct! A clue has been unlocked."
    else if m == 2 then "Correct! Another clue unlocked."
    else if m == 3 then "Excellent deduction! You're on the right track."
    else "Case solved! The cookie thief is Lisa!"
  }

  /** The hint shown when mission `m` is answered wrongly; every one opens with "Incorrect.". */
  function ErrorText(m: Mission): (t: string)
    ensures |t| > 10 && t[..10] == "Incorrect."
  {
    "Incorrect." +
    if m == 1 then " Remember to start with 'It was... that...' and use the correct suspect."
    else if m == 2 then " Try again, detective."
    else if m == 3 then " Think about where Lisa said she was standing."
    else " Re-examine your clues, especially the biggest one!"
  }

  /** The feedback line of mission `m` after a verdict. */
  function Verdict(m: Mission, ok: bool): Feedback {
    if ok then Feedback(SuccessText(m), Correct) else Feedback(ErrorText(m), Wrong)
  }

  /**
   * A feedback line tells the player the verdict: its colour is never left
   * neutral and is the success colour exactly on a correct answer, and its
   * text is the mission's error line exactly on a wrong one.
   */
  lemma {:induction false} VerdictShowsOutcome(m: Mission, ok: bool)
    ensures Verdict(m, ok).tone != Neutral && (Verdict(m, ok).tone == Correct <==> ok)
    ensures Verdict(m, ok).text == ErrorText(m) <==> !ok
  {
  }

  /** The verdict of mission `m` on the current field values: each button checks its own fields only. */
  function Passes(m: Mission, i: Inputs): (ok: bool)
    ensures m == 1 ==> (ok <==> Q1Accepts(Normalize(i.q1)))
    ensures m == 2 ==> (ok <==> Q2Accepts(Normalize(i.q2)))
    ensures m == 3 ==> (ok <==> Q3Accepts(Normalize(i.q3)))
    ensures m == 4 ==> (ok <==> i.suspect == Culprit && Q4ReasonAccepts(Normalize(i.reason)))
  {
    if m == 1 then CheckQ1(i.q1)
    else if m == 2 then CheckQ2(i.q2)
    else if m == 3 then CheckQ3(i.q3)
    else CheckQ4(i.suspect, i.reason)
  }

  /** The fields after `text` is entered into `f`. */
  function Typed(i: Inputs, f: Field, text: string): Inputs {
    match f
    case Q1Answer => i.(q1 := text)
    case Q2Answer => i.(q2 := text)
    case Q3Answer => i.(q3 := text)
    case Q4Suspect => i.(suspect := text)
    case Q4Reason => i.(reason := text)
  }

  /** `n` panels of which only panel `idx` is shown (none when `idx` is out of range). */
  function Panels(n: nat, idx: int): (v: seq<bool>)
    ensures |v| == n && forall i :: 0 <= i < n ==> (v[i] <==> i == idx)
  {
    seq(n, i => i == idx)
  }

  /** The page's panels after `show_mission(idx)`. */
  function OnlyPanel(idx: int): (v: seq<bool>)
    ensures |v| == PanelCount
    ensures 0 <= idx < PanelCount ==> v[idx]
    ensures forall i :: 0 <= i < PanelCount && i != idx ==> !v[i]
  {
    Panels(PanelCount, idx)
  }

  /** The number of panels shown. */
  function CountVisible(v: seq<bool>): nat {
    if v == [] then 0 else CountVisible(v[..|v| - 1]) + (if v[|v| - 1] then 1 else 0)
  }

  /** A screen has all six panels and all four feedback lines. */
  predicate WellFormed(s: Screen) {
    |s.visible| == PanelCount && |s.feedback| == 4
  }

  /** Exactly one panel is on screen. */
  ghost predicate OneShown(s: Screen) {
    exists p :: 0 <= p < PanelCount && s.visible == OnlyPanel(p)
  }

  /** The page as loaded: the introduction shown, no feedback, empty fields. */
  function Initial(): (s: Screen)
    ensures WellFormed(s) && OneShown(s) && s.visible[0]
    ensures forall j :: 0 <= j < 4 ==> s.feedback[j] == Cleared
    ensures s.inputs == BlankInputs
  {
    Screen(OnlyPanel(0), [Cleared, Cleared, Cleared, Cleared], BlankInputs)
  }

  /** The screen once mission `m` has been graded `ok`: its feedback line set, and on success the next panel shown. */
  function Graded(s: Screen, m: Mission, ok: bool): (t: Screen)
    requires WellFormed(s)
    ensures WellFormed(t) && t.inputs == s.inputs
    ensures t.feedback[m - 1] == Verdict(m, ok)
    ensures forall j :: 0 <= j < 4 && j != m - 1 ==> t.feedback[j] == s.feedback[j]
    ensures t.visible == if ok then OnlyPanel(m + 1) else s.visible
  {
    s.(feedback := s.feedback[m - 1 := Verdict(m, ok)],
       visible := if ok then OnlyPanel(m + 1) else s.visible)
  }

  /** The screen after one event; the transition to the next panel is taken at once. */
  function Step(s: Screen, e: Event): (t: Screen)
    requires WellFormed(s)
    ensures WellFormed(t)
  {
    match e
    case Start => s.(visible := OnlyPanel(1))
    case Type(f, text) => s.(inputs := Typed(s.inputs, f, text))
    case Submit(m) => Graded(s, m, Passes(m, s.inputs))
    case Restart => Initial()
  }

  /** The screen after a run of events, in order. */
  function Run(s: Screen, events: seq<Event>): (t: Screen)
    requires WellFormed(s)
    ensures WellFormed(t)
    decreases |events|
  {
    if events == [] then s else Run(Step(s, events[0]), events[1..])
  }

  /** `n` copies of the same event. */
  function Repeat(e: Event, n: nat): (r: seq<Event>)
    ensures |r| == n && forall i :: 0 <= i < n ==> r[i] == e
  {
    if n == 0 then [] else [e] + Repeat(e, n - 1)
  }

  /** Counting the panels of `Panels(n, idx)`: one when `idx` names a panel, none otherwise. */
  lemma {:induction false} CountPanels(n: nat, idx: int)
    ensures CountVisible(Panels(n, idx)) == if 0 <= idx < n then 1 else 0
  {
    if n > 0 {
      var v := Panels(n, idx);
      assert v[..n - 1] == Panels(n - 1, idx);
      CountPanels(n - 1, idx);
    }
  }

  /**
   * `show_mission(idx)` with `idx` naming a panel leaves exactly that panel
   * visible; with any other `idx` it hides all six.
   */
  lemma {:induction false} OnlyPanelShows(idx: int)
    ensures 0 <= idx < PanelCount ==> CountVisible(OnlyPanel(idx)) == 1 && OnlyPanel(idx)[idx]
    ensures !(0 <= idx < PanelCount) ==> CountVisible(OnlyPanel(idx)) == 0 && forall i :: 0 <= i < PanelCount ==> !OnlyPanel(idx)[i]
  {
    CountPanels(PanelCount, idx);
  }

  /** A screen of the form `OnlyPanel(p)` has exactly one panel visible. */
  lemma {:induction false} OneShownCounts(s: Screen)
    requires OneShown(s)
    ensures CountVisible(s.visible) == 1
  {
    var p :| 0 <= p < PanelCount && s.visible == OnlyPanel(p);
    OnlyPanelShows(p);
  }

  /** Every event keeps exactly one panel on screen. */
  lemma {:induction false} StepKeepsOneShown(s: Screen, e: Event)
    requires WellFormed(s) && OneShown(s)
    ensures OneShown(Step(s, e))
  {
    match e
    case Start =>
      assert Step(s, e).visible == OnlyPanel(1);
    case Type(_, _) =>
    case Submit(m) =>
      if Passes(m, s.inputs) {
        assert Step(s, e).visible == OnlyPanel(m + 1);
      }
    case Restart =>
  }

  /** Every run of events keeps exactly one panel on screen. */
  lemma {:induction false} RunKeepsOneShown(s: Screen, events: seq<Event>)
    requires WellFormed(s) && OneShown(s)
    ensures OneShown(Run(s, events))
    decreases |events|
  {
    if events != [] {
      StepKeepsOneShown(s, events[0]);
      RunKeepsOneShown(Step(s, events[0]), events[1..]);
    }
  }

  /** Whatever the player does after loading the page, exactly one panel is visible. */
  lemma {:induction false} ReachableShowsOne(events: seq<Event>)
    ensures CountVisible(Run(Initial(), events).visible) == 1
  {
    RunKeepsOneShown(Initial(), events);
    OneShownCounts(Run(Initial(), events));
  }

  /** Start opens mission 1 and touches nothing else. */
  lemma {:induction false} StartOpensMission1(s: Screen)
    requires WellFormed(s)
    ensures var t := Step(s, Start);
      t.visible[1] && CountVisible(t.visible) == 1 && t.feedback == s.feedback && t.inputs == s.inputs
  {
    OnlyPanelShows(1);
  }

  /**
   * A correct answer to mission `m` marks its feedback line as a success and
   * shows the next panel; no other line and no field changes.
   */
  lemma {:induction false} CorrectAnswerAdvances(s: Screen, m: Mission)
    requires WellFormed(s) && Passes(m, s.inputs)
    ensures var t := Step(s, Submit(m));
      t.visible[m + 1] && CountVisible(t.visible) == 1
      && t.feedback[m - 1] == Feedback(SuccessText(m), Correct)
      && (forall j :: 0 <= j < 4 && j != m - 1 ==> t.feedback[j] == s.feedback[j])
      && t.inputs == s.inputs
  {
    assert Step(s, Submit(m)) == Graded(s, m, true);
    OnlyPanelShows(m + 1);
  }

  /**
   * A wrong answer to mission `m` marks its feedback line as an error and
   * leaves the panels and the fields as they were, so the player stays on
   * the same mission.
   */
  lemma {:induction false} WrongAnswerStays(s: Screen, m: Mission)
    requires WellFormed(s) && !Passes(m, s.inputs)
    ensures var t := Step(s, Submit(m));
      t.visible == s.visible
      && t.feedback[m - 1] == Feedback(ErrorText(m), Wrong)
      && (forall j :: 0 <= j < 4 && j != m - 1 ==> t.feedback[j] == s.feedback[j])
      && t.inputs == s.inputs
  {
    assert Step(s, Submit(m)) == Graded(s, m, false);
  }

  /**
   * There is no limit on attempts: submitting the same wrong answer any
   * number of times leaves the screen as after the first try, so a later
   * correct answer still advances (`CorrectAnswerAdvances` holds in every screen).
   */
  lemma {:induction false} WrongAttemptsUnlimited(s: Screen, m: Mission, n: nat)
    requires WellFormed(s) && !Passes(m, s.inputs)
    ensures Run(s, Repeat(Submit(m), n + 1)) == Graded(s, m, false)
    decreases n
  {
    var t := Graded(s, m, false);
    assert Step(s, Submit(m)) == t;
    assert Repeat(Submit(m), n + 1)[1..] == Repeat(Submit(m), n);
    if n > 0 {
      assert t.inputs == s.inputs;
      WrongAttemptsUnlimited(t, m, n - 1);
      assert Graded(t, m, false) == t by {
        assert t.feedback[m - 1 := Verdict(m, false)] == t.feedback;
      }
    }
  }

  /** Restart forgets everything: whatever came before, the page is as freshly loaded. */
  lemma {:induction false} RestartForgets(s: Screen, events: seq<Event>)
    requires WellFormed(s)
    ensures Run(s, [Restart] + events) == Run(Initial(), events)
  {
    assert ([Restart] + events)[1..] == events;
  }

  /** Two different panels give different screens. */
  lemma {:induction false} OnlyPanelDiffers(p: int, q: int)
    ensures 0 <= p < PanelCount && p != q ==> OnlyPanel(p) != OnlyPanel(q)
  {
    if 0 <= p < PanelCount && p != q {
      assert OnlyPanel(p)[p] != OnlyPanel(q)[p];
    }
  }

  /** The success page opens only when mission 4 is submitted with the right suspect and reason. */
  lemma {:induction false} SuccessOnlyBySolving(s: Screen, e: Event)
    requires WellFormed(s) && s.visible != OnlyPanel(SuccessPanel)
    requires Step(s, e).visible == OnlyPanel(SuccessPanel)
    ensures e == Submit(4) && Passes(4, s.inputs)
    ensures s.inputs.suspect == Culprit
  {
    match e
    case Start =>
      OnlyPanelDiffers(1, SuccessPanel);
    case Type(_, _) =>
    case Submit(m) =>
      OnlyPanelDiffers(m + 1, SuccessPanel);
    case Restart =>
      OnlyPanelDiffers(0, SuccessPanel);
  }

  /**
   * A panel comes on screen only through its own transition: the
   * introduction through Restart, mission 1 through Start, and panel `p + 1`
   * through a passing submission of mission `p`.
   */
  lemma {:induction false} NewPanelOnlyByTransition(s: Screen, e: Event, p: int)
    requires WellFormed(s) && 0 <= p < PanelCount
    requires s.visible != OnlyPanel(p) && Step(s, e).visible == OnlyPanel(p)
    ensures (p == 0 && e == Restart) || (p == 1 && e == Start)
         || (p >= 2 && e == Submit(p - 1) && Passes(p - 1, s.inputs))
  {
    match e
    case Start =>
      OnlyPanelDiffers(p, 1);
    case Type(_, _) =>
    case Submit(m) =>
      OnlyPanelDiffers(p, m + 1);
    case Restart =>
      OnlyPanelDiffers(p, 0);
  }

  /** The panel holding the control behind a typing event. */
  function FieldPanel(f: Field): (p: nat)
    ensures 1 <= p <= 4
  {
    match f
    case Q1Answer => 1
    case Q2Answer => 2
    case Q3Answer => 3
    case Q4Suspect => 4
    case Q4Reason => 4
  }

  /**
   * The player can only reach controls on the panel on screen: Start is on
   * the introduction, each mission's field and submit button on its own
   * panel, and Restart on the success page.
   */
  ghost predicate Clickable(s: Screen, e: Event) {
    match e
    case Start => s.visible == OnlyPanel(0)
    case Type(f, _) => s.visible == OnlyPanel(FieldPanel(f))
    case Submit(m) => s.visible == OnlyPanel(m)
    case Restart => s.visible == OnlyPanel(SuccessPanel)
  }

  /** Each control sits on exactly one panel: an event is clickable exactly when that panel is on screen. */
  lemma {:induction false} ClickablePanel(e: Event) returns (p: int)
    ensures 0 <= p < PanelCount
    ensures forall s: Screen :: Clickable(s, e) <==> s.visible == OnlyPanel(p)
    ensures e == Start ==> p == 0
    ensures e == Restart ==> p == SuccessPanel
    ensures e.Type? ==> p == FieldPanel(e.field)
    ensures e.Submit? ==> p == e.mission
  {
    p := match e
      case Start => 0
      case Type(f, _) => FieldPanel(f)
      case Submit(m) => m
      case Restart => SuccessPanel;
  }

  /** Every event of `events` is clickable on the screen it meets. */
  ghost predicate ClickableRun(s: Screen, events: seq<Event>)
    requires WellFormed(s)
    decreases |events|
  {
    events == [] || (Clickable(s, events[0]) && ClickableRun(Step(s, events[0]), events[1..]))
  }

  /**
   * A clickable event moves the player at most one panel forward, and only
   * Restart on the success page goes back, to the introduction.
   */
  lemma {:induction false} ClickableStepInOrder(s: Screen, e: Event, p: int)
    requires WellFormed(s) && 0 <= p < PanelCount && s.visible == OnlyPanel(p) && Clickable(s, e)
    ensures Step(s, e).visible == OnlyPanel(p) || (p < SuccessPanel && Step(s, e).visible == OnlyPanel(p + 1))
         || (p == SuccessPanel && e == Restart && Step(s, e).visible == OnlyPanel(0))
  {
    match e
    case Start =>
      OnlyPanelDiffers(p, 0);
    case Type(_, _) =>
    case Submit(m) =>
      OnlyPanelDiffers(p, m);
    case Restart =>
      OnlyPanelDiffers(p, SuccessPanel);
  }

  /**
   * No skipping: a run of clickable events without Restart, starting on
   * panel `p`, ends on a panel `q` no earlier than `p` and at most one panel
   * further per event.
   */
  lemma {:induction false} ClickableRunNoSkip(s: Screen, p: int, events: seq<Event>) returns (q: int)
    requires WellFormed(s) && 0 <= p < PanelCount && s.visible == OnlyPanel(p)
    requires ClickableRun(s, events) && Restart !in events
    ensures p <= q < PanelCount && q <= p + |events| && Run(s, events).visible == OnlyPanel(q)
    decreases |events|
  {
    if events == [] {
      q := p;
    } else {
      var e := events[0];
      var t := Step(s, e);
      ClickableStepInOrder(s, e, p);
      var p' := if t.visible == OnlyPanel(p) then p else p + 1;
      assert Restart !in events[1..] by {
        forall x | x in events[1..] ensures x != Restart { assert x in events; }
      }
      q := ClickableRunNoSkip(t, p', events[1..]);
    }
  }

  /**
   * The page shows panel `q`, and every mission before the one on screen
   * carries its success line: the missions the player has passed.
   */
  ghost predicate ProgressAt(s: Screen, q: int) {
    WellFormed(s) && 0 <= q < PanelCount && s.visible == OnlyPanel(q)
    && forall j :: 0 <= j < q - 1 ==> s.feedback[j] == Verdict(j + 1, true)
  }

  /** Some panel is shown, and every mission before it has been passed. */
  ghost predicate Progress(s: Screen) {
    exists q :: ProgressAt(s, q)
  }

  /** Submitting the mission on screen keeps the missions before it passed, and moves on only when it passes. */
  lemma {:induction false} SubmitProgress(s: Screen, m: Mission)
    requires ProgressAt(s, m)
    ensures ProgressAt(Step(s, Submit(m)), if Passes(m, s.inputs) then m + 1 else m)
  {
    var ok := Passes(m, s.inputs);
    var t := Graded(s, m, ok);
    assert Step(s, Submit(m)) == t;
    forall j | 0 <= j < (if ok then m + 1 else m) - 1 ensures t.feedback[j] == Verdict(j + 1, true) {
      if j != m - 1 {
        assert t.feedback[j] == s.feedback[j];
      }
    }
  }

  /**
   * A clickable event keeps the invariant: it stays on panel `q`, moves to
   * `q + 1`, or is Restart and returns to the introduction.
   */
  lemma {:induction false} ClickableStepProgress(s: Screen, e: Event, q: int) returns (r: int)
    requires ProgressAt(s, q) && Clickable(s, e)
    ensures ProgressAt(Step(s, e), r)
    ensures r == q || r == q + 1 || (e == Restart && r == 0)
  {
    match e
    case Start =>
      OnlyPanelDiffers(q, 0);
      r := 1;
    case Type(_, _) =>
      r := q;
    case Submit(m) =>
      OnlyPanelDiffers(q, m);
      SubmitProgress(s, m);
      r := if Passes(m, s.inputs) then m + 1 else m;
    case Restart =>
      r := 0;
  }

  /**
   * No skipping, over whole runs: along clickable events, Restart included,
   * whatever panel is on screen, every mission before it has been passed.
   */
  lemma {:induction false} ClickableRunProgress(s: Screen, q: int, events: seq<Event>)
    requires ProgressAt(s, q) && ClickableRun(s, events)
    ensures Progress(Run(s, events))
    decreases |events|
  {
    if events == [] {
      assert ProgressAt(Run(s, events), q);
    } else {
      var r := ClickableStepProgress(s, events[0], q);
      ClickableRunProgress(Step(s, events[0]), r, events[1..]);
    }
  }

  /** From a freshly loaded page, clickable play reaches a panel only once every mission before it is passed. */
  lemma {:induction false} ClickablePlayProgress(events: seq<Event>)
    requires ClickableRun(Initial(), events)
    ensures Progress(Run(Initial(), events))
  {
    ClickableRunProgress(Initial(), 0, events);
  }

  /** Running `[e] + rest` is taking `e`, then running `rest`. */
  lemma {:induction false} RunCons(s: Screen, e: Event, rest: seq<Event>)
    requires WellFormed(s)
    ensures Run(s, [e] + rest) == Run(Step(s, e), rest)
  {
    assert ([e] + rest)[1..] == rest;
  }

  /** Running `a + b` is running `a`, then running `b` from where `a` left the page. */
  lemma {:induction false} RunAppend(s: Screen, a: seq<Event>, b: seq<Event>)
    requires WellFormed(s)
    ensures Run(s, a + b) == Run(Run(s, a), b)
    decreases |a|
  {
    if a == [] {
      assert a + b == b;
    } else {
      assert (a + b)[0] == a[0] && (a + b)[1..] == a[1..] + b;
      RunAppend(Step(s, a[0]), a[1..], b);
    }
  }

  /** Running `events + [e]` is running `events`, then taking `e`. */
  lemma {:induction false} RunSnoc(s: Screen, events: seq<Event>, e: Event)
    requires WellFormed(s)
    ensures Run(s, events + [e]) == Step(Run(s, events), e)
  {
    RunAppend(s, events, [e]);
    assert Run(Run(s, events), [e]) == Step(Run(s, events), e) by {
      assert [e][1..] == [];
    }
  }

  /** Start, then each mission's answer typed and submitted in turn. */
  function Playthrough(a1: string, a2: string, a3: string, suspect: string, reason: string): seq<Event> {
    [Start] + ([Type(Q1Answer, a1)] + ([Submit(1)] + ([Type(Q2Answer, a2)] + ([Submit(2)] +
    ([Type(Q3Answer, a3)] + ([Submit(3)] + ([Type(Q4Suspect, suspect)] + ([Type(Q4Reason, reason)] +
    [Submit(4)]))))))))
  }

  /** Missions 1 to `k` are solved: each has its success line, and the panel after mission `k` is shown. */
  ghost predicate SolvedUpTo(s: Screen, k: nat) {
    WellFormed(s) && k <= 4 && s.visible == OnlyPanel(k + 1)
    && forall j :: 0 <= j < k ==> s.feedback[j] == Verdict(j + 1, true)
  }

  /** Typing into a field changes only that field, whatever has been solved so far. */
  lemma {:induction false} TypeStage(s: Screen, k: nat, f: Field, text: string, rest: seq<Event>) returns (t: Screen)
    requires SolvedUpTo(s, k)
    ensures SolvedUpTo(t, k) && t.inputs == Typed(s.inputs, f, text)
    ensures Run(s, [Type(f, text)] + rest) == Run(t, rest)
  {
    t := s.(inputs := Typed(s.inputs, f, text));
    RunCons(s, Type(f, text), rest);
  }

  /** With missions 1 to `m - 1` solved, submitting a passing answer for mission `m` solves it. */
  lemma {:induction false} SubmitStage(s: Screen, m: Mission, rest: seq<Event>) returns (t: Screen)
    requires SolvedUpTo(s, m - 1) && Passes(m, s.inputs)
    ensures SolvedUpTo(t, m) && t.inputs == s.inputs
    ensures Run(s, [Submit(m)] + rest) == Run(t, rest)
  {
    t := Graded(s, m, true);
    RunCons(s, Submit(m), rest);
  }

  /** Choosing a suspect and typing a reason only sets those two fields. */
  lemma {:induction false} TypeSuspectAndReason(s: Screen, suspect: string, reason: string, rest: seq<Event>)
    requires WellFormed(s)
    ensures Run(s, [Type(Q4Suspect, suspect)] + ([Type(Q4Reason, reason)] + rest))
         == Run(s.(inputs := s.inputs.(suspect := suspect, reason := reason)), rest)
  {
    var t := s.(inputs := s.inputs.(suspect := suspect));
    assert Run(s, [Type(Q4Suspect, suspect)] + ([Type(Q4Reason, reason)] + rest))
        == Run(t, [Type(Q4Reason, reason)] + rest) by {
      RunCons(s, Type(Q4Suspect, suspect), [Type(Q4Reason, reason)] + rest);
    }
    assert Run(t, [Type(Q4Reason, reason)] + rest)
        == Run(s.(inputs := s.inputs.(suspect := suspect, reason := reason)), rest) by {
      RunCons(t, Type(Q4Reason, reason), rest);
    }
  }

  /** With missions 1 to 3 solved, choosing the suspect and submitting a passing mission-4 reason solves the case. */
  lemma {:induction false} SolveFrom3(s: Screen, suspect: string, reason: string)
    requires SolvedUpTo(s, 3) && CheckQ4(suspect, reason)
    ensures SolvedUpTo(Run(s, [Type(Q4Suspect, suspect)] + ([Type(Q4Reason, reason)] + [Submit(4)])), 4)
  {
    var u := s.(inputs := s.inputs.(suspect := suspect, reason := reason));
    assert SolvedUpTo(u, 3) && Passes(4, u.inputs);
    TypeSuspectAndReason(s, suspect, reason, [Submit(4)]);
    assert [Submit(4)] == [Submit(4)] + [];
    var w := SubmitStage(u, 4, []);
  }

  /** With missions 1 and 2 solved, passing answers to missions 3 and 4 solve the case. */
  lemma {:induction false} SolveFrom2(s: Screen, a3: string, suspect: string, reason: string)
    requires SolvedUpTo(s, 2) && CheckQ3(a3) && CheckQ4(suspect, reason)
    ensures SolvedUpTo(Run(s, [Type(Q3Answer, a3)] + ([Submit(3)] + ([Type(Q4Suspect, suspect)] +
      ([Type(Q4Reason, reason)] + [Submit(4)])))), 4)
  {
    var rest := [Type(Q4Suspect, suspect)] + ([Type(Q4Reason, reason)] + [Submit(4)]);
    var t := TypeStage(s, 2, Q3Answer, a3, [Submit(3)] + rest);
    var u := SubmitStage(t, 3, rest);
    SolveFrom3(u, suspect, reason);
  }

  /** With mission 1 solved, passing answers to missions 2 to 4 solve the case. */
  lemma {:induction false} SolveFrom1(s: Screen, a2: string, a3: string, suspect: string, reason: string)
    requires SolvedUpTo(s, 1) && CheckQ2(a2) && CheckQ3(a3) && CheckQ4(suspect, reason)
    ensures SolvedUpTo(Run(s, [Type(Q2Answer, a2)] + ([Submit(2)] + ([Type(Q3Answer, a3)] + ([Submit(3)] +
      ([Type(Q4Suspect, suspect)] + ([Type(Q4Reason, reason)] + [Submit(4)])))))), 4)
  {
    var rest := [Type(Q3Answer, a3)] + ([Submit(3)] + ([Type(Q4Suspect, suspect)] +
      ([Type(Q4Reason, reason)] + [Submit(4)])));
    var t := TypeStage(s, 1, Q2Answer, a2, [Submit(2)] + rest);
    var u := SubmitStage(t, 2, rest);
    SolveFrom2(u, a3, suspect, reason);
  }

  /** Answers that pass each check, given in order, take a fresh page to the success panel with four success lines. */
  lemma {:induction false} CorrectAnswersSolveCase(a1: string, a2: string, a3: string, suspect: string, reason: string)
    requires CheckQ1(a1) && CheckQ2(a2) && CheckQ3(a3) && CheckQ4(suspect, reason)
    ensures SolvedUpTo(Run(Initial(), Playthrough(a1, a2, a3, suspect, reason)), 4)
  {
    var rest := [Type(Q2Answer, a2)] + ([Submit(2)] + ([Type(Q3Answer, a3)] + ([Submit(3)] +
      ([Type(Q4Suspect, suspect)] + ([Type(Q4Reason, reason)] + [Submit(4)])))));
    RunCons(Initial(), Start, [Type(Q1Answer, a1)] + ([Submit(1)] + rest));
    var t := TypeStage(Step(Initial(), Start), 0, Q1Answer, a1, [Submit(1)] + rest);
    var u := SubmitStage(t, 1, rest);
    SolveFrom1(u, a2, a3, suspect, reason);
  }

  /**
   * The page itself. `visible[i]` says whether panel `i` is on screen (the
   * absence of the `hidden` class), `feedback[m - 1]` is the feedback line of
   * mission `m`, and `inputs` holds the field values.
   */
  class Quiz {
    var visible: array<bool>
    var feedback: seq<Feedback>
    var inputs: Inputs

    ghost predicate Valid()
      reads this
    {
      visible.Length == PanelCount && |feedback| == 4
    }

    /** The page as the specification sees it. */
    function Snapshot(): (s: Screen)
      reads this, visible
      requires Valid()
      ensures WellFormed(s)
    {
      Screen(visible[..], feedback, inputs)
    }

    /** Loading the page: every panel built, then `show_mission(0)`. */
    constructor ()
      ensures Valid() && fresh(visible) && Snapshot() == Initial()
    {
      visible := new bool[PanelCount];
      feedback := [Cleared, Cleared, Cleared, Cleared];
      inputs := BlankInputs;
      new;
      ShowMission(0);
    }

    /** `show_mission(idx)`: hide every panel, and unhide the one at `idx`. */
    method ShowMission(idx: int)
      requires Valid()
      modifies visible
      ensures visible[..] == OnlyPanel(idx)
    {
      for i := 0 to visible.Length
        invariant forall j :: 0 <= j < i ==> visible[j] == (j == idx)
      {
        visible[i] := false;
        if i == idx {
          visible[i] := true;
        }
      }
    }

    /** The Start button. */
    method StartInvestigation()
      requires Valid()
      modifies visible
      ensures Valid() && visible == old(visible)
      ensures Snapshot() == Step(old(Snapshot()), Start)
    {
      ShowMission(1);
    }

    /** The player enters `text` into field `f`. */
    method Enter(f: Field, text: string)
      requires Valid()
      modifies this
      ensures Valid() && visible == old(visible)
      ensures Snapshot() == Step(old(Snapshot()), Type(f, text))
    {
      match f
      case Q1Answer => inputs := inputs.(q1 := text);
      case Q2Answer => inputs := inputs.(q2 := text);
      case Q3Answer => inputs := inputs.(q3 := text);
      case Q4Suspect => inputs := inputs.(suspect := text);
      case Q4Reason => inputs := inputs.(reason := text);
    }

    /** Report a verdict on mission `m`, and on success move on to the next panel. */
    method Grade(m: Mission, ok: bool)
      requires Valid()
      modifies this, visible
      ensures Valid() && visible == old(visible)
      ensures Snapshot() == Graded(old(Snapshot()), m, ok)
    {
      feedback := feedback[m - 1 := Verdict(m, ok)];
      if ok {
        ShowMission(m + 1);
      }
    }

    /** Mission 1's submit button. */
    method SubmitQ1()
      requires Valid()
      modifies this, visible
      ensures Valid() && visible == old(visible)
      ensures Snapshot() == Step(old(Snapshot()), Submit(1))
    {
      var ok := CheckQ1(inputs.q1);
      assert ok == Passes(1, inputs);
      Grade(1, ok);
    }

    /** Mission 2's submit button. */
    method SubmitQ2()
      requires Valid()
      modifies this, visible
      ensures Valid() && visible == old(visible)
      ensures Snapshot() == Step(old(Snapshot()), Submit(2))
    {
      var ok := CheckQ2(inputs.q2);
      assert ok == Passes(2, inputs);
      Grade(2, ok);
    }

    /** Mission 3's submit button. */
    method SubmitQ3()
      requires Valid()
      modifies this, visible
      ensures Valid() && visible == old(visible)
      ensures Snapshot() == Step(old(Snapshot()), Submit(3))
    {
      var ok := CheckQ3(inputs.q3);
      assert ok == Passes(3, inputs);
      Grade(3, ok);
    }

    /** Mission 4's submit button. */
    method SubmitQ4()
      requires Valid()
      modifies this, visible
      ensures Valid() && visible == old(visible)
      ensures Snapshot() == Step(old(Snapshot()), Submit(4))
    {
      var ok := CheckQ4(inputs.suspect, inputs.reason);
      assert ok == Passes(4, inputs);
      Grade(4, ok);
    }

    /** The Restart button, modelled as a fresh load: fields emptied, feedback cleared, the introduction shown. */
    method RestartInvestigation()
      requires Valid()
      modifies this, visible
      ensures Valid() && visible == old(visible)
      ensures Snapshot() == Step(old(Snapshot()), Restart)
    {
      inputs := BlankInputs;
      feedback := [Cleared, Cleared, Cleared, Cleared];
      ShowMission(0);
    }

    /** The listener registered for `e`'s control handles it. */
    method Dispatch(e: Event)
      requires Valid()
      modifies this, visible
      ensures Valid() && visible == old(visible)
      ensures Snapshot() == Step(old(Snapshot()), e)
    {
      match e
      case Start => StartInvestigation();
      case Type(f, text) => Enter(f, text);
      case Submit(m) =>
        if m == 1 { SubmitQ1(); }
        else if m == 2 { SubmitQ2(); }
        else if m == 3 { SubmitQ3(); }
        else { SubmitQ4(); }
      case Restart => RestartInvestigation();
    }

    /** The player's events, handled one after another as the page receives them. */
    method Play(events: seq<Event>)
      requires Valid()
      modifies this, visible
      ensures Valid() && visible == old(visible)
      ensures Snapshot() == Run(old(Snapshot()), events)
    {
      ghost var start := Snapshot();
      for i := 0 to |events|
        invariant Valid() && visible == old(visible)
        invariant Snapshot() == Run(start, events[..i])
      {
        RunSnoc(start, events[..i], events[i]);
        assert events[..i + 1] == events[..i] + [events[i]];
        Dispatch(events[i]);
      }
      assert events[..|events|] == events;
    }
  }
}
