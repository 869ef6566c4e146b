# Cookie-thief detective quiz: a verified model of the quiz engine

The game is a single web page served by a small Streamlit app (`index.py`).
Its engine is the script embedded in that page (index.py:134-204). It does two things:

* **Mission navigation.** The page holds six panels, the elements of class
  `mission-section`: the introduction, missions 1 to 4, and the success page.
  `show_mission(idx)` hides every panel and unhides panel `idx`. The page
  opens on the introduction. The Start button opens mission 1. A correct
  answer to mission *i* shows a success line and moves on to panel *i + 1*.
  A wrong answer shows an error line and stays put. The Restart button
  reloads the page.
* **Answer checks.** Each free-text answer is trimmed and lower-cased. It is
  then tested only by substring containment, combined with `&&`, `||` and
  "some key of this list". Mission 4 also compares the chosen suspect,
  exactly and without normalising it, against `"Lisa"`.

The model has four modules:

* `Text` (`text.dfy`) holds the string primitives the checks use: `trim()`,
  `toLowerCase()`, `includes()` and `keys.some(k => a.includes(k))`, all over
  ASCII. `Includes` is the executable left-to-right search. It is proved
  equal to the specification `Contains`, which holds when some position
  matches.
* `Validators` (`validators.dfy`) holds the four checks `CheckQ1` to
  `CheckQ4`. Each has a contract stating its verdict through `Contains`, and
  the lemmas show that letter case and surrounding whitespace never change a
  verdict.
* `Engine` (`engine.dfy`) holds the navigator:
  * `Step` is the pure specification of one user event, and `Run` runs a
    sequence of events.
  * The class `Quiz` is the page. It has a `visible` array of six flags,
    four feedback lines and the five input fields. Its handlers update these
    in place. Each handler is proved to leave the page exactly where `Step`
    says.
  * The lemmas cover whole runs: exactly one panel is ever shown, a wrong
    answer never advances and can be retried without limit, Restart forgets
    everything, only a correct mission-4 answer opens the success page, and
    correct answers given in order win.
* `Examples` (`examples.dfy`) checks the game's worked answers against the
  validators and plays the model answers through to the success page.

The page declares six `mission-section` elements (index.py:60, 65, 89, 100,
110, 126), and `show_mission(5)` opens the last of them.

## Model

| member | source | states |
|---|---|---|
| Text.ToLower | index.py:145 | `toLowerCase()`: the length is kept, every character is folded in place, and no upper-case letter remains |
| Text.ToLowerIdempotent | index.py:145 | lower-casing twice is the same as lower-casing once |
| Text.LeadingSpaces | index.py:145 | the length of the whitespace run at the front: all spaces before it, a non-space right after |
| Text.TrailingSpaces | index.py:145 | the same for the whitespace run at the back |
| Text.Trim | index.py:145 | `trim()`: the result neither starts nor ends with whitespace and is no longer than the input |
| Text.TrimBounds | index.py:145 | `trim()` returns the slice `s[a..b]`, and everything outside that slice is whitespace |
| Text.TrimToLowerCommute | index.py:145 | trimming and lower-casing can be done in either order |
| Text.Includes | index.py:146 | `a.includes(k)` is true exactly when `k` occurs at some position of `a` |
| Text.IncludesAny | index.py:175 | `keys.some(k => a.includes(k))` is true exactly when some key occurs in `a` |
| Text.TrimKeepsNeedle | index.py:145-146 | a phrase that neither starts nor ends with whitespace occurs in the trimmed text exactly when it occurs in the raw text |
| Validators.Normalize | index.py:145 | `value.trim().toLowerCase()`: no upper-case letter, no whitespace at either end, never longer than the input |
| Validators.NormalizeBounds | index.py:145 | the normalised answer is the raw answer's slice `raw[i..j]`, lower-cased, with only whitespace before `i` and from `j` on |
| Validators.CheckQ1 | index.py:144-146 | mission 1 accepts exactly when the normalised answer contains "it was", "the delivery boy" and "that", anywhere and in any order |
| Validators.CheckQ2 | index.py:158-160 | mission 2 accepts exactly when the normalised answer contains "it was", "that", and "the new cashier" or "lisa" |
| Validators.CheckQ3 | index.py:172-176 | mission 3 accepts exactly when the normalised answer contains "lisa" and one of its five clue phrases |
| Validators.CheckQ4 | index.py:189-194 | mission 4 accepts exactly when the suspect is exactly "Lisa" and the normalised reason contains "it was", "that" and one of its six clue phrases |
| Validators.NormalizeIgnoresCase | index.py:145 | two answers equal up to letter case normalise to the same text |
| Validators.VerdictsIgnoreCase | index.py:145-194 | no check's verdict changes when only the letter case of the answer changes |
| Validators.VerdictsOfLowered | index.py:145-194 | lower-casing an answer before it is submitted changes no verdict |
| Validators.NeedleIgnoresTrim | index.py:145-146 | a phrase occurs in the normalised answer exactly when it occurs in the lower-cased raw answer |
| Validators.KeysAreNeedles | index.py:174-192 | no clue phrase of mission 3 or 4 is empty, starts with whitespace or ends with whitespace |
| Validators.KeysIgnoreTrim | index.py:175 | some clue phrase occurs in the normalised answer exactly when one occurs in the lower-cased raw answer |
| Validators.CheckQ1Untrimmed | index.py:145-146 | mission 1's verdict is its condition on the lower-cased raw answer: the trim never matters |
| Validators.CheckQ2Untrimmed | index.py:159-160 | the same for mission 2 |
| Validators.CheckQ3Untrimmed | index.py:173-176 | the same for mission 3 |
| Validators.CheckQ4Untrimmed | index.py:191-194 | the same for mission 4's reason |
| Validators.BlankAnswerRejected | index.py:145-194 | an empty or all-whitespace answer fails missions 1 to 3, and as a reason fails mission 4 whatever the suspect |
| Examples.Q1ModelAnswer | index.py:144-149 | mission 1 accepts "It was the delivery boy that did it" |
| Examples.Q1WrongAnswer | index.py:144-152 | mission 1 rejects "the delivery boy did it" |
| Examples.Q2ModelAnswer | index.py:158-163 | mission 2 accepts "It was Lisa that I saw" |
| Examples.Q2NeedsSomeone | index.py:158-166 | any answer with no letter l and no letter n, in either case, fails mission 2: it can name neither Lisa nor the new cashier |
| Examples.Q2WrongAnswer | index.py:158-166 | mission 2 rejects "It was Tim that I saw" |
| Examples.Q3ModelAnswer | index.py:172-179 | mission 3 accepts "Lisa was cleaning behind the counter" |
| Examples.Q3WrongAnswer | index.py:172-182 | mission 3 rejects "Tim was near the cookies" |
| Examples.Q4Answers | index.py:189-200 | mission 4 accepts suspect "Lisa" with "It was Lisa that was lying", and rejects any other suspect with the same reason |
| Examples.ModelAnswersSolveCase | index.py:137-197 | the four model answers, typed and submitted in order from a fresh page, reach the success page with four success lines |
| Engine.OnlyPanelShows | index.py:136 | after `show_mission(idx)` with `idx` in 0..5, exactly one panel, panel `idx`, is visible; with any other `idx` all six are hidden |
| Engine.CountPanels | index.py:136 | the count of visible panels after showing `idx` among `n` is 1 when `idx` is a panel index and 0 otherwise |
| Engine.Panels | index.py:136 | `n` panel flags of which flag `i` is set exactly when `i == idx` |
| Engine.OnlyPanel | index.py:136 | the page's six flags after `show_mission(idx)`: panel `idx` shown, every other panel hidden |
| Engine.SuccessText | index.py:147-195 | each mission's success line, with the source's exact wording; it always differs from that mission's error line |
| Engine.ErrorText | index.py:151-199 | each mission's error line, with the source's exact wording; every one begins "Incorrect." |
| Engine.VerdictShowsOutcome | index.py:147-200 | the feedback line set after a verdict is never left neutral, has the success colour exactly on a correct answer, and carries the mission's error text exactly on a wrong one |
| Engine.Passes | index.py:144-194 | each submit button checks only its own fields: mission 1 to 3 their answer through the acceptance condition, mission 4 the exact suspect and the reason |
| Engine.Initial | index.py:138 | the freshly loaded page shows exactly one panel, the introduction, with every feedback line blank and every field empty |
| Engine.Graded | index.py:146-200 | a verdict on mission `m` sets that mission's feedback line, leaves the other lines and the fields alone, and on success shows panel `m + 1` alone |
| Engine.Step | index.py:137-203 | every event keeps six panels and four feedback lines |
| Engine.Run | index.py:137-203 | a run of events applied in order keeps six panels and four feedback lines |
| Engine.RunSnoc | index.py:137-203 | running `events + [e]` is running `events`, then taking `e` |
| Engine.RunAppend | index.py:137-203 | running `a + b` is running `a`, then `b` from where `a` left the page |
| Engine.StepKeepsOneShown | index.py:136-203 | every event keeps exactly one panel on screen |
| Engine.RunKeepsOneShown | index.py:136-203 | every sequence of events keeps exactly one panel on screen |
| Engine.ReachableShowsOne | index.py:136-203 | whatever the player does after loading, exactly one panel is visible |
| Engine.StartOpensMission1 | index.py:137 | Start shows mission 1 alone and leaves the feedback and the fields unchanged |
| Engine.CorrectAnswerAdvances | index.py:144-202 | a passing submission sets that mission's success text and shows panel `m + 1` alone; the other lines and all fields are unchanged |
| Engine.WrongAnswerStays | index.py:144-202 | a failing submission sets that mission's error text and changes neither the panels nor the fields |
| Engine.WrongAttemptsUnlimited | index.py:144-202 | any number of repeated failing submissions leaves the page as after the first one, so there is no attempt limit |
| Engine.RestartForgets | index.py:203 | after Restart the page behaves exactly as a freshly loaded one, whatever came before |
| Engine.SuccessOnlyBySolving | index.py:194-197 | the success page only ever opens on a passing mission-4 submission, whose suspect is "Lisa" |
| Engine.NewPanelOnlyByTransition | index.py:136-203 | a panel comes on screen only through its own transition: the introduction through Restart, mission 1 through Start, panel `p` through a passing submission of mission `p - 1` |
| Engine.ClickableStepInOrder | index.py:60-203 | an event whose control is on the panel on screen keeps that panel, moves one panel forward, or (Restart on the success page) returns to the introduction |
| Engine.ClickablePanel | index.py:60-129 | each control sits on exactly one panel: Start on the introduction, each mission's field and submit button on its own panel, Restart on the success page; an event is clickable exactly when that panel is shown |
| Engine.ClickableRunNoSkip | index.py:60-203 | a run of clickable events without Restart ends on a panel no earlier than the one it started on and at most one panel further per event of the run |
| Engine.SubmitProgress | index.py:144-200 | submitting the mission on screen keeps the success lines of the missions before it, and moves on to the next panel only when the answer passes |
| Engine.ClickableStepProgress | index.py:60-203 | a clickable event keeps "every mission before the panel on screen has its success line", while staying, moving one panel forward, or restarting at the introduction |
| Engine.ClickableRunProgress | index.py:60-203 | along any run of clickable events, Restart included, every mission before the panel on screen has been passed: no mission is skipped |
| Engine.ClickablePlayProgress | index.py:60-203 | from a freshly loaded page, clickable play shows a panel only once every mission before it is passed |
| Engine.CorrectAnswersSolveCase | index.py:137-197 | answers that pass each check, given in order from a fresh page, reach the success page with four success lines |
| Engine.Quiz.constructor | index.py:135-138 | loading the page gives the initial screen, with the introduction shown, feedback blank and fields empty, and a newly built panel array |
| Engine.Quiz.ShowMission | index.py:136 | `show_mission(idx)`: the loop leaves panel `i` visible exactly when `i == idx` |
| Engine.Quiz.StartInvestigation | index.py:137 | the Start handler takes the page where `Step(_, Start)` says |
| Engine.Quiz.Enter | index.py:84-121 | typing into a field changes that field alone, as `Step(_, Type(f, text))` says |
| Engine.Quiz.Grade | index.py:146-152 | a verdict sets that mission's feedback line, and on success shows the next panel |
| Engine.Quiz.SubmitQ1 | index.py:144-154 | mission 1's handler takes the page where `Step(_, Submit(1))` says |
| Engine.Quiz.SubmitQ2 | index.py:158-168 | mission 2's handler takes the page where `Step(_, Submit(2))` says |
| Engine.Quiz.SubmitQ3 | index.py:172-184 | mission 3's handler takes the page where `Step(_, Submit(3))` says |
| Engine.Quiz.SubmitQ4 | index.py:189-202 | mission 4's handler takes the page where `Step(_, Submit(4))` says |
| Engine.Quiz.RestartInvestigation | index.py:203 | the Restart handler takes the page where `Step(_, Restart)` says: the initial screen |
| Engine.Quiz.Dispatch | index.py:137-203 | the listener registered for an event's control handles it, taking the page where `Step` says and keeping the same panel array |
| Engine.Quiz.Play | index.py:137-203 | the page handling the player's events one after another ends where `Run` says, so every run-level lemma holds of the page object |
| Examples.PlayModelAnswers | index.py:135-197 | a freshly loaded page, played with the four model answers through its own handlers, ends on the success page with four success lines |

## Left out

- Engine.Step: its own contract states only that every event keeps six panels and four feedback lines. What each event does is stated by StartOpensMission1, CorrectAnswerAdvances, WrongAnswerStays and RestartForgets.
- Validators.Normalize: its own contract states only the shape of the result. That the result is the raw answer between its leading and trailing whitespace, lower-cased, is stated by Validators.NormalizeBounds.
- Text.Trim: its own contract states only that the ends are not whitespace and that the result is no longer. That the result is exactly the input without its leading and trailing whitespace is stated by Text.TrimBounds.
- The Streamlit host (`main`, `load_game_html` as a function, page configuration and embedding) is outside the engine and is not modelled.
- The HTML text, CSS and story content are not modelled. Feedback styling is reduced to a tone of neutral, correct or wrong, standing for the `success` and `error` classes.
- The 800 ms `setTimeout` before the next panel opens is not modelled: the transition is taken at once. A second click during those 800 ms is therefore not modelled either.
- `location.reload()` is modelled as resetting every piece of page state to its value at load. The browser reload itself is not modelled. Some browsers restore typed form values on a normal reload, and no field sets `autocomplete="off"`, so emptying the fields on Restart is the model's choice.
- `trim()` strips only ASCII whitespace: space, tab, line feed, carriage return, vertical tab and form feed. JavaScript also strips no-break spaces, the line and paragraph separators, the byte-order mark and the other Unicode space separators.
- `toLowerCase()` folds only the ASCII letters A to Z. Other Unicode case mappings are not modelled.
- The mission-4 drop-down is modelled as a field that can hold any string. The page only offers "", "Tim", "Lisa" and "Mr. Jones" (index.py:115-120), so the model covers more inputs than the page allows.
- Looking up DOM elements and registering click listeners are not modelled. Each listener is a method of `Quiz`, typing into a field is the method `Enter`, and `Dispatch` routes an event to its listener. The browser's event loop is reduced to `Play`, which handles a given sequence of events in order, one at a time.
- As in the script, a submit handler does not check which panel is on screen. The buttons of hidden panels cannot be clicked in the page, but the model allows those events and proves its properties for them too. For such events, a passing submission can show a later panel while earlier missions stay unsolved. "No mission is skipped" is therefore proved only for clickable events (Engine.ClickableRunProgress).
