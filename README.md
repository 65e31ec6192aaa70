# Lucky-loot wizard: a verified model of the page's flow control

The `Home` page of lucky-loot walks a user through three steps: enter a name,
run a simulated "luck draw" (a 1200 ms wait) with two retries, and confirm a
gate that opens a video overlay on the result step. "Start Over" resets all
of it. This project models the page's state machine in Dafny. The state is
seven React state variables: `step`, `name`, `tries`, `isProcessing`,
`showGateModal`, `showVideo` and `error`. The model covers every handler that
changes that state and the values the page renders from it.

- `JsString.dfy` (module `JsString`) holds the two JavaScript string
  operations the logic uses. One is `trim`, with ECMAScript's whitespace and
  line-terminator characters. The other is `split(" ")[0]`.
- `Flow.dfy` (module `Flow`) holds the state as a value. It has one pure
  transition per handler, the derived display values (progress value, draw
  button, retry notice, stepper highlights), traces of user actions
  (`Action`, `Run`) and the lemmas.
- `HomePage.dfy` (module `HomePage`) holds class `Home`. Its fields are the
  seven state variables, plus a `const sessionId` fixed at construction.
  There is one method per handler. Each method's new state is the matching
  `Flow` transition applied to the old state.

The draw handler awaits a timer, so it is split in two. `StartDraw` is the
synchronous part on the click: it returns whether a draw started and which
`tries` value the handler's closure captured. `CompleteDraw(capturedTries)` is
the part that runs after the wait. The completion tests the captured value
(`tries < 2`), but its increment `setTries(t => t + 1)` updates the current
value. There is no staleness guard, so a completion applies to whatever state
it finds, even after Back or Start Over.

Behaviours of the code worth stating:
- the code does not regenerate the session id on reset;
- it has no correlation token to discard stale completions;
- `handleBegin` does not touch `isProcessing`;
- `tries` never passes 2 in a normal run, though the retry notice tests `tries < 3`;
- confirming the gate twice runs the handler twice. The second run changes no
  state (`Flow.RevealOutcome`). Nothing in the code stops a second playback request.

## Model

| member | source | states |
|---|---|---|
| JsString.TrimStart | src/app/page.tsx:37 | the result is a suffix of the input, everything dropped is whitespace, and it does not start with whitespace |
| JsString.TrimEnd | src/app/page.tsx:37 | the result is a prefix of the input, everything dropped is whitespace, and it does not end with whitespace |
| JsString.LeadingWhitespace | src/app/page.tsx:37 | the length of the longest whitespace prefix: every character before it is whitespace and the next one, if any, is not |
| JsString.TrailingWhitespace | src/app/page.tsx:37 | the length of the longest whitespace suffix: every character after the cut is whitespace and the one before it, if any, is not |
| JsString.Trim | src/app/page.tsx:37 | `name.trim()` is empty exactly when every character is ECMAScript whitespace, and otherwise starts and ends with a non-whitespace character |
| JsString.TrimIsPiece | src/app/page.tsx:37 | `name.trim()` is a contiguous piece of the name with only whitespace before and after it |
| JsString.FirstWord | src/app/page.tsx:251 | `name.split(" ")[0]` is the prefix before the first space: a prefix of the name, with no space, followed by a space or the end |
| JsString.IsWhitespace | src/app/page.tsx:37 | the characters `trim` removes: ECMAScript WhiteSpace (TAB, VT, FF, ZWNBSP, the Zs space separators) and LineTerminator (LF, CR, U+2028, U+2029) |
| Flow.Initial | src/app/page.tsx:10-16 | the seven initial state values; `Flow.InitialValid` states them and their validity |
| Flow.EditName | src/app/page.tsx:175 | typing replaces `name` and nothing else |
| Flow.Begin | src/app/page.tsx:36-43 | `handleBegin` as a transition; `Flow.BeginOutcome` states both branches against `IsBlank` |
| Flow.StartDraw | src/app/page.tsx:45-48 | the click half of `handleLuckDraw`; `Flow.StartDrawGuard` states the guard and idempotence |
| Flow.CompleteDraw | src/app/page.tsx:53-60 | the half after the wait, testing the captured count and incrementing the current one; `Flow.CompleteDrawOutcome` states its effect |
| Flow.Reveal | src/app/page.tsx:63-86 | `handleReveal`'s state updates; `Flow.RevealOutcome` states them and idempotence |
| Flow.CancelGate | src/app/page.tsx:337 | Cancel clears `showGateModal` only; `Flow.CancelThenRetrigger` states what follows |
| Flow.Back | src/app/page.tsx:258 | Back sets `step` to 0 only; `Flow.BackKeepsEntries` states it |
| Flow.CloseVideo | src/app/page.tsx:371 | closing the overlay clears `showVideo` only; `Flow.RevealOutcome` states it |
| Flow.ResetAll | src/app/page.tsx:89-97 | `resetAll` yields the initial state; `Flow.ResetRestoresInitial` states it |
| Flow.ProgressValue | src/app/page.tsx:22 | `(step + 1) / 3 * 100` over exact reals; its lemmas give monotonicity, the end values and agreement with the stepper |
| Flow.StepBarFilled | src/app/page.tsx:113 | a stepper bar is highlighted when its index is at most the step; counted by `Flow.FilledBarsCount` |
| Flow.StepLabelCurrent | src/app/page.tsx:114 | a stepper label is highlighted when its index is the step; counted by `Flow.FilledBarsCount` |
| Flow.ShowRetryNotice | src/app/page.tsx:245 | the notice condition `0 < tries < 3` and no draw pending; `Flow.RetryNoticeWhenValid` and `Flow.RetryNoticeAfterRound` state when it holds |
| Flow.RetryNoticeText | src/app/page.tsx:251 | the notice text, greeting the first word of the name; `Flow.RetryNoticeGreetsFirstWord` states whom it greets |
| Flow.RetryNoticeGreetsFirstWord | src/app/page.tsx:251 | for a space-free `word`, names `word` and `word + " " + rest` both give the notice addressed to `word` |
| Flow.FirstWordOf | src/app/page.tsx:251 | a space-free prefix followed by a space or the end is exactly what `split(" ")[0]` returns |
| Flow.BeginOutcome | src/app/page.tsx:36-43 | a blank name only sets `error` to the message (step and all else unchanged); any other name clears `error` and sets step 1, changing nothing else; `error` ends empty iff the name is not blank |
| Flow.StartDrawKeepsValid | src/app/page.tsx:45-48 | starting a draw keeps the invariant and leaves `tries` unchanged |
| Flow.StartDrawGuard | src/app/page.tsx:45-48 | while processing, starting a draw is a no-op; otherwise it sets `isProcessing` and clears `error` only; starting twice equals starting once |
| Flow.DoubleClickCountsOnce | src/app/page.tsx:45-56 | a second click while a draw is pending adds nothing: the draw counts exactly one retry |
| Flow.CompleteDrawOutcome | src/app/page.tsx:53-60 | a completion always clears `isProcessing`; with captured `tries < 2` it adds exactly one to `tries` and leaves the gate; otherwise it opens the gate and leaves `tries` |
| Flow.CompleteDrawKeepsValid | src/app/page.tsx:53-60 | a completion whose captured count is not below the current one keeps `step < 3` and `tries <= 2` |
| Flow.InitialValid | src/app/page.tsx:10-16 | the initial state is step 0, empty name and error, zero tries, all flags false, and is valid |
| Flow.ApplyKeepsValid | src/app/page.tsx:36-97 | every handler keeps the invariant `step < 3 && tries <= 2`; a completion does if its capture is at least the current count |
| Flow.DrawFreeRunKeepsValid | src/app/page.tsx:36-97 | any run of handlers other than the draw keeps the invariant and never raises `tries` |
| Flow.DrawCycleKeepsValid | src/app/page.tsx:45-60 | whatever non-draw actions happen while a draw is pending, its completion keeps `tries <= 2` |
| Flow.RoundsOpenGate | src/app/page.tsx:55-59 | after n settled draws from a closed gate, `tries` is `min(tries + n, 2)` and the gate is open iff `tries + n > 2`; step, name and video are unchanged |
| Flow.ThirdRoundOpensGate | src/app/page.tsx:55-59 | from zero tries, draws one and two count retries with the gate closed, and the third opens the gate with `tries` still 2 |
| Flow.GateOpensOnlyAtLimit | src/app/page.tsx:55-59 | a draw opens the gate only when the retry budget is spent, and then does not change `tries` |
| Flow.CancelThenRetrigger | src/app/page.tsx:337 | Cancel closes the gate and changes nothing else; with the budget spent, every later draw reopens it and `tries` stays 2 |
| Flow.RevealOutcome | src/app/page.tsx:63-86 | confirming closes the gate, shows the video and moves to step 2, nothing else; doing it twice equals once; closing the video clears only `showVideo` |
| Flow.BackKeepsEntries | src/app/page.tsx:258 | Back sets step 0 and keeps name, tries and everything else |
| Flow.ResetRestoresInitial | src/app/page.tsx:89-97 | from any state, Start Over yields step 0, empty name, zero tries, every flag false, empty error |
| Flow.CompletionIgnoresBack | src/app/page.tsx:51-60 | a draw pending while the user presses Back completes exactly as if Back came afterwards |
| Flow.CompletionSurvivesReset | src/app/page.tsx:51-60 | a draw pending across Start Over still counts a retry or opens the gate on the fresh state |
| Flow.StaleGateAfterStartOver | src/app/page.tsx:45-97 | a draw started behind the open gate outlives a reveal and a reset, reopens the gate on the fresh state, and a second reveal reaches step 2 with empty name and zero tries |
| Flow.OverlappingStaleDrawsExceedLimit | src/app/page.tsx:51-60 | three draws left pending across resets drive `tries` to 3, so the capture condition on completions cannot be dropped |
| Flow.StepCountMatches | src/app/page.tsx:20-21 | the step list has three titles, the count the invariant and the progress value use |
| Flow.ProgressValueIncreasing | src/app/page.tsx:22 | the progress value is strictly increasing in the step |
| Flow.ProgressValueEnds | src/app/page.tsx:22 | the progress value is 100 at step 2 and a third of 100 at step 0 |
| Flow.FilledBarsCount | src/app/page.tsx:113-114 | of the first n stepper bars, `min(n, step + 1)` are highlighted; exactly one label is current when `step < n` |
| Flow.ProgressMatchesStepper | src/app/page.tsx:22 | in a valid state, the progress value is the share of highlighted stepper bars times 100, and exactly one step label is current |
| Flow.DrawButton | src/app/page.tsx:269-273 | the button shows a spinner iff processing, "Finalize Result" iff idle with `tries >= 2`, "Run Luck Draw" iff idle with `tries < 2` |
| Flow.DrawButtonPredictsRound | src/app/page.tsx:272 | when idle, the caption says "Run Luck Draw" iff the next draw counts a retry, and "Finalize Result" iff it opens the gate without counting |
| Flow.RetryNoticeWhenValid | src/app/page.tsx:245 | in a valid state the notice shows exactly when `tries > 0` and no draw is pending |
| Flow.RetryNoticeAfterRound | src/app/page.tsx:245 | the notice shows after every settled draw; it never shows initially or while a draw is pending |
| Flow.HappyPathScenario | src/app/page.tsx:36-86 | name "Jane Doe", Continue, three draws (tries 1, 2, then gate with 2), confirm: step 2, video shown, gate closed |
| Flow.EmptyNameScenario | src/app/page.tsx:36-40 | a blank name and Continue leave step 0 with only the error message set |
| HomePage.Home.constructor | src/app/page.tsx:10-16 | a new page has the initial state and the given session id |
| HomePage.Home.EditName | src/app/page.tsx:175 | typing replaces `name` only |
| HomePage.Home.Begin | src/app/page.tsx:36-43 | the new state is `Flow.Begin` of the old; validity is kept |
| HomePage.Home.StartDraw | src/app/page.tsx:45-48 | reports whether a draw started (iff not processing) and the captured `tries`; the new state is `Flow.StartDraw` of the old |
| HomePage.Home.CompleteDraw | src/app/page.tsx:53-60 | the new state is `Flow.CompleteDraw` of the old and the capture; validity is kept when the capture is not below `tries` |
| HomePage.Home.Reveal | src/app/page.tsx:63-86 | the new state is `Flow.Reveal` of the old; validity is kept |
| HomePage.Home.CancelGate | src/app/page.tsx:337 | only `showGateModal` is cleared |
| HomePage.Home.Back | src/app/page.tsx:258 | only `step` is set to 0 |
| HomePage.Home.CloseVideo | src/app/page.tsx:371 | only `showVideo` is cleared |
| HomePage.Home.ResetAll | src/app/page.tsx:89-97 | every field is back to its initial value; `sessionId` is a constant and stays |
| HomePage.Session | src/app/page.tsx:36-97 | one page object through name, three draws (one double click), gate, reveal and reset ends in the initial state with the same session id |

## Left out

- Rendering: the JSX, Tailwind classes, framer-motion animation, the Radix progress widget and the icons (src/app/page.tsx:99-390). These are presentation only. The "Tries: n/3" badge text (line 103) is left out too, as display formatting.
- Which controls are on screen or covered by an overlay. The model lets any handler run in any state. Some of these states need unusual input to reach. For example, the gate is a fixed overlay with no focus trap and no `inert` (lines 314-351), so a keyboard user can reach the draw button behind an open gate. Confirming and then Start Over leave that draw pending across the reset (`Flow.StaleGateAfterStartOver`). A mouse-only user does not normally reach these states.
- The focus effect through `document.getElementById` (lines 29-33). This is DOM plumbing.
- Session id generation with `Math.random` and `Date.now` (lines 24-27). It is nondeterministic, so the id is a constructor parameter. No handler changes it.
- The 1200 ms timer itself (line 51). Only its two sides are modelled, as `StartDraw` and `CompleteDraw`. Time is not modelled.
- Video playback (lines 69-83): `requestAnimationFrame`, unmuting, the `play()` promise and the tap hint written on rejection. These are browser media calls whose outcome the page cannot see.
- React's update batching and re-rendering. A handler's closure capture is modelled only as the `tries` value passed to `CompleteDraw`.
- Floating point: `progressValue` (line 22) is an IEEE double on the page, and step 0 gives 33.33333333333333. `Flow.ProgressValue` is an exact `real`. Facts such as `ProgressValue(0) * 3 == 100` hold only for the real.
- UTF-16: the page's strings are UTF-16 code units, while a Dafny `string` is a sequence of Unicode scalar values, so lone surrogates cannot be represented. `trim` and `split(" ")` agree on well-formed text, because every character they test is in the Basic Multilingual Plane.
- The button's `disabled={isProcessing}` attribute (line 266). It repeats the handler's own guard and changes no state.
- Flow.CompleteDrawKeepsValid: the source's implied invariant `tries <= 2` is proved only for completions whose captured count is at least the current one. That holds for a draw while no other draw is pending (`Flow.DrawCycleKeepsValid`). Because there is no staleness guard, completions overlapping across resets can break it (`Flow.OverlappingStaleDrawsExceedLimit`).
- Flow.ApplyKeepsValid: same restriction on completions as above.
- HomePage.Home.CompleteDraw: same restriction on completions as above.
