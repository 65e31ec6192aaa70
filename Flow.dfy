/**
 The wizard's flow-control state machine as values: the seven pieces of
 React state of the `Home` page, one transition function per handler, the
 values the page derives from that state, and what the handlers guarantee
 together (the retry budget, the gate, the reveal, the reset).

 The 1200 ms wait inside the draw handler is the only suspension point.
 It is split into its two halves: `StartDraw`, what runs on the click, and
 `CompleteDraw`, what runs when the timer fires.  The completion receives the
 value of `tries` that the handler's closure captured on the click.
 */
module Flow {
  import JsString

  /** The step titles; their number is the denominator of the progress bar.
      `StepCount` below is that number, proved equal in `StepCountMatches`. */
  const Steps: seq<string> := ["Enter Details", "Verify & Draw", "Result"]

  /** The number of steps, `steps.length`. */
  const StepCount: nat := 3

  const DetailsStep: nat := 0
  const DrawStep: nat := 1
  const ResultStep: nat := 2

  const NameRequiredMessage: string := "Please enter your full name."

  /** A draw whose captured `tries` is below this counts a retry; any other opens the gate. */
  const RetryLimit: nat := 2

  const RunDrawCaption: string := "Run Luck Draw"
  const FinalizeCaption: string := "Finalize Result"

  /** The page's state, field for field. */
  datatype State = State(
    step: nat,
    name: string,
    tries: nat,
    isProcessing: bool,
    showGateModal: bool,
    showVideo: bool,
    error: string)

  /** The initial values of the seven `useState` calls. */
  function Initial(): State {
    State(DetailsStep, "", 0, false, false, false, "")
  }

  /** What every reachable state satisfies: a known step and a used-up budget of at most two retries. */
  predicate Valid(s: State) {
    s.step < StepCount && s.tries <= RetryLimit
  }

  // ---------------------------------------------------------------- handlers

  /** The name field's change handler. */
  function EditName(s: State, value: string): State {
    s.(name := value)
  }

  /** `handleBegin`: a blank name is refused with an inline message. */
  function Begin(s: State): State {
    if JsString.Trim(s.name) == "" then s.(error := NameRequiredMessage)
    else s.(error := "", step := DrawStep)
  }

  /** The synchronous half of `handleLuckDraw`, guarded by `isProcessing`. */
  function StartDraw(s: State): State {
    if s.isProcessing then s else s.(isProcessing := true, error := "")
  }

  /** The half of `handleLuckDraw` after the wait.  The test reads the captured
      `tries`; the increment is a functional update of the current one. */
  function CompleteDraw(s: State, capturedTries: nat): State {
    var settled := s.(isProcessing := false);
    if capturedTries < RetryLimit then settled.(tries := s.tries + 1)
    else settled.(showGateModal := true)
  }

  /** `handleReveal`: confirm the gate, show the video, move to the result step. */
  function Reveal(s: State): State {
    s.(showGateModal := false, showVideo := true, step := ResultStep)
  }

  /** The gate's Cancel button. */
  function CancelGate(s: State): State {
    s.(showGateModal := false)
  }

  /** The draw step's Back button. */
  function Back(s: State): State {
    s.(step := DetailsStep)
  }

  /** The video overlay's close button. */
  function CloseVideo(s: State): State {
    s.(showVideo := false)
  }

  /** `resetAll`: every field back to its initial value, whatever the state. */
  function ResetAll(s: State): State {
    Initial()
  }

  // ---------------------------------------------------------------- runs

  /** A user action, or the timer of a pending draw firing with the value it captured. */
  datatype Action =
    | TypeName(value: string)
    | ClickContinue
    | ClickDraw
    | DrawSettles(captured: nat)
    | ClickBack
    | ClickCancel
    | ClickReveal
    | ClickCloseVideo
    | ClickStartOver

  function Apply(s: State, a: Action): State {
    match a
    case TypeName(v) => EditName(s, v)
    case ClickContinue => Begin(s)
    case ClickDraw => StartDraw(s)
    case DrawSettles(c) => CompleteDraw(s, c)
    case ClickBack => Back(s)
    case ClickCancel => CancelGate(s)
    case ClickReveal => Reveal(s)
    case ClickCloseVideo => CloseVideo(s)
    case ClickStartOver => ResetAll(s)
  }

  function Run(s: State, actions: seq<Action>): State
    decreases |actions|
  {
    if actions == [] then s else Run(Apply(s, actions[0]), actions[1..])
  }

  /** Neither starts nor completes a draw. */
  predicate DrawFree(a: Action) {
    !a.ClickDraw? && !a.DrawSettles?
  }

  /** One click on the draw button, followed by its completion before anything else happens. */
  function DrawRound(s: State): State {
    if s.isProcessing then s else CompleteDraw(StartDraw(s), s.tries)
  }

  /** `n` draw rounds in a row. */
  function Rounds(s: State, n: nat): State {
    if n == 0 then s else DrawRound(Rounds(s, n - 1))
  }

  // ---------------------------------------------------------------- derived values

  /** The progress bar's value, `(step + 1) / steps.length * 100`. */
  function ProgressValue(step: nat): real {
    ((step + 1) as real / |Steps| as real) * 100.0
  }

  /** The stepper's bar for `index` is highlighted. */
  predicate StepBarFilled(index: nat, step: nat) {
    index <= step
  }

  /** The stepper's label for `index` is highlighted. */
  predicate StepLabelCurrent(index: nat, step: nat) {
    index == step
  }

  /** Number of the first `n` stepper bars that are highlighted. */
  function FilledBars(n: nat, step: nat): nat {
    if n == 0 then 0 else FilledBars(n - 1, step) + (if StepBarFilled(n - 1, step) then 1 else 0)
  }

  /** Number of the first `n` stepper labels that are highlighted. */
  function CurrentLabels(n: nat, step: nat): nat {
    if n == 0 then 0 else CurrentLabels(n - 1, step) + (if StepLabelCurrent(n - 1, step) then 1 else 0)
  }

  /** What the draw button shows. */
  datatype DrawButtonFace = Spinner | Caption(text: string)

  function DrawButton(s: State): (r: DrawButtonFace)
    ensures r == Spinner <==> s.isProcessing
    ensures r == Caption(FinalizeCaption) <==> !s.isProcessing && s.tries >= RetryLimit
    ensures r == Caption(RunDrawCaption) <==> !s.isProcessing && s.tries < RetryLimit
  {
    if s.isProcessing then Spinner
    else Caption(if s.tries < 2 then RunDrawCaption else FinalizeCaption)
  }

  /** The "unlucky" notice on the draw step is shown. */
  predicate ShowRetryNotice(s: State) {
    s.tries > 0 && s.tries < 3 && !s.isProcessing
  }

  const RetryNoticeTail: string := ", unlucky this time. Please run again."

  /** The notice's text, addressed to the first word of the name. */
  function RetryNoticeText(s: State): string {
    JsString.FirstWord(s.name) + RetryNoticeTail
  }

  // ---------------------------------------------------------------- handler properties

  lemma BeginOutcome(s: State)
    ensures Begin(s).error == "" <==> !JsString.IsBlank(s.name)
    ensures JsString.IsBlank(s.name) ==> Begin(s) == s.(error := NameRequiredMessage)
    ensures !JsString.IsBlank(s.name) ==> Begin(s) == s.(error := "", step := DrawStep)
  {
  }

  lemma StartDrawGuard(s: State)
    ensures s.isProcessing ==> StartDraw(s) == s
    ensures !s.isProcessing ==> StartDraw(s) == s.(isProcessing := true, error := "")
    ensures StartDraw(StartDraw(s)) == StartDraw(s)
  {
  }

  /** A second click while the first draw is pending adds nothing: one increment in all. */
  lemma DoubleClickCountsOnce(s: State)
    requires !s.isProcessing && s.tries < RetryLimit
    ensures CompleteDraw(StartDraw(StartDraw(s)), s.tries) == DrawRound(s)
    ensures DrawRound(s).tries == s.tries + 1
  {
  }

  lemma CompleteDrawOutcome(s: State, capturedTries: nat)
    ensures !CompleteDraw(s, capturedTries).isProcessing
    ensures capturedTries < RetryLimit ==>
      CompleteDraw(s, capturedTries) == s.(isProcessing := false, tries := s.tries + 1)
    ensures capturedTries >= RetryLimit ==>
      CompleteDraw(s, capturedTries) == s.(isProcessing := false, showGateModal := true)
  {
  }

  /** A completion keeps the retry budget when its captured count is not below
      the current one, which is the case for the most recently started draw. */
  lemma CompleteDrawKeepsValid(s: State, capturedTries: nat)
    requires Valid(s) && s.tries <= capturedTries
    ensures Valid(CompleteDraw(s, capturedTries))
  {
  }

  lemma InitialValid()
    ensures Valid(Initial())
    ensures Initial().step == DetailsStep && Initial().name == "" && Initial().tries == 0
    ensures !Initial().isProcessing && !Initial().showGateModal && !Initial().showVideo
    ensures Initial().error == ""
  {
  }

  /** Every handler keeps `Valid`; a completion does under the condition of `CompleteDrawKeepsValid`. */
  lemma ApplyKeepsValid(s: State, a: Action)
    requires Valid(s)
    requires a.DrawSettles? ==> s.tries <= a.captured
    ensures Valid(Apply(s, a))
    ensures DrawFree(a) ==> Apply(s, a).tries <= s.tries
  {
  }

  lemma StartDrawKeepsValid(s: State)
    requires Valid(s)
    ensures Valid(StartDraw(s)) && StartDraw(s).tries == s.tries
  {
  }

  lemma {:induction false} DrawFreeRunKeepsValid(s: State, actions: seq<Action>)
    requires Valid(s)
    requires forall i :: 0 <= i < |actions| ==> DrawFree(actions[i])
    ensures Valid(Run(s, actions))
    ensures Run(s, actions).tries <= s.tries
    decreases |actions|
  {
    if actions != [] {
      var next := Apply(s, actions[0]);
      ApplyKeepsValid(s, actions[0]);
      DrawFreeRunKeepsValid(next, actions[1..]);
      assert Run(s, actions) == Run(next, actions[1..]);
    }
  }

  /** Whatever the user does between clicking the draw button and its completion
      (other than drawing again), the completion keeps the budget.  There is no
      staleness guard: the completion applies to whatever state it finds. */
  lemma DrawCycleKeepsValid(s: State, between: seq<Action>)
    requires Valid(s) && !s.isProcessing
    requires forall i :: 0 <= i < |between| ==> DrawFree(between[i])
    ensures Valid(CompleteDraw(Run(StartDraw(s), between), s.tries))
  {
    var started := StartDraw(s);
    StartDrawKeepsValid(s);
    DrawFreeRunKeepsValid(started, between);
    CompleteDrawKeepsValid(Run(started, between), s.tries);
  }

  // ---------------------------------------------------------------- the gate

  /** From any settled state without the gate, the gate opens on exactly the
      round that first finds the budget spent; until then each round counts one retry. */
  lemma {:induction false} RoundsOpenGate(s: State, n: nat)
    requires s.tries <= RetryLimit && !s.isProcessing && !s.showGateModal
    ensures Rounds(s, n).tries == if s.tries + n <= RetryLimit then s.tries + n else RetryLimit
    ensures Rounds(s, n).showGateModal <==> s.tries + n > RetryLimit
    ensures !Rounds(s, n).isProcessing
    ensures Rounds(s, n).step == s.step && Rounds(s, n).name == s.name
    ensures Rounds(s, n).showVideo == s.showVideo
    ensures n > 0 ==> Rounds(s, n).error == ""
    ensures n == 0 ==> Rounds(s, n) == s
  {
    if n > 0 {
      RoundsOpenGate(s, n - 1);
    }
  }

  /** Starting from no tries, the third round is the first that opens the gate. */
  lemma ThirdRoundOpensGate(s: State)
    requires !s.isProcessing && !s.showGateModal && s.tries == 0
    ensures !Rounds(s, 1).showGateModal && Rounds(s, 1).tries == 1
    ensures !Rounds(s, 2).showGateModal && Rounds(s, 2).tries == 2
    ensures Rounds(s, 3).showGateModal && Rounds(s, 3).tries == 2
  {
    RoundsOpenGate(s, 1);
    RoundsOpenGate(s, 2);
    RoundsOpenGate(s, 3);
  }

  /** The gate only opens once the budget is spent. */
  lemma GateOpensOnlyAtLimit(s: State)
    requires !s.showGateModal && DrawRound(s).showGateModal
    ensures s.tries >= RetryLimit && DrawRound(s).tries == s.tries
  {
  }

  /** Cancelling closes the gate and nothing else; since the count stays spent,
      every later round opens it again. */
  lemma CancelThenRetrigger(s: State, n: nat)
    requires Valid(s) && !s.isProcessing && s.tries == RetryLimit
    ensures CancelGate(s) == s.(showGateModal := false)
    ensures Rounds(CancelGate(s), n).tries == RetryLimit
    ensures Rounds(CancelGate(s), n).showGateModal <==> n >= 1
  {
    RoundsOpenGate(CancelGate(s), n);
  }

  // ---------------------------------------------------------------- reveal, back, reset

  lemma RevealOutcome(s: State)
    ensures Reveal(s) == s.(showGateModal := false, showVideo := true, step := ResultStep)
    ensures Reveal(Reveal(s)) == Reveal(s)
    ensures CloseVideo(s) == s.(showVideo := false)
    ensures Valid(s) ==> Valid(Reveal(s))
  {
  }

  lemma BackKeepsEntries(s: State)
    ensures Back(s) == s.(step := DetailsStep)
    ensures Back(s).name == s.name && Back(s).tries == s.tries
  {
  }

  lemma ResetRestoresInitial(s: State)
    ensures ResetAll(s) == State(0, "", 0, false, false, false, "")
    ensures Run(s, [ClickStartOver]) == Initial()
  {
  }

  /** A draw pending while the user goes back completes as if they had not. */
  lemma CompletionIgnoresBack(s: State)
    requires !s.isProcessing
    ensures CompleteDraw(Back(StartDraw(s)), s.tries) == Back(DrawRound(s))
  {
  }

  /** A draw pending across a reset still lands on the fresh state. */
  lemma CompletionSurvivesReset(s: State, capturedTries: nat)
    ensures capturedTries < RetryLimit ==>
      CompleteDraw(ResetAll(StartDraw(s)), capturedTries) == Initial().(tries := 1)
    ensures capturedTries >= RetryLimit ==>
      CompleteDraw(ResetAll(StartDraw(s)), capturedTries) == Initial().(showGateModal := true)
  {
  }

  /** The gate does not stop the draw button from being reached (by keyboard,
      say): a draw started behind the open gate outlives a reveal and a reset,
      reopens the gate on the fresh state, and a second reveal reaches the
      result step with no name and no tries. */
  lemma StaleGateAfterStartOver(s: State)
    requires !s.isProcessing && s.showGateModal && s.tries == RetryLimit
    ensures
      var pending := StartDraw(s);
      var restarted := ResetAll(Reveal(pending));
      var reopened := CompleteDraw(restarted, s.tries);
      reopened == Initial().(showGateModal := true) &&
      Reveal(reopened) == State(ResultStep, "", 0, false, false, true, "")
  {
  }

  /** Without a staleness guard, three draws left pending across resets push
      `tries` past the budget; this is why `CompleteDrawKeepsValid` needs its condition. */
  lemma OverlappingStaleDrawsExceedLimit()
    ensures
      var oneTry := DrawRound(Initial());
      var pendingA := StartDraw(oneTry);
      var pendingB := StartDraw(ResetAll(pendingA));
      var pendingC := StartDraw(ResetAll(pendingB));
      var settled := CompleteDraw(CompleteDraw(CompleteDraw(pendingC, 0), 0), 1);
      Valid(oneTry) && oneTry.tries == 1 && settled.tries == 3 && !Valid(settled)
  {
  }

  // ---------------------------------------------------------------- derived value properties

  lemma StepCountMatches()
    ensures |Steps| == StepCount
  {
  }

  lemma ProgressValueIncreasing(a: nat, b: nat)
    requires a < b
    ensures ProgressValue(a) < ProgressValue(b)
  {
  }

  lemma ProgressValueEnds()
    ensures ProgressValue(ResultStep) == 100.0
    ensures ProgressValue(DetailsStep) * 3.0 == 100.0
  {
  }

  lemma {:induction false} FilledBarsCount(n: nat, step: nat)
    ensures FilledBars(n, step) == if n <= step then n else step + 1
    ensures CurrentLabels(n, step) == if step < n then 1 else 0
  {
    if n > 0 {
      FilledBarsCount(n - 1, step);
    }
  }

  /** The progress bar agrees with the stepper, which highlights exactly one label. */
  lemma ProgressMatchesStepper(s: State)
    requires Valid(s)
    ensures ProgressValue(s.step) == (FilledBars(|Steps|, s.step) as real / |Steps| as real) * 100.0
    ensures CurrentLabels(|Steps|, s.step) == 1
  {
    FilledBarsCount(|Steps|, s.step);
  }

  /** The caption announces the outcome of the next draw. */
  lemma DrawButtonPredictsRound(s: State)
    requires !s.isProcessing
    ensures DrawButton(s) == Caption(RunDrawCaption) <==> DrawRound(s).tries == s.tries + 1
    ensures DrawButton(s) == Caption(FinalizeCaption) <==>
      DrawRound(s).tries == s.tries && DrawRound(s).showGateModal
  {
  }

  /** In a valid state the notice's upper bound is never the deciding test. */
  lemma RetryNoticeWhenValid(s: State)
    requires Valid(s)
    ensures ShowRetryNotice(s) <==> s.tries > 0 && !s.isProcessing
  {
  }

  /** The notice appears after every settled round and never before the first draw. */
  lemma RetryNoticeAfterRound(s: State)
    requires Valid(s) && !s.isProcessing && !s.showGateModal
    ensures ShowRetryNotice(DrawRound(s))
    ensures !ShowRetryNotice(Initial()) && !ShowRetryNotice(StartDraw(s))
  {
  }

  /** The notice greets the user by the part of the name before the first
      space, or by the whole name when it has no space. */
  lemma RetryNoticeGreetsFirstWord(s: State, word: string, rest: string)
    requires ' ' !in word
    ensures RetryNoticeText(s.(name := word)) == word + RetryNoticeTail
    ensures RetryNoticeText(s.(name := word + " " + rest)) == word + RetryNoticeTail
  {
    FirstWordOf(word, word);
    FirstWordOf(word + " " + rest, word);
  }

  /** `FirstWord` is determined by its contract: a space-free prefix followed by a space or the end. */
  lemma FirstWordOf(name: string, word: string)
    requires ' ' !in word && |word| <= |name| && word == name[..|word|]
    requires |word| < |name| ==> name[|word|] == ' '
    ensures JsString.FirstWord(name) == word
  {
  }

  // ---------------------------------------------------------------- scenarios

  lemma HappyPathScenario()
    ensures
      var afterName := Run(Initial(), [TypeName("Jane Doe"), ClickContinue]);
      var afterGate := Rounds(afterName, 3);
      afterName.step == DrawStep && afterName.error == "" &&
      Rounds(afterName, 1).tries == 1 && !Rounds(afterName, 1).showGateModal &&
      Rounds(afterName, 2).tries == 2 && !Rounds(afterName, 2).showGateModal &&
      afterGate.tries == 2 && afterGate.showGateModal &&
      Reveal(afterGate) == State(ResultStep, "Jane Doe", 2, false, false, true, "")
  {
    var named := EditName(Initial(), "Jane Doe");
    assert !JsString.IsWhitespace(named.name[0]);
    assert Run(Initial(), [TypeName("Jane Doe"), ClickContinue]) == Run(named, [ClickContinue]);
    assert Run(named, [ClickContinue]) == Run(Begin(named), []);
    ThirdRoundOpensGate(Begin(named));
  }

  lemma EmptyNameScenario(blank: string)
    requires JsString.IsBlank(blank)
    ensures Run(Initial(), [TypeName(blank), ClickContinue]) ==
      Initial().(name := blank, error := NameRequiredMessage)
  {
    var named := EditName(Initial(), blank);
    assert Run(Initial(), [TypeName(blank), ClickContinue]) == Run(named, [ClickContinue]);
    assert Run(named, [ClickContinue]) == Run(Begin(named), []);
  }
}
