/**
 The `Home` page component as an object: its seven state variables are
 fields that the handlers reassign, and the session id is fixed when the
 page is created.  Each handler's new state is the corresponding transition
 of `Flow` applied to the old state, so every property proved there holds of
 the object too.
 */
module HomePage {
  import Flow
  import JsString

  class Home {
    var step: nat
    var name: string
    var tries: nat
    var isProcessing: bool
    var showGateModal: bool
    var showVideo: bool
    var error: string

    /** Computed once when the page mounts; no handler, not even `ResetAll`, replaces it. */
    const sessionId: string

    function Snapshot(): Flow.State
      reads this
    {
      Flow.State(step, name, tries, isProcessing, showGateModal, showVideo, error)
    }

    ghost predicate Valid()
      reads this
    {
      Flow.Valid(Snapshot())
    }

    /** The page as first rendered, with the session id chosen by the caller. */
    constructor (sessionId: string)
      ensures Snapshot() == Flow.Initial() && Valid()
      ensures this.sessionId == sessionId
    {
      step := Flow.DetailsStep;
      name := "";
      tries := 0;
      isProcessing := false;
      showGateModal := false;
      showVideo := false;
      error := "";
      this.sessionId := sessionId;
    }

    /** The name field's change handler. */
    method EditName(value: string)
      modifies this
      ensures Snapshot() == Flow.EditName(old(Snapshot()), value)
      ensures old(Valid()) ==> Valid()
    {
      name := value;
    }

    /** `handleBegin`. */
    method Begin()
      modifies this
      ensures Snapshot() == Flow.Begin(old(Snapshot()))
      ensures old(Valid()) ==> Valid()
    {
      if JsString.Trim(name) == "" {
        error := Flow.NameRequiredMessage;
      } else {
        error := "";
        step := Flow.DrawStep;
      }
    }

    /** The click half of `handleLuckDraw`.  `started` is false when a draw is
        already pending; otherwise `capturedTries` is the count the pending
        completion will test. */
    method StartDraw() returns (started: bool, capturedTries: nat)
      modifies this
      ensures started == !old(isProcessing)
      ensures capturedTries == old(tries)
      ensures Snapshot() == Flow.StartDraw(old(Snapshot()))
      ensures old(Valid()) ==> Valid()
    {
      capturedTries := tries;
      if isProcessing {
        return false, capturedTries;
      }
      isProcessing := true;
      error := "";
      started := true;
    }

    /** The half of `handleLuckDraw` that runs when the 1200 ms timer fires. It
        applies to whatever the state is by then. */
    method CompleteDraw(capturedTries: nat)
      modifies this
      ensures Snapshot() == Flow.CompleteDraw(old(Snapshot()), capturedTries)
      ensures old(Valid()) && old(tries) <= capturedTries ==> Valid()
    {
      isProcessing := false;
      if capturedTries < Flow.RetryLimit {
        tries := tries + 1;
      } else {
        showGateModal := true;
      }
    }

    /** `handleReveal`, apart from starting playback. */
    method Reveal()
      modifies this
      ensures Snapshot() == Flow.Reveal(old(Snapshot()))
      ensures old(Valid()) ==> Valid()
    {
      showGateModal := false;
      showVideo := true;
      step := Flow.ResultStep;
    }

    /** The gate's Cancel button. */
    method CancelGate()
      modifies this
      ensures Snapshot() == Flow.CancelGate(old(Snapshot()))
      ensures old(Valid()) ==> Valid()
    {
      showGateModal := false;
    }

    /** The draw step's Back button. */
    method Back()
      modifies this
      ensures Snapshot() == Flow.Back(old(Snapshot()))
      ensures old(Valid()) ==> Valid()
    {
      step := Flow.DetailsStep;
    }

    /** The video overlay's close button. */
    method CloseVideo()
      modifies this
      ensures Snapshot() == Flow.CloseVideo(old(Snapshot()))
      ensures old(Valid()) ==> Valid()
    {
      showVideo := false;
    }

    /** `resetAll`. */
    method ResetAll()
      modifies this
      ensures Snapshot() == Flow.ResetAll(old(Snapshot())) && Valid()
    {
      step := Flow.DetailsStep;
      name := "";
      tries := 0;
      isProcessing := false;
      showGateModal := false;
      showVideo := false;
      error := "";
    }
  }

  /** A whole session on one page object: a name, three draws (the second
      clicked twice), the gate, the reveal and a reset, the session id the
      same throughout. */
  method Session(sessionId: string) returns (page: Home)
    ensures page.Snapshot() == Flow.Initial() && page.sessionId == sessionId
  {
    page := new Home(sessionId);
    page.EditName("Jane Doe");
    page.Begin();
    Flow.BeginOutcome(Flow.Initial().(name := "Jane Doe"));
    assert page.step == Flow.DrawStep;
    ghost var drawing := page.Snapshot();
    var _, first := page.StartDraw();
    page.CompleteDraw(first);
    assert page.tries == 1 && !page.showGateModal;
    var _, second := page.StartDraw();
    var again, _ := page.StartDraw();
    assert !again;
    page.CompleteDraw(second);
    assert page.tries == 2 && !page.showGateModal;
    var _, third := page.StartDraw();
    page.CompleteDraw(third);
    assert page.Snapshot() == Flow.Rounds(drawing, 3);
    Flow.ThirdRoundOpensGate(drawing);
    assert page.showGateModal && page.tries == 2;
    page.Reveal();
    assert page.step == Flow.ResultStep && page.showVideo && !page.showGateModal;
    page.ResetAll();
  }
}
