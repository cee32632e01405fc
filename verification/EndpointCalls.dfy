/** The endpoint's shared flags as the gate, stop and worker code updates them; each body, when nothing
    interferes, is the step machine's own steps. */
module EndpointCalls {
  import opened NativeQueues
  import opened Wrappers
  import opened EndpointGates

  /** The call's own accesses, one after another and with nothing in between, lead from one point to
      the other. */
  ghost predicate RunsTo(sh: Shared, call: Call, sh': Shared, call': Call) {
    exists trace: seq<(Shared, Call)> :: IsTrace(trace) && trace[0] == (sh, call) && trace[|trace| - 1] == (sh', call')
  }

  ghost predicate IsTrace(trace: seq<(Shared, Call)>) {
    && trace != []
    && forall i {:trigger trace[i]} | 0 <= i < |trace| - 1 ::
         trace[i + 1] == (CallWrites(trace[i].0, trace[i].1), CallNext(trace[i].0, trace[i].1, true, false))
  }

  lemma RunsNowhere(sh: Shared, call: Call)
    ensures RunsTo(sh, call, sh, call)
  {
    assert IsTrace([(sh, call)]);
  }

  /** One access first. */
  lemma RunsFirst(sh: Shared, call: Call, mid: Shared, next: Call, sh': Shared, call': Call)
    requires mid == CallWrites(sh, call) && next == CallNext(sh, call, true, false) && RunsTo(mid, next, sh', call')
    ensures RunsTo(sh, call, sh', call')
  {
    var trace :| IsTrace(trace) && trace[0] == (mid, next) && trace[|trace| - 1] == (sh', call');
    var all := [(sh, call)] + trace;
    forall i {:trigger all[i]} | 0 <= i < |all| - 1
      ensures all[i + 1] == (CallWrites(all[i].0, all[i].1), CallNext(all[i].0, all[i].1, true, false))
    {
      if i > 0 { assert all[i] == trace[i - 1] && all[i + 1] == trace[i]; }
    }
    assert IsTrace(all);
  }

  predicate MayApprove(sh: Shared) { sh.state == PeerValidation && sh.certificate && !sh.approved }

  predicate MayAuthorize(sh: Shared) { sh.state == SetupReady && !sh.authorized }

  function AfterApprove(sh: Shared): Shared {
    if MayApprove(sh) then sh.(approved := true, approvePermit := true) else sh
  }

  function AfterAuthorize(sh: Shared): Shared {
    if MayAuthorize(sh) then sh.(authorized := true, authorizePermit := true) else sh
  }

  function AfterStopRequest(sh: Shared): Shared {
    if sh.state == Idle then sh.(state := Stopped)
    else if Terminal(sh.state) then sh
    else sh.(state := Stopping, stop := true, broadcasts := sh.broadcasts + 1)
  }

  /** The approval call's steps: state, certificate, swap, notify. */
  lemma ApproveRuns(sh: Shared)
    ensures RunsTo(sh, ApproveState, AfterApprove(sh), Answer(if MayApprove(sh) then Ok else InvalidState))
  {
    var done, answer := AfterApprove(sh), Answer(if MayApprove(sh) then Ok else InvalidState);
    RunsNowhere(done, answer);
    if sh.state == PeerValidation {
      if sh.certificate {
        var swapped := sh.(approved := true);
        if !sh.approved { RunsFirst(swapped, ApproveNotify, done, answer, done, answer); }
        RunsFirst(sh, ApproveSwap, swapped, if sh.approved then answer else ApproveNotify, done, answer);
      }
      RunsFirst(sh, ApproveCertificate, sh, if sh.certificate then ApproveSwap else answer, done, answer);
    }
    RunsFirst(sh, ApproveState, sh, if sh.state == PeerValidation then ApproveCertificate else answer, done, answer);
  }

  /** The authorization call's steps: state, swap, notify. */
  lemma AuthorizeRuns(sh: Shared)
    ensures RunsTo(sh, AuthorizeState, AfterAuthorize(sh), Answer(if MayAuthorize(sh) then Ok else InvalidState))
  {
    var done, answer := AfterAuthorize(sh), Answer(if MayAuthorize(sh) then Ok else InvalidState);
    RunsNowhere(done, answer);
    if sh.state == SetupReady {
      var swapped := sh.(authorized := true);
      if !sh.authorized { RunsFirst(swapped, AuthorizeNotify, done, answer, done, answer); }
      RunsFirst(sh, AuthorizeSwap, swapped, if sh.authorized then answer else AuthorizeNotify, done, answer);
    }
    RunsFirst(sh, AuthorizeState, sh, if sh.state == SetupReady then AuthorizeSwap else answer, done, answer);
  }

  /** The stop call's steps up to the worker's handle. */
  lemma StopRuns(sh: Shared)
    ensures RunsTo(sh, StopState, AfterStopRequest(sh), StopTake)
  {
    var done := AfterStopRequest(sh);
    RunsNowhere(done, StopTake);
    if sh.state == Idle {
      RunsFirst(sh, StopIdle, done, StopTake, done, StopTake);
      RunsFirst(sh, StopState, sh, StopIdle, done, StopTake);
    } else if Terminal(sh.state) {
      RunsFirst(sh, StopState, sh, StopTake, done, StopTake);
    } else {
      LiveStopRuns(sh, done);
      RunsFirst(sh, StopState, sh, StopSet, done, StopTake);
    }
  }

  lemma LiveStopRuns(sh: Shared, done: Shared)
    requires done == sh.(state := Stopping, stop := true, broadcasts := sh.broadcasts + 1)
    ensures RunsTo(sh, StopSet, done, StopTake)
  {
    var a, b := sh.(state := Stopping), sh.(state := Stopping, stop := true);
    RunsNowhere(done, StopTake);
    RunsFirst(b, StopNotify, done, StopTake, done, StopTake);
    RunsFirst(a, StopStore, b, StopNotify, done, StopTake);
    RunsFirst(sh, StopSet, a, StopStore, done, StopTake);
  }

  lemma StopEnds(sh: Shared)
    ensures RunsTo(sh, StopRead, if sh.state == Failed then sh else sh.(state := Stopped), Answer(Ok))
  {
    var done := if sh.state == Failed then sh else sh.(state := Stopped);
    RunsNowhere(done, Answer(Ok));
    if sh.state != Failed { RunsFirst(sh, StopFinal, done, Answer(Ok), done, Answer(Ok)); }
    RunsFirst(sh, StopRead, sh, if sh.state == Failed then Answer(Ok) else StopFinal, done, Answer(Ok));
  }

  class NativeShared {
    const config: Config
    var state: EndpointState
    var stop: bool
    var certificate: bool
    var approved: bool
    var authorized: bool
    var approvePermit: bool
    var authorizePermit: bool
    var broadcasts: nat
    var handle: Option<nat>

    function Value(): Shared
      reads this
    {
      Shared(state, stop, certificate, approved, authorized, approvePermit, authorizePermit, broadcasts, handle)
    }

    constructor (config: Config)
      ensures this.config == config && Value() == Created.sh
    {
      this.config := config;
      state, stop, certificate, approved, authorized := Idle, false, false, false, false;
      approvePermit, authorizePermit, broadcasts, handle := false, false, 0, None;
    }

    /** OK exactly once, on a client that requires approval, in PeerValidation, with a certificate. */
    method ApprovePeerCertificate() returns (code: Code)
      modifies this`approved, this`approvePermit
      ensures code == (if config.client && !config.pinned && state == PeerValidation && certificate && !old(approved)
                       then Ok else InvalidState)
      ensures approved == (old(approved) || code == Ok) && approvePermit == (old(approvePermit) || code == Ok)
      ensures ApprovalRequired(config) ==> RunsTo(old(Value()), ApproveState, Value(), Answer(code))
      ensures !ApprovalRequired(config) ==> Value() == old(Value())
    {
      ApproveRuns(Value());
      if !config.client || config.pinned || state != PeerValidation || !certificate { return InvalidState; }
      var was := approved;
      approved := true;
      if was { return InvalidState; }
      approvePermit := true;
      code := Ok;
    }

    /** OK exactly once, in setup mode, in SetupReady. */
    method AuthorizeSession() returns (code: Code)
      modifies this`authorized, this`authorizePermit
      ensures code == (if config.setup && state == SetupReady && !old(authorized) then Ok else InvalidState)
      ensures authorized == (old(authorized) || code == Ok) && authorizePermit == (old(authorizePermit) || code == Ok)
      ensures config.setup ==> RunsTo(old(Value()), AuthorizeState, Value(), Answer(code))
      ensures !config.setup ==> Value() == old(Value())
    {
      AuthorizeRuns(Value());
      if !config.setup || state != SetupReady { return InvalidState; }
      var was := authorized;
      authorized := true;
      if was { return InvalidState; }
      authorizePermit := true;
      code := Ok;
    }

    /** The stop call up to the join: a live endpoint is told to stop and everyone is woken, a
        terminal one is left alone. */
    method RequestStop()
      modifies this`state, this`stop, this`broadcasts
      ensures RunsTo(old(Value()), StopState, Value(), StopTake)
      ensures var live := old(state) != Idle && old(state) != Stopped && old(state) != Failed;
              && state == (if old(state) == Idle then Stopped else if live then Stopping else old(state))
              && stop == (old(stop) || live) && broadcasts == old(broadcasts) + (if live then 1 else 0)
    {
      StopRuns(Value());
      if state == Idle {
        state := Stopped;
      } else if state != Stopped && state != Failed {
        state := Stopping;
        stop := true;
        broadcasts := broadcasts + 1;
      }
    }

    /** The stop call after the join: a failure is kept, anything else ends as Stopped. */
    method FinishStop() returns (code: Code)
      modifies this`state
      ensures code == Ok && state == (if old(state) == Failed then Failed else Stopped)
      ensures RunsTo(old(Value()), StopRead, Value(), Answer(code))
    {
      StopEnds(Value());
      if state != Failed { state := Stopped; }
      code := Ok;
    }

    /** The worker's last words: Stopped only after a local stop, Failed otherwise, an orderly close
        included. */
    method FinishWorker(ok: bool)
      modifies this`state, this`broadcasts
      ensures Value() == WorkerWrites(config, old(Value()), Finishing(stop), Go)
      ensures state == (if stop then Stopped else Failed)
    {
      if stop {
        state := Stopped;
      } else {
        state := Failed;
        broadcasts := broadcasts + 1;
      }
    }
  }
}
