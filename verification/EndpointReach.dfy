/** Runs that exist: what the endpoint can be brought to do in each configuration. */
module EndpointReach {
  import opened NativeQueues
  import opened Wrappers
  import opened EndpointGates

  function Flags(st: EndpointState, certificate: bool, approved: bool, authorized: bool): Shared {
    Shared(st, false, certificate, approved, authorized, approved, authorized, 0, Some(0))
  }

  /** One start call has run to its end, and its worker is about to connect. */
  const Started := Sys(Flags(Starting, false, false, false), [StartDone], [Connecting], [], [], false)

  lemma ReachStarted(c: Config)
    ensures Reachable(c, Started)
  {
    var go := StepStart(0, true);
    var a := Created.(starts := [ReadIdle]);
    var b := Created.(starts := [SetStarting]);
    var d := SetState(Created, Starting).(starts := [Spawn]);
    var f := SetState(Created, Starting).(starts := [StoreHandle(0)], workers := [Building]);
    var g := Started.(workers := [Building]);
    ReachCreated(c);
    ReachNext(c, Created, BeginStart, a);
    ReachNext(c, a, go, b);
    ReachNext(c, b, go, d);
    ReachNext(c, d, go, f);
    ReachNext(c, f, go, g);
    ReachNext(c, g, Work(0, Go), Started);
  }

  /** The worker of an endpoint that validates reaches its first look at the approval. */
  lemma ReachValidation(c: Config)
    requires Validates(c)
    ensures Reachable(c, Started.(sh := Flags(PeerValidation, true, false, false), workers := [CheckApproval]))
  {
    var go := Work(0, Go);
    var a := Started.(sh := Flags(Starting, true, false, false), workers := [Validate]);
    ReachStarted(c);
    ReachNext(c, Started, go, a);
    ReachNext(c, a, go, Started.(sh := Flags(PeerValidation, true, false, false), workers := [CheckApproval]));
  }

  /** An approval call that finds the gate closed and everything in place. */
  lemma ReachApproval(c: Config, s: Sys) returns (t: Sys)
    requires Reachable(c, s) && ApprovalRequired(c)
    requires s.sh.state == PeerValidation && s.sh.certificate && !s.sh.approved
    ensures Reachable(c, t)
    ensures t == s.(sh := s.sh.(approved := true, approvePermit := true), calls := s.calls + [Answer(Ok)], log := s.log + [ApproveOk])
  {
    var b := s.(calls := s.calls + [ApproveState]);
    var d := s.(calls := s.calls + [ApproveCertificate]);
    var f := s.(calls := s.calls + [ApproveSwap]);
    var g := s.(sh := s.sh.(approved := true), calls := s.calls + [ApproveNotify], log := s.log + [ApproveOk]);
    t := g.(sh := g.sh.(approvePermit := true), calls := s.calls + [Answer(Ok)]);
    ReachNext(c, s, Begin(ApproveState), b);
    ReachCall(c, b, s.calls, ApproveState, d);
    ReachCall(c, d, s.calls, ApproveCertificate, f);
    ReachCall(c, f, s.calls, ApproveSwap, g);
    ReachCall(c, g, s.calls, ApproveNotify, t);
  }

  /** An authorization call likewise. */
  lemma ReachAuthorization(c: Config, s: Sys) returns (t: Sys)
    requires Reachable(c, s) && c.setup && s.sh.state == SetupReady && !s.sh.authorized
    ensures Reachable(c, t)
    ensures t == s.(sh := s.sh.(authorized := true, authorizePermit := true), calls := s.calls + [Answer(Ok)], log := s.log + [AuthorizeOk])
  {
    var b := s.(calls := s.calls + [AuthorizeState]);
    var d := s.(calls := s.calls + [AuthorizeSwap]);
    var f := s.(sh := s.sh.(authorized := true), calls := s.calls + [AuthorizeNotify], log := s.log + [AuthorizeOk]);
    t := f.(sh := f.sh.(authorizePermit := true), calls := s.calls + [Answer(Ok)]);
    ReachNext(c, s, Begin(AuthorizeState), b);
    ReachCall(c, b, s.calls, AuthorizeState, d);
    ReachCall(c, d, s.calls, AuthorizeSwap, f);
    ReachCall(c, f, s.calls, AuthorizeNotify, t);
  }

  /** A worker at the end of connecting or validating: setup or ready comes next. */
  ghost predicate Admitted(c: Config, s: Sys) {
    && Reachable(c, s) && s.workers == [if c.setup then EnterSetup else SetReady] && !s.sh.authorized
  }

  lemma ReachAdmitted(c: Config) returns (s: Sys)
    requires !(c.client && c.setup && c.pinned)
    ensures Admitted(c, s)
  {
    if Validates(c) {
      ReachValidation(c);
      var a := ReachApproval(c, Started.(sh := Flags(PeerValidation, true, false, false), workers := [CheckApproval]));
      s := a.(workers := [if c.setup then EnterSetup else SetReady]);
      ReachNext(c, a, Work(0, Go), s);
    } else {
      ReachStarted(c);
      s := Started.(sh := Started.sh.(certificate := c.client), workers := [if c.setup then EnterSetup else SetReady]);
      ReachNext(c, Started, Work(0, Go), s);
    }
  }

  /** A setup endpoint is authorized, */
  lemma ReachAuthorized(c: Config, s: Sys) returns (t: Sys)
    requires Admitted(c, s) && c.setup
    ensures Reachable(c, t) && t.workers == [CheckAuthorized] && t.sh.authorized
  {
    var a := s.(sh := s.sh.(state := SetupReady), workers := [CheckAuthorized]);
    ReachNext(c, s, Work(0, Go), a);
    t := ReachAuthorization(c, a);
  }

  /** and promoted. */
  lemma ReachPromoted(c: Config, s: Sys) returns (t: Sys)
    requires Reachable(c, s) && s.workers == [CheckAuthorized] && s.sh.authorized
    ensures Reachable(c, t) && t.workers == [SetReady]
  {
    var a := s.(workers := [Promoting]);
    t := s.(workers := [SetReady]);
    ReachNext(c, s, Work(0, Go), a);
    ReachNext(c, a, Work(0, Go), t);
  }

  /** A send on a serving endpoint is queued. */
  lemma ReachQueued(c: Config, s: Sys, lane: Lane) returns (t: Sys)
    requires Reachable(c, s) && s.workers == [SetReady] && Sends(c, lane)
    ensures Reachable(c, t) && Queued(lane) in t.log
  {
    var a := s.(sh := s.sh.(state := Ready), workers := [Serving]);
    var b := a.(calls := a.calls + [SendState(lane)]);
    var d := a.(calls := a.calls + [SendPush(lane)]);
    t := d.(calls := a.calls + [Answer(Ok)], log := a.log + [Queued(lane)]);
    ReachNext(c, s, Work(0, Go), a);
    ReachNext(c, a, Begin(SendState(lane)), b);
    ReachCall(c, b, a.calls, SendState(lane), d);
    ReachCall(c, d, a.calls, SendPush(lane), t);
    assert t.log[|a.log|] == Queued(lane);
  }

  /** Some run queues a packet on the lane. */
  ghost predicate CanQueue(c: Config, lane: Lane) {
    exists s :: Reachable(c, s) && Queued(lane) in s.log
  }

  /** Exactly when a lane can ever carry a packet: the endpoint's role sends on it, and the endpoint is
      not a setup client with a pinned certificate, which waits for an approval no call may give. */
  lemma LaneOpensIff(c: Config, lane: Lane)
    ensures CanQueue(c, lane) <==>
            (match lane case Data => true case Input => c.client case _ => !c.client)
            && !(c.client && c.setup && c.pinned)
  {
    if Sends(c, lane) && !(c.client && c.setup && c.pinned) {
      var s := ReachAdmitted(c);
      if c.setup {
        s := ReachAuthorized(c, s);
        s := ReachPromoted(c, s);
      }
      var t := ReachQueued(c, s, lane);
    }
    forall s | Reachable(c, s) && Queued(lane) in s.log
      ensures Sends(c, lane) && !(c.client && c.setup && c.pinned)
    {
      ReachableKeeps(c, s);
      var i :| 0 <= i < |s.log| && s.log[i] == Queued(lane);
    }
  }

  /** Some run queues data before the session is authorized. */
  ghost predicate DataOpensEarly(c: Config) {
    exists s :: Reachable(c, s) && Queued(Data) in s.log && AuthorizeOk !in s.log && !s.sh.authorized
  }

  lemma ReachEarlyData(c: Config, s: Sys) returns (t: Sys)
    requires Admitted(c, s) && c.setup && AuthorizeOk !in s.log
    ensures Reachable(c, t) && Queued(Data) in t.log && AuthorizeOk !in t.log && !t.sh.authorized
  {
    var a := s.(sh := s.sh.(state := SetupReady), workers := [CheckAuthorized]);
    var b := a.(calls := a.calls + [SendState(Data)]);
    var d := a.(calls := a.calls + [SendPush(Data)]);
    t := d.(calls := a.calls + [Answer(Ok)], log := a.log + [Queued(Data)]);
    ReachNext(c, s, Work(0, Go), a);
    ReachNext(c, a, Begin(SendState(Data)), b);
    ReachCall(c, b, a.calls, SendState(Data), d);
    ReachCall(c, d, a.calls, SendPush(Data), t);
    assert t.log[|a.log|] == Queued(Data);
  }

  /** The setup phase carries data: a setup endpoint that can pass validation can queue data before it
      is authorized. */
  lemma SetupCarriesData(c: Config)
    requires c.setup && !(c.client && c.pinned)
    ensures DataOpensEarly(c)
  {
    var s := ReachAdmitted(c);
    ReachableKeeps(c, s);
    assert AuthorizeOk !in s.log by { assert multiset(s.log)[AuthorizeOk] == 0; }
    var t := ReachEarlyData(c, s);
  }
}
