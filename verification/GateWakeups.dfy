/** The wakeups of the two gates: one permit serves one worker. */
module GateWakeups {
  import opened NativeQueues
  import opened Wrappers
  import opened EndpointGates
  import EndpointReach

  /** A worker asleep at an opened gate, or about to be, has its wakeup stored or about to be stored. */
  ghost predicate GateAwake(s: Sys) {
    |s.workers| == 1 ==>
      && ((s.workers[0].ArmApproval? || s.workers[0].AwaitApproval?) && s.sh.approved ==>
            s.sh.approvePermit || ApproveNotify in s.calls)
      && ((s.workers[0].ArmAuthorized? || s.workers[0].AwaitAuthorized?) && s.sh.authorized ==>
            s.sh.authorizePermit || AuthorizeNotify in s.calls)
  }

  lemma CallKeepsGate(s: Sys, k: nat, sh: Shared, next: Call)
    requires GateAwake(s) && k < |s.calls|
    requires (sh.approved ==> s.sh.approved || next == ApproveNotify)
             && (sh.approvePermit <==> s.sh.approvePermit || s.calls[k] == ApproveNotify)
    requires (sh.authorized ==> s.sh.authorized || next == AuthorizeNotify)
             && (sh.authorizePermit <==> s.sh.authorizePermit || s.calls[k] == AuthorizeNotify)
    ensures GateAwake(s.(sh := sh, calls := s.calls[k := next]))
  {
    var calls := s.calls[k := next];
    assert calls[k] == next;
    forall j | 0 <= j < |calls| && j != k ensures s.calls[j] in calls {
      assert calls[j] == s.calls[j];
    }
  }

  lemma CallWakes(sh: Shared, call: Call, room: bool, joined: bool)
    ensures var sh', next := CallWrites(sh, call), CallNext(sh, call, room, joined);
            && (sh'.approved ==> sh.approved || next == ApproveNotify)
            && (sh'.approvePermit <==> sh.approvePermit || call == ApproveNotify)
            && (sh'.authorized ==> sh.authorized || next == AuthorizeNotify)
            && (sh'.authorizePermit <==> sh.authorizePermit || call == AuthorizeNotify)
  {
    match call
    case ApproveState => case ApproveCertificate => case ApproveSwap => case ApproveNotify =>
    case AuthorizeState => case AuthorizeSwap => case AuthorizeNotify =>
    case SendState(_) => case SendPush(_) =>
    case StopState => case StopIdle => case StopSet => case StopStore => case StopNotify =>
    case StopTake => case StopJoin(_) => case StopRead => case StopFinal =>
    case Answer(_) =>
  }

  lemma WorkKeepsGate(c: Config, s: Sys, choice: Choice)
    requires GateAwake(s) && |s.workers| == 1
    ensures GateAwake(Step(c, s, Work(0, choice)))
  {
    match s.workers[0]
    case Building => case Connecting => case Validate => case CheckApproval => case ArmApproval => case AwaitApproval(_) =>
    case EnterSetup => case CheckAuthorized => case ArmAuthorized => case AwaitAuthorized(_) => case Promoting => case SetReady => case Serving =>
    case Returned(_) => case Finishing(_) => case Done =>
  }

  lemma StartKeepsGate(s: Sys, i: nat, spawned: bool)
    requires GateAwake(s) && i < |s.starts|
    ensures GateAwake(StartStep(s, i, spawned))
  {
    match s.starts[i]
    case ReadIdle => case SetStarting => case Spawn => case StoreHandle(_) => case StartDone =>
  }

  lemma StepKeepsGate(c: Config, s: Sys, e: Event)
    requires GateAwake(s)
    ensures GateAwake(Step(c, s, e))
  {
    match e
    case Work(i, choice) => if |s.workers| == 1 && i == 0 { WorkKeepsGate(c, s, choice); }
    case StepCall(k, room) =>
      if k < |s.calls| {
        var j := Joined(s, s.calls[k]);
        CallWakes(s.sh, s.calls[k], room, j);
        CallKeepsGate(s, k, CallWrites(s.sh, s.calls[k]), CallNext(s.sh, s.calls[k], room, j));
      }
    case StepStart(i, spawned) => if i < |s.starts| { StartKeepsGate(s, i, spawned); }
    case Begin(_) =>
    case BeginStart =>
  }

  /** Opening a gate is never missed by the only worker: asleep at a gate whose call has finished, it
      sleeps because the gate is still closed, or has a permit to consume. */
  lemma {:induction false} GateWakeupsNotLost(c: Config, ss: seq<Sys>, events: seq<Event>, n: nat)
    requires IsRun(c, ss, events) && n <= |events|
    ensures GateAwake(ss[n])
  {
    if n > 0 {
      GateWakeupsNotLost(c, ss, events, n - 1);
      assert ss[n] == Step(c, ss[n - 1], events[n - 1]);
      StepKeepsGate(c, ss[n - 1], events[n - 1]);
    }
  }

  // ---------------------------------------------------------------- two workers

  /** The worker sleeps at the open certificate gate: nothing is stored for it, no call is about to
      store anything, and no broadcast has come since its wait was created. */
  ghost predicate StrandedAtApproval(s: Sys, i: nat) {
    && i < |s.workers| && s.workers[i] == AwaitApproval(s.sh.broadcasts)
    && s.sh.approved && !s.sh.approvePermit && ApproveNotify !in s.calls
  }

  /** The same at the session gate. */
  ghost predicate StrandedAtSession(s: Sys, i: nat) {
    && i < |s.workers| && s.workers[i] == AwaitAuthorized(s.sh.broadcasts)
    && s.sh.authorized && !s.sh.authorizePermit && AuthorizeNotify !in s.calls
  }

  /** Steps of two workers. */
  lemma ReachOne(c: Config, s: Sys, a: Worker, b: Worker, t: Sys)
    requires Reachable(c, s) && s.workers == [a, b]
    requires t == s.(sh := WorkerWrites(c, s.sh, a, Go), workers := [WorkerNext(c, s.sh, a, Go), b])
    ensures Reachable(c, t)
  {
    assert s.workers[0 := WorkerNext(c, s.sh, a, Go)] == t.workers;
    ReachNext(c, s, Work(0, Go), t);
  }

  lemma ReachTwo(c: Config, s: Sys, a: Worker, b: Worker, t: Sys)
    requires Reachable(c, s) && s.workers == [a, b]
    requires t == s.(sh := WorkerWrites(c, s.sh, b, Go), workers := [a, WorkerNext(c, s.sh, b, Go)])
    ensures Reachable(c, t)
  {
    assert s.workers[1 := WorkerNext(c, s.sh, b, Go)] == t.workers;
    ReachNext(c, s, Work(1, Go), t);
  }

  /** Both take the same step, when the first one's changes nothing the second looks at. */
  lemma ReachBoth(c: Config, s: Sys, a: Worker, b: Worker, sh: Shared)
    requires Reachable(c, s) && s.workers == [a, a] && sh == WorkerWrites(c, s.sh, a, Go) == WorkerWrites(c, sh, a, Go)
    requires b == WorkerNext(c, s.sh, a, Go) == WorkerNext(c, sh, a, Go)
    ensures Reachable(c, s.(sh := sh, workers := [b, b]))
  {
    var t := s.(sh := sh, workers := [b, a]);
    ReachOne(c, s, a, a, t);
    ReachTwo(c, t, b, a, s.(sh := sh, workers := [b, b]));
  }

  /** Two start calls may both read Idle, */
  lemma ReachTwoStarts(c: Config)
    ensures Reachable(c, Created.(starts := [SetStarting, SetStarting]))
  {
    var a := Created.(starts := [ReadIdle]);
    var b := Created.(starts := [ReadIdle, ReadIdle]);
    var d := Created.(starts := [SetStarting, ReadIdle]);
    ReachCreated(c);
    ReachNext(c, Created, BeginStart, a);
    ReachNext(c, a, BeginStart, b);
    ReachNext(c, b, StepStart(0, true), d);
    ReachNext(c, d, StepStart(1, true), Created.(starts := [SetStarting, SetStarting]));
  }

  function Pair(st: EndpointState, certificate: bool, w: Worker): Sys {
    Sys(Shared(st, false, certificate, false, false, false, false, 0, None),
        [StoreHandle(0), StoreHandle(1)], [w, w], [], [], false)
  }

  /** and then spawn two workers. */
  lemma ReachTwoWorkers(c: Config)
    ensures Reachable(c, Pair(Starting, false, Connecting))
  {
    var f := Created.(starts := [SetStarting, SetStarting]);
    var g := SetState(Created, Starting).(starts := [Spawn, SetStarting]);
    var h := SetState(Created, Starting).(starts := [Spawn, Spawn]);
    var k := h.(starts := [StoreHandle(0), Spawn], workers := [Building]);
    var p := Pair(Starting, false, Building);
    ReachTwoStarts(c);
    ReachNext(c, f, StepStart(0, true), g);
    ReachNext(c, g, StepStart(1, true), h);
    ReachNext(c, h, StepStart(0, true), k);
    ReachNext(c, k, StepStart(1, true), p);
    ReachBoth(c, p, Building, Connecting, p.sh);
  }

  lemma ReachTwoChecks(c: Config)
    requires Validates(c)
    ensures Reachable(c, Pair(PeerValidation, true, CheckApproval))
  {
    var p, q := Pair(Starting, false, Connecting), Pair(Starting, true, Validate);
    ReachTwoWorkers(c);
    ReachBoth(c, p, Connecting, Validate, q.sh);
    ReachBoth(c, q, Validate, CheckApproval, Pair(PeerValidation, true, CheckApproval).sh);
  }

  /** The single permit wakes one of two waiting workers and strands the other. */
  lemma ReachStrandedAtApproval(c: Config) returns (s: Sys)
    requires ApprovalRequired(c)
    ensures Reachable(c, s) && |s.workers| == 2 && StrandedAtApproval(s, 1)
  {
    var p := Pair(PeerValidation, true, CheckApproval);
    ReachTwoChecks(c);
    ReachBoth(c, p, CheckApproval, ArmApproval, p.sh);
    var q := p.(workers := [ArmApproval, ArmApproval]);
    ReachBoth(c, q, ArmApproval, AwaitApproval(0), p.sh);
    var r := EndpointReach.ReachApproval(c, p.(workers := [AwaitApproval(0), AwaitApproval(0)]));
    s := r.(sh := r.sh.(approvePermit := false), workers := [CheckApproval, AwaitApproval(0)]);
    ReachOne(c, r, AwaitApproval(0), AwaitApproval(0), s);
  }

  /** Two workers at the entrance of the setup phase. */
  lemma ReachTwoSetups(c: Config) returns (s: Sys)
    requires c.setup && !(c.client && c.pinned)
    ensures Reachable(c, s) && s.workers == [EnterSetup, EnterSetup] && s.sh.broadcasts == 0
    ensures !s.sh.authorized && !s.sh.authorizePermit && AuthorizeNotify !in s.calls
  {
    if c.client {
      ReachTwoChecks(c);
      var p := EndpointReach.ReachApproval(c, Pair(PeerValidation, true, CheckApproval));
      ReachBoth(c, p, CheckApproval, EnterSetup, p.sh);
      s := p.(workers := [EnterSetup, EnterSetup]);
    } else {
      var p := Pair(Starting, false, Connecting);
      ReachTwoWorkers(c);
      ReachBoth(c, p, Connecting, EnterSetup, p.sh);
      s := p.(workers := [EnterSetup, EnterSetup]);
    }
  }

  lemma ReachTwoSessionWaits(c: Config) returns (s: Sys)
    requires c.setup && !(c.client && c.pinned)
    ensures Reachable(c, s) && s.workers == [AwaitAuthorized(0), AwaitAuthorized(0)]
    ensures s.sh.broadcasts == 0 && s.sh.state == SetupReady && !s.sh.authorized && AuthorizeNotify !in s.calls
  {
    var p := ReachTwoSetups(c);
    var sh := p.sh.(state := SetupReady);
    ReachBoth(c, p, EnterSetup, CheckAuthorized, sh);
    var q := p.(sh := sh, workers := [CheckAuthorized, CheckAuthorized]);
    ReachBoth(c, q, CheckAuthorized, ArmAuthorized, sh);
    var r := p.(sh := sh, workers := [ArmAuthorized, ArmAuthorized]);
    ReachBoth(c, r, ArmAuthorized, AwaitAuthorized(0), sh);
    s := p.(sh := sh, workers := [AwaitAuthorized(0), AwaitAuthorized(0)]);
  }

  lemma ReachStrandedAtSession(c: Config) returns (s: Sys)
    requires c.setup && !(c.client && c.pinned)
    ensures Reachable(c, s) && |s.workers| == 2 && StrandedAtSession(s, 1)
  {
    var p := ReachTwoSessionWaits(c);
    var t := EndpointReach.ReachAuthorization(c, p);
    s := t.(sh := t.sh.(authorizePermit := false), workers := [CheckAuthorized, AwaitAuthorized(0)]);
    ReachOne(c, t, AwaitAuthorized(0), AwaitAuthorized(0), s);
  }

  lemma ReachableAwake(c: Config, s: Sys)
    requires Reachable(c, s)
    ensures GateAwake(s)
  {
    var ss: seq<Sys>, events: seq<Event> :| IsRun(c, ss, events) && ss[|events|] == s;
    GateWakeupsNotLost(c, ss, events, |events|);
  }

  /** With at most n workers, some run strands a worker at the open certificate gate. */
  ghost predicate CanStrandAtApproval(c: Config, n: nat) {
    exists s, i: nat :: Reachable(c, s) && |s.workers| <= n && StrandedAtApproval(s, i)
  }

  ghost predicate CanStrandAtSession(c: Config, n: nat) {
    exists s, i: nat :: Reachable(c, s) && |s.workers| <= n && StrandedAtSession(s, i)
  }

  /** Exactly when a wakeup of the certificate gate can be lost: the gate can be opened at all, and
      racing start calls have made two workers. */
  lemma ApprovalStrandsIff(c: Config, n: nat)
    ensures CanStrandAtApproval(c, n) <==> n >= 2 && c.client && !c.pinned
  {
    if n >= 2 && ApprovalRequired(c) {
      var s := ReachStrandedAtApproval(c);
    }
    forall s, i: nat | Reachable(c, s) && |s.workers| <= n && StrandedAtApproval(s, i)
      ensures n >= 2 && ApprovalRequired(c)
    {
      ReachableKeeps(c, s);
      ReachableAwake(c, s);
    }
  }

  /** The same for the session gate, which every setup endpoint but the pinned client can reach. */
  lemma SessionStrandsIff(c: Config, n: nat)
    ensures CanStrandAtSession(c, n) <==> n >= 2 && c.setup && !(c.client && c.pinned)
  {
    if n >= 2 && c.setup && !(c.client && c.pinned) {
      var s := ReachStrandedAtSession(c);
    }
    forall s, i: nat | Reachable(c, s) && |s.workers| <= n && StrandedAtSession(s, i)
      ensures n >= 2 && c.setup && !(c.client && c.pinned)
    {
      ReachableKeeps(c, s);
      ReachableAwake(c, s);
      assert WorkerOk(c, FactsOf(s), s.workers[i]);
    }
  }
}
