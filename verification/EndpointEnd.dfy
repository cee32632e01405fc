/** How the native endpoint ends when nobody stops it, for any number of start calls and workers. */
module EndpointEnd {
  import opened NativeQueues
  import opened Wrappers
  import opened EndpointGates

  // ---------------------------------------------------------------- without a stop call

  /** Someone will still decide the state: a start about to spawn, or a worker that has not ended. */
  ghost predicate Undecided(s: Sys) {
    || (exists i | 0 <= i < |s.starts| :: s.starts[i].Spawn?)
    || (exists i | 0 <= i < |s.workers| :: !s.workers[i].Done?)
  }

  ghost predicate Unstopped(s: Sys) {
    !s.stopCalled ==>
      && (s.sh.state == Idle || s.sh.state == Failed || Undecided(s))
      && (s.workers != [] || (exists i | 0 <= i < |s.starts| :: s.starts[i].Spawn?) ==> s.sh.state != Idle)
      && (forall i | 0 <= i < |s.workers| :: s.workers[i].Finishing? ==> !s.workers[i].stopSeen)
  }

  /** Calls other than stop never write the state. */
  lemma OnlyStopWritesState(sh: Shared, call: Call)
    ensures StopStage(call) || CallWrites(sh, call).state == sh.state
  {
    match call
    case ApproveState => case ApproveCertificate => case ApproveSwap => case ApproveNotify =>
    case AuthorizeState => case AuthorizeSwap => case AuthorizeNotify =>
    case SendState(_) => case SendPush(_) =>
    case StopState => case StopIdle => case StopSet => case StopStore => case StopNotify =>
    case StopTake => case StopJoin(_) => case StopRead => case StopFinal =>
    case Answer(_) =>
  }

  /** A worker that has not ended stays so until the step that writes the terminal state. */
  lemma WorkerDecides(c: Config, sh: Shared, w: Worker, choice: Choice)
    ensures var sh', next := WorkerWrites(c, sh, w, choice), WorkerNext(c, sh, w, choice);
            && (sh'.state == sh.state || sh'.state != Idle)
            && (w.Done? ==> sh' == sh && next == w)
            && (next.Done? && !w.Done? ==>
                  (w.Finishing? && sh'.state == if w.stopSeen then Stopped else Failed)
                  || (w.Building? && sh'.state == Failed))
            && (next.Finishing? ==> w.Returned? && next.stopSeen == sh.stop)
  {
    match w
    case Building => case Connecting => case Validate => case CheckApproval => case ArmApproval => case AwaitApproval(_) =>
    case EnterSetup => case CheckAuthorized => case ArmAuthorized => case AwaitAuthorized(_) => case Promoting => case SetReady => case Serving =>
    case Returned(_) => case Finishing(_) => case Done =>
  }

  lemma WorkKeeps(c: Config, s: Sys, i: nat, choice: Choice)
    requires PartsOk(c, s) && Unstopped(s) && i < |s.workers|
    ensures Unstopped(Step(c, s, Work(i, choice)))
  {
    if !s.stopCalled {
      var t := Step(c, s, Work(i, choice));
      WorkerDecides(c, s.sh, s.workers[i], choice);
      assert t.workers[i] == WorkerNext(c, s.sh, s.workers[i], choice);
      if s.workers[i].Done? {
        assert t == s;
      } else if !t.workers[i].Done? {
        assert Undecided(t);
      }
    }
  }

  lemma StartKeeps(s: Sys, i: nat, spawned: bool)
    requires Unstopped(s) && i < |s.starts|
    ensures Unstopped(StartStep(s, i, spawned))
  {
    if !s.stopCalled {
      var t := StartStep(s, i, spawned);
      match s.starts[i]
      case ReadIdle =>
        assert forall k | 0 <= k < |s.starts| && k != i :: t.starts[k] == s.starts[k];
        SameUndecided(s, t, i);
      case SetStarting => assert t.starts[i].Spawn?;
      case Spawn => if spawned { assert !t.workers[|s.workers|].Done?; }
      case StoreHandle(_) =>
        SameUndecided(s, t, i);
      case StartDone =>
    }
  }

  /** A start call that neither was nor becomes about to spawn changes nothing here. */
  lemma SameUndecided(s: Sys, t: Sys, i: nat)
    requires i < |s.starts| == |t.starts| && t.workers == s.workers && !s.starts[i].Spawn? && !t.starts[i].Spawn?
    requires forall k | 0 <= k < |s.starts| && k != i :: t.starts[k] == s.starts[k]
    ensures Undecided(t) <==> Undecided(s)
    ensures (exists k | 0 <= k < |t.starts| :: t.starts[k].Spawn?) <==> (exists k | 0 <= k < |s.starts| :: s.starts[k].Spawn?)
  {
    if k :| 0 <= k < |s.starts| && s.starts[k].Spawn? { assert t.starts[k].Spawn?; }
    if k :| 0 <= k < |t.starts| && t.starts[k].Spawn? { assert s.starts[k].Spawn?; }
  }

  lemma BeginStartKeeps(c: Config, s: Sys)
    requires Unstopped(s)
    ensures Unstopped(Step(c, s, BeginStart))
  {
    var t := Step(c, s, BeginStart);
    if k :| 0 <= k < |s.starts| && s.starts[k].Spawn? { assert t.starts[k].Spawn?; }
    assert forall k | 0 <= k < |s.starts| :: t.starts[k] == s.starts[k];
  }

  lemma StepKeeps(c: Config, s: Sys, e: Event)
    requires PartsOk(c, s) && Unstopped(s)
    ensures Unstopped(Step(c, s, e))
  {
    match e
    case Work(i, choice) => if i < |s.workers| { WorkKeeps(c, s, i, choice); }
    case StepCall(k, room) =>
      if k < |s.calls| {
        assert CallOk(c, FactsOf(s), s.calls[k]);
        OnlyStopWritesState(s.sh, s.calls[k]);
      }
    case StepStart(i, spawned) => if i < |s.starts| { StartKeeps(s, i, spawned); }
    case Begin(_) =>
    case BeginStart => BeginStartKeeps(c, s);
  }

  lemma {:induction false} RunKeepsUnstopped(c: Config, ss: seq<Sys>, events: seq<Event>, n: nat)
    requires IsRun(c, ss, events) && n <= |events|
    ensures Unstopped(ss[n])
  {
    if n > 0 {
      RunKeepsUnstopped(c, ss, events, n - 1);
      RunKeeps(c, ss, events, n - 1);
      assert ss[n] == Step(c, ss[n - 1], events[n - 1]);
      StepKeeps(c, ss[n - 1], events[n - 1]);
    }
  }

  // ---------------------------------------------------------------- what every run satisfies

  /** Workers were started, all have ended, and no start call is about to spawn another. */
  ghost predicate Over(s: Sys) {
    && s.workers != []
    && (forall i | 0 <= i < |s.workers| :: s.workers[i].Done?)
    && (forall i | 0 <= i < |s.starts| :: !s.starts[i].Spawn?)
  }

  /** Once all workers have ended and nobody called stop, the endpoint has failed, however many start
      calls raced. */
  lemma EndedWorkersLeaveFailed(c: Config, ss: seq<Sys>, events: seq<Event>, n: nat)
    requires IsRun(c, ss, events) && n <= |events| && !ss[n].stopCalled && Over(ss[n])
    ensures ss[n].sh.state == Failed && !ss[n].sh.stop
  {
    RunKeepsUnstopped(c, ss, events, n);
    RunKeeps(c, ss, events, n);
    assert !Undecided(ss[n]);
  }

  /** A receive call that begins there and reads the state again there returns queued packets first
      and then the runtime error at once, never a timeout. */
  lemma EndedWorkerReportsRuntime(c: Config, ss: seq<Sys>, events: seq<Event>, n: nat, m: nat,
                                  queue: seq<Packet>, wakes: seq<Wake>, gap: Gap, capacity: nat)
    requires IsRun(c, ss, events) && n <= m <= |events| && !ss[m].stopCalled && !ss[n].stopCalled
    requires Over(ss[n]) && Over(ss[m]) && gap.state == ss[m].sh.state
    ensures var r := Receive(queue, ss[n].sh.state, ss[n].sh.stop, wakes, gap, capacity);
            if queue == [] then r.code == Runtime && r.packet == None
            else if |queue[0].payload| <= capacity then r == Received(Ok, Some(queue[0]), (queue + gap.arrived)[1..])
            else r == Received(BufferTooSmall, None, queue + gap.arrived)
  {
    EndedWorkersLeaveFailed(c, ss, events, n);
    EndedWorkersLeaveFailed(c, ss, events, m);
  }

  /** No start call that has seen Idle is left: nothing can bring the endpoint back. */
  ghost predicate Final(s: Sys) {
    Over(s) && forall i | 0 <= i < |s.starts| :: !s.starts[i].SetStarting?
  }

  lemma StepStaysFinal(c: Config, s: Sys, e: Event)
    requires Final(s) && s.sh.state == Failed
    ensures Final(Step(c, s, e))
  {
    match e
    case Work(i, choice) => if i < |s.workers| { WorkerDecides(c, s.sh, s.workers[i], choice); }
    case StepStart(i, spawned) =>
      if i < |s.starts| {
        match s.starts[i]
        case ReadIdle => case SetStarting => case Spawn => case StoreHandle(_) => case StartDone =>
      }
    case StepCall(_, _) => case Begin(_) => case BeginStart =>
  }

  /** From then on every state until a stop call is the same kind of end, so every later receive on a
      drained queue gets the runtime error. */
  lemma {:induction false} FinalStays(c: Config, ss: seq<Sys>, events: seq<Event>, n: nat, m: nat)
    requires IsRun(c, ss, events) && n <= m <= |events| && Final(ss[n]) && !ss[m].stopCalled
    ensures Final(ss[m]) && ss[m].sh.state == Failed && !ss[n].stopCalled
  {
    if n < m {
      assert ss[m] == Step(c, ss[m - 1], events[m - 1]);
      StopStaysCalled(c, ss[m - 1], events[m - 1]);
      FinalStays(c, ss, events, n, m - 1);
      StepStaysFinal(c, ss[m - 1], events[m - 1]);
    }
    EndedWorkersLeaveFailed(c, ss, events, m);
  }

  lemma StopStaysCalled(c: Config, s: Sys, e: Event)
    ensures s.stopCalled ==> Step(c, s, e).stopCalled
  {
  }

  /** Receive calls made one after another at whatever points of the run after that: the packets the
      workers left behind come first, in order, and every later call gets the runtime error.  With all
      workers ended nothing arrives any more. */
  lemma ReceivesAfterTheEnd(c: Config, ss: seq<Sys>, events: seq<Event>, n: nat,
                            begins: seq<nat>, rereads: seq<nat>, queue: seq<Packet>, visits: seq<Visit>, capacity: nat, k: nat)
    requires IsRun(c, ss, events) && n <= |events| && Final(ss[n])
    requires |begins| == |rereads| == |visits| && k < |visits|
    requires forall j | 0 <= j < |visits| ::
               && n <= begins[j] <= |events| && n <= rereads[j] <= |events|
               && !ss[begins[j]].stopCalled && !ss[rereads[j]].stopCalled
               && visits[j].state == ss[begins[j]].sh.state && visits[j].gap == Gap([], ss[rereads[j]].sh.state)
    requires forall j | 0 <= j < |queue| :: |queue[j].payload| <= capacity
    ensures var rs := ReceiveAll(queue, visits, capacity);
            && |rs| == |visits|
            && (k < |queue| ==> rs[k].code == Ok && rs[k].packet == Some(queue[k]))
            && (k >= |queue| ==> rs[k].code == Runtime && rs[k].packet == None)
  {
    forall j | 0 <= j < |visits| ensures visits[j].state == Failed && visits[j].gap == Gap([], Failed) {
      FinalStays(c, ss, events, n, begins[j]);
      FinalStays(c, ss, events, n, rereads[j]);
    }
    FailedEndpointDrains(queue, visits, capacity, k);
  }

  /** Without a stop call a worker cannot end but through a step that leaves Failed. */
  lemma {:induction false} WorkerEndsInFailed(c: Config, ss: seq<Sys>, events: seq<Event>, n: nat, m: nat, i: nat) returns (k: nat)
    requires IsRun(c, ss, events) && n <= m <= |events| && i < |ss[n].workers| && !ss[n].workers[i].Done?
    requires i < |ss[m].workers| && ss[m].workers[i].Done? && !ss[m].stopCalled
    ensures n <= k < m && ss[k + 1].sh.state == Failed
    ensures i < |ss[k].workers| && !ss[k].workers[i].Done? && events[k].Work? && events[k].i == i
  {
    var s, e := ss[m - 1], events[m - 1];
    assert ss[m] == Step(c, s, e);
    StopStaysCalled(c, s, e);
    WorkersStay(c, s, e, i, ss[m]);
    if s.workers[i].Done? {
      k := WorkerEndsInFailed(c, ss, events, n, m - 1, i);
    } else {
      k := m - 1;
      RunKeepsUnstopped(c, ss, events, k);
      WorkerDecides(c, s.sh, s.workers[i], e.choice);
    }
  }

  /** Only a worker's own step changes it, and a worker that appears has not ended. */
  lemma WorkersStay(c: Config, s: Sys, e: Event, i: nat, t: Sys)
    requires t == Step(c, s, e) && i < |t.workers| && t.workers[i].Done?
    ensures i < |s.workers| && (t.workers[i] == s.workers[i] || (e.Work? && e.i == i))
  {
    match e
    case StepStart(j, spawned) => if j < |s.starts| { StartFrame(s, j, spawned); }
    case Work(_, _) => case StepCall(_, _) => case Begin(_) => case BeginStart =>
  }
}
