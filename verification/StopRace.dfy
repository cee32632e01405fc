/** A stop against a worker that validates the peer's certificate.  The validation wait does not read
    the stop flag again, and a broadcast completes its approval arm as well as its stop arm. */
module StopRace {
  import opened NativeQueues
  import opened Wrappers
  import opened EndpointGates
  import EndpointReach

  // ---------------------------------------------------------------- facts about permits and waits

  predicate Validating(w: Worker) { w.Validate? || w.CheckApproval? || w.ArmApproval? || w.AwaitApproval? }

  /** The worker has not passed the approval yet. */
  predicate BeforeApproval(w: Worker) { w.Building? || w.Connecting? || Validating(w) }

  predicate Ended(w: Worker) { w.Returned? || w.Finishing? || w.Done? }

  /** The approval's one wakeup: at most one call is about to store it, and not once it is stored. */
  ghost predicate OneWakeup(permit: bool, calls: seq<Call>) {
    && (permit ==> ApproveNotify !in calls)
    && forall j, k | 0 <= j < k < |calls| :: !(calls[j].ApproveNotify? && calls[k].ApproveNotify?)
  }

  ghost predicate Waits(c: Config, s: Sys) {
    && (s.sh.approvePermit || ApproveNotify in s.calls ==> s.sh.approved)
    && OneWakeup(s.sh.approvePermit, s.calls)
    && forall i | 0 <= i < |s.workers| ::
         && (Validating(s.workers[i]) ==> Validates(c))
         && (s.workers[i].AwaitApproval? ==> s.workers[i].seen <= s.sh.broadcasts)
  }

  lemma CallFacts(sh: Shared, call: Call, room: bool, joined: bool)
    requires call.ApproveNotify? ==> sh.approved
    requires sh.approvePermit ==> sh.approved
    ensures var sh', next := CallWrites(sh, call), CallNext(sh, call, room, joined);
            && (sh.approved ==> sh'.approved) && sh'.broadcasts >= sh.broadcasts
            && (sh'.approvePermit || next.ApproveNotify? ==> sh'.approved)
            && (sh'.approvePermit <==> sh.approvePermit || call.ApproveNotify?)
            && (next.ApproveNotify? ==> !sh.approved) && (call.ApproveNotify? ==> !next.ApproveNotify?)
  {
    match call
    case ApproveState => case ApproveCertificate => case ApproveSwap => case ApproveNotify =>
    case AuthorizeState => case AuthorizeSwap => case AuthorizeNotify =>
    case SendState(_) => case SendPush(_) =>
    case StopState => case StopIdle => case StopSet => case StopStore => case StopNotify =>
    case StopTake => case StopJoin(_) => case StopRead => case StopFinal =>
    case Answer(_) =>
  }

  lemma WorkerFacts(c: Config, sh: Shared, w: Worker, choice: Choice)
    requires (Validating(w) ==> Validates(c)) && (w.AwaitApproval? ==> w.seen <= sh.broadcasts)
    ensures var sh', next := WorkerWrites(c, sh, w, choice), WorkerNext(c, sh, w, choice);
            && sh'.approved == sh.approved && (sh'.approvePermit ==> sh.approvePermit) && sh'.broadcasts >= sh.broadcasts
            && (Validating(next) ==> Validates(c)) && (next.AwaitApproval? ==> next.seen <= sh'.broadcasts)
  {
    match w
    case Building => case Connecting => case Validate => case CheckApproval => case ArmApproval => case AwaitApproval(_) =>
    case EnterSetup => case CheckAuthorized => case ArmAuthorized => case AwaitAuthorized(_) => case Promoting => case SetReady => case Serving =>
    case Returned(_) => case Finishing(_) => case Done =>
  }

  lemma CallKeepsWaits(c: Config, s: Sys, k: nat, room: bool)
    requires Waits(c, s) && k < |s.calls|
    ensures Waits(c, Step(c, s, StepCall(k, room)))
  {
    var t := Step(c, s, StepCall(k, room));
    CallFacts(s.sh, s.calls[k], room, Joined(s, s.calls[k]));
    assert forall j | 0 <= j < |t.calls| && j != k :: t.calls[j] == s.calls[j];
    forall j | 0 <= j < |t.calls| && t.calls[j] == ApproveNotify
      ensures t.sh.approved && !t.sh.approvePermit
      ensures forall m | 0 <= m < |t.calls| && t.calls[m] == ApproveNotify :: m == j
    {
      if j != k { assert s.calls[j] == ApproveNotify; }
      forall m | 0 <= m < |t.calls| && t.calls[m] == ApproveNotify ensures m == j {
        if m != k { assert s.calls[m] == ApproveNotify; }
      }
    }
  }

  lemma StepKeepsWaits(c: Config, s: Sys, e: Event)
    requires Waits(c, s)
    ensures Waits(c, Step(c, s, e))
  {
    match e
    case StepCall(k, room) => if k < |s.calls| { CallKeepsWaits(c, s, k, room); }
    case Work(i, choice) => if i < |s.workers| { WorkerFacts(c, s.sh, s.workers[i], choice); }
    case StepStart(i, spawned) => if i < |s.starts| { StartKeepsWaits(c, s, i, spawned); }
    case Begin(_) =>
    case BeginStart =>
  }

  lemma StartKeepsWaits(c: Config, s: Sys, i: nat, spawned: bool)
    requires Waits(c, s) && i < |s.starts|
    ensures Waits(c, StartStep(s, i, spawned))
  {
    match s.starts[i]
    case ReadIdle => case SetStarting => case Spawn => case StoreHandle(_) => case StartDone =>
  }

  lemma {:induction false} RunKeepsWaits(c: Config, ss: seq<Sys>, events: seq<Event>, n: nat)
    requires IsRun(c, ss, events) && n <= |events|
    ensures Waits(c, ss[n])
  {
    if n > 0 {
      RunKeepsWaits(c, ss, events, n - 1);
      assert ss[n] == Step(c, ss[n - 1], events[n - 1]);
      StepKeepsWaits(c, ss[n - 1], events[n - 1]);
    }
  }

  // ---------------------------------------------------------------- stuck workers

  /** Neither the approval arm nor the stop arm of the worker's wait can complete, and no call is about
      to change that. */
  ghost predicate Stuck(c: Config, s: Sys, i: nat) {
    && i < |s.workers| && s.workers[i].AwaitApproval? && ApproveNotify !in s.calls
    && Step(c, s, Work(i, Go)) == s && Step(c, s, Work(i, TakeStop)) == s
  }

  lemma StuckIff(c: Config, s: Sys, i: nat)
    requires i < |s.workers| && s.workers[i].AwaitApproval?
    ensures Stuck(c, s, i) <==>
            s.workers[i].seen == s.sh.broadcasts && !s.sh.approvePermit && ApproveNotify !in s.calls
  {
    var seen := s.workers[i].seen;
    if seen == s.sh.broadcasts && !s.sh.approvePermit {
      assert s.workers[i := s.workers[i]] == s.workers;
    } else {
      assert WorkerNext(c, s.sh, s.workers[i], Go) == CheckApproval;
      assert Step(c, s, Work(i, Go)).workers[i] == CheckApproval;
    }
  }

  /** The stop call's own broadcast. */
  ghost predicate StopBroadcasts(s: Sys, e: Event) {
    e.StepCall? && e.k < |s.calls| && s.calls[e.k].StopNotify?
  }

  // ---------------------------------------------------------------- what becomes of a worker

  /** The arm the worker's first step in from..to takes, if it steps at all. */
  function FirstChoice(events: seq<Event>, from: nat, to: nat, i: nat): Option<Choice>
    requires from <= to <= |events|
  {
    if from == to then None else OrChoice(FirstChoice(events, from, to - 1, i), events[to - 1], i)
  }

  function OrChoice(before: Option<Choice>, e: Event, i: nat): Option<Choice> {
    if before.None? && e.Work? && e.i == i then Some(e.choice) else before
  }

  /** One step of a worker while nobody approves, broadcasts or closes. */
  lemma WaitNext(c: Config, sh: Shared, w: Worker, choice: Choice)
    requires Validates(c) && BeforeApproval(w) && !sh.approved && !sh.approvePermit && !choice.Close?
    requires w.AwaitApproval? ==> w.seen <= sh.broadcasts
    ensures var next := WorkerNext(c, sh, w, choice);
            if w.AwaitApproval? && w.seen == sh.broadcasts then next == w
            else if w.AwaitApproval? && choice.TakeStop? then next == Returned(true)
            else BeforeApproval(next) && (next.AwaitApproval? ==> next.seen == sh.broadcasts)
  {
    match w
    case Building => case Connecting => case Validate => case CheckApproval => case ArmApproval => case AwaitApproval(_) =>
  }

  lemma EndedStays(c: Config, sh: Shared, w: Worker, choice: Choice)
    requires Ended(w)
    ensures Ended(WorkerNext(c, sh, w, choice))
  {
    match w
    case Returned(_) => case Finishing(_) => case Done =>
  }

  /** Where the worker stands: untouched since the broadcast, ended by the stop arm, or past it and
      bound for a wait that the broadcast does not reach. */
  ghost predicate Fate(w: Worker, was: Worker, first: Option<Choice>, broadcasts: nat) {
    if first.None? then w == was
    else if was.AwaitApproval? && first.value.TakeStop? then Ended(w)
    else BeforeApproval(w) && (w.AwaitApproval? ==> w.seen == broadcasts)
  }

  lemma ApprovedStays(c: Config, s: Sys, e: Event)
    requires Waits(c, s)
    ensures s.sh.approved ==> Step(c, s, e).sh.approved
  {
    match e
    case StepCall(k, room) =>
      if k < |s.calls| { CallFacts(s.sh, s.calls[k], room, Joined(s, s.calls[k])); }
    case Work(i, choice) => if i < |s.workers| { WorkerFacts(c, s.sh, s.workers[i], choice); }
    case StepStart(i, spawned) => if i < |s.starts| { StartFrame(s, i, spawned); }
    case Begin(_) => case BeginStart =>
  }

  lemma FateStep(c: Config, s: Sys, e: Event, t: Sys, i: nat, was: Worker, first: Option<Choice>)
    requires t == Step(c, s, e) && Validates(c) && Waits(c, s) && i < |s.workers|
    requires BeforeApproval(was) && (was.AwaitApproval? ==> was.seen < s.sh.broadcasts)
    requires Fate(s.workers[i], was, first, s.sh.broadcasts)
    requires !t.sh.approved && t.sh.broadcasts == s.sh.broadcasts
    requires e.Work? && e.i == i ==> !e.choice.Close?
    ensures i < |t.workers| && Fate(t.workers[i], was, OrChoice(first, e, i), t.sh.broadcasts)
  {
    ApprovedStays(c, s, e);
    if e.Work? && e.i == i {
      var w := s.workers[i];
      assert t.workers[i] == WorkerNext(c, s.sh, w, e.choice);
      if Ended(w) { EndedStays(c, s.sh, w, e.choice); } else { WaitNext(c, s.sh, w, e.choice); }
    } else {
      OthersLeaveWorker(c, s, e, i);
    }
  }

  /** While nobody approves, broadcasts again or closes the connection, the fate is settled by the
      worker's first step. */
  lemma {:induction false} FateHolds(c: Config, ss: seq<Sys>, events: seq<Event>, k: nat, n: nat, i: nat)
    requires IsRun(c, ss, events) && k < n <= |events| && Validates(c)
    requires i < |ss[k].workers| && BeforeApproval(ss[k].workers[i]) && StopBroadcasts(ss[k], events[k])
    requires !ss[n].sh.approved && ss[n].sh.broadcasts == ss[k].sh.broadcasts + 1
    requires forall m | k < m < n && events[m].Work? && events[m].i == i :: !events[m].choice.Close?
    ensures i < |ss[n].workers|
    ensures Fate(ss[n].workers[i], ss[k].workers[i], FirstChoice(events, k + 1, n, i), ss[n].sh.broadcasts)
  {
    var s, e := ss[n - 1], events[n - 1];
    assert ss[n] == Step(c, s, e);
    RunKeepsWaits(c, ss, events, k);
    if n - 1 > k {
      RunKeepsWaits(c, ss, events, n - 1);
      ApprovedStays(c, s, e);
      BroadcastsGrow(c, s, e);
      BroadcastCounted(c, ss, events, k, n - 1);
      FateHolds(c, ss, events, k, n - 1, i);
      FateStep(c, s, e, ss[n], i, ss[k].workers[i], FirstChoice(events, k + 1, n - 1, i));
    } else {
      OthersLeaveWorker(c, s, e, i);
    }
  }

  /** The stop's broadcast is counted from its own step on. */
  lemma {:induction false} BroadcastCounted(c: Config, ss: seq<Sys>, events: seq<Event>, k: nat, n: nat)
    requires IsRun(c, ss, events) && k < n <= |events| && StopBroadcasts(ss[k], events[k])
    ensures ss[n].sh.broadcasts > ss[k].sh.broadcasts
  {
    assert ss[n] == Step(c, ss[n - 1], events[n - 1]);
    if n - 1 > k {
      BroadcastCounted(c, ss, events, k, n - 1);
      BroadcastsGrow(c, ss[n - 1], events[n - 1]);
    }
  }

  /** Exactly when a stop ends a worker that has not passed the approval, as long as nobody approves,
      nobody broadcasts again and the peer does not close: the worker was already waiting at the stop's
      own broadcast, and its first step after it takes the stop arm.  Any other first step leads to a
      wait that is stuck. */
  lemma StopEndsWaitIff(c: Config, ss: seq<Sys>, events: seq<Event>, k: nat, n: nat, i: nat)
    requires IsRun(c, ss, events) && k < n <= |events| && Validates(c)
    requires i < |ss[k].workers| && BeforeApproval(ss[k].workers[i]) && StopBroadcasts(ss[k], events[k])
    requires !ss[n].sh.approved && ss[n].sh.broadcasts == ss[k].sh.broadcasts + 1
    requires forall m | k < m < n && events[m].Work? && events[m].i == i :: !events[m].choice.Close?
    ensures i < |ss[n].workers|
    ensures var first := FirstChoice(events, k + 1, n, i);
            && (Ended(ss[n].workers[i]) <==> ss[k].workers[i].AwaitApproval? && first == Some(TakeStop))
            && (first.Some? && ss[n].workers[i].AwaitApproval? ==> Stuck(c, ss[n], i))
  {
    FateHolds(c, ss, events, k, n, i);
    RunKeepsWaits(c, ss, events, n);
    if ss[n].workers[i].AwaitApproval? { StuckIff(c, ss[n], i); }
  }

  // ---------------------------------------------------------------- when a stop can be missed

  ghost predicate IsPath(c: Config, from: Sys, ss: seq<Sys>, events: seq<Event>) {
    && |ss| == |events| + 1 && ss[0] == from
    && forall i {:trigger events[i]} | 0 <= i < |events| :: ss[i + 1] == Step(c, ss[i], events[i])
  }

  /** The worker can get stuck before anything is broadcast again. */
  ghost predicate CanStall(c: Config, s: Sys, i: nat) {
    exists ss: seq<Sys>, events: seq<Event> ::
      && IsPath(c, s, ss, events) && ss[|events|].sh.broadcasts == s.sh.broadcasts && Stuck(c, ss[|events|], i)
  }

  function ToWait(w: Worker, broadcasts: nat): nat {
    match w
    case Building => 5
    case Connecting => 4
    case Validate => 3
    case CheckApproval => 2
    case ArmApproval => 1
    case AwaitApproval(seen) => if seen == broadcasts then 0 else 3
    case _ => 0
  }

  lemma GoOn(c: Config, s: Sys, i: nat) returns (t: Sys)
    requires Validates(c) && Waits(c, s) && i < |s.workers| && BeforeApproval(s.workers[i]) && !s.sh.approved
    requires ToWait(s.workers[i], s.sh.broadcasts) > 0
    ensures t == Step(c, s, Work(i, Go)) && Waits(c, t) && i < |t.workers| && BeforeApproval(t.workers[i])
    ensures !t.sh.approved && t.sh.broadcasts == s.sh.broadcasts
    ensures ToWait(t.workers[i], t.sh.broadcasts) < ToWait(s.workers[i], s.sh.broadcasts)
  {
    t := Step(c, s, Work(i, Go));
    StepKeepsWaits(c, s, Work(i, Go));
    assert t.workers[i] == WorkerNext(c, s.sh, s.workers[i], Go);
    match s.workers[i]
    case Building => case Connecting => case Validate => case CheckApproval => case ArmApproval => case AwaitApproval(_) =>
  }

  lemma {:induction false} Stall(c: Config, s: Sys, i: nat)
    requires Validates(c) && Waits(c, s) && i < |s.workers| && BeforeApproval(s.workers[i]) && !s.sh.approved
    ensures CanStall(c, s, i)
    decreases ToWait(s.workers[i], s.sh.broadcasts)
  {
    if ToWait(s.workers[i], s.sh.broadcasts) == 0 {
      StuckIff(c, s, i);
      assert IsPath(c, s, [s], []);
    } else {
      var t := GoOn(c, s, i);
      Stall(c, t, i);
      var ss: seq<Sys>, events: seq<Event> :|
        IsPath(c, t, ss, events) && ss[|events|].sh.broadcasts == t.sh.broadcasts && Stuck(c, ss[|events|], i);
      Prepend(c, s, Work(i, Go), t, ss, events);
    }
  }

  lemma Prepend(c: Config, s: Sys, e: Event, t: Sys, ss: seq<Sys>, events: seq<Event>)
    requires IsPath(c, t, ss, events) && t == Step(c, s, e)
    ensures IsPath(c, s, [s] + ss, [e] + events)
  {
    var all, es := [s] + ss, [e] + events;
    forall i {:trigger es[i]} | 0 <= i < |es| ensures all[i + 1] == Step(c, all[i], es[i]) {
      if i > 0 { assert es[i] == events[i - 1]; }
    }
  }

  /** The worker's waits are old ones, and it will not enter a new one. */
  ghost predicate Safe(c: Config, approved: bool, w: Worker, broadcasts: nat) {
    && (w.AwaitApproval? ==> w.seen < broadcasts)
    && ((approved && !w.ArmApproval?) || !BeforeApproval(w) || !Validates(c))
  }

  lemma SafeNext(c: Config, sh: Shared, w: Worker, choice: Choice)
    requires Safe(c, sh.approved, w, sh.broadcasts) && (Validating(w) ==> Validates(c))
    ensures Safe(c, sh.approved, WorkerNext(c, sh, w, choice), sh.broadcasts)
  {
    match w
    case Building => case Connecting => case Validate => case CheckApproval => case ArmApproval => case AwaitApproval(_) =>
    case EnterSetup => case CheckAuthorized => case ArmAuthorized => case AwaitAuthorized(_) => case Promoting => case SetReady => case Serving =>
    case Returned(_) => case Finishing(_) => case Done =>
  }

  lemma SafeStep(c: Config, s: Sys, e: Event, t: Sys, i: nat)
    requires t == Step(c, s, e) && Waits(c, s) && i < |s.workers| && t.sh.broadcasts == s.sh.broadcasts
    requires Safe(c, s.sh.approved, s.workers[i], s.sh.broadcasts)
    ensures i < |t.workers| && Safe(c, t.sh.approved, t.workers[i], t.sh.broadcasts)
  {
    ApprovedStays(c, s, e);
    if e.Work? && e.i == i {
      SafeNext(c, s.sh, s.workers[i], e.choice);
    } else {
      OthersLeaveWorker(c, s, e, i);
    }
  }

  lemma {:induction false} SafePath(c: Config, s: Sys, ss: seq<Sys>, events: seq<Event>, i: nat, n: nat)
    requires IsPath(c, s, ss, events) && n <= |events| && Waits(c, s) && i < |s.workers|
    requires Safe(c, s.sh.approved, s.workers[i], s.sh.broadcasts) && ss[n].sh.broadcasts == s.sh.broadcasts
    ensures Waits(c, ss[n]) && i < |ss[n].workers| && Safe(c, ss[n].sh.approved, ss[n].workers[i], s.sh.broadcasts)
  {
    if n > 0 {
      var e := events[n - 1];
      BroadcastsGrow(c, ss[n - 1], e);
      PathBroadcasts(c, s, ss, events, n - 1);
      SafePath(c, s, ss, events, i, n - 1);
      StepKeepsWaits(c, ss[n - 1], e);
      SafeStep(c, ss[n - 1], e, ss[n], i);
    }
  }

  lemma {:induction false} PathBroadcasts(c: Config, s: Sys, ss: seq<Sys>, events: seq<Event>, n: nat)
    requires IsPath(c, s, ss, events) && n <= |events|
    ensures ss[n].sh.broadcasts >= s.sh.broadcasts
  {
    if n > 0 {
      var e := events[n - 1];
      PathBroadcasts(c, s, ss, events, n - 1);
      BroadcastsGrow(c, ss[n - 1], e);
    }
  }

  /** The worker is about to wait for an approval already given, but its wakeup is stored or about to
      be, and no other worker can take it. */
  ghost predicate Guarded(s: Sys, i: nat, broadcasts: nat) {
    && i < |s.workers| && s.sh.approved && s.sh.broadcasts == broadcasts
    && (forall j | 0 <= j < |s.workers| && j != i ::
          !s.workers[j].ArmApproval? && (s.workers[j].AwaitApproval? ==> s.workers[j].seen < broadcasts))
    && (s.workers[i].ArmApproval? || s.workers[i].AwaitApproval? ==>
          s.sh.approvePermit || ApproveNotify in s.calls || (s.workers[i].AwaitApproval? && s.workers[i].seen < broadcasts))
  }

  /** Once the approval is given, only the wait that was being entered can still be entered, and only a
      wait no broadcast followed takes the permit. */
  lemma ApprovedNext(c: Config, sh: Shared, w: Worker, choice: Choice)
    requires sh.approved
    ensures var sh', next := WorkerWrites(c, sh, w, choice), WorkerNext(c, sh, w, choice);
            && !next.ArmApproval?
            && (next.AwaitApproval? ==> next == w || (w.ArmApproval? && next.seen == sh.broadcasts))
            && (sh'.approvePermit != sh.approvePermit ==>
                  w.AwaitApproval? && w.seen == sh.broadcasts && !next.AwaitApproval?)
  {
    match w
    case Building => case Connecting => case Validate => case CheckApproval => case ArmApproval => case AwaitApproval(_) =>
    case EnterSetup => case CheckAuthorized => case ArmAuthorized => case AwaitAuthorized(_) => case Promoting => case SetReady => case Serving =>
    case Returned(_) => case Finishing(_) => case Done =>
  }

  lemma WorkKeepsGuard(c: Config, s: Sys, e: Event, t: Sys, i: nat, broadcasts: nat)
    requires t == Step(c, s, e) && e.Work? && e.i < |s.workers| && Guarded(s, i, broadcasts) && t.sh.broadcasts == broadcasts
    requires Waits(c, s)
    ensures Guarded(t, i, broadcasts)
  {
    ApprovedNext(c, s.sh, s.workers[e.i], e.choice);
    WorkerFacts(c, s.sh, s.workers[e.i], e.choice);
    assert t.workers[e.i] == WorkerNext(c, s.sh, s.workers[e.i], e.choice);
    assert forall j | 0 <= j < |s.workers| && j != e.i :: t.workers[j] == s.workers[j];
  }

  lemma CallKeepsGuard(c: Config, s: Sys, e: Event, t: Sys, i: nat, broadcasts: nat)
    requires t == Step(c, s, e) && e.StepCall? && e.k < |s.calls| && Guarded(s, i, broadcasts) && t.sh.broadcasts == broadcasts
    requires Waits(c, s)
    ensures Guarded(t, i, broadcasts)
  {
    CallFacts(s.sh, s.calls[e.k], e.room, Joined(s, s.calls[e.k]));
    if j :| 0 <= j < |s.calls| && s.calls[j] == ApproveNotify && j != e.k { assert t.calls[j] == ApproveNotify; }
  }

  lemma GuardStep(c: Config, s: Sys, e: Event, t: Sys, i: nat, broadcasts: nat)
    requires t == Step(c, s, e) && Waits(c, s) && Guarded(s, i, broadcasts) && t.sh.broadcasts == broadcasts
    ensures Guarded(t, i, broadcasts)
  {
    match e
    case Work(j, _) => if j < |s.workers| { WorkKeepsGuard(c, s, e, t, i, broadcasts); }
    case StepCall(k, _) => if k < |s.calls| { CallKeepsGuard(c, s, e, t, i, broadcasts); }
    case StepStart(j, spawned) => if j < |s.starts| { StartFrame(s, j, spawned); StartPermit(s, j, spawned); }
    case Begin(call) => BeginKeepsCalls(c, s, call);
    case BeginStart =>
  }

  lemma StartPermit(s: Sys, i: nat, spawned: bool)
    requires i < |s.starts|
    ensures StartStep(s, i, spawned).sh.approvePermit == s.sh.approvePermit
  {
    match s.starts[i]
    case ReadIdle => case SetStarting => case Spawn => case StoreHandle(_) => case StartDone =>
  }

  lemma BeginKeepsCalls(c: Config, s: Sys, call: Call)
    ensures ApproveNotify in s.calls ==> ApproveNotify in Step(c, s, Begin(call)).calls
  {
    var t := Step(c, s, Begin(call));
    if j :| 0 <= j < |s.calls| && s.calls[j] == ApproveNotify { assert t.calls[j] == ApproveNotify; }
  }

  lemma {:induction false} GuardPath(c: Config, s: Sys, ss: seq<Sys>, events: seq<Event>, i: nat, n: nat)
    requires IsPath(c, s, ss, events) && n <= |events| && Waits(c, s) && Guarded(s, i, s.sh.broadcasts)
    requires ss[n].sh.broadcasts == s.sh.broadcasts
    ensures Waits(c, ss[n]) && Guarded(ss[n], i, s.sh.broadcasts)
  {
    if n > 0 {
      var e := events[n - 1];
      BroadcastsGrow(c, ss[n - 1], e);
      PathBroadcasts(c, s, ss, events, n - 1);
      GuardPath(c, s, ss, events, i, n - 1);
      StepKeepsWaits(c, ss[n - 1], e);
      GuardStep(c, ss[n - 1], e, ss[n], i, s.sh.broadcasts);
    }
  }

  // the ways into a stuck wait although the approval was given

  /** Entering the wait after its wakeup has gone. */
  lemma StallAlone(c: Config, s: Sys, i: nat)
    requires i < |s.workers| && s.workers[i].ArmApproval? && !s.sh.approvePermit && ApproveNotify !in s.calls
    ensures CanStall(c, s, i)
  {
    var t := Step(c, s, Work(i, Go));
    assert t.workers[i] == AwaitApproval(s.sh.broadcasts);
    StuckIff(c, t, i);
    assert IsPath(c, t, [t], []);
    Prepend(c, s, Work(i, Go), t, [t], []);
    assert CanStall(c, s, i) by { assert ([s] + [t])[|[Work(i, Go)] + []|] == t; }
  }

  lemma StallBefore(c: Config, s: Sys, e: Event, t: Sys, i: nat)
    requires t == Step(c, s, e) && t.sh.broadcasts == s.sh.broadcasts && CanStall(c, t, i)
    ensures CanStall(c, s, i)
  {
    var ss: seq<Sys>, events: seq<Event> :|
      IsPath(c, t, ss, events) && ss[|events|].sh.broadcasts == t.sh.broadcasts && Stuck(c, ss[|events|], i);
    Prepend(c, s, e, t, ss, events);
  }

  /** Another worker enters its wait too and takes the one wakeup. */
  lemma StallByOther(c: Config, s: Sys, i: nat, j: nat)
    requires Waits(c, s) && i < |s.workers| && j < |s.workers| && i != j && s.sh.approved
    requires s.workers[i].ArmApproval? && s.workers[j].ArmApproval? && s.sh.approvePermit
    ensures CanStall(c, s, i)
  {
    var t := Step(c, s, Work(j, Go));
    var u := Step(c, t, Work(j, Go));
    assert t.workers[j] == AwaitApproval(s.sh.broadcasts) && t.sh == s.sh && t.calls == s.calls;
    assert u.sh == t.sh.(approvePermit := false) && u.calls == s.calls && u.workers[i] == s.workers[i];
    StallAlone(c, u, i);
    StallBefore(c, t, Work(j, Go), u, i);
    StallBefore(c, s, Work(j, Go), t, i);
  }

  /** A wakeup about to be stored is stored first. */
  lemma StallAfterNotify(c: Config, s: Sys, i: nat, j: nat)
    requires Waits(c, s) && i < |s.workers| && j < |s.workers| && i != j && ApproveNotify in s.calls
    requires s.workers[i].ArmApproval? && s.workers[j].ArmApproval?
    ensures CanStall(c, s, i)
  {
    var k :| 0 <= k < |s.calls| && s.calls[k] == ApproveNotify;
    var e := StepCall(k, true);
    var t := Step(c, s, e);
    StepKeepsWaits(c, s, e);
    assert t.sh == s.sh.(approvePermit := true) && t.workers == s.workers;
    StallByOther(c, t, i, j);
    StallBefore(c, s, e, t, i);
  }

  /** Some other worker is entering its wait as well. */
  ghost predicate OtherArms(s: Sys, i: nat) {
    exists j | 0 <= j < |s.workers| :: j != i && s.workers[j].ArmApproval?
  }

  /** The approval was given after the worker looked, and its one wakeup is gone or can be taken. */
  ghost predicate WakeupAtRisk(s: Sys, i: nat)
    requires i < |s.workers|
  {
    && s.workers[i].ArmApproval? && s.sh.approved
    && ((!s.sh.approvePermit && ApproveNotify !in s.calls) || OtherArms(s, i))
  }

  lemma StallAtRisk(c: Config, s: Sys, i: nat)
    requires Waits(c, s) && i < |s.workers| && WakeupAtRisk(s, i)
    ensures CanStall(c, s, i)
  {
    if !s.sh.approvePermit && ApproveNotify !in s.calls {
      StallAlone(c, s, i);
    } else {
      var j :| 0 <= j < |s.workers| && j != i && s.workers[j].ArmApproval?;
      if s.sh.approvePermit { StallByOther(c, s, i, j); } else { StallAfterNotify(c, s, i, j); }
    }
  }

  lemma CannotStall(c: Config, s: Sys, i: nat)
    requires Waits(c, s) && i < |s.workers|
    requires forall j | 0 <= j < |s.workers| && s.workers[j].AwaitApproval? :: s.workers[j].seen < s.sh.broadcasts
    requires !(Validates(c) && BeforeApproval(s.workers[i]) && !s.sh.approved) && !WakeupAtRisk(s, i)
    ensures !CanStall(c, s, i)
  {
    forall ts: seq<Sys>, es: seq<Event> | IsPath(c, s, ts, es) && ts[|es|].sh.broadcasts == s.sh.broadcasts
      ensures !Stuck(c, ts[|es|], i)
    {
      if s.workers[i].ArmApproval? {
        GuardPath(c, s, ts, es, i, |es|);
      } else {
        SafePath(c, s, ts, es, i, |es|);
      }
      if i < |ts[|es|].workers| && ts[|es|].workers[i].AwaitApproval? { StuckIff(c, ts[|es|], i); }
    }
  }

  /** Exactly when a stop can be missed, read off the moment of its broadcast: the worker has yet to
      pass an approval that nobody has given, or was given one after its look and can lose the one
      wakeup to another worker.  Otherwise no continuation without a further broadcast gets it stuck. */
  lemma StopMayBeMissedIff(c: Config, ss: seq<Sys>, events: seq<Event>, k: nat, i: nat)
    requires IsRun(c, ss, events) && k < |events| && StopBroadcasts(ss[k], events[k]) && i < |ss[k].workers|
    ensures CanStall(c, ss[k + 1], i) <==>
            (Validates(c) && BeforeApproval(ss[k].workers[i]) && !ss[k].sh.approved) || WakeupAtRisk(ss[k], i)
  {
    var s, e := ss[k + 1], events[k];
    RunKeepsWaits(c, ss, events, k);
    RunKeepsWaits(c, ss, events, k + 1);
    BroadcastFrame(c, ss[k], e, s);
    if Validates(c) && BeforeApproval(s.workers[i]) && !s.sh.approved {
      Stall(c, s, i);
    } else if WakeupAtRisk(s, i) {
      StallAtRisk(c, s, i);
    } else {
      CannotStall(c, s, i);
    }
  }

  /** The broadcast leaves workers, gates and pending notifications alone. */
  lemma BroadcastFrame(c: Config, s: Sys, e: Event, t: Sys)
    requires StopBroadcasts(s, e) && t == Step(c, s, e)
    ensures t.workers == s.workers && t.sh == s.sh.(broadcasts := s.sh.broadcasts + 1)
    ensures ApproveNotify in t.calls <==> ApproveNotify in s.calls
  {
    assert s.calls[e.k] != ApproveNotify && t.calls[e.k] != ApproveNotify;
    if j :| 0 <= j < |s.calls| && s.calls[j] == ApproveNotify { assert t.calls[j] == ApproveNotify; }
    if j :| 0 <= j < |t.calls| && t.calls[j] == ApproveNotify { assert s.calls[j] == ApproveNotify; }
  }

  // ---------------------------------------------------------------- two runs that miss a stop

  const ValidatingClient := Config(true, false, false)

  /** The stop call sits in its join and the worker sleeps: the stop's step, both arms of the wait and
      a new approval change nothing, so only the peer's close or another stop call moves it. */
  ghost predicate Missed(s: Sys) {
    && s.sh.stop && s.sh.state == Stopping && s.workers == [AwaitApproval(s.sh.broadcasts)] && s.calls == [StopJoin(0)]
    && Stuck(ValidatingClient, s, 0) && Step(ValidatingClient, s, StepCall(0, true)) == s
    && CallNext(s.sh, ApproveState, true, false) == Answer(InvalidState)
  }

  /** A validating client around its stop call's broadcast. */
  function Broadcast(worker: Worker, call: Call, broadcasts: nat): Sys {
    Sys(Shared(Stopping, true, true, false, false, false, false, broadcasts, Some(0)), [StartDone], [worker], [call], [], true)
  }

  lemma ReachWorker(worker: Worker) returns (s: Sys)
    requires worker == ArmApproval || worker == AwaitApproval(0)
    ensures Reachable(ValidatingClient, s)
    ensures s == Sys(EndpointReach.Flags(PeerValidation, true, false, false), [StartDone], [worker], [], [], false)
  {
    var v := EndpointReach.Started.(sh := EndpointReach.Flags(PeerValidation, true, false, false), workers := [CheckApproval]);
    EndpointReach.ReachValidation(ValidatingClient);
    s := v.(workers := [ArmApproval]);
    ReachNext(ValidatingClient, v, Work(0, Go), s);
    if worker == AwaitApproval(0) {
      var t := v.(workers := [worker]);
      ReachNext(ValidatingClient, s, Work(0, Go), t);
      s := t;
    }
  }

  lemma ReachStopSet(worker: Worker) returns (s: Sys)
    requires worker == ArmApproval || worker == AwaitApproval(0)
    ensures Reachable(ValidatingClient, s)
    ensures s == Sys(EndpointReach.Flags(PeerValidation, true, false, false), [StartDone], [worker], [StopSet], [], true)
  {
    var w := ReachWorker(worker);
    var a := w.(calls := [StopState], stopCalled := true);
    s := a.(calls := [StopSet]);
    ReachNext(ValidatingClient, w, Begin(StopState), a);
    ReachCall(ValidatingClient, a, [], StopState, s);
  }

  lemma ReachBroadcast(worker: Worker)
    requires worker == ArmApproval || worker == AwaitApproval(0)
    ensures Reachable(ValidatingClient, Broadcast(worker, StopTake, 1))
  {
    var b := ReachStopSet(worker);
    var d := b.(calls := [StopStore], sh := b.sh.(state := Stopping));
    ReachCall(ValidatingClient, b, [], StopSet, d);
    ReachCall(ValidatingClient, d, [], StopStore, Broadcast(worker, StopNotify, 0));
    ReachTake(worker);
  }

  lemma ReachTake(worker: Worker)
    requires Reachable(ValidatingClient, Broadcast(worker, StopNotify, 0))
    ensures Reachable(ValidatingClient, Broadcast(worker, StopTake, 1))
  {
    ReachCall(ValidatingClient, Broadcast(worker, StopNotify, 0), [], StopNotify, Broadcast(worker, StopTake, 1));
  }

  /** The broadcast comes between the worker's look at the approval and its wait. */
  lemma StopCanMissValidation() returns (ss: seq<Sys>, events: seq<Event>)
    ensures Reachable(ValidatingClient, Broadcast(ArmApproval, StopTake, 1))
    ensures IsPath(ValidatingClient, Broadcast(ArmApproval, StopTake, 1), ss, events) && Missed(ss[|events|])
  {
    ReachBroadcast(ArmApproval);
    var s, a := Broadcast(ArmApproval, StopTake, 1), Broadcast(AwaitApproval(1), StopTake, 1);
    ss, events := JoinIsMissed();
    assert Step(ValidatingClient, s, Work(0, Go)) == a;
    Prepend(ValidatingClient, s, Work(0, Go), a, ss, events);
    ss, events := [s] + ss, [Work(0, Go)] + events;
  }

  lemma JoinIsMissed() returns (ss: seq<Sys>, events: seq<Event>)
    ensures IsPath(ValidatingClient, Broadcast(AwaitApproval(1), StopTake, 1), ss, events) && Missed(ss[|events|])
  {
    var a := Broadcast(AwaitApproval(1), StopTake, 1);
    var s := a.(calls := [StopJoin(0)], sh := a.sh.(handle := None));
    assert Step(ValidatingClient, a, StepCall(0, true)) == s;
    assert IsPath(ValidatingClient, s, [s], []);
    Prepend(ValidatingClient, a, StepCall(0, true), s, [s], []);
    ss, events := [a] + [s], [StepCall(0, true)] + [];
    JoinStays(s);
  }

  lemma JoinStays(s: Sys)
    requires s == Broadcast(AwaitApproval(1), StopJoin(0), 1).(sh := s.sh)
    requires s.sh == Broadcast(AwaitApproval(1), StopTake, 1).sh.(handle := None)
    ensures Missed(s)
  {
    StuckIff(ValidatingClient, s, 0);
    assert !Joined(s, s.calls[0]);
    assert s.calls[0 := StopJoin(0)] == s.calls;
  }

  /** The worker is already waiting when the stop begins, wakes through the approval arm, finds no
      approval and waits again. */
  lemma StopCanMissWaitingWorker() returns (ss: seq<Sys>, events: seq<Event>)
    ensures Reachable(ValidatingClient, Broadcast(AwaitApproval(0), StopTake, 1))
    ensures IsPath(ValidatingClient, Broadcast(AwaitApproval(0), StopTake, 1), ss, events) && Missed(ss[|events|])
  {
    ReachBroadcast(AwaitApproval(0));
    var c, go := ValidatingClient, Work(0, Go);
    var s, t, u := Broadcast(AwaitApproval(0), StopTake, 1), Broadcast(CheckApproval, StopTake, 1), Broadcast(ArmApproval, StopTake, 1);
    ss, events := StopCanMissValidation();
    assert Step(c, t, go) == u;
    Prepend(c, t, go, u, ss, events);
    ss, events := [t] + ss, [go] + events;
    assert Step(c, s, go) == t;
    Prepend(c, s, go, t, ss, events);
    ss, events := [s] + ss, [go] + events;
  }
}
