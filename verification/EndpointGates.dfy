/** The native endpoint's life cycle: worker threads, concurrent C calls, the certificate gate, the
    session gate, and the stop flag.  Every locked access and every atomic access is one step. */
module EndpointGates {
  import opened NativeQueues
  import opened Wrappers

  /** `pinned` says the client was configured with the exact certificate fingerprint. */
  datatype Config = Config(client: bool, setup: bool, pinned: bool)

  predicate ApprovalRequired(c: Config) { c.client && !c.pinned }

  /** Clients whose worker pauses for approval: a setup client always does. */
  predicate Validates(c: Config) { c.client && (c.setup || !c.pinned) }

  datatype Lane = Video | Audio | Input | Data

  /** Data goes both ways; input is the client's to send, media the server's. */
  predicate Sends(c: Config, lane: Lane) { lane == Data || (lane == Input) == c.client }

  /** The order of events that matters to callers. */
  datatype Fact = ApproveOk | AuthorizeOk | Queued(lane: Lane)

  /** Where a worker stands in hold_server, hold_client, hold_setup_server or hold_setup_client.
      A wait remembers how many broadcasts had happened when its futures were created. */
  datatype Worker =
    | Building                           // the runtime
    | Connecting
    | Validate
    | CheckApproval | ArmApproval | AwaitApproval(seen: nat)
    | EnterSetup
    | CheckAuthorized | ArmAuthorized | AwaitAuthorized(seen: nat)
    | Promoting
    | SetReady
    | Serving
    | Returned(ok: bool)
    | Finishing(stopSeen: bool)
    | Done

  /** Where a start call stands. */
  datatype Start = ReadIdle | SetStarting | Spawn | StoreHandle(worker: nat) | StartDone

  /** Where any other call stands. */
  datatype Call =
    | ApproveState | ApproveCertificate | ApproveSwap | ApproveNotify
    | AuthorizeState | AuthorizeSwap | AuthorizeNotify
    | SendState(lane: Lane) | SendPush(lane: Lane)
    | StopState | StopIdle | StopSet | StopStore | StopNotify | StopTake | StopJoin(worker: nat) | StopRead | StopFinal
    | Answer(code: Code)

  datatype Shared = Shared(
    state: EndpointState, stop: bool, certificate: bool,
    approved: bool, authorized: bool,
    approvePermit: bool, authorizePermit: bool, broadcasts: nat,
    handle: Option<nat>)

  datatype Sys = Sys(sh: Shared, starts: seq<Start>, workers: seq<Worker>, calls: seq<Call>,
                     log: seq<Fact>, stopCalled: bool)

  /** What a select! picks: its own gate or lane, the stop notification, or the end of the connection
      or of a lane with the given result. */
  datatype Choice = Go | TakeStop | Close(ok: bool)

  datatype Event =
    | BeginStart | StepStart(i: nat, spawned: bool)
    | Begin(call: Call) | StepCall(k: nat, room: bool)
    | Work(i: nat, choice: Choice)

  const Created := Sys(Shared(Idle, false, false, false, false, false, false, 0, None), [], [], [], [], false)

  /** The first step of each call; arguments that a call rejects outright are not modelled. */
  predicate Entry(c: Config, call: Call) {
    match call
    case ApproveState => ApprovalRequired(c)
    case AuthorizeState => c.setup
    case SendState(lane) => Sends(c, lane)
    case StopState => true
    case _ => false
  }

  function SetState(s: Sys, st: EndpointState): Sys { s.(sh := s.sh.(state := st)) }

  function FailWith(s: Sys): Sys { s.(sh := s.sh.(state := Failed, broadcasts := s.sh.broadcasts + 1)) }

  // ---------------------------------------------------------------- the worker

  /** hold_*: the worker's position after one access. */
  function WorkerNext(c: Config, sh: Shared, w: Worker, choice: Choice): Worker {
    match w
    case Building => if choice.Close? then Done else Connecting
    case Connecting =>
      if choice.Close? then Returned(choice.ok) else if Validates(c) then Validate
      else if c.setup then EnterSetup else SetReady
    case Validate => CheckApproval
    case CheckApproval =>
      if !sh.approved then ArmApproval else if c.setup then EnterSetup else SetReady
    case ArmApproval => AwaitApproval(sh.broadcasts)
    case AwaitApproval(seen) =>
      if choice.Close? then Returned(choice.ok)
      else if choice.TakeStop? && sh.broadcasts != seen then Returned(true)
      else if choice.Go? && (sh.approvePermit || sh.broadcasts != seen) then CheckApproval
      else w
    case EnterSetup => CheckAuthorized
    case CheckAuthorized => if sh.authorized then Promoting else ArmAuthorized
    case ArmAuthorized => AwaitAuthorized(sh.broadcasts)
    case AwaitAuthorized(seen) =>
      if choice.Close? then Returned(choice.ok)
      else if choice.TakeStop? && sh.broadcasts != seen then Returned(true)
      else if choice.Go? && (sh.authorizePermit || sh.broadcasts != seen) then CheckAuthorized
      else w
    case Promoting => if choice.Close? then Returned(false) else SetReady
    case SetReady => Serving
    case Serving => if choice.Go? then w else Returned(if choice.Close? then choice.ok else true)
    case Returned(_) => Finishing(sh.stop)
    case Finishing(_) => Done
    case Done => Done
  }

  /** What that access writes. */
  function WorkerWrites(c: Config, sh: Shared, w: Worker, choice: Choice): Shared {
    match w
    case Building => if choice.Close? then sh.(state := Failed, broadcasts := sh.broadcasts + 1) else sh
    case Connecting => if choice.Close? then sh else sh.(certificate := sh.certificate || c.client)
    case Validate => sh.(state := PeerValidation)
    case AwaitApproval(seen) =>
      if choice.Go? && sh.broadcasts == seen then sh.(approvePermit := false) else sh
    case EnterSetup => sh.(state := SetupReady)
    case AwaitAuthorized(seen) =>
      if choice.Go? && sh.broadcasts == seen then sh.(authorizePermit := false) else sh
    case SetReady => sh.(state := Ready)
    case Finishing(stopSeen) =>
      if stopSeen then sh.(state := Stopped) else sh.(state := Failed, broadcasts := sh.broadcasts + 1)
    case _ => sh
  }

  // ---------------------------------------------------------------- the calls

  /** `room` tells whether a bounded queue takes the packet, `joined` whether the awaited worker ended. */
  function CallNext(sh: Shared, call: Call, room: bool, joined: bool): Call {
    match call
    case ApproveState => if sh.state == PeerValidation then ApproveCertificate else Answer(InvalidState)
    case ApproveCertificate => if sh.certificate then ApproveSwap else Answer(InvalidState)
    case ApproveSwap => if sh.approved then Answer(InvalidState) else ApproveNotify
    case ApproveNotify => Answer(Ok)
    case AuthorizeState => if sh.state == SetupReady then AuthorizeSwap else Answer(InvalidState)
    case AuthorizeSwap => if sh.authorized then Answer(InvalidState) else AuthorizeNotify
    case AuthorizeNotify => Answer(Ok)
    case SendState(lane) =>
      if sh.state == Ready || (lane == Data && sh.state == SetupReady) then SendPush(lane) else Answer(InvalidState)
    case SendPush(_) => Answer(if room then Ok else Timeout)
    case StopState =>
      if sh.state == Idle then StopIdle else if Terminal(sh.state) then StopTake else StopSet
    case StopIdle => StopTake
    case StopSet => StopStore
    case StopStore => StopNotify
    case StopNotify => StopTake
    case StopTake => if sh.handle.Some? then StopJoin(sh.handle.value) else StopRead
    case StopJoin(w) => if joined then StopRead else call
    case StopRead => if sh.state == Failed then Answer(Ok) else StopFinal
    case StopFinal => Answer(Ok)
    case Answer(_) => call
  }

  predicate Joined(s: Sys, call: Call) {
    call.StopJoin? && call.worker < |s.workers| && s.workers[call.worker].Done?
  }

  function CallWrites(sh: Shared, call: Call): Shared {
    match call
    case ApproveSwap => sh.(approved := true)
    case ApproveNotify => sh.(approvePermit := true)
    case AuthorizeSwap => sh.(authorized := true)
    case AuthorizeNotify => sh.(authorizePermit := true)
    case StopIdle => sh.(state := Stopped)
    case StopSet => sh.(state := Stopping)
    case StopStore => sh.(stop := true)
    case StopNotify => sh.(broadcasts := sh.broadcasts + 1)
    case StopTake => sh.(handle := None)
    case StopFinal => sh.(state := Stopped)
    case _ => sh
  }

  /** The fact an access adds to the log. */
  function CallLogs(sh: Shared, call: Call, room: bool): seq<Fact> {
    match call
    case ApproveSwap => if sh.approved then [] else [ApproveOk]
    case AuthorizeSwap => if sh.authorized then [] else [AuthorizeOk]
    case SendPush(lane) => if room then [Queued(lane)] else []
    case _ => []
  }

  function StartStep(s: Sys, i: nat, spawned: bool): Sys
    requires i < |s.starts|
  {
    match s.starts[i]
    case ReadIdle => s.(starts := s.starts[i := if s.sh.state == Idle then SetStarting else StartDone])
    case SetStarting => SetState(s, Starting).(starts := s.starts[i := Spawn])
    case Spawn =>
      if spawned then s.(starts := s.starts[i := StoreHandle(|s.workers|)], workers := s.workers + [Building])
      else FailWith(s).(starts := s.starts[i := StartDone])
    case StoreHandle(w) => s.(starts := s.starts[i := StartDone], sh := s.sh.(handle := Some(w)))
    case StartDone => s
  }

  function Step(c: Config, s: Sys, e: Event): Sys {
    match e
    case BeginStart => s.(starts := s.starts + [ReadIdle])
    case StepStart(i, spawned) => if i < |s.starts| then StartStep(s, i, spawned) else s
    case Begin(call) =>
      if !Entry(c, call) then s
      else s.(calls := s.calls + [call], stopCalled := s.stopCalled || call.StopState?)
    case StepCall(k, room) =>
      if k >= |s.calls| then s
      else s.(sh := CallWrites(s.sh, s.calls[k]),
              calls := s.calls[k := CallNext(s.sh, s.calls[k], room, Joined(s, s.calls[k]))],
              log := s.log + CallLogs(s.sh, s.calls[k], room))
    case Work(i, choice) =>
      if i >= |s.workers| then s
      else s.(sh := WorkerWrites(c, s.sh, s.workers[i], choice),
              workers := s.workers[i := WorkerNext(c, s.sh, s.workers[i], choice)])
  }

  ghost predicate IsRun(c: Config, ss: seq<Sys>, events: seq<Event>) {
    && |ss| == |events| + 1 && ss[0] == Created
    && forall i {:trigger events[i]} | 0 <= i < |events| :: ss[i + 1] == Step(c, ss[i], events[i])
  }

  // ---------------------------------------------------------------- the invariant

  /** Facts that never become false again. */
  datatype Facts = Facts(approved: bool, authorized: bool, stopCalled: bool)

  function FactsOf(s: Sys): Facts { Facts(s.sh.approved, s.sh.authorized, s.stopCalled) }

  predicate Vetted(c: Config, f: Facts) { Validates(c) ==> f.approved }

  predicate Cleared(c: Config, f: Facts) { Vetted(c, f) && (c.setup ==> f.authorized) }

  predicate StateOk(c: Config, f: Facts, st: EndpointState) {
    && (st == SetupReady ==> Vetted(c, f))
    && (st == Ready ==> Cleared(c, f))
    && (st == Stopped || st == Stopping ==> f.stopCalled)
  }

  predicate WorkerOk(c: Config, f: Facts, w: Worker) {
    match w
    case EnterSetup => c.setup && Vetted(c, f)
    case CheckAuthorized => c.setup && Vetted(c, f)
    case ArmAuthorized => c.setup && Vetted(c, f)
    case AwaitAuthorized(_) => c.setup && Vetted(c, f)
    case Promoting => Cleared(c, f)
    case SetReady => Cleared(c, f)
    case Serving => Cleared(c, f)
    case Finishing(stopSeen) => stopSeen ==> f.stopCalled
    case _ => true
  }

  predicate StopStage(call: Call) {
    call.StopState? || call.StopIdle? || call.StopSet? || call.StopStore? || call.StopNotify?
    || call.StopTake? || call.StopJoin? || call.StopRead? || call.StopFinal?
  }

  predicate CallOk(c: Config, f: Facts, call: Call) {
    && (call.SendState? || call.SendPush? ==> Sends(c, call.lane))
    && (call.SendPush? ==> if call.lane == Data then Vetted(c, f) else Cleared(c, f))
    && (StopStage(call) ==> f.stopCalled)
    && (call.ApproveState? || call.ApproveCertificate? || call.ApproveSwap? || call.ApproveNotify? ==> ApprovalRequired(c))
  }

  function Count(log: seq<Fact>, fact: Fact): nat { multiset(log)[fact] }

  /** Nothing in the log comes before what must precede it. */
  ghost predicate LogOk(c: Config, s: Sys) {
    && Count(s.log, ApproveOk) == (if s.sh.approved then 1 else 0)
    && Count(s.log, AuthorizeOk) == (if s.sh.authorized then 1 else 0)
    && (forall i | 0 <= i < |s.log| && s.log[i].Queued? ::
          && Sends(c, s.log[i].lane)
          && (Validates(c) ==> ApproveOk in s.log[..i])
          && (c.setup && s.log[i].lane != Data ==> AuthorizeOk in s.log[..i]))
  }

  ghost predicate PartsOk(c: Config, s: Sys) {
    && StateOk(c, FactsOf(s), s.sh.state)
    && (forall i | 0 <= i < |s.workers| :: WorkerOk(c, FactsOf(s), s.workers[i]))
    && (forall k | 0 <= k < |s.calls| :: CallOk(c, FactsOf(s), s.calls[k]))
    && (s.sh.stop ==> s.stopCalled)
    && (s.sh.approved ==> ApprovalRequired(c))
  }

  predicate Grows(f: Facts, g: Facts) {
    (f.approved ==> g.approved) && (f.authorized ==> g.authorized) && (f.stopCalled ==> g.stopCalled)
  }

  /** What one access of a call must leave justified. */
  ghost predicate CallAdvanced(c: Config, sh: Shared, stopCalled: bool, sh': Shared, next: Call) {
    var g := Facts(sh'.approved, sh'.authorized, stopCalled);
    && Grows(Facts(sh.approved, sh.authorized, stopCalled), g)
    && StateOk(c, g, sh'.state) && CallOk(c, g, next)
    && (sh'.stop ==> sh.stop || stopCalled)
    && (sh'.approved ==> sh.approved || ApprovalRequired(c))
  }

  lemma GateCallAdvances(c: Config, sh: Shared, stopCalled: bool, call: Call)
    requires var f := Facts(sh.approved, sh.authorized, stopCalled); StateOk(c, f, sh.state) && CallOk(c, f, call)
    requires call.ApproveState? || call.ApproveCertificate? || call.ApproveSwap? || call.ApproveNotify?
             || call.AuthorizeState? || call.AuthorizeSwap? || call.AuthorizeNotify?
    ensures CallAdvanced(c, sh, stopCalled, CallWrites(sh, call), CallNext(sh, call, true, false))
  {
    match call
    case ApproveState => case ApproveCertificate => case ApproveSwap => case ApproveNotify =>
    case AuthorizeState => case AuthorizeSwap => case AuthorizeNotify =>
  }

  lemma StopCallAdvances(c: Config, sh: Shared, stopCalled: bool, call: Call, joined: bool)
    requires var f := Facts(sh.approved, sh.authorized, stopCalled); StateOk(c, f, sh.state) && CallOk(c, f, call)
    requires StopStage(call)
    ensures CallAdvanced(c, sh, stopCalled, CallWrites(sh, call), CallNext(sh, call, true, joined))
  {
    match call
    case StopState => case StopIdle => case StopSet => case StopStore => case StopNotify =>
    case StopTake => case StopJoin(_) => case StopRead => case StopFinal =>
  }

  lemma SendCallAdvances(c: Config, sh: Shared, stopCalled: bool, call: Call, room: bool)
    requires var f := Facts(sh.approved, sh.authorized, stopCalled); StateOk(c, f, sh.state) && CallOk(c, f, call)
    requires call.SendState? || call.SendPush? || call.Answer?
    ensures CallAdvanced(c, sh, stopCalled, CallWrites(sh, call), CallNext(sh, call, room, false))
  {
    match call
    case SendState(_) => case SendPush(_) => case Answer(_) =>
  }

  /** Only a send looks at the queue's room, and only a stop at the join. */
  lemma CallIgnores(sh: Shared, call: Call, room: bool, joined: bool)
    ensures !call.SendPush? ==> CallNext(sh, call, room, joined) == CallNext(sh, call, true, joined)
    ensures !call.StopJoin? ==> CallNext(sh, call, room, joined) == CallNext(sh, call, room, false)
  {
    match call
    case ApproveState => case ApproveCertificate => case ApproveSwap => case ApproveNotify =>
    case AuthorizeState => case AuthorizeSwap => case AuthorizeNotify =>
    case SendState(_) => case SendPush(_) =>
    case StopState => case StopIdle => case StopSet => case StopStore => case StopNotify =>
    case StopTake => case StopJoin(_) => case StopRead => case StopFinal =>
    case Answer(_) =>
  }

  /** One access of a call whose position was justified leaves it and the state justified. */
  lemma CallAdvances(c: Config, sh: Shared, stopCalled: bool, call: Call, room: bool, joined: bool)
    requires var f := Facts(sh.approved, sh.authorized, stopCalled); StateOk(c, f, sh.state) && CallOk(c, f, call)
    ensures CallAdvanced(c, sh, stopCalled, CallWrites(sh, call), CallNext(sh, call, room, joined))
  {
    CallIgnores(sh, call, room, joined);
    CallIgnores(sh, call, true, joined);
    if StopStage(call) {
      StopCallAdvances(c, sh, stopCalled, call, joined);
    } else if call.SendState? || call.SendPush? || call.Answer? {
      SendCallAdvances(c, sh, stopCalled, call, room);
    } else {
      GateCallAdvances(c, sh, stopCalled, call);
    }
  }

  lemma WorkerAdvances(c: Config, sh: Shared, stopCalled: bool, w: Worker, choice: Choice)
    requires var f := Facts(sh.approved, sh.authorized, stopCalled);
             StateOk(c, f, sh.state) && WorkerOk(c, f, w) && (sh.stop ==> stopCalled)
    ensures var sh' := WorkerWrites(c, sh, w, choice);
            var f := Facts(sh.approved, sh.authorized, stopCalled);
            && sh'.approved == sh.approved && sh'.authorized == sh.authorized && sh'.stop == sh.stop
            && StateOk(c, f, sh'.state) && WorkerOk(c, f, WorkerNext(c, sh, w, choice))
  {
    match w
    case Building => case Connecting => case Validate => case CheckApproval => case ArmApproval => case AwaitApproval(_) =>
    case EnterSetup => case CheckAuthorized => case ArmAuthorized => case AwaitAuthorized(_) => case Promoting => case SetReady => case Serving =>
    case Returned(_) => case Finishing(_) => case Done =>
  }

  /** Facts only accumulate, so a step that justifies the one part it changes justifies all parts. */
  lemma ReplaceParts(c: Config, s: Sys, t: Sys)
    requires PartsOk(c, s) && Grows(FactsOf(s), FactsOf(t)) && StateOk(c, FactsOf(t), t.sh.state)
    requires |t.workers| >= |s.workers| && |t.calls| >= |s.calls|
    requires forall i | 0 <= i < |t.workers| ::
               (i < |s.workers| && t.workers[i] == s.workers[i]) || WorkerOk(c, FactsOf(t), t.workers[i])
    requires forall k | 0 <= k < |t.calls| ::
               (k < |s.calls| && t.calls[k] == s.calls[k]) || CallOk(c, FactsOf(t), t.calls[k])
    requires t.sh.stop ==> t.stopCalled
    requires t.sh.approved ==> ApprovalRequired(c)
    ensures PartsOk(c, t)
  {
    forall i | 0 <= i < |t.workers| ensures WorkerOk(c, FactsOf(t), t.workers[i]) {
      if i < |s.workers| { assert WorkerOk(c, FactsOf(s), s.workers[i]); }
    }
    forall k | 0 <= k < |t.calls| ensures CallOk(c, FactsOf(t), t.calls[k]) {
      if k < |s.calls| { assert CallOk(c, FactsOf(s), s.calls[k]); }
    }
  }

  lemma CallKeepsParts(c: Config, s: Sys, k: nat, room: bool)
    requires PartsOk(c, s) && k < |s.calls|
    ensures PartsOk(c, Step(c, s, StepCall(k, room)))
  {
    var sh', x := CallWrites(s.sh, s.calls[k]), CallNext(s.sh, s.calls[k], room, Joined(s, s.calls[k]));
    CallAdvances(c, s.sh, s.stopCalled, s.calls[k], room, Joined(s, s.calls[k]));
    ReplaceParts(c, s, s.(sh := sh', calls := s.calls[k := x], log := s.log + CallLogs(s.sh, s.calls[k], room)));
  }

  lemma WorkKeepsParts(c: Config, s: Sys, i: nat, choice: Choice)
    requires PartsOk(c, s) && i < |s.workers|
    ensures PartsOk(c, Step(c, s, Work(i, choice)))
  {
    var sh', x := WorkerWrites(c, s.sh, s.workers[i], choice), WorkerNext(c, s.sh, s.workers[i], choice);
    WorkerAdvances(c, s.sh, s.stopCalled, s.workers[i], choice);
    ReplaceParts(c, s, s.(sh := sh', workers := s.workers[i := x]));
  }

  lemma BeginKeepsParts(c: Config, s: Sys, call: Call)
    requires PartsOk(c, s)
    ensures PartsOk(c, Step(c, s, Begin(call)))
  {
    if Entry(c, call) {
      var t := s.(calls := s.calls + [call], stopCalled := s.stopCalled || call.StopState?);
      assert CallOk(c, FactsOf(t), call);
      ReplaceParts(c, s, t);
    }
  }

  /** A start call touches nothing the gates depend on. */
  lemma StartFrame(s: Sys, i: nat, spawned: bool)
    requires i < |s.starts|
    ensures var t := StartStep(s, i, spawned);
            && FactsOf(t) == FactsOf(s) && t.calls == s.calls && t.log == s.log && t.sh.stop == s.sh.stop
            && t.sh.broadcasts >= s.sh.broadcasts
            && (t.workers == s.workers || t.workers == s.workers + [Building])
            && (t.sh.state == s.sh.state || t.sh.state == Starting || t.sh.state == Failed)
  {
    match s.starts[i]
    case ReadIdle => case SetStarting => case Spawn => case StoreHandle(_) => case StartDone =>
  }

  lemma StartKeepsParts(c: Config, s: Sys, t: Sys)
    requires PartsOk(c, s)
    requires FactsOf(t) == FactsOf(s) && t.calls == s.calls && t.sh.stop == s.sh.stop
    requires t.workers == s.workers || t.workers == s.workers + [Building]
    requires t.sh.state == s.sh.state || t.sh.state == Starting || t.sh.state == Failed
    ensures PartsOk(c, t)
  {
    assert WorkerOk(c, FactsOf(t), Building);
    ReplaceParts(c, s, t);
  }

  lemma StepKeepsParts(c: Config, s: Sys, e: Event)
    requires PartsOk(c, s)
    ensures PartsOk(c, Step(c, s, e))
  {
    match e
    case Work(i, choice) => if i < |s.workers| { WorkKeepsParts(c, s, i, choice); }
    case StepCall(k, room) => if k < |s.calls| { CallKeepsParts(c, s, k, room); }
    case Begin(call) => BeginKeepsParts(c, s, call);
    case StepStart(i, spawned) => if i < |s.starts| { StartFrame(s, i, spawned); StartKeepsParts(c, s, StartStep(s, i, spawned)); }
    case BeginStart => ReplaceParts(c, s, Step(c, s, e));
  }

  /** Appending one justified fact. */
  lemma AppendKeepsLog(c: Config, s: Sys, t: Sys, fact: Fact)
    requires LogOk(c, s) && t.log == s.log + [fact]
    requires t.sh.approved <==> s.sh.approved || fact.ApproveOk?
    requires t.sh.authorized <==> s.sh.authorized || fact.AuthorizeOk?
    requires fact.ApproveOk? ==> !s.sh.approved
    requires fact.AuthorizeOk? ==> !s.sh.authorized
    requires fact.Queued? ==> Sends(c, fact.lane) && if fact.lane == Data then Vetted(c, FactsOf(s)) else Cleared(c, FactsOf(s))
    ensures LogOk(c, t)
  {
    assert multiset(t.log) == multiset(s.log) + multiset{fact};
    assert s.log[..|s.log|] == s.log;
    assert forall i | 0 <= i <= |s.log| :: t.log[..i] == s.log[..i];
    assert s.sh.approved ==> ApproveOk in multiset(s.log);
    assert s.sh.authorized ==> AuthorizeOk in multiset(s.log);
  }

  lemma SameLog(c: Config, s: Sys, t: Sys)
    requires LogOk(c, s) && t.log == s.log
    requires t.sh.approved == s.sh.approved && t.sh.authorized == s.sh.authorized
    ensures LogOk(c, t)
  {
  }

  /** An access either logs nothing and opens no gate, or logs the one fact it makes true. */
  lemma CallLogsOne(sh: Shared, call: Call, room: bool)
    ensures var sh', facts := CallWrites(sh, call), CallLogs(sh, call, room);
            && (facts == [] ==> sh'.approved == sh.approved && sh'.authorized == sh.authorized)
            && (facts != [] ==>
                  && |facts| == 1
                  && (sh'.approved <==> sh.approved || facts[0].ApproveOk?)
                  && (sh'.authorized <==> sh.authorized || facts[0].AuthorizeOk?)
                  && (facts[0].ApproveOk? ==> !sh.approved) && (facts[0].AuthorizeOk? ==> !sh.authorized)
                  && (facts[0].Queued? ==> call == SendPush(facts[0].lane)))
  {
    match call
    case ApproveState => case ApproveCertificate => case ApproveSwap => case ApproveNotify =>
    case AuthorizeState => case AuthorizeSwap => case AuthorizeNotify =>
    case SendState(_) => case SendPush(_) =>
    case StopState => case StopIdle => case StopSet => case StopStore => case StopNotify =>
    case StopTake => case StopJoin(_) => case StopRead => case StopFinal =>
    case Answer(_) =>
  }

  lemma CallKeepsLog(c: Config, s: Sys, k: nat, t: Sys, facts: seq<Fact>)
    requires PartsOk(c, s) && LogOk(c, s) && k < |s.calls| && t.log == s.log + facts
    requires facts == [] ==> t.sh.approved == s.sh.approved && t.sh.authorized == s.sh.authorized
    requires facts != [] ==>
               && |facts| == 1
               && (t.sh.approved <==> s.sh.approved || facts[0].ApproveOk?)
               && (t.sh.authorized <==> s.sh.authorized || facts[0].AuthorizeOk?)
               && (facts[0].ApproveOk? ==> !s.sh.approved) && (facts[0].AuthorizeOk? ==> !s.sh.authorized)
               && (facts[0].Queued? ==> s.calls[k] == SendPush(facts[0].lane))
    ensures LogOk(c, t)
  {
    assert CallOk(c, FactsOf(s), s.calls[k]);
    if facts == [] {
      assert t.log == s.log;
      SameLog(c, s, t);
    } else {
      assert facts == [facts[0]];
      AppendKeepsLog(c, s, t, facts[0]);
    }
  }

  lemma StepKeepsLog(c: Config, s: Sys, e: Event)
    requires PartsOk(c, s) && LogOk(c, s)
    ensures LogOk(c, Step(c, s, e))
  {
    match e
    case StepCall(k, room) =>
      if k < |s.calls| {
        CallLogsOne(s.sh, s.calls[k], room);
        CallKeepsLog(c, s, k, Step(c, s, e), CallLogs(s.sh, s.calls[k], room));
      }
    case Work(i, choice) =>
      if i < |s.workers| {
        WorkerAdvances(c, s.sh, s.stopCalled, s.workers[i], choice);
        SameLog(c, s, Step(c, s, e));
      }
    case Begin(_) => SameLog(c, s, Step(c, s, e));
    case BeginStart => SameLog(c, s, Step(c, s, e));
    case StepStart(i, spawned) =>
      if i < |s.starts| { StartFrame(s, i, spawned); SameLog(c, s, StartStep(s, i, spawned)); }
  }

  lemma {:induction false} RunKeeps(c: Config, ss: seq<Sys>, events: seq<Event>, n: nat)
    requires IsRun(c, ss, events) && n <= |events|
    ensures PartsOk(c, ss[n]) && LogOk(c, ss[n])
  {
    if n > 0 {
      RunKeeps(c, ss, events, n - 1);
      assert ss[n] == Step(c, ss[n - 1], events[n - 1]);
      StepKeepsParts(c, ss[n - 1], events[n - 1]);
      StepKeepsLog(c, ss[n - 1], events[n - 1]);
    }
  }

  // ---------------------------------------------------------------- what every run satisfies

  /** Whatever the interleaving of callers and workers: approve and authorize succeed at most once,
      no packet is queued before the certificate was approved on a client that validates, and no media
      or input packet before the session was authorized in setup mode. */
  lemma GatesHold(c: Config, ss: seq<Sys>, events: seq<Event>, n: nat, i: nat)
    requires IsRun(c, ss, events) && n <= |events| && i < |ss[n].log|
    ensures var log := ss[n].log;
            && Count(log, ApproveOk) <= 1 && Count(log, AuthorizeOk) <= 1
            && (log[i].Queued? && c.client && (c.setup || !c.pinned) ==> ApproveOk in log[..i])
            && (log[i].Queued? && log[i].lane != Data && c.setup ==> AuthorizeOk in log[..i])
  {
    RunKeeps(c, ss, events, n);
  }

  /** Stopped and Stopping are never reached without a local stop call. */
  lemma StoppedOnlyByStop(c: Config, ss: seq<Sys>, events: seq<Event>, n: nat)
    requires IsRun(c, ss, events) && n <= |events|
    ensures ss[n].sh.state == Stopped || ss[n].sh.state == Stopping || ss[n].sh.stop ==> ss[n].stopCalled
  {
    RunKeeps(c, ss, events, n);
  }

  /** One access adds to the broadcasts or leaves them alone. */
  lemma CallBroadcasts(sh: Shared, call: Call)
    ensures CallWrites(sh, call).broadcasts >= sh.broadcasts
  {
    match call
    case ApproveState => case ApproveCertificate => case ApproveSwap => case ApproveNotify =>
    case AuthorizeState => case AuthorizeSwap => case AuthorizeNotify =>
    case SendState(_) => case SendPush(_) =>
    case StopState => case StopIdle => case StopSet => case StopStore => case StopNotify =>
    case StopTake => case StopJoin(_) => case StopRead => case StopFinal =>
    case Answer(_) =>
  }

  lemma WorkerBroadcasts(c: Config, sh: Shared, w: Worker, choice: Choice)
    ensures WorkerWrites(c, sh, w, choice).broadcasts >= sh.broadcasts
  {
    match w
    case Building => case Connecting => case Validate => case CheckApproval => case ArmApproval => case AwaitApproval(_) =>
    case EnterSetup => case CheckAuthorized => case ArmAuthorized => case AwaitAuthorized(_) => case Promoting => case SetReady => case Serving =>
    case Returned(_) => case Finishing(_) => case Done =>
  }

  lemma BroadcastsGrow(c: Config, s: Sys, e: Event)
    ensures Step(c, s, e).sh.broadcasts >= s.sh.broadcasts
  {
    match e
    case StepCall(k, _) => if k < |s.calls| { CallBroadcasts(s.sh, s.calls[k]); }
    case Work(i, choice) => if i < |s.workers| { WorkerBroadcasts(c, s.sh, s.workers[i], choice); }
    case StepStart(i, spawned) => if i < |s.starts| { StartFrame(s, i, spawned); }
    case Begin(_) => case BeginStart =>
  }

  /** Only a worker's own step changes it. */
  lemma OthersLeaveWorker(c: Config, s: Sys, e: Event, i: nat)
    requires i < |s.workers| && !(e.Work? && e.i == i)
    ensures i < |Step(c, s, e).workers| && Step(c, s, e).workers[i] == s.workers[i]
  {
    match e
    case StepStart(j, spawned) => if j < |s.starts| { StartFrame(s, j, spawned); }
    case Work(_, _) => case StepCall(_, _) => case Begin(_) => case BeginStart =>
  }

  // ---------------------------------------------------------------- reachable states

  ghost predicate Reachable(c: Config, s: Sys) {
    exists ss: seq<Sys>, events: seq<Event> :: IsRun(c, ss, events) && ss[|events|] == s
  }

  lemma ReachCreated(c: Config)
    ensures Reachable(c, Created)
  {
    assert IsRun(c, [Created], []);
  }

  lemma ReachNext(c: Config, s: Sys, e: Event, t: Sys)
    requires Reachable(c, s) && Step(c, s, e) == t
    ensures Reachable(c, t)
  {
    var ss: seq<Sys>, events: seq<Event> :| IsRun(c, ss, events) && ss[|events|] == s;
    assert IsRun(c, ss + [t], events + [e]);
  }

  /** The newest call takes its next access. */
  lemma ReachCall(c: Config, s: Sys, calls: seq<Call>, call: Call, t: Sys)
    requires Reachable(c, s) && s.calls == calls + [call] && !call.StopJoin?
    requires t == s.(sh := CallWrites(s.sh, call), calls := calls + [CallNext(s.sh, call, true, false)],
                     log := s.log + CallLogs(s.sh, call, true))
    ensures Reachable(c, t)
  {
    var k := |calls|;
    assert s.calls[k] == call && s.calls[k := CallNext(s.sh, call, true, false)] == t.calls;
    ReachNext(c, s, StepCall(k, true), t);
  }

  /** What holds after every run holds in every reachable state. */
  lemma ReachableKeeps(c: Config, s: Sys)
    requires Reachable(c, s)
    ensures PartsOk(c, s) && LogOk(c, s)
  {
    var ss: seq<Sys>, events: seq<Event> :| IsRun(c, ss, events) && ss[|events|] == s;
    RunKeeps(c, ss, events, |events|);
  }
}
