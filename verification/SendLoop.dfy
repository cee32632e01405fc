/** The send loop every native lane runs: create a Notified, pop, send or check stop, then sleep.
    It is the same for the refusing and the evicting queues, so the queue policy is left open. */
module SendLoop {
  /** Where the loop stands.  `seen` is the broadcast count its Notified future was created with. */
  datatype Worker<P> =
    | Create
    | TryPop(seen: nat)
    | Sending(packet: P)
    | CheckStop(seen: nat)
    | Poll(seen: nat)
    | Parked
    | Ended(lost: seq<P>)  // the packet, if any, that was being sent when the lane failed

  datatype Loop<P> = Loop(
    queue: seq<P>,
    permit: bool,        // the one permit notify_one can store
    broadcasts: nat,     // notify_waiters calls so far
    stop: bool,
    pushers: nat,        // callers between their push and their notify_one
    stoppers: nat,       // callers between the stop store and notify_all
    worker: Worker<P>)

  datatype Event<P> =
    | Push(queue: seq<P>)     // a send call leaves this queue behind, under the queue lock
    | Notify                  // the notify_one that follows it
    | StoreStop | NotifyAll   // stop_endpoint
    | Fail                    // fail(): notify_all without a stop
    | Work(sent: bool)        // the loop's next access; `sent` is the channel's answer
    | DropWorker(sent: bool)  // the select! that owns the loop ended, before or after the channel took the packet

  function Idle<P>(): Loop<P> { Loop([], false, 0, false, 0, 0, Create) }

  function Held<P>(w: Worker<P>): seq<P> {
    match w
    case Sending(p) => [p]
    case Ended(lost) => lost
    case _ => []
  }

  function Wake<P>(w: Worker<P>): Worker<P> { if w.Parked? then Create else w }

  /** notify_waiters reaches every Notified created so far and stores nothing. */
  function Broadcast<P>(l: Loop<P>): Loop<P> {
    l.(broadcasts := l.broadcasts + 1, worker := Wake(l.worker))
  }

  function Step<P>(l: Loop<P>, e: Event<P>): Loop<P> {
    match e
    case Push(q) => l.(queue := q, pushers := l.pushers + 1)
    case Notify =>
      if l.pushers == 0 then l
      else l.(pushers := l.pushers - 1, permit := l.permit || !l.worker.Parked?, worker := Wake(l.worker))
    case StoreStop => l.(stop := true, stoppers := l.stoppers + 1)
    case NotifyAll => if l.stoppers == 0 then l else Broadcast(l).(stoppers := l.stoppers - 1)
    case Fail => Broadcast(l)
    case DropWorker(sent) => if l.worker.Ended? then l else l.(worker := Ended(if sent then [] else Held(l.worker)))
    case Work(sent) =>
      match l.worker
      case Create => l.(worker := TryPop(l.broadcasts))
      case TryPop(seen) =>
        if l.queue == [] then l.(worker := CheckStop(seen))
        else l.(queue := l.queue[1..], worker := Sending(l.queue[0]))
      case Sending(p) => l.(worker := if sent then Create else Ended([p]))
      case CheckStop(seen) => l.(worker := if l.stop then Ended([]) else Poll(seen))
      case Poll(seen) =>
        if l.broadcasts != seen then l.(worker := Create)
        else if l.permit then l.(permit := false, worker := Create)
        else l.(worker := Parked)
      case Parked => l
      case Ended(_) => l
  }

  /** What the step hands to the channel. */
  function Sent<P>(l: Loop<P>, e: Event<P>): seq<P> {
    if l.worker.Sending? && (e.Work? || e.DropWorker?) && e.sent then [l.worker.packet] else []
  }

  ghost predicate IsRun<P>(loops: seq<Loop<P>>, events: seq<Event<P>>) {
    && |loops| == |events| + 1 && loops[0] == Idle()
    && forall i | 0 <= i < |events| :: loops[i + 1] == Step(loops[i], events[i])
  }

  /** A loop that found the queue empty will look again before it sleeps on a nonempty queue, and
      likewise for the stop flag, although at most one permit is ever stored. */
  ghost predicate Awake<P>(l: Loop<P>) {
    && (l.worker.CheckStop? || l.worker.Poll? ==> l.queue == [] || l.pushers > 0 || l.permit)
    && (l.worker.Parked? ==> l.queue == [] || l.pushers > 0)
    && (l.worker.TryPop? || l.worker.CheckStop? || l.worker.Poll? ==> l.worker.seen <= l.broadcasts)
    && (l.worker.Poll? ==> !l.stop || l.stoppers > 0 || l.worker.seen < l.broadcasts)
    && (l.worker.Parked? ==> !l.stop || l.stoppers > 0)
  }

  lemma StepKeepsAwake<P>(l: Loop<P>, e: Event<P>)
    requires Awake(l)
    ensures Awake(Step(l, e))
  {
  }

  /** No lost wakeup, in every run: a sleeping loop has an empty queue once every push has been
      notified, and no stop outstanding once every stop has been broadcast. */
  lemma {:induction false} NoLostWakeup<P>(loops: seq<Loop<P>>, events: seq<Event<P>>, n: nat)
    requires IsRun(loops, events) && n <= |events|
    ensures Awake(loops[n])
    ensures loops[n].worker.Parked? && loops[n].pushers == 0 ==> loops[n].queue == []
    ensures loops[n].worker.Parked? && loops[n].stoppers == 0 ==> !loops[n].stop
  {
    if n > 0 {
      NoLostWakeup(loops, events, n - 1);
      assert loops[n] == Step(loops[n - 1], events[n - 1]);
      StepKeepsAwake(loops[n - 1], events[n - 1]);
    }
  }

  /** Popping and sending only move the boundary between queue, worker and channel. */
  lemma NothingSkipped<P>(l: Loop<P>, e: Event<P>)
    requires !e.Push?
    ensures Sent(l, e) + (Held(Step(l, e).worker) + Step(l, e).queue) == Held(l.worker) + l.queue
    ensures |Step(l, e).queue| <= |l.queue|
  {
    match e
    case Work(sent) =>
      match l.worker {
        case TryPop(_) => if l.queue != [] { assert [l.queue[0]] + l.queue[1..] == l.queue; }
        case Create => case Sending(_) => case CheckStop(_) => case Poll(_) => case Parked => case Ended(_) =>
      }
    case DropWorker(_) =>
      match l.worker {
        case Create => case TryPop(_) => case Sending(_) => case CheckStop(_) => case Poll(_) => case Parked => case Ended(_) =>
      }
    case Notify => case StoreStop => case NotifyAll => case Fail =>
  }
}
