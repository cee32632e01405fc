/** A reliable receive lane inside the worker that polls it.  The worker's select! holds the lane's
    receive task: the task runs only while the worker waits there, and once it has ended the select!
    cannot go on waiting. */
module LaneFailure {
  import opened NativeQueues
  import EndpointGates
  import EndpointEnd
  import ReliableLane

  datatype Whole = Whole(sys: EndpointGates.Sys, lane: ReliableLane.Lane)

  datatype Event = Endpoint(step: EndpointGates.Event) | Lane(access: ReliableLane.Event)

  /** Nothing but the lane's end is ready in the worker's select!: a serving worker, or a setup worker
      whose gate has sent no wakeup. */
  predicate OnlyLaneReady(sh: EndpointGates.Shared, w: EndpointGates.Worker) {
    w.Serving? || (w.AwaitAuthorized? && !sh.authorizePermit && sh.broadcasts == w.seen)
  }

  /** A select! whose lane has ended cannot go on waiting: with nothing else ready it reports that. */
  function Chosen(w: Whole, i: nat, e: EndpointGates.Event): EndpointGates.Event {
    if e.Work? && e.i == i && e.choice.Go? && i < |w.sys.workers| && w.lane.receiver.Dead?
       && OnlyLaneReady(w.sys.sh, w.sys.workers[i])
    then e.(choice := EndpointGates.Close(false)) else e
  }

  /** The receive task moves only inside its worker's select!. */
  predicate Polled(w: Whole, i: nat) {
    i < |w.sys.workers| && (w.sys.workers[i].Serving? || w.sys.workers[i].AwaitAuthorized?)
  }

  function Step(c: EndpointGates.Config, w: Whole, i: nat, sendCap: nat, recvCap: nat, e: Event): Whole {
    match e
    case Endpoint(g) => w.(sys := EndpointGates.Step(c, w.sys, Chosen(w, i, g)))
    case Lane(l) =>
      if (l.Receive? || l.DropReceiver?) && !Polled(w, i) then w
      else w.(lane := ReliableLane.Step(w.lane, sendCap, recvCap, l))
  }

  /** Runs of the two together; `i` is the worker that owns the lane. */
  ghost predicate IsRun(c: EndpointGates.Config, ws: seq<Whole>, events: seq<Event>, i: nat, sendCap: nat, recvCap: nat) {
    && |ws| == |events| + 1 && ws[0] == Whole(EndpointGates.Created, ReliableLane.Start)
    && forall k {:trigger events[k]} | 0 <= k < |events| :: ws[k + 1] == Step(c, ws[k], i, sendCap, recvCap, events[k])
  }

  // ---------------------------------------------------------------- both halves keep what they promise

  lemma {:induction false} RunKeeps(c: EndpointGates.Config, ws: seq<Whole>, events: seq<Event>, i: nat, sendCap: nat, recvCap: nat, n: nat)
    requires IsRun(c, ws, events, i, sendCap, recvCap) && n <= |events|
    ensures EndpointGates.PartsOk(c, ws[n].sys) && EndpointEnd.Unstopped(ws[n].sys)
    ensures ReliableLane.Flow(ws[n].lane, sendCap, recvCap)
  {
    if n > 0 {
      RunKeeps(c, ws, events, i, sendCap, recvCap, n - 1);
      var w, e := ws[n - 1], events[n - 1];
      match e {
        case Endpoint(g) =>
          EndpointGates.StepKeepsParts(c, w.sys, Chosen(w, i, g));
          EndpointEnd.StepKeeps(c, w.sys, Chosen(w, i, g));
        case Lane(l) => ReliableLane.StepKeepsFlow(w.lane, sendCap, recvCap, l);
      }
    }
  }

  // ---------------------------------------------------------------- after a full queue

  /** How many steps the worker took. */
  function Steps(events: seq<Event>, from: nat, to: nat, i: nat): nat
    requires from <= to <= |events|
  {
    if from == to then 0 else Steps(events, from, to - 1, i) + if OwnStep(events[to - 1], i) then 1 else 0
  }

  predicate OwnStep(e: Event, i: nat) { e.Endpoint? && e.step.Work? && e.step.i == i }

  /** Where a worker stands whose lane has ended, by the number of its steps since then. */
  predicate Leaving(w: EndpointGates.Worker, steps: nat) {
    if steps == 0 then w.Serving?
    else if steps == 1 then w.Returned?
    else if steps == 2 then w == EndpointGates.Finishing(false)
    else w.Done?
  }

  lemma LeavingNext(c: EndpointGates.Config, s: EndpointGates.Sys, i: nat, choice: EndpointGates.Choice, steps: nat)
    requires i < |s.workers| && Leaving(s.workers[i], steps) && !s.sh.stop && (steps == 0 ==> !choice.Go?)
    ensures var t := EndpointGates.Step(c, s, EndpointGates.Work(i, choice));
            && i < |t.workers| && Leaving(t.workers[i], steps + 1)
            && (steps == 2 ==> t.sh.state == Failed)
  {
    match s.workers[i]
    case Serving => case Returned(_) => case Finishing(_) => case Done =>
  }

  /** The task stays dead, and what was queued for the caller stays in line. */
  lemma DeadStays(l: ReliableLane.Lane, sendCap: nat, recvCap: nat, e: ReliableLane.Event)
    requires l.receiver.Dead?
    ensures var t := ReliableLane.Step(l, sendCap, recvCap, e);
            && t.receiver == l.receiver
            && (t.receiveQueue == l.receiveQueue || (e.Take? && l.receiveQueue != [] && t.receiveQueue == l.receiveQueue[1..]))
  {
    match e
    case Submit(_) => case Internal(_) => case Receive => case DropReceiver => case Peek(_) => case Take =>
  }

  lemma {:induction false} LeavingHolds(
    c: EndpointGates.Config, ws: seq<Whole>, events: seq<Event>, i: nat, sendCap: nat, recvCap: nat, n: nat, m: nat)
    requires IsRun(c, ws, events, i, sendCap, recvCap) && n <= m <= |events|
    requires ws[n].lane.receiver.Dead? && i < |ws[n].sys.workers| && ws[n].sys.workers[i].Serving?
    requires !ws[m].sys.stopCalled
    ensures ws[m].lane.receiver == ws[n].lane.receiver && !ws[n].sys.stopCalled
    ensures i < |ws[m].sys.workers| && Leaving(ws[m].sys.workers[i], Steps(events, n, m, i))
  {
    if n < m {
      var w, e := ws[m - 1], events[m - 1];
      StopStays(c, w, i, sendCap, recvCap, e);
      LeavingHolds(c, ws, events, i, sendCap, recvCap, n, m - 1);
      RunKeeps(c, ws, events, i, sendCap, recvCap, m - 1);
      match e {
        case Lane(l) => DeadStays(w.lane, sendCap, recvCap, l);
        case Endpoint(g) =>
          if g.Work? && g.i == i {
            LeavingNext(c, w.sys, i, Chosen(w, i, g).choice, Steps(events, n, m - 1, i));
          } else {
            EndpointGates.OthersLeaveWorker(c, w.sys, g, i);
          }
      }
    }
  }

  lemma StopStays(c: EndpointGates.Config, w: Whole, i: nat, sendCap: nat, recvCap: nat, e: Event)
    ensures w.sys.stopCalled ==> Step(c, w, i, sendCap, recvCap, e).sys.stopCalled
  {
    if e.Endpoint? { EndpointEnd.StopStaysCalled(c, w.sys, Chosen(w, i, e.step)); }
  }

  /** A setup worker whose lane has ended does not stay in its wait either: each of its steps but a
      stop that has not come returns, or goes through the gate it was waiting for. */
  lemma DeadLaneEndsWait(c: EndpointGates.Config, w: Whole, i: nat, sendCap: nat, recvCap: nat, choice: EndpointGates.Choice)
    requires i < |w.sys.workers| && w.sys.workers[i].AwaitAuthorized? && w.lane.receiver.Dead? && !choice.TakeStop?
    ensures var t := Step(c, w, i, sendCap, recvCap, Endpoint(EndpointGates.Work(i, choice)));
            t.sys.workers[i].Returned? || (t.sys.workers[i].CheckAuthorized? && !OnlyLaneReady(w.sys.sh, w.sys.workers[i]))
  {
  }

  /** A packet that finds the receive queue full ends the lane and with it the endpoint.  Nothing queued
      is dropped; the worker, whatever its select! reports, leaves at its next step and never serves
      again; and unless someone calls stop, its third step leaves the endpoint failed. */
  lemma FullQueueFailsEndpoint(
    c: EndpointGates.Config, ws: seq<Whole>, events: seq<Event>, i: nat, sendCap: nat, recvCap: nat, n: nat, m: nat)
    requires IsRun(c, ws, events, i, sendCap, recvCap) && n < m <= |events|
    requires events[n] == Lane(ReliableLane.Receive) && i < |ws[n].sys.workers| && ws[n].sys.workers[i].Serving?
    requires ws[n].lane.receiver.Alive? && ws[n].lane.channel != [] && |ws[n].lane.receiveQueue| == recvCap
    requires !ws[m].sys.stopCalled
    ensures ws[n + 1].lane.receiveQueue == ws[n].lane.receiveQueue && ws[m].lane.receiver.Dead?
    ensures i < |ws[m].sys.workers| && (Steps(events, n + 1, m, i) > 0 <==> !ws[m].sys.workers[i].Serving?)
    ensures (Steps(events, n + 1, m, i) >= 3 <==> ws[m].sys.workers[i].Done?)
    ensures Steps(events, n + 1, m, i) == 3 && OwnStep(events[m - 1], i) ==> ws[m].sys.sh.state == Failed
  {
    var e := events[n];
    LeavingHolds(c, ws, events, i, sendCap, recvCap, n + 1, m);
    if Steps(events, n + 1, m, i) == 3 && OwnStep(events[m - 1], i) {
      var w, g := ws[m - 1], events[m - 1].step;
      StopStays(c, w, i, sendCap, recvCap, events[m - 1]);
      LeavingHolds(c, ws, events, i, sendCap, recvCap, n + 1, m - 1);
      RunKeeps(c, ws, events, i, sendCap, recvCap, m - 1);
      LeavingNext(c, w.sys, i, Chosen(w, i, g).choice, 2);
    }
  }
}
