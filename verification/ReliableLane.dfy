/** One reliable lane (input or data) from the sending endpoint's callers to the receiving
    endpoint's caller: refusing send queue, send loop, FIFO channel, receive task, receive queue,
    and a single receiving thread that peeks and pops under separate locks. */
module ReliableLane {
  import opened NativeQueues
  import SendLoop

  datatype Receiver = Alive | Dead(lost: seq<Packet>)  // the packet, if any, that found the queue full

  datatype Reader = ReaderIdle | Peeked(packet: Packet)

  datatype Lane = Lane(
    loop: SendLoop.Loop<Packet>,
    channel: seq<Packet>,
    receiver: Receiver,
    receiveQueue: seq<Packet>,
    reader: Reader,
    accepted: seq<Packet>,   // packets the sending call answered OK to
    delivered: seq<Packet>)  // packets the receiving call answered OK with

  datatype Event =
    | Submit(packet: Packet)            // the locked half of input_send or data_send
    | Internal(e: SendLoop.Event<Packet>)
    | Receive                           // the receive task takes the next packet off the channel
    | DropReceiver
    | Peek(capacity: nat) | Take        // the two locked halves of a receive call

  const Start := Lane(SendLoop.Idle(), [], Alive, [], ReaderIdle, [], [])

  function Lost(r: Receiver): seq<Packet> { if r.Alive? then [] else r.lost }

  function Step(l: Lane, sendCap: nat, recvCap: nat, e: Event): Lane {
    match e
    case Submit(p) =>
      if |l.loop.queue| >= sendCap then l
      else l.(loop := SendLoop.Step(l.loop, SendLoop.Push(l.loop.queue + [p])), accepted := l.accepted + [p])
    case Internal(i) =>
      if i.Push? then l
      else l.(loop := SendLoop.Step(l.loop, i), channel := l.channel + SendLoop.Sent(l.loop, i))
    case Receive =>
      if l.receiver.Dead? || l.channel == [] then l
      else if |l.receiveQueue| >= recvCap then l.(channel := l.channel[1..], receiver := Dead([l.channel[0]]))
      else l.(channel := l.channel[1..], receiveQueue := l.receiveQueue + [l.channel[0]])
    case DropReceiver => if l.receiver.Dead? then l else l.(receiver := Dead([]))
    case Peek(capacity) =>
      if l.reader.ReaderIdle? && l.receiveQueue != [] && |l.receiveQueue[0].payload| <= capacity
      then l.(reader := Peeked(l.receiveQueue[0])) else l
    case Take =>
      if l.reader.ReaderIdle? then l
      else l.(reader := ReaderIdle, delivered := l.delivered + [l.reader.packet],
              receiveQueue := if l.receiveQueue == [] then [] else l.receiveQueue[1..])
  }

  ghost predicate IsRun(lanes: seq<Lane>, events: seq<Event>, sendCap: nat, recvCap: nat) {
    && |lanes| == |events| + 1 && lanes[0] == Start
    && forall i {:trigger events[i]} | 0 <= i < |events| :: lanes[i + 1] == Step(lanes[i], sendCap, recvCap, events[i])
  }

  /** Where every accepted packet is, in order. */
  function Pipeline(l: Lane): seq<Packet> {
    l.delivered + (l.receiveQueue + Lost(l.receiver)) + (l.channel + (SendLoop.Held(l.loop.worker) + l.loop.queue))
  }

  ghost predicate Flow(l: Lane, sendCap: nat, recvCap: nat) {
    && l.accepted == Pipeline(l)
    && (l.reader.Peeked? ==> l.receiveQueue != [] && l.receiveQueue[0] == l.reader.packet)
    && |l.loop.queue| <= sendCap && |l.receiveQueue| <= recvCap
    && SendLoop.Awake(l.loop)
  }

  lemma SubmitKeepsFlow(l: Lane, sendCap: nat, recvCap: nat, p: Packet)
    requires Flow(l, sendCap, recvCap)
    ensures Flow(Step(l, sendCap, recvCap, Submit(p)), sendCap, recvCap)
  {
    var t := Step(l, sendCap, recvCap, Submit(p));
    if t != l {
      SendLoop.StepKeepsAwake(l.loop, SendLoop.Push(l.loop.queue + [p]));
      assert Pipeline(t) == Pipeline(l) + [p];
    }
  }

  lemma ShiftKeepsFlow(l: Lane, sendCap: nat, recvCap: nat, after: SendLoop.Loop<Packet>, sent: seq<Packet>)
    requires Flow(l, sendCap, recvCap) && SendLoop.Awake(after) && |after.queue| <= sendCap
    requires sent + (SendLoop.Held(after.worker) + after.queue) == SendLoop.Held(l.loop.worker) + l.loop.queue
    ensures Flow(l.(loop := after, channel := l.channel + sent), sendCap, recvCap)
  {
    var rest := SendLoop.Held(after.worker) + after.queue;
    assert (l.channel + sent) + rest == l.channel + (sent + rest);
  }

  lemma InternalKeepsFlow(l: Lane, sendCap: nat, recvCap: nat, i: SendLoop.Event<Packet>)
    requires Flow(l, sendCap, recvCap) && !i.Push?
    ensures Flow(Step(l, sendCap, recvCap, Internal(i)), sendCap, recvCap)
  {
    SendLoop.StepKeepsAwake(l.loop, i);
    SendLoop.NothingSkipped(l.loop, i);
    ShiftKeepsFlow(l, sendCap, recvCap, SendLoop.Step(l.loop, i), SendLoop.Sent(l.loop, i));
  }

  /** One packet crosses from the channel to the receive queue; one leaves it for the caller. */
  lemma Crosses(d: seq<Packet>, r: seq<Packet>, x: Packet, c: seq<Packet>, n: seq<Packet>)
    ensures d + (r + []) + (([x] + c) + n) == d + (r + [x]) + (c + n)
  {
  }

  lemma Leaves(d: seq<Packet>, x: Packet, r: seq<Packet>, n: seq<Packet>)
    ensures d + (([x] + r) + n) == (d + [x]) + (r + n)
  {
  }

  lemma ReceiveKeepsFlow(l: Lane, sendCap: nat, recvCap: nat)
    requires Flow(l, sendCap, recvCap) && l.receiver.Alive? && l.channel != []
    ensures Flow(Step(l, sendCap, recvCap, Receive), sendCap, recvCap)
  {
    var t := Step(l, sendCap, recvCap, Receive);
    var x, near := l.channel[0], SendLoop.Held(l.loop.worker) + l.loop.queue;
    assert t.receiveQueue + Lost(t.receiver) == l.receiveQueue + [x];
    assert l.channel == [x] + t.channel;
    Crosses(l.delivered, l.receiveQueue, x, t.channel, near);
  }

  lemma TakeKeepsFlow(l: Lane, sendCap: nat, recvCap: nat)
    requires Flow(l, sendCap, recvCap) && l.reader.Peeked?
    ensures Flow(Step(l, sendCap, recvCap, Take), sendCap, recvCap)
  {
    var x, rest := l.receiveQueue[0], l.receiveQueue[1..];
    assert l.receiveQueue == [x] + rest;
    Leaves(l.delivered, x, rest, Lost(l.receiver));
  }

  lemma ReceivingKeepsFlow(l: Lane, sendCap: nat, recvCap: nat, e: Event)
    requires Flow(l, sendCap, recvCap) && !e.Submit? && !e.Internal?
    ensures Flow(Step(l, sendCap, recvCap, e), sendCap, recvCap)
  {
    match e
    case Receive => if l.receiver.Alive? && l.channel != [] { ReceiveKeepsFlow(l, sendCap, recvCap); }
    case Take => if l.reader.Peeked? { TakeKeepsFlow(l, sendCap, recvCap); }
    case Peek(_) => case DropReceiver =>
  }

  lemma StepKeepsFlow(l: Lane, sendCap: nat, recvCap: nat, e: Event)
    requires Flow(l, sendCap, recvCap)
    ensures Flow(Step(l, sendCap, recvCap, e), sendCap, recvCap)
  {
    match e
    case Submit(p) => SubmitKeepsFlow(l, sendCap, recvCap, p);
    case Internal(i) => if !i.Push? { InternalKeepsFlow(l, sendCap, recvCap, i); }
    case _ => ReceivingKeepsFlow(l, sendCap, recvCap, e);
  }

  lemma {:induction false} RunKeepsFlow(lanes: seq<Lane>, events: seq<Event>, sendCap: nat, recvCap: nat, n: nat)
    requires IsRun(lanes, events, sendCap, recvCap) && n <= |events|
    ensures Flow(lanes[n], sendCap, recvCap)
  {
    if n > 0 {
      RunKeepsFlow(lanes, events, sendCap, recvCap, n - 1);
      var e := events[n - 1];
      StepKeepsFlow(lanes[n - 1], sendCap, recvCap, e);
    }
  }

  /** In every run the far caller has received a prefix of what was accepted; while both tasks are
      alive nothing accepted is missing; and a packet shown by the peek is the one the pop removes. */
  lemma DeliversPrefix(lanes: seq<Lane>, events: seq<Event>, sendCap: nat, recvCap: nat, n: nat)
    requires IsRun(lanes, events, sendCap, recvCap) && n <= |events|
    ensures var l := lanes[n];
            && l.delivered <= l.accepted
            && (l.receiver.Alive? && !l.loop.worker.Ended? ==>
                  l.accepted == l.delivered + l.receiveQueue + l.channel + SendLoop.Held(l.loop.worker) + l.loop.queue)
            && (l.reader.Peeked? ==> l.receiveQueue != [] && l.receiveQueue[0] == l.reader.packet)
  {
    RunKeepsFlow(lanes, events, sendCap, recvCap, n);
    var l := lanes[n];
    assert l.accepted == l.delivered
        + (l.receiveQueue + Lost(l.receiver) + l.channel + SendLoop.Held(l.loop.worker) + l.loop.queue);
  }

  /** Once the loop sleeps, every notify has happened and the receiving side has drained, every
      accepted packet has been delivered: wakeups and ordering together leave nothing behind. */
  lemma QuiescentMeansDelivered(lanes: seq<Lane>, events: seq<Event>, sendCap: nat, recvCap: nat, n: nat)
    requires IsRun(lanes, events, sendCap, recvCap) && n <= |events|
    requires lanes[n].loop.worker.Parked? && lanes[n].loop.pushers == 0
    requires lanes[n].receiver.Alive? && lanes[n].channel == [] && lanes[n].receiveQueue == []
    ensures lanes[n].delivered == lanes[n].accepted
  {
    RunKeepsFlow(lanes, events, sendCap, recvCap, n);
  }

  /** In every run a submission is accepted exactly while the send queue has room, and a refused one
      changes nothing at all. */
  lemma AcceptedExactlyWithRoom(lanes: seq<Lane>, events: seq<Event>, sendCap: nat, recvCap: nat, n: nat, p: Packet)
    requires IsRun(lanes, events, sendCap, recvCap) && n < |events| && events[n] == Submit(p)
    ensures |lanes[n].loop.queue| < sendCap ==>
              lanes[n + 1].accepted == lanes[n].accepted + [p] && lanes[n + 1].loop.queue == lanes[n].loop.queue + [p]
    ensures |lanes[n].loop.queue| >= sendCap ==> |lanes[n].loop.queue| == sendCap && lanes[n + 1] == lanes[n]
  {
    RunKeepsFlow(lanes, events, sendCap, recvCap, n);
    assert lanes[n + 1] == Step(lanes[n], sendCap, recvCap, events[n]);
  }

  /** A receive call takes the front packet if it fits the caller's buffer; otherwise it stays. */
  lemma PeekedExactlyWhenItFits(lanes: seq<Lane>, events: seq<Event>, sendCap: nat, recvCap: nat, n: nat, capacity: nat)
    requires IsRun(lanes, events, sendCap, recvCap) && n < |events| && events[n] == Peek(capacity) && lanes[n].reader.ReaderIdle?
    ensures var l, t := lanes[n], lanes[n + 1];
            && t.receiveQueue == l.receiveQueue && t.delivered == l.delivered
            && (t.reader.Peeked? <==> l.receiveQueue != [] && |l.receiveQueue[0].payload| <= capacity)
            && (t.reader.Peeked? ==> t.reader.packet == l.receiveQueue[0])
  {
    assert lanes[n + 1] == Step(lanes[n], sendCap, recvCap, events[n]);
  }

  // ---------------------------------------------------------------- runs that exist

  ghost predicate Reachable(l: Lane, sendCap: nat, recvCap: nat) {
    exists lanes: seq<Lane>, events: seq<Event> :: IsRun(lanes, events, sendCap, recvCap) && lanes[|events|] == l
  }

  lemma ReachNext(l: Lane, sendCap: nat, recvCap: nat, e: Event, t: Lane)
    requires Reachable(l, sendCap, recvCap) && t == Step(l, sendCap, recvCap, e)
    ensures Reachable(t, sendCap, recvCap)
  {
    var lanes: seq<Lane>, events: seq<Event> :| IsRun(lanes, events, sendCap, recvCap) && lanes[|events|] == l;
    var all, es := lanes + [t], events + [e];
    forall i {:trigger es[i]} | 0 <= i < |es| ensures all[i + 1] == Step(all[i], sendCap, recvCap, es[i]) {
      if i < |events| { assert es[i] == events[i]; }
    }
    assert IsRun(all, es, sendCap, recvCap);
  }

  /** Everything accepted is delivered and nothing is under way. */
  predicate Resting(l: Lane, ps: seq<Packet>) {
    && l.accepted == l.delivered == ps && l.channel == l.receiveQueue == [] && l.receiver.Alive? && l.reader.ReaderIdle?
    && l.loop.queue == [] && l.loop.pushers == 0 && l.loop.worker.Create? && !l.loop.stop
  }

  /** One packet is accepted and sent, */
  lemma SendOne(l: Lane, sendCap: nat, recvCap: nat, ps: seq<Packet>, p: Packet) returns (t: Lane)
    requires Reachable(l, sendCap, recvCap) && Resting(l, ps) && 0 < sendCap
    ensures Reachable(t, sendCap, recvCap)
    ensures t == l.(accepted := ps + [p], channel := [p], loop := l.loop.(permit := true))
  {
    var a := l.(accepted := ps + [p], loop := l.loop.(queue := [p], pushers := 1));
    var b := a.(loop := l.loop.(queue := [p], permit := true));
    var d := b.(loop := b.loop.(worker := SendLoop.TryPop(l.loop.broadcasts)));
    var f := b.(loop := b.loop.(queue := [], worker := SendLoop.Sending(p)));
    t := l.(accepted := ps + [p], channel := [p], loop := l.loop.(permit := true));
    assert l.loop.queue + [p] == [p];
    ReachNext(l, sendCap, recvCap, Submit(p), a);
    ReachNext(a, sendCap, recvCap, Internal(SendLoop.Notify), b);
    ReachNext(b, sendCap, recvCap, Internal(SendLoop.Work(true)), d);
    ReachNext(d, sendCap, recvCap, Internal(SendLoop.Work(true)), f);
    assert [] + [p] == [p];
    ReachNext(f, sendCap, recvCap, Internal(SendLoop.Work(true)), t);
  }

  /** received and delivered. */
  lemma DeliverOne(l: Lane, sendCap: nat, recvCap: nat, ps: seq<Packet>, p: Packet) returns (t: Lane)
    requires Reachable(l, sendCap, recvCap) && Resting(l.(accepted := ps, channel := []), ps) && 0 < recvCap
    requires l.accepted == ps + [p] && l.channel == [p]
    ensures Reachable(t, sendCap, recvCap) && Resting(t, ps + [p])
  {
    var a := l.(channel := [], receiveQueue := [p]);
    var b := a.(reader := Peeked(p));
    t := l.(channel := [], delivered := ps + [p]);
    ReachNext(l, sendCap, recvCap, Receive, a);
    ReachNext(a, sendCap, recvCap, Peek(|p.payload|), b);
    ReachNext(b, sendCap, recvCap, Take, t);
  }

  /** Every list of packets, of whatever size, can be accepted and delivered whole, through queues of
      any capacity but zero. */
  lemma {:induction false} EveryListGetsThrough(ps: seq<Packet>, sendCap: nat, recvCap: nat) returns (l: Lane)
    requires 0 < sendCap && 0 < recvCap
    ensures Reachable(l, sendCap, recvCap) && Resting(l, ps)
  {
    if ps == [] {
      l := Start;
      assert IsRun([Start], [], sendCap, recvCap);
    } else {
      var init, p := ps[..|ps| - 1], ps[|ps| - 1];
      l := EveryListGetsThrough(init, sendCap, recvCap);
      l := SendOne(l, sendCap, recvCap, init, p);
      l := DeliverOne(l, sendCap, recvCap, init, p);
      assert ps == init + [p];
    }
  }
}
