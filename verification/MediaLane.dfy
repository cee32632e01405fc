/** One media lane (video or audio) end to end: evicting send queue, send loop, a channel that keeps
    order, may lose packets and may report holes, evicting receive queue, and one receiving thread
    that peeks under one lock and pops under another.  Sent packets are named by their acceptance
    number, received items by their place among all items received. */
module MediaLane {
  import opened NativeQueues
  import SendLoop

  /** What the receive task takes off the channel: a packet, or an audio hole. */
  datatype Item = Media(id: nat) | Hole(missing: nat)

  /** `evicted` records whether an eviction fell between the peek and the pop. */
  datatype Reader = ReaderIdle | Peeked(place: nat, evicted: bool)

  datatype Lane = Lane(
    loop: SendLoop.Loop<nat>,
    channel: seq<Item>,
    receiveQueue: seq<nat>,  // places of the queued items
    reader: Reader,
    accepted: nat,           // packets the sending call answered OK or DROPPED to
    sendDrops: nat,
    lost: nat,               // packets the channel lost
    received: seq<Item>,     // everything the receive task queued
    receiveDrops: nat,
    delivered: seq<nat>)     // places of the items returned to the caller

  datatype Event =
    | Submit
    | Internal(e: SendLoop.Event<nat>)
    | Lose(i: nat)
    | ReportHole(i: nat, missing: nat)
    | Receive
    | Peek | Take

  const Start := Lane(SendLoop.Idle(), [], [], ReaderIdle, 0, 0, 0, [], 0, [])

  function Step(l: Lane, sendCap: nat, recvCap: nat, e: Event): Lane
    requires 0 < sendCap && 0 < recvCap && |l.loop.queue| <= sendCap && |l.receiveQueue| <= recvCap
  {
    match e
    case Submit =>
      l.(loop := SendLoop.Step(l.loop, SendLoop.Push(Replace(l.loop.queue, sendCap, l.accepted))),
         accepted := l.accepted + 1,
         sendDrops := l.sendDrops + if |l.loop.queue| == sendCap then 1 else 0)
    case Internal(i) =>
      if i.Push? then l
      else l.(loop := SendLoop.Step(l.loop, i), channel := l.channel + Items(SendLoop.Sent(l.loop, i)))
    case Lose(i) =>
      if i >= |l.channel| || l.channel[i].Hole? then l
      else l.(channel := l.channel[..i] + l.channel[i + 1..], lost := l.lost + 1)
    case ReportHole(i, missing) =>
      if i > |l.channel| then l else l.(channel := l.channel[..i] + [Hole(missing)] + l.channel[i..])
    case Receive =>
      if l.channel == [] then l
      else
        var full := |l.receiveQueue| == recvCap;
        l.(channel := l.channel[1..], receiveQueue := Replace(l.receiveQueue, recvCap, |l.received|),
           received := l.received + [l.channel[0]], receiveDrops := l.receiveDrops + if full then 1 else 0,
           reader := if l.reader.Peeked? && full then l.reader.(evicted := true) else l.reader)
    case Peek =>
      if l.reader.ReaderIdle? && l.receiveQueue != [] then l.(reader := Peeked(l.receiveQueue[0], false)) else l
    case Take =>
      if l.reader.ReaderIdle? then l
      else l.(reader := ReaderIdle, delivered := l.delivered + [l.reader.place],
              receiveQueue := if l.receiveQueue == [] then [] else l.receiveQueue[1..])
  }

  ghost predicate IsRun(lanes: seq<Lane>, events: seq<Event>, sendCap: nat, recvCap: nat) {
    && 0 < sendCap && 0 < recvCap
    && |lanes| == |events| + 1 && lanes[0] == Start
    && forall i {:trigger events[i]} | 0 <= i < |events| ::
         && |lanes[i].loop.queue| <= sendCap && |lanes[i].receiveQueue| <= recvCap
         && lanes[i + 1] == Step(lanes[i], sendCap, recvCap, events[i])
  }

  // ---------------------------------------------------------------- packets among items

  function Items(ids: seq<nat>): (r: seq<Item>)
    ensures |r| == |ids| && forall i | 0 <= i < |r| :: r[i] == Media(ids[i])
  {
    seq(|ids|, i requires 0 <= i < |ids| => Media(ids[i]))
  }

  /** The packets among the items, in order. */
  function Ids(items: seq<Item>): seq<nat> {
    if items == [] then []
    else Ids(items[..|items| - 1]) + (if items[|items| - 1].Media? then [items[|items| - 1].id] else [])
  }

  lemma {:induction false} IdsConcat(a: seq<Item>, b: seq<Item>)
    ensures Ids(a + b) == Ids(a) + Ids(b)
  {
    if b == [] {
      assert a + b == a;
    } else {
      var last := |b| - 1;
      IdsConcat(a, b[..last]);
      assert (a + b)[..|a + b| - 1] == a + b[..last];
    }
  }

  lemma {:induction false} IdsOfItems(ids: seq<nat>)
    ensures Ids(Items(ids)) == ids
  {
    if ids != [] {
      var last := |ids| - 1;
      IdsOfItems(ids[..last]);
      assert Items(ids)[..last] == Items(ids[..last]);
    }
  }

  // ---------------------------------------------------------------- strictly increasing sequences

  ghost predicate Rising(s: seq<nat>, bound: nat) {
    && (forall i, j | 0 <= i < j < |s| :: s[i] < s[j])
    && (forall i | 0 <= i < |s| :: s[i] < bound)
  }

  lemma RemoveKeepsRising(a: seq<nat>, x: nat, b: seq<nat>, bound: nat)
    requires Rising(a + [x] + b, bound)
    ensures Rising(a + b, bound)
  {
    var s, t := a + [x] + b, a + b;
    assert forall i | 0 <= i < |t| :: t[i] == s[if i < |a| then i else i + 1];
  }

  lemma PrefixIsRising(a: seq<nat>, b: seq<nat>, bound: nat)
    requires Rising(a + b, bound)
    ensures Rising(a, bound)
  {
    assert forall i | 0 <= i < |a| :: a[i] == (a + b)[i];
  }

  // ---------------------------------------------------------------- the sending half

  function Near(l: Lane): seq<nat> { SendLoop.Held(l.loop.worker) + l.loop.queue }

  /** Every packet that was received or still may be, in line. */
  function Line(l: Lane): seq<nat> { Ids(l.received) + (Ids(l.channel) + Near(l)) }

  ghost predicate Sending(l: Lane, sendCap: nat) {
    && |l.loop.queue| <= sendCap && Rising(Line(l), l.accepted)
    && l.accepted == l.sendDrops + l.lost + |Ids(l.received)| + |Ids(l.channel)| + |Near(l)|
  }

  /** The next number joins the line; a full queue loses its oldest number for it. */
  lemma JoinLine(front: seq<nat>, q: seq<nat>, cap: nat, bound: nat)
    requires 0 < cap && |q| <= cap && Rising(front + q, bound)
    ensures Rising(front + Replace(q, cap, bound), bound + 1)
  {
    if |q| == cap {
      assert front + q == front + [q[0]] + q[1..];
      RemoveKeepsRising(front, q[0], q[1..], bound);
      assert front + Replace(q, cap, bound) == (front + q[1..]) + [bound];
    } else {
      assert front + Replace(q, cap, bound) == (front + q) + [bound];
    }
  }

  lemma SubmitKeeps(l: Lane, sendCap: nat, recvCap: nat)
    requires 0 < sendCap && 0 < recvCap && |l.receiveQueue| <= recvCap && Sending(l, sendCap)
    ensures Sending(Step(l, sendCap, recvCap, Submit), sendCap)
  {
    var t := Step(l, sendCap, recvCap, Submit);
    var r, c, h := Ids(l.received), Ids(l.channel), SendLoop.Held(l.loop.worker);
    LineParts(r, c, h, l.loop.queue);
    JoinLine(r + (c + h), l.loop.queue, sendCap, l.accepted);
    LineParts(r, c, h, t.loop.queue);
  }

  lemma LineParts(r: seq<nat>, c: seq<nat>, h: seq<nat>, q: seq<nat>)
    ensures r + (c + (h + q)) == (r + (c + h)) + q
  {
  }

  lemma ShiftKeeps(l: Lane, sendCap: nat, after: SendLoop.Loop<nat>, sent: seq<nat>)
    requires Sending(l, sendCap) && |after.queue| <= |l.loop.queue|
    requires sent + (SendLoop.Held(after.worker) + after.queue) == Near(l)
    ensures Sending(l.(loop := after, channel := l.channel + Items(sent)), sendCap)
  {
    var rest := SendLoop.Held(after.worker) + after.queue;
    IdsConcat(l.channel, Items(sent));
    IdsOfItems(sent);
    assert (Ids(l.channel) + sent) + rest == Ids(l.channel) + (sent + rest);
  }

  /** A packet taken out of the channel. */
  lemma LoseKeeps(l: Lane, sendCap: nat, i: nat)
    requires Sending(l, sendCap) && i < |l.channel| && l.channel[i].Media?
    ensures Sending(l.(channel := l.channel[..i] + l.channel[i + 1..], lost := l.lost + 1), sendCap)
  {
    var a, x, b := l.channel[..i], l.channel[i], l.channel[i + 1..];
    assert l.channel == (a + [x]) + b;
    IdsConcat(a + [x], b);
    IdsConcat(a, [x]);
    IdsConcat(a, b);
    assert Ids([x]) == [x.id];
    RemoveFromLine(Ids(l.received), Ids(a), x.id, Ids(b), Near(l), l.accepted);
  }

  lemma RemoveFromLine(r: seq<nat>, a: seq<nat>, x: nat, b: seq<nat>, n: seq<nat>, bound: nat)
    requires Rising(r + (((a + [x]) + b) + n), bound)
    ensures Rising(r + ((a + b) + n), bound)
  {
    assert r + (((a + [x]) + b) + n) == (r + a) + [x] + (b + n);
    RemoveKeepsRising(r + a, x, b + n, bound);
    assert (r + a) + (b + n) == r + ((a + b) + n);
  }

  /** A hole slipped in anywhere. */
  lemma HoleKeeps(l: Lane, sendCap: nat, i: nat, missing: nat)
    requires Sending(l, sendCap) && i <= |l.channel|
    ensures Sending(l.(channel := l.channel[..i] + [Hole(missing)] + l.channel[i..]), sendCap)
  {
    var a, b := l.channel[..i], l.channel[i..];
    assert l.channel == a + b;
    IdsConcat(a, b);
    IdsConcat(a + [Hole(missing)], b);
    IdsConcat(a, [Hole(missing)]);
    assert Ids([Hole(missing)]) == [];
    assert Ids(a + [Hole(missing)] + b) == Ids(l.channel);
  }

  lemma ReceiveShifts(l: Lane, sendCap: nat, recvCap: nat)
    requires 0 < sendCap && 0 < recvCap && |l.receiveQueue| <= recvCap && Sending(l, sendCap) && l.channel != []
    ensures Sending(Step(l, sendCap, recvCap, Receive), sendCap)
  {
    var x, c := l.channel[0], l.channel[1..];
    assert l.channel == [x] + c;
    IdsConcat([x], c);
    IdsConcat(l.received, [x]);
    assert Ids(l.received) + ((Ids([x]) + Ids(c)) + Near(l)) == (Ids(l.received) + Ids([x])) + (Ids(c) + Near(l));
  }

  lemma StepKeepsSending(l: Lane, sendCap: nat, recvCap: nat, e: Event)
    requires 0 < sendCap && 0 < recvCap && |l.receiveQueue| <= recvCap && Sending(l, sendCap)
    ensures Sending(Step(l, sendCap, recvCap, e), sendCap)
  {
    match e
    case Submit => SubmitKeeps(l, sendCap, recvCap);
    case Internal(i) =>
      if !i.Push? {
        SendLoop.NothingSkipped(l.loop, i);
        ShiftKeeps(l, sendCap, SendLoop.Step(l.loop, i), SendLoop.Sent(l.loop, i));
      }
    case Lose(i) => if i < |l.channel| && l.channel[i].Media? { LoseKeeps(l, sendCap, i); }
    case ReportHole(i, missing) => if i <= |l.channel| { HoleKeeps(l, sendCap, i, missing); }
    case Receive => if l.channel != [] { ReceiveShifts(l, sendCap, recvCap); }
    case Peek =>
    case Take =>
  }

  // ---------------------------------------------------------------- the receiving half

  /** The first place not yet out of the queue. */
  function First(l: Lane): int { |l.received| - |l.receiveQueue| }

  /** The queue holds the last received items without a gap; everything delivered, and what a reader
      holds, came before. */
  ghost predicate Receiving(l: Lane, recvCap: nat) {
    && |l.receiveQueue| <= recvCap && 0 <= First(l)
    && (forall i | 0 <= i < |l.receiveQueue| :: l.receiveQueue[i] == First(l) + i)
    && Rising(l.delivered, First(l))
    && First(l) == |l.delivered| + l.receiveDrops
    && (l.reader.Peeked? ==>
          && l.receiveQueue != [] && l.reader.place <= First(l)
          && (l.delivered == [] || l.delivered[|l.delivered| - 1] < l.reader.place)
          && (l.reader.evicted <==> l.reader.place < First(l)))
  }

  /** Without room the oldest queued item leaves, even if a reader has just peeked it. */
  lemma ReceiveKeeps(l: Lane, sendCap: nat, recvCap: nat)
    requires 0 < sendCap && 0 < recvCap && |l.loop.queue| <= sendCap && Receiving(l, recvCap) && l.channel != []
    ensures Receiving(Step(l, sendCap, recvCap, Receive), recvCap)
  {
  }

  /** The second lock's pop may remove a later item than the one delivered, and still keeps order. */
  lemma TakeKeeps(l: Lane, sendCap: nat, recvCap: nat)
    requires 0 < sendCap && 0 < recvCap && |l.loop.queue| <= sendCap && Receiving(l, recvCap) && l.reader.Peeked?
    ensures Receiving(Step(l, sendCap, recvCap, Take), recvCap)
  {
    var t := Step(l, sendCap, recvCap, Take);
    AppendKeepsRising(l.delivered, l.reader.place, First(l));
    assert t.delivered == l.delivered + [l.reader.place];
  }

  lemma AppendKeepsRising(s: seq<nat>, x: nat, bound: nat)
    requires Rising(s, bound) && x <= bound && (s == [] || s[|s| - 1] < x)
    ensures Rising(s + [x], bound + 1)
  {
    forall i | 0 <= i < |s| ensures s[i] < x {
      if i < |s| - 1 { assert s[i] < s[|s| - 1]; }
    }
  }

  lemma StepKeepsReceiving(l: Lane, sendCap: nat, recvCap: nat, e: Event)
    requires 0 < sendCap && 0 < recvCap && |l.loop.queue| <= sendCap && Receiving(l, recvCap)
    ensures Receiving(Step(l, sendCap, recvCap, e), recvCap)
  {
    match e
    case Receive => if l.channel != [] { ReceiveKeeps(l, sendCap, recvCap); }
    case Take => if l.reader.Peeked? { TakeKeeps(l, sendCap, recvCap); }
    case Peek => case Submit => case Internal(_) => case Lose(_) => case ReportHole(_, _) =>
  }

  lemma {:induction false} RunKeeps(lanes: seq<Lane>, events: seq<Event>, sendCap: nat, recvCap: nat, n: nat)
    requires IsRun(lanes, events, sendCap, recvCap) && n <= |events|
    ensures Sending(lanes[n], sendCap) && Receiving(lanes[n], recvCap)
  {
    if n > 0 {
      RunKeeps(lanes, events, sendCap, recvCap, n - 1);
      var e := events[n - 1];
      StepKeepsSending(lanes[n - 1], sendCap, recvCap, e);
      StepKeepsReceiving(lanes[n - 1], sendCap, recvCap, e);
    }
  }

  // ---------------------------------------------------------------- what every run satisfies

  /** Even with evictions between peek and pop, what is delivered is a strictly rising selection of
      what was received (no duplicate, no reordering), the packets received rise in acceptance order,
      the pop never meets an empty queue and removes the delivered item itself exactly when no
      eviction fell in between, and every item and every accepted packet is accounted for. */
  lemma DeliversRisingSubsequence(lanes: seq<Lane>, events: seq<Event>, sendCap: nat, recvCap: nat, n: nat)
    requires IsRun(lanes, events, sendCap, recvCap) && n <= |events|
    ensures var l := lanes[n];
            && Rising(l.delivered, |l.received|) && Rising(Ids(l.received), l.accepted)
            && |l.received| == |l.delivered| + l.receiveDrops + |l.receiveQueue|
            && l.accepted == l.sendDrops + l.lost + |Ids(l.received)| + |Ids(l.channel)| + |Near(l)|
            && (l.reader.Peeked? ==>
                  && l.receiveQueue != []
                  && Rising(l.delivered + [l.reader.place], |l.received|)
                  && (l.receiveQueue[0] == l.reader.place <==> !l.reader.evicted))
  {
    RunKeeps(lanes, events, sendCap, recvCap, n);
    var l := lanes[n];
    PrefixIsRising(Ids(l.received), Ids(l.channel) + Near(l), l.accepted);
    if l.reader.Peeked? { AppendKeepsRising(l.delivered, l.reader.place, First(l)); }
  }

  // ---------------------------------------------------------------- runs that exist

  ghost predicate Reachable(l: Lane, sendCap: nat, recvCap: nat) {
    exists lanes: seq<Lane>, events: seq<Event> :: IsRun(lanes, events, sendCap, recvCap) && lanes[|events|] == l
  }

  lemma ReachNext(l: Lane, sendCap: nat, recvCap: nat, e: Event, t: Lane)
    requires Reachable(l, sendCap, recvCap) && 0 < sendCap && 0 < recvCap
    requires |l.loop.queue| <= sendCap && |l.receiveQueue| <= recvCap && t == Step(l, sendCap, recvCap, e)
    ensures Reachable(t, sendCap, recvCap)
  {
    var lanes: seq<Lane>, events: seq<Event> :| IsRun(lanes, events, sendCap, recvCap) && lanes[|events|] == l;
    var all, es := lanes + [t], events + [e];
    forall i {:trigger all[i]} {:trigger es[i]} | 0 <= i < |es|
      ensures |all[i].loop.queue| <= sendCap && |all[i].receiveQueue| <= recvCap
      ensures all[i + 1] == Step(all[i], sendCap, recvCap, es[i])
    {
      if i < |events| { assert es[i] == events[i]; }
    }
    assert IsRun(all, es, sendCap, recvCap);
  }

  /** The first n packets were accepted, received and delivered, and nothing is under way. */
  predicate Resting(l: Lane, n: nat) {
    && l.accepted == n && l.received == seq(n, i requires 0 <= i => Media(i)) && l.delivered == seq(n, i requires 0 <= i => i)
    && l.sendDrops == l.lost == l.receiveDrops == 0 && l.channel == [] && l.receiveQueue == [] && l.reader.ReaderIdle?
    && l.loop.queue == [] && l.loop.pushers == 0 && l.loop.worker.Create? && !l.loop.stop
  }

  lemma SendOne(l: Lane, sendCap: nat, recvCap: nat, n: nat) returns (t: Lane)
    requires Reachable(l, sendCap, recvCap) && Resting(l, n) && 0 < sendCap && 0 < recvCap
    ensures Reachable(t, sendCap, recvCap)
    ensures t == l.(accepted := n + 1, channel := [Media(n)], loop := l.loop.(permit := true))
  {
    var a := l.(accepted := n + 1, loop := l.loop.(queue := [n], pushers := 1));
    var b := a.(loop := l.loop.(queue := [n], permit := true));
    var d := b.(loop := b.loop.(worker := SendLoop.TryPop(l.loop.broadcasts)));
    var f := b.(loop := b.loop.(queue := [], worker := SendLoop.Sending(n)));
    t := l.(accepted := n + 1, channel := [Media(n)], loop := l.loop.(permit := true));
    assert Replace(l.loop.queue, sendCap, n) == [n];
    ReachNext(l, sendCap, recvCap, Submit, a);
    assert l.channel + Items([]) == [];
    ReachNext(a, sendCap, recvCap, Internal(SendLoop.Notify), b);
    ReachNext(b, sendCap, recvCap, Internal(SendLoop.Work(true)), d);
    ReachNext(d, sendCap, recvCap, Internal(SendLoop.Work(true)), f);
    assert l.channel + Items([n]) == [Media(n)];
    ReachNext(f, sendCap, recvCap, Internal(SendLoop.Work(true)), t);
  }

  lemma DeliverOne(l: Lane, sendCap: nat, recvCap: nat, n: nat) returns (t: Lane)
    requires Reachable(l, sendCap, recvCap) && 0 < sendCap && 0 < recvCap
    requires Resting(l.(accepted := n, channel := []), n) && l.accepted == n + 1 && l.channel == [Media(n)]
    ensures Reachable(t, sendCap, recvCap) && Resting(t, n + 1)
  {
    var a := l.(channel := [], receiveQueue := [n], received := l.received + [Media(n)]);
    var b := a.(reader := Peeked(n, false));
    t := a.(receiveQueue := [], delivered := l.delivered + [n]);
    assert Replace(l.receiveQueue, recvCap, n) == [n];
    ReachNext(l, sendCap, recvCap, Receive, a);
    ReachNext(a, sendCap, recvCap, Peek, b);
    ReachNext(b, sendCap, recvCap, Take, t);
  }

  /** Any number of packets can go through whole and in order, none dropped, through queues of any
      capacity but zero. */
  lemma {:induction false} AnyNumberGetsThrough(n: nat, sendCap: nat, recvCap: nat) returns (l: Lane)
    requires 0 < sendCap && 0 < recvCap
    ensures Reachable(l, sendCap, recvCap) && Resting(l, n)
  {
    if n == 0 {
      l := Start;
      assert IsRun([Start], [], sendCap, recvCap);
    } else {
      l := AnyNumberGetsThrough(n - 1, sendCap, recvCap);
      l := SendOne(l, sendCap, recvCap, n - 1);
      l := DeliverOne(l, sendCap, recvCap, n - 1);
    }
  }

  /** A drop happens exactly when a queue is full: on submission at the sender, on receipt at the
      receiver. */
  lemma DropsExactlyWhenFull(lanes: seq<Lane>, events: seq<Event>, sendCap: nat, recvCap: nat, n: nat)
    requires IsRun(lanes, events, sendCap, recvCap) && n < |events|
    ensures var l, t, e := lanes[n], lanes[n + 1], events[n];
            && t.sendDrops == l.sendDrops + (if e == Submit && |l.loop.queue| == sendCap then 1 else 0)
            && t.receiveDrops == l.receiveDrops + (if e == Receive && l.channel != [] && |l.receiveQueue| == recvCap then 1 else 0)
  {
    assert lanes[n + 1] == Step(lanes[n], sendCap, recvCap, events[n]);
    match events[n]
    case Submit => case Internal(_) => case Lose(_) => case ReportHole(_, _) => case Receive => case Peek => case Take =>
  }
}
