/** The bounded queues of the native endpoint and the C calls that fill and empty them. */
module NativeQueues {
  import opened Wrappers

  const VIDEO_SEND_CAPACITY := 4
  const VIDEO_RECEIVE_CAPACITY := 16
  const AUDIO_SEND_CAPACITY := 16
  const AUDIO_RECEIVE_CAPACITY := 64
  const INPUT_SEND_CAPACITY := 128
  const INPUT_RECEIVE_CAPACITY := 128
  const DATA_SEND_CAPACITY := 64
  const DATA_RECEIVE_CAPACITY := 64
  const MAX_VIDEO_FRAME_SIZE := 64 * 1024 * 1024
  const MAX_AUDIO_PACKET_SIZE := 64 * 1024
  const MAX_INPUT_PACKET_SIZE := 65535
  const MAX_DATA_PACKET_SIZE := 1024 * 1024
  const VIDEO_FLAG_KEY := 1
  const VIDEO_CODEC_H264 := 0x48323634
  const VIDEO_CODEC_HEVC := 0x48455643

  datatype EndpointState = Idle | Starting | PeerValidation | SetupReady | Ready | Stopping | Stopped | Failed

  datatype Code = Ok | Timeout | Dropped | InvalidArgument | InvalidState | Runtime | BufferTooSmall

  /** A packet of a reliable lane; the data lane leaves `kind` at zero. */
  datatype Packet = Packet(kind: int, payload: seq<int>)

  datatype VideoFrame = VideoFrame(codec: int, flags: int, number: int, pts: int, latency: int, payload: seq<int>)

  datatype AudioPacket = AudioPacket(pts: int, frameSamples: int, missingSamples: int, payload: seq<int>)

  /** The evicting policy: the newest value always enters, the oldest leaves when there is no room. */
  function Replace<T>(q: seq<T>, capacity: nat, value: T): (r: seq<T>)
    requires 0 < capacity && |q| <= capacity
    ensures |r| == (if |q| < capacity then |q| + 1 else capacity) && r[|r| - 1] == value
    ensures forall i | 0 <= i < |r| - 1 :: r[i] == q[|q| + 1 - |r| + i]
  {
    if |q| == capacity then q[1..] + [value] else q + [value]
  }

  /** What the environment did while a receiver slept: packets that arrived, the state and stop flag
      it left behind, and whether the wait reported its timeout. */
  datatype Wake = Wake(arrived: seq<Packet>, state: EndpointState, stop: bool, timedOut: bool)

  datatype Seen = Seen(front: Option<Packet>, queue: seq<Packet>, state: EndpointState)

  predicate Terminal(state: EndpointState) { state == Failed || state == Stopped }

  /** wait_pop with a peeking closure.  `wakes` lists the waits the deadline leaves room for. */
  function Await(queue: seq<Packet>, state: EndpointState, stop: bool, wakes: seq<Wake>): (r: Seen)
    ensures r.front.Some? ==> r.queue != [] && r.queue[0] == r.front.value
    decreases |wakes|
  {
    if queue != [] then Seen(Some(queue[0]), queue, state)
    else if stop || Terminal(state) || wakes == [] then Seen(None, queue, state)
    else
      var w := wakes[0];
      if w.timedOut then Seen(None, queue + w.arrived, w.state)
      else Await(queue + w.arrived, w.state, w.stop, wakes[1..])
  }

  datatype Received = Received(code: Code, packet: Option<Packet>, queue: seq<Packet>)

  /** What the environment did after wait_pop let go of the queue lock: packets that arrived before
      the call's next access, and the state that access finds. */
  datatype Gap = Gap(arrived: seq<Packet>, state: EndpointState)

  /** A whole receive call: the wait, then the state read again, or the copy and the pop under a
      second lock. */
  function Receive(queue: seq<Packet>, state: EndpointState, stop: bool, wakes: seq<Wake>, gap: Gap, capacity: nat): Received {
    var seen := Await(queue, state, stop, wakes);
    var later := seen.queue + gap.arrived;
    match seen.front
    case None => Received(if gap.state == Failed then Runtime else Timeout, None, later)
    case Some(p) =>
      if |p.payload| > capacity then Received(BufferTooSmall, None, later)
      else Received(Ok, Some(p), later[1..])
  }

  // ---------------------------------------------------------------- when a receive finds a packet

  /** The queue, state and stop flag after the first j waits. */
  ghost function QueueAfter(queue: seq<Packet>, wakes: seq<Wake>, j: nat): seq<Packet>
    requires j <= |wakes|
  {
    if j == 0 then queue else QueueAfter(queue, wakes, j - 1) + wakes[j - 1].arrived
  }

  ghost function StateAfter(state: EndpointState, wakes: seq<Wake>, j: nat): EndpointState
    requires j <= |wakes|
  {
    if j == 0 then state else wakes[j - 1].state
  }

  ghost function StopAfter(stop: bool, wakes: seq<Wake>, j: nat): bool
    requires j <= |wakes|
  {
    if j == 0 then stop else wakes[j - 1].stop
  }

  /** The call goes on waiting after j waits: nothing queued, no stop, a live endpoint, and the next
      wait does not run into the deadline. */
  ghost predicate WaitsOn(queue: seq<Packet>, state: EndpointState, stop: bool, wakes: seq<Wake>, j: nat) {
    && j < |wakes| && QueueAfter(queue, wakes, j) == [] && !StopAfter(stop, wakes, j)
    && StateAfter(state, wakes, j) != Failed && StateAfter(state, wakes, j) != Stopped && !wakes[j].timedOut
  }

  /** The call finds a packet after j waits. */
  ghost predicate FoundAt(queue: seq<Packet>, state: EndpointState, stop: bool, wakes: seq<Wake>, j: nat) {
    && j <= |wakes| && (forall i: nat | i < j :: WaitsOn(queue, state, stop, wakes, i))
    && QueueAfter(queue, wakes, j) != []
  }

  lemma {:induction false} QueueAfterTail(queue: seq<Packet>, wakes: seq<Wake>, j: nat)
    requires 0 < |wakes| && j < |wakes|
    ensures QueueAfter(queue + wakes[0].arrived, wakes[1..], j) == QueueAfter(queue, wakes, j + 1)
  {
    if j > 0 { QueueAfterTail(queue, wakes, j - 1); }
  }

  lemma WaitsOnTail(queue: seq<Packet>, state: EndpointState, stop: bool, wakes: seq<Wake>, j: nat)
    requires 0 < |wakes| && j < |wakes|
    ensures WaitsOn(queue + wakes[0].arrived, wakes[0].state, wakes[0].stop, wakes[1..], j)
       <==> WaitsOn(queue, state, stop, wakes, j + 1)
  {
    QueueAfterTail(queue, wakes, j);
  }

  lemma FoundAtTail(queue: seq<Packet>, state: EndpointState, stop: bool, wakes: seq<Wake>, j: nat)
    requires WaitsOn(queue, state, stop, wakes, 0) && j < |wakes|
    ensures FoundAt(queue + wakes[0].arrived, wakes[0].state, wakes[0].stop, wakes[1..], j)
       <==> FoundAt(queue, state, stop, wakes, j + 1)
  {
    var q, s, t, rest := queue + wakes[0].arrived, wakes[0].state, wakes[0].stop, wakes[1..];
    QueueAfterTail(queue, wakes, j);
    forall i: nat | i < j ensures WaitsOn(q, s, t, rest, i) <==> WaitsOn(queue, state, stop, wakes, i + 1) {
      WaitsOnTail(queue, state, stop, wakes, i);
    }
    if FoundAt(q, s, t, rest, j) {
      forall i: nat | i < j + 1 ensures WaitsOn(queue, state, stop, wakes, i) {
        if i > 0 { assert WaitsOn(q, s, t, rest, i - 1); }
      }
    }
    if FoundAt(queue, state, stop, wakes, j + 1) {
      forall i: nat | i < j ensures WaitsOn(q, s, t, rest, i) {
        assert WaitsOn(queue, state, stop, wakes, i + 1);
      }
    }
  }

  /** wait_pop returns the front packet of the first moment there is one, */
  lemma {:induction false} AwaitFinds(queue: seq<Packet>, state: EndpointState, stop: bool, wakes: seq<Wake>, j: nat)
    requires FoundAt(queue, state, stop, wakes, j)
    ensures var seen := Await(queue, state, stop, wakes);
            seen.queue == QueueAfter(queue, wakes, j) && seen.front == Some(QueueAfter(queue, wakes, j)[0])
    decreases j
  {
    if j > 0 {
      assert WaitsOn(queue, state, stop, wakes, 0);
      FoundAtTail(queue, state, stop, wakes, j - 1);
      QueueAfterTail(queue, wakes, j - 1);
      AwaitFinds(queue + wakes[0].arrived, wakes[0].state, wakes[0].stop, wakes[1..], j - 1);
    }
  }

  /** and returns one only then. */
  lemma {:induction false} AwaitFound(queue: seq<Packet>, state: EndpointState, stop: bool, wakes: seq<Wake>) returns (j: nat)
    requires Await(queue, state, stop, wakes).front.Some?
    ensures FoundAt(queue, state, stop, wakes, j)
    decreases |wakes|
  {
    if queue != [] {
      j := 0;
    } else {
      assert WaitsOn(queue, state, stop, wakes, 0);
      var k := AwaitFound(queue + wakes[0].arrived, wakes[0].state, wakes[0].stop, wakes[1..]);
      FoundAtTail(queue, state, stop, wakes, k);
      j := k + 1;
    }
  }

  /** On a live, unstopped endpoint a packet that arrives before the deadline is found, however many
      waits bring nothing before it. */
  lemma ArrivalIsFound(state: EndpointState, wakes: seq<Wake>, j: nat)
    requires j < |wakes| && wakes[j].arrived != [] && state != Failed && state != Stopped
    requires forall i: nat | i <= j :: !wakes[i].timedOut
    requires forall i: nat | i < j ::
               wakes[i].arrived == [] && !wakes[i].stop && wakes[i].state != Failed && wakes[i].state != Stopped
    ensures FoundAt([], state, false, wakes, j + 1) && QueueAfter([], wakes, j + 1) == wakes[j].arrived
  {
    forall i: nat | i <= j ensures QueueAfter([], wakes, i) == [] { NothingYet(wakes, i); }
  }

  lemma {:induction false} NothingYet(wakes: seq<Wake>, j: nat)
    requires j <= |wakes| && forall i: nat | i < j :: wakes[i].arrived == []
    ensures QueueAfter([], wakes, j) == []
  {
    if j > 0 { NothingYet(wakes, j - 1); }
  }

  /** What one receive call meets: the state and stop flag at its start, its waits, and the gap. */
  datatype Visit = Visit(state: EndpointState, stop: bool, wakes: seq<Wake>, gap: Gap)

  /** The results of receive calls made one after another. */
  function ReceiveAll(queue: seq<Packet>, visits: seq<Visit>, capacity: nat): seq<Received>
    decreases |visits|
  {
    if visits == [] then []
    else
      var v := visits[0];
      var r := Receive(queue, v.state, v.stop, v.wakes, v.gap, capacity);
      [r] + ReceiveAll(r.queue, visits[1..], capacity)
  }

  /** On a failed endpoint that nobody feeds any more the calls return the queued packets in order and
      from then on the runtime error, whatever timeouts the caller passes. */
  lemma {:induction false} FailedEndpointDrains(queue: seq<Packet>, visits: seq<Visit>, capacity: nat, n: nat)
    requires n < |visits|
    requires forall i | 0 <= i < |visits| :: visits[i].state == Failed && visits[i].gap == Gap([], Failed)
    requires forall i | 0 <= i < |queue| :: |queue[i].payload| <= capacity
    ensures var rs := ReceiveAll(queue, visits, capacity);
            && |rs| == |visits|
            && (n < |queue| ==> rs[n].code == Ok && rs[n].packet == Some(queue[n]))
            && (n >= |queue| ==> rs[n].code == Runtime && rs[n].packet == None)
    decreases |visits|
  {
    var v := visits[0];
    var r := Receive(queue, v.state, v.stop, v.wakes, v.gap, capacity);
    FailedReceive(queue, v, capacity);
    assert ReceiveAll(queue, visits, capacity) == [r] + ReceiveAll(r.queue, visits[1..], capacity);
    if n == 0 {
      if 1 < |visits| { FailedEndpointDrains(r.queue, visits[1..], capacity, 0); }
    } else {
      FailedEndpointDrains(r.queue, visits[1..], capacity, n - 1);
    }
  }

  /** One of those calls. */
  lemma FailedReceive(queue: seq<Packet>, v: Visit, capacity: nat)
    requires v.state == Failed && v.gap == Gap([], Failed) && (queue != [] ==> |queue[0].payload| <= capacity)
    ensures Receive(queue, v.state, v.stop, v.wakes, v.gap, capacity) ==
            if queue == [] then Received(Runtime, None, []) else Received(Ok, Some(queue[0]), queue[1..])
  {
    assert queue + [] == queue;
  }

  class NativeEndpoint {
    const server: bool
    var state: EndpointState
    var stop: bool
    var videoSend: seq<VideoFrame>
    var audioSend: seq<AudioPacket>
    var inputSend: seq<Packet>
    var dataSend: seq<Packet>
    var dataReceive: seq<Packet>
    var videoSendDrops: nat
    var audioSendDrops: nat

    predicate Valid()
      reads this
    {
      && |videoSend| <= VIDEO_SEND_CAPACITY && |audioSend| <= AUDIO_SEND_CAPACITY
      && |inputSend| <= INPUT_SEND_CAPACITY && |dataSend| <= DATA_SEND_CAPACITY
    }

    method VideoSend(f: VideoFrame) returns (code: Code)
      requires Valid()
      modifies this`videoSend, this`videoSendDrops
      ensures Valid()
      ensures code in {Ok, Dropped} <==>
              server && f.codec in {0x48323634, 0x48455643} && f.flags in {0, 1}
              && 1 <= |f.payload| <= 67_108_864 && state == Ready
      ensures code == InvalidArgument <==>
              !server || f.codec !in {0x48323634, 0x48455643} || f.flags !in {0, 1}
              || !(1 <= |f.payload| <= 67_108_864)
      ensures code in {Ok, Dropped, InvalidArgument, InvalidState}
      ensures code in {Ok, Dropped} ==> videoSend == Replace(old(videoSend), 4, f)
      ensures code == Dropped <==> code in {Ok, Dropped} && |old(videoSend)| == 4
      ensures videoSendDrops == old(videoSendDrops) + if code == Dropped then 1 else 0
      ensures code !in {Ok, Dropped} ==> videoSend == old(videoSend)
    {
      if !server || (f.codec != VIDEO_CODEC_H264 && f.codec != VIDEO_CODEC_HEVC)
         || (f.flags != 0 && f.flags != VIDEO_FLAG_KEY) || |f.payload| < 1 || |f.payload| > MAX_VIDEO_FRAME_SIZE
      {
        return InvalidArgument;
      }
      if state != Ready { return InvalidState; }
      var dropped := |videoSend| == VIDEO_SEND_CAPACITY;
      if dropped { videoSend := videoSend[1..]; }
      videoSend := videoSend + [f];
      if dropped { videoSendDrops := videoSendDrops + 1; }
      code := if dropped then Dropped else Ok;
    }

    method AudioSend(a: AudioPacket) returns (code: Code)
      requires Valid()
      modifies this`audioSend, this`audioSendDrops
      ensures Valid()
      ensures code in {Ok, Dropped} <==>
              server && a.frameSamples != 0 && a.missingSamples == 0 && 1 <= |a.payload| <= 65_536 && state == Ready
      ensures code == InvalidArgument <==>
              !server || a.frameSamples == 0 || a.missingSamples != 0 || !(1 <= |a.payload| <= 65_536)
      ensures code in {Ok, Dropped, InvalidArgument, InvalidState}
      ensures code in {Ok, Dropped} ==> audioSend == Replace(old(audioSend), 16, a)
      ensures code == Dropped <==> code in {Ok, Dropped} && |old(audioSend)| == 16
      ensures audioSendDrops == old(audioSendDrops) + if code == Dropped then 1 else 0
      ensures code !in {Ok, Dropped} ==> audioSend == old(audioSend)
    {
      if !server || a.frameSamples == 0 || a.missingSamples != 0 || |a.payload| < 1 || |a.payload| > MAX_AUDIO_PACKET_SIZE {
        return InvalidArgument;
      }
      if state != Ready { return InvalidState; }
      var dropped := |audioSend| == AUDIO_SEND_CAPACITY;
      if dropped { audioSend := audioSend[1..]; }
      audioSend := audioSend + [a];
      if dropped { audioSendDrops := audioSendDrops + 1; }
      code := if dropped then Dropped else Ok;
    }

    method InputSend(p: Packet) returns (code: Code)
      requires Valid()
      modifies this`inputSend
      ensures Valid()
      ensures code in {Ok, Timeout} <==> !server && |p.payload| <= 65_535 && state == Ready
      ensures code == Ok ==> inputSend == old(inputSend) + [p]
      ensures code == Timeout <==> code in {Ok, Timeout} && |old(inputSend)| == 128
      ensures code == InvalidArgument <==> server || |p.payload| > 65_535
      ensures code in {Ok, Timeout, InvalidArgument, InvalidState}
      ensures code != Ok ==> inputSend == old(inputSend)
    {
      if server || |p.payload| > MAX_INPUT_PACKET_SIZE { return InvalidArgument; }
      if state != Ready { return InvalidState; }
      if |inputSend| == INPUT_SEND_CAPACITY { return Timeout; }
      inputSend := inputSend + [p];
      code := Ok;
    }

    method DataSend(payload: seq<int>) returns (code: Code)
      requires Valid()
      modifies this`dataSend
      ensures Valid()
      ensures code in {Ok, Timeout} <==> 1 <= |payload| <= 1_048_576 && state in {SetupReady, Ready}
      ensures code == Ok ==> dataSend == old(dataSend) + [Packet(0, payload)]
      ensures code == Timeout <==> code in {Ok, Timeout} && |old(dataSend)| == 64
      ensures code == InvalidArgument <==> !(1 <= |payload| <= 1_048_576)
      ensures code in {Ok, Timeout, InvalidArgument, InvalidState}
      ensures code != Ok ==> dataSend == old(dataSend)
    {
      if |payload| < 1 || |payload| > MAX_DATA_PACKET_SIZE { return InvalidArgument; }
      if state != SetupReady && state != Ready { return InvalidState; }
      if |dataSend| == DATA_SEND_CAPACITY { return Timeout; }
      dataSend := dataSend + [Packet(0, payload)];
      code := Ok;
    }

    /** wait_pop and the access that follows it; the environment acts during the waits and in between. */
    method DataReceive(capacity: nat, wakes: seq<Wake>, gap: Gap) returns (code: Code, packet: Option<Packet>)
      modifies this`dataReceive, this`state, this`stop
      ensures Received(code, packet, dataReceive)
           == Receive(old(dataReceive), old(state), old(stop), wakes, gap, capacity)
      ensures var found := exists j: nat :: FoundAt(old(dataReceive), old(state), old(stop), wakes, j);
              && (code == Runtime <==> !found && gap.state == Failed)
              && (code == Timeout <==> !found && gap.state != Failed)
      ensures forall j: nat | FoundAt(old(dataReceive), old(state), old(stop), wakes, j) ::
                var q := QueueAfter(old(dataReceive), wakes, j) + gap.arrived;
                && code == (if |q[0].payload| <= capacity then Ok else BufferTooSmall)
                && packet == (if code == Ok then Some(q[0]) else None)
                && dataReceive == (if code == Ok then q[1..] else q)
    {
      var front := None;
      var rest := wakes;
      while true
        invariant front == None
        invariant Await(dataReceive, state, stop, rest) == Await(old(dataReceive), old(state), old(stop), wakes)
        decreases |rest|
      {
        if dataReceive != [] {
          front := Some(dataReceive[0]);
          break;
        }
        if stop || Terminal(state) || rest == [] { break; }
        var timedOut := rest[0].timedOut;
        dataReceive, state, stop := dataReceive + rest[0].arrived, rest[0].state, rest[0].stop;
        if timedOut { break; }
        rest := rest[1..];
      }
      ghost var seen := Await(old(dataReceive), old(state), old(stop), wakes);
      assert front == seen.front && dataReceive == seen.queue;
      forall j: nat | FoundAt(old(dataReceive), old(state), old(stop), wakes, j)
        ensures seen.queue == QueueAfter(old(dataReceive), wakes, j) && front == Some(seen.queue[0])
      {
        AwaitFinds(old(dataReceive), old(state), old(stop), wakes, j);
      }
      if seen.front.Some? { ghost var j := AwaitFound(old(dataReceive), old(state), old(stop), wakes); }
      dataReceive, state := dataReceive + gap.arrived, gap.state;
      packet := None;
      if front.None? {
        code := if state == Failed then Runtime else Timeout;
      } else if |front.value.payload| > capacity {
        code := BufferTooSmall;
      } else {
        code, packet := Ok, front;
        dataReceive := dataReceive[1..];
      }
    }
  }
}
