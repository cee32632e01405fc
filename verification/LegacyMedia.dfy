/** The media lanes of the legacy endpoint: datagram framing, the two drop-oldest send queues and the
    one send task that always takes audio first. */
module LegacyMedia {
  import opened Wire
  import opened NativeQueues
  import opened Wrappers

  const MAGIC: seq<byte> := [0x44, 0x53, 0x4D, 0x31]
  const HEADER_SIZE := 16
  const VIDEO_CAPACITY := 512
  const AUDIO_CAPACITY := 8
  const WORD := 0x1_0000_0000_0000_0000

  datatype Lane = Video | Audio

  function LaneByte(lane: Lane): byte { if lane == Video then 1 else 2 }

  function Capacity(lane: Lane): nat { if lane == Video then VIDEO_CAPACITY else AUDIO_CAPACITY }

  // ---------------------------------------------------------------- framing

  function Header(lane: Lane, sequence: u64): seq<byte> {
    MAGIC + [LaneByte(lane), 0] + PutU16(HEADER_SIZE) + PutU64(sequence)
  }

  function Frame(lane: Lane, sequence: u64, prefix: seq<byte>, payload: seq<byte>): seq<byte> {
    Header(lane, sequence) + prefix + payload
  }

  datatype Parsed = Parsed(lane: Lane, payload: seq<byte>)

  function Parse(packet: seq<byte>): Option<Parsed> {
    if |packet| <= HEADER_SIZE || packet[..4] != MAGIC then None
    else if packet[4] !in {1, 2} || packet[5] != 0 then None
    else
      var size := GetU16(packet, 6);
      if size != HEADER_SIZE || size >= |packet| then None
      else Some(Parsed(if packet[4] == 1 then Video else Audio, packet[size..]))
  }

  /** A framed packet parses back to its lane and its bytes exactly when it has any, whatever the
      split between prefix and payload and whatever the sequence number. */
  lemma ParseFrame(lane: Lane, sequence: u64, prefix: seq<byte>, payload: seq<byte>)
    ensures |Frame(lane, sequence, prefix, payload)| == HEADER_SIZE + |prefix| + |payload|
    ensures Parse(Frame(lane, sequence, prefix, payload)) ==
            if |prefix| + |payload| > 0 then Some(Parsed(lane, prefix + payload)) else None
  {
    var p := Frame(lane, sequence, prefix, payload);
    var h := Header(lane, sequence);
    assert p == h + (prefix + payload) && |h| == HEADER_SIZE;
    assert p[..4] == MAGIC && p[4] == LaneByte(lane) && p[5] == 0;
    assert p[6] == 0 && p[7] == HEADER_SIZE;
    assert p[HEADER_SIZE..] == prefix + payload;
  }

  /** "DSM1", the lane, a zero byte, the header's length, the sequence number, then the packet. */
  ghost predicate DatagramLayout(b: seq<byte>, lane: Lane, sequence: int, packet: seq<byte>) {
    && |b| == 16 + |packet| && b[..4] == [0x44, 0x53, 0x4D, 0x31]
    && b[4] == (if lane.Video? then 1 else 2) && b[5] == 0 && Word16At(b, 6, 16) && Word64At(b, 8, sequence)
    && b[16..] == packet
  }

  lemma FrameLayout(lane: Lane, sequence: u64, prefix: seq<byte>, payload: seq<byte>)
    ensures DatagramLayout(Frame(lane, sequence, prefix, payload), lane, sequence, prefix + payload)
  {
    var b, front := Frame(lane, sequence, prefix, payload), MAGIC + [LaneByte(lane), 0] + PutU16(HEADER_SIZE);
    assert b == front + PutU64(sequence) + (prefix + payload);
    GetPutU64(front, sequence, prefix + payload);
    Reads64(b, 8, sequence);
    assert b[6] == 0 && b[7] == 16;
  }

  /** Only framed packets parse: the accepted bytes are those of the parsed lane and payload under
      the sequence number they carry. */
  lemma FrameParse(packet: seq<byte>)
    requires Parse(packet).Some?
    ensures var r := Parse(packet).value; r.payload != [] && packet == Frame(r.lane, GetU64(packet, 8), [], r.payload)
  {
    var r := Parse(packet).value;
    var h := Header(r.lane, GetU64(packet, 8));
    PutGetU64(packet, 8);
    PutGetU16(packet, 6);
    assert packet[..16] == packet[..4] + packet[4..6] + packet[6..8] + packet[8..16];
    assert packet[4..6] == [LaneByte(r.lane), 0];
    assert packet == packet[..16] + packet[16..];
    assert Frame(r.lane, GetU64(packet, 8), [], r.payload) == h + r.payload;
  }

  // ---------------------------------------------------------------- the lanes

  /** A queued datagram and its place in the lane's submissions; the wire carries the low 64 bits. */
  datatype Entry = Entry(number: nat, bytes: seq<byte>)

  /** The one thread that submits to a lane. */
  datatype Caller = Free | Claimed(entry: Entry) | Counting(dropped: bool)

  datatype LaneState = LaneState(
    queue: seq<Entry>,
    caller: Caller,
    submissions: seq<seq<byte>>,  // prefix and payload of every packet that took a number
    dequeued: seq<Entry>,
    evicted: seq<Entry>,
    sent: nat,
    transportDrops: nat,
    queueDrops: nat)

  datatype Worker = Polling | Sending(lane: Lane)

  datatype Media = Media(video: LaneState, audio: LaneState, worker: Worker)

  datatype Event =
    | Claim(lane: Lane, prefix: seq<byte>, payload: seq<byte>)  // size check and fetch_add
    | Enqueue(lane: Lane)
    | Count(lane: Lane)
    | Dequeue
    | Finish(ok: bool)

  predicate Unused(s: LaneState) {
    && s.queue == s.dequeued == s.evicted == [] && s.submissions == [] && s.caller.Free?
    && s.sent == s.transportDrops == s.queueDrops == 0
  }

  predicate AtStart(m: Media) { Unused(m.video) && Unused(m.audio) && m.worker.Polling? }

  function Numbered(s: LaneState, lane: Lane, prefix: seq<byte>, payload: seq<byte>, max: nat): LaneState {
    if !s.caller.Free? || |prefix| + |payload| == 0 || |prefix| + |payload| > max then s
    else
      var number := |s.submissions|;
      s.(submissions := s.submissions + [prefix + payload],
         caller := Claimed(Entry(number, Frame(lane, number % WORD, prefix, payload))))
  }

  function Enqueued(s: LaneState, lane: Lane): LaneState
    requires |s.queue| <= Capacity(lane)
  {
    if !s.caller.Claimed? then s
    else
      var full := |s.queue| == Capacity(lane);
      s.(queue := Replace(s.queue, Capacity(lane), s.caller.entry), caller := Counting(full),
         evicted := if full then s.evicted + [s.queue[0]] else s.evicted)
  }

  function Counted(s: LaneState): LaneState {
    if !s.caller.Counting? then s
    else s.(caller := Free, queueDrops := s.queueDrops + if s.caller.dropped then 1 else 0)
  }

  function Dequeued(s: LaneState): LaneState
    requires s.queue != []
  {
    s.(queue := s.queue[1..], dequeued := s.dequeued + [s.queue[0]])
  }

  function Finished(s: LaneState, ok: bool): LaneState {
    if ok then s.(sent := s.sent + 1) else s.(transportDrops := s.transportDrops + 1)
  }

  function At(m: Media, lane: Lane): LaneState { if lane == Video then m.video else m.audio }

  function With(m: Media, lane: Lane, s: LaneState): Media {
    if lane == Video then m.(video := s) else m.(audio := s)
  }

  function Step(m: Media, max: nat, e: Event): Media
    requires |m.video.queue| <= VIDEO_CAPACITY && |m.audio.queue| <= AUDIO_CAPACITY
  {
    match e
    case Claim(lane, prefix, payload) => With(m, lane, Numbered(At(m, lane), lane, prefix, payload, max))
    case Enqueue(lane) => With(m, lane, Enqueued(At(m, lane), lane))
    case Count(lane) => With(m, lane, Counted(At(m, lane)))
    case Dequeue =>
      if m.worker.Sending? then m
      else if m.audio.queue != [] then m.(audio := Dequeued(m.audio), worker := Sending(Audio))
      else if m.video.queue != [] then m.(video := Dequeued(m.video), worker := Sending(Video))
      else m
    case Finish(ok) =>
      if m.worker.Polling? then m
      else With(m, m.worker.lane, Finished(At(m, m.worker.lane), ok)).(worker := Polling)
  }

  ghost predicate IsRun(states: seq<Media>, events: seq<Event>, max: nat) {
    && |states| == |events| + 1 && AtStart(states[0])
    && forall i {:trigger events[i]} | 0 <= i < |events| ::
         && |states[i].video.queue| <= VIDEO_CAPACITY && |states[i].audio.queue| <= AUDIO_CAPACITY
         && states[i + 1] == Step(states[i], max, events[i])
  }

  // ---------------------------------------------------------------- the invariant

  ghost predicate Has(entries: seq<Entry>, n: nat) {
    exists i | 0 <= i < |entries| :: entries[i].number == n
  }

  /** Numbers rise strictly and stay below the bound. */
  ghost predicate Rising(entries: seq<Entry>, bound: nat) {
    && (forall i, j | 0 <= i < j < |entries| :: entries[i].number < entries[j].number)
    && (forall i | 0 <= i < |entries| :: entries[i].number < bound)
  }

  ghost predicate Consecutive(entries: seq<Entry>, from: nat) {
    forall i | 0 <= i < |entries| :: entries[i].number == from + i
  }

  /** Every number below the bound went exactly one of two ways. */
  ghost predicate Split(a: seq<Entry>, b: seq<Entry>, bound: nat) {
    && Rising(a, bound) && Rising(b, bound)
    && forall n: nat | n < bound :: Has(a, n) <==> !Has(b, n)
  }

  /** The datagram is its submission, framed. */
  ghost predicate Genuine(e: Entry, lane: Lane, submissions: seq<seq<byte>>) {
    e.number < |submissions| && e.bytes == Frame(lane, e.number % WORD, [], submissions[e.number])
  }

  ghost predicate AllGenuine(entries: seq<Entry>, lane: Lane, submissions: seq<seq<byte>>) {
    forall i | 0 <= i < |entries| :: Genuine(entries[i], lane, submissions)
  }

  function Left(s: LaneState): nat { |s.dequeued| + |s.evicted| }

  ghost predicate Ordered(s: LaneState, lane: Lane) {
    && |s.queue| <= Capacity(lane)
    && Consecutive(s.queue, Left(s))
    && Split(s.dequeued, s.evicted, Left(s))
    && |s.submissions| == Left(s) + |s.queue| + (if s.caller.Claimed? then 1 else 0)
    && (s.caller.Claimed? ==> s.caller.entry.number == Left(s) + |s.queue|)
  }

  ghost predicate Content(s: LaneState, lane: Lane, max: nat) {
    && (forall i | 0 <= i < |s.submissions| :: 0 < |s.submissions[i]| <= max)
    && AllGenuine(s.queue, lane, s.submissions) && AllGenuine(s.dequeued, lane, s.submissions)
    && (s.caller.Claimed? ==> Genuine(s.caller.entry, lane, s.submissions))
  }

  ghost predicate Ledger(s: LaneState, sending: nat) {
    && |s.dequeued| == s.sent + s.transportDrops + sending
    && |s.evicted| == s.queueDrops + (if s.caller.Counting? && s.caller.dropped then 1 else 0)
  }

  ghost predicate LaneInv(s: LaneState, lane: Lane, max: nat, sending: nat) {
    Ordered(s, lane) && Content(s, lane, max) && Ledger(s, sending)
  }

  function InFlight(m: Media, lane: Lane): nat { if m.worker == Sending(lane) then 1 else 0 }

  ghost predicate Inv(m: Media, max: nat) {
    LaneInv(m.video, Video, max, InFlight(m, Video)) && LaneInv(m.audio, Audio, max, InFlight(m, Audio))
  }

  // ---------------------------------------------------------------- each step keeps it

  /** The packet numbered next may leave to either side. */
  lemma LeaveKeepsSplit(a: seq<Entry>, b: seq<Entry>, bound: nat, e: Entry)
    requires Split(a, b, bound) && e.number == bound
    ensures Split(a + [e], b, bound + 1) && Split(a, b + [e], bound + 1)
  {
    assert (a + [e])[|a|] == e && (b + [e])[|b|] == e;
    forall n: nat | n < bound + 1
      ensures Has(a + [e], n) <==> Has(a, n) || n == bound
      ensures Has(b + [e], n) <==> Has(b, n) || n == bound
    {
      HasAppended(a, e, n);
      HasAppended(b, e, n);
    }
    assert !Has(a, bound) && !Has(b, bound);
  }

  lemma HasAppended(a: seq<Entry>, e: Entry, n: nat)
    ensures Has(a + [e], n) <==> Has(a, n) || n == e.number
  {
    var s := a + [e];
    assert s[|a|] == e;
    if Has(a, n) {
      var i :| 0 <= i < |a| && a[i].number == n;
      assert s[i].number == n;
    }
  }

  lemma ClaimKeeps(s: LaneState, lane: Lane, max: nat, sending: nat, prefix: seq<byte>, payload: seq<byte>)
    requires LaneInv(s, lane, max, sending)
    ensures LaneInv(Numbered(s, lane, prefix, payload, max), lane, max, sending)
  {
    var number: nat := |s.submissions|;
    var t := Numbered(s, lane, prefix, payload, max);
    if t != s {
      var h := Header(lane, number % WORD);
      assert h + prefix + payload == h + [] + (prefix + payload);
      assert t.submissions[number] == prefix + payload;
      AppendKeepsGenuine(s.queue, lane, s.submissions, prefix + payload);
      AppendKeepsGenuine(s.dequeued, lane, s.submissions, prefix + payload);
    }
  }

  lemma AppendKeepsGenuine(entries: seq<Entry>, lane: Lane, submissions: seq<seq<byte>>, more: seq<byte>)
    requires AllGenuine(entries, lane, submissions)
    ensures AllGenuine(entries, lane, submissions + [more])
  {
    forall i | 0 <= i < |entries| ensures Genuine(entries[i], lane, submissions + [more]) {
      assert Genuine(entries[i], lane, submissions);
      assert (submissions + [more])[entries[i].number] == submissions[entries[i].number];
    }
  }

  lemma EnqueueKeeps(s: LaneState, lane: Lane, max: nat, sending: nat)
    requires LaneInv(s, lane, max, sending)
    ensures LaneInv(Enqueued(s, lane), lane, max, sending)
  {
    if s.caller.Claimed? && |s.queue| == Capacity(lane) {
      LeaveKeepsSplit(s.dequeued, s.evicted, Left(s), s.queue[0]);
    }
  }

  lemma DequeueKeeps(s: LaneState, lane: Lane, max: nat)
    requires LaneInv(s, lane, max, 0) && s.queue != []
    ensures LaneInv(Dequeued(s), lane, max, 1)
  {
    LeaveKeepsSplit(s.dequeued, s.evicted, Left(s), s.queue[0]);
  }

  lemma CountKeeps(s: LaneState, lane: Lane, max: nat, sending: nat)
    requires LaneInv(s, lane, max, sending)
    ensures LaneInv(Counted(s), lane, max, sending)
  {
  }

  lemma FinishKeeps(s: LaneState, lane: Lane, max: nat, ok: bool)
    requires LaneInv(s, lane, max, 1)
    ensures LaneInv(Finished(s, ok), lane, max, 0)
  {
  }

  ghost predicate InvAt(m: Media, max: nat, lane: Lane) { LaneInv(At(m, lane), lane, max, InFlight(m, lane)) }

  /** A step touches one lane; the other keeps its invariant. */
  lemma StepKeepsTouched(m: Media, max: nat, e: Event, lane: Lane)
    requires Inv(m, max) && (e.Claim? || e.Enqueue? || e.Count?) && e.lane == lane
    ensures InvAt(Step(m, max, e), max, lane)
  {
    var s, k := At(m, lane), InFlight(m, lane);
    assert LaneInv(s, lane, max, k);
    match e
    case Claim(_, prefix, payload) => ClaimKeeps(s, lane, max, k, prefix, payload);
    case Enqueue(_) => EnqueueKeeps(s, lane, max, k);
    case Count(_) => CountKeeps(s, lane, max, k);
  }

  lemma StepKeepsUntouched(m: Media, max: nat, e: Event, lane: Lane)
    requires Inv(m, max) && (e.Claim? || e.Enqueue? || e.Count?) && e.lane != lane
    ensures InvAt(Step(m, max, e), max, lane)
  {
    assert InvAt(m, max, lane);
    assert At(Step(m, max, e), lane) == At(m, lane) && Step(m, max, e).worker == m.worker;
  }

  lemma TaskKeeps(m: Media, max: nat, e: Event, lane: Lane)
    requires Inv(m, max) && (e.Dequeue? || e.Finish?)
    ensures InvAt(Step(m, max, e), max, lane)
  {
    var s := At(m, lane);
    var t := Step(m, max, e);
    assert InvAt(m, max, lane);
    if e.Dequeue? {
      if m.worker.Polling? && t.worker == Sending(lane) {
        DequeueKeeps(s, lane, max);
        assert At(t, lane) == Dequeued(s);
      } else {
        assert At(t, lane) == s;
      }
    } else if m.worker == Sending(lane) {
      FinishKeeps(s, lane, max, e.ok);
    } else {
      assert At(t, lane) == s;
    }
  }

  lemma StepKeeps(m: Media, max: nat, e: Event, lane: Lane)
    requires Inv(m, max)
    ensures InvAt(Step(m, max, e), max, lane)
  {
    if e.Dequeue? || e.Finish? {
      TaskKeeps(m, max, e, lane);
    } else if e.lane == lane {
      StepKeepsTouched(m, max, e, lane);
    } else {
      StepKeepsUntouched(m, max, e, lane);
    }
  }

  lemma StepKeepsBoth(m: Media, max: nat, e: Event)
    requires Inv(m, max)
    ensures Inv(Step(m, max, e), max)
  {
    var t := Step(m, max, e);
    StepKeeps(m, max, e, Video);
    StepKeeps(m, max, e, Audio);
    assert At(t, Video) == t.video && At(t, Audio) == t.audio;
  }

  lemma {:induction false} RunKeeps(states: seq<Media>, events: seq<Event>, max: nat, n: nat)
    requires IsRun(states, events, max) && n <= |events|
    ensures Inv(states[n], max)
  {
    if n > 0 {
      RunKeeps(states, events, max, n - 1);
      var e := events[n - 1];
      StepKeepsBoth(states[n - 1], max, e);
    } else {
      StartKeeps(states[0], max);
    }
  }

  lemma StartKeeps(m: Media, max: nat)
    requires AtStart(m)
    ensures Inv(m, max)
  {
    UnusedKeeps(m.video, Video, max);
    UnusedKeeps(m.audio, Audio, max);
  }

  lemma UnusedKeeps(s: LaneState, lane: Lane, max: nat)
    requires Unused(s)
    ensures LaneInv(s, lane, max, 0)
  {
  }

  // ---------------------------------------------------------------- main results

  /** Nothing is lost track of: submitted = sent + transport drops + queue drops + queued + in flight,
      counting a packet whose number is taken but which is not yet queued and an eviction not yet
      counted. */
  lemma Conservation(states: seq<Media>, events: seq<Event>, max: nat, n: nat, lane: Lane)
    requires IsRun(states, events, max) && n <= |events|
    ensures var s := At(states[n], lane);
            |s.submissions| == s.sent + s.transportDrops + s.queueDrops + |s.queue| + InFlight(states[n], lane)
            + (if s.caller.Claimed? || (s.caller.Counting? && s.caller.dropped) then 1 else 0)
  {
    RunKeeps(states, events, max, n);
  }

  /** How many of the first n events finished a send on the lane with that answer. */
  ghost function Answers(states: seq<Media>, events: seq<Event>, n: nat, lane: Lane, ok: bool): nat
    requires n <= |events| < |states|
  {
    if n == 0 then 0
    else Answers(states, events, n - 1, lane, ok)
         + if events[n - 1] == Finish(ok) && states[n - 1].worker == Sending(lane) then 1 else 0
  }

  /** The counters tell sends from transport drops: each counts exactly its own answers. */
  lemma {:induction false} CountersCountAnswers(states: seq<Media>, events: seq<Event>, max: nat, n: nat, lane: Lane)
    requires IsRun(states, events, max) && n <= |events|
    ensures At(states[n], lane).sent == Answers(states, events, n, lane, true)
    ensures At(states[n], lane).transportDrops == Answers(states, events, n, lane, false)
  {
    if n > 0 {
      CountersCountAnswers(states, events, max, n - 1, lane);
      var e := events[n - 1];
      FinishCounts(states[n - 1], max, e, lane);
    }
  }

  lemma FinishCounts(m: Media, max: nat, e: Event, lane: Lane)
    requires |m.video.queue| <= VIDEO_CAPACITY && |m.audio.queue| <= AUDIO_CAPACITY
    ensures var s, t := At(m, lane), At(Step(m, max, e), lane);
            && t.sent == s.sent + (if e == Finish(true) && m.worker == Sending(lane) then 1 else 0)
            && t.transportDrops == s.transportDrops + (if e == Finish(false) && m.worker == Sending(lane) then 1 else 0)
  {
    match e
    case Claim(_, _, _) => case Enqueue(_) => case Count(_) => case Dequeue => case Finish(_) =>
  }

  /** The numbers handed to the connection rise strictly, and the numbers skipped below the next one
      are exactly the evicted ones. */
  lemma GapsAreEvictions(states: seq<Media>, events: seq<Event>, max: nat, n: nat, lane: Lane)
    requires IsRun(states, events, max) && n <= |events|
    ensures var s := At(states[n], lane);
            && Rising(s.dequeued, Left(s)) && Rising(s.evicted, Left(s))
            && (forall k: nat | k < Left(s) :: Has(s.evicted, k) <==> !Has(s.dequeued, k))
            && Consecutive(s.queue, Left(s))
  {
    RunKeeps(states, events, max, n);
  }

  /** Whenever the send task takes a video packet, every audio packet that had entered its queue has
      already been dequeued or evicted. */
  lemma AudioFirst(states: seq<Media>, events: seq<Event>, max: nat, n: nat, k: nat)
    requires IsRun(states, events, max) && n < |events|
    requires |states[n].video.dequeued| < |states[n + 1].video.dequeued|
    requires k < |states[n].audio.submissions|
    requires states[n].audio.caller.Claimed? ==> k != states[n].audio.caller.entry.number
    ensures Has(states[n].audio.dequeued, k) || Has(states[n].audio.evicted, k)
  {
    RunKeeps(states, events, max, n);
    OnlyDequeueTakesVideo(states[n], max, events[n]);
    assert states[n + 1] == Step(states[n], max, events[n]);
    assert k < Left(states[n].audio);
  }

  lemma OnlyDequeueTakesVideo(m: Media, max: nat, e: Event)
    requires |m.video.queue| <= VIDEO_CAPACITY && |m.audio.queue| <= AUDIO_CAPACITY
    ensures |m.video.dequeued| < |Step(m, max, e).video.dequeued| ==> e.Dequeue? && m.audio.queue == []
  {
  }

  /** Every datagram handed to the connection fits the negotiated size (header and largest packet),
      carries its number and parses back to its lane and the submitted bytes. */
  lemma DatagramsParseBack(states: seq<Media>, events: seq<Event>, max: nat, n: nat, lane: Lane, i: nat)
    requires IsRun(states, events, max) && n <= |events| && i < |At(states[n], lane).dequeued|
    ensures var s := At(states[n], lane);
            var e := s.dequeued[i];
            && e.number < |s.submissions| && |e.bytes| <= HEADER_SIZE + max
            && Parse(e.bytes) == Some(Parsed(lane, s.submissions[e.number]))
            && GetU64(e.bytes, 8) == e.number % WORD
  {
    RunKeeps(states, events, max, n);
    var s := At(states[n], lane);
    var e := s.dequeued[i];
    assert Genuine(e, lane, s.submissions);
    var body := s.submissions[e.number];
    ParseFrame(lane, e.number % WORD, [], body);
    assert [] + body == body;
    CarriesNumber(lane, e.number % WORD, body);
  }

  lemma CarriesNumber(lane: Lane, sequence: u64, body: seq<byte>)
    ensures GetU64(Frame(lane, sequence, [], body), 8) == sequence
  {
    var front := MAGIC + [LaneByte(lane), 0] + PutU16(HEADER_SIZE);
    assert Frame(lane, sequence, [], body) == front + PutU64(sequence) + body;
    GetPutU64(front, sequence, body);
  }

  // ---------------------------------------------------------------- the calls as written

  function Bytes(entries: seq<Entry>): (r: seq<seq<byte>>)
    ensures |r| == |entries|
    ensures forall i | 0 <= i < |r| :: r[i] == entries[i].bytes
  {
    if entries == [] then [] else [entries[0].bytes] + Bytes(entries[1..])
  }

  function Submitted(s: LaneState, lane: Lane, prefix: seq<byte>, payload: seq<byte>, max: nat): LaneState
    requires |s.queue| <= Capacity(lane)
  {
    Counted(Enqueued(Numbered(s, lane, prefix, payload, max), lane))
  }

  lemma SubmittedBytes(s: LaneState, lane: Lane, prefix: seq<byte>, payload: seq<byte>, max: nat, packet: seq<byte>)
    requires |s.queue| <= Capacity(lane) && s.caller.Free? && 0 < |prefix| + |payload| <= max
    requires packet == Frame(lane, |s.submissions| % WORD, prefix, payload)
    ensures var t := Submitted(s, lane, prefix, payload, max);
            && |t.submissions| == |s.submissions| + 1 && |t.queue| <= Capacity(lane)
            && Bytes(t.queue) == Replace(Bytes(s.queue), Capacity(lane), packet)
            && t.queueDrops == s.queueDrops + (if |s.queue| == Capacity(lane) then 1 else 0)
  {
  }

  function Higher(a: nat, b: nat): nat { if a < b then b else a }

  lemma NextNumber(n: nat)
    ensures (n % WORD + 1) % WORD == (n + 1) % WORD
  {
  }

  lemma RefusedChangesNothing(s: LaneState, lane: Lane, prefix: seq<byte>, payload: seq<byte>, max: nat)
    requires |s.queue| <= Capacity(lane) && s.caller.Free? && !(0 < |prefix| + |payload| <= max)
    ensures Submitted(s, lane, prefix, payload, max) == s
  {
  }

  /** A lane's shared fields: the datagram queue, the atomic sequence and the two statistics. */
  class SendLane {
    const lane: Lane
    var queue: seq<seq<byte>>
    var sequence: u64
    var drops: nat
    var highWater: nat

    constructor (lane: Lane)
      ensures this.lane == lane && queue == [] && sequence == 0 && drops == 0 && highWater == 0
    {
      this.lane, queue, sequence, drops, highWater := lane, [], 0, 0, 0;
    }

    /** The fields hold what the model's lane holds. */
    ghost predicate Shows(s: LaneState)
      reads this
    {
      && |s.queue| <= Capacity(lane) && queue == Bytes(s.queue)
      && sequence == |s.submissions| % WORD && drops == s.queueDrops
    }

    /** Uninterrupted, the call is the model's three steps. */
    method SubmitMediaPacket(server: bool, ready: bool, prefix: seq<byte>, payload: seq<byte>, max: nat, ghost s: LaneState)
      returns (code: Code)
      requires Shows(s) && s.caller.Free?
      modifies this
      ensures code == (if !server || !ready then InvalidState
                       else if prefix == payload == [] then InvalidArgument
                       else if |prefix| + |payload| > max then BufferTooSmall
                       else if |old(queue)| == (if lane.Video? then 512 else 8) then Dropped else Ok)
      ensures Shows(if server && ready then Submitted(s, lane, prefix, payload, max) else s)
      ensures highWater == if code in {Ok, Dropped} then Higher(old(highWater), |queue|) else old(highWater)
      ensures code in {Ok, Dropped} ==>
                && sequence == (old(sequence) + 1) % 0x1_0000_0000_0000_0000
                && drops == old(drops) + (if code == Dropped then 1 else 0)
                && |queue| > 0 && DatagramLayout(queue[|queue| - 1], lane, old(sequence), prefix + payload)
                && queue[..|queue| - 1] == (if code == Dropped then old(queue)[1..] else old(queue))
      ensures code !in {Ok, Dropped} ==> queue == old(queue) && sequence == old(sequence) && drops == old(drops)
    {
      if !server || !ready { return InvalidState; }
      var size := |prefix| + |payload|;
      if size == 0 || size > max {
        RefusedChangesNothing(s, lane, prefix, payload, max);
        return if size == 0 then InvalidArgument else BufferTooSmall;
      }
      code := Accept(prefix, payload, max, s);
    }

    method Accept(prefix: seq<byte>, payload: seq<byte>, ghost max: nat, ghost s: LaneState) returns (code: Code)
      requires Shows(s) && s.caller.Free? && 0 < |prefix| + |payload| <= max
      modifies this
      ensures code == (if |s.queue| == Capacity(lane) then Dropped else Ok)
      ensures Shows(Submitted(s, lane, prefix, payload, max))
      ensures highWater == Higher(old(highWater), |queue|)
      ensures sequence == (old(sequence) + 1) % 0x1_0000_0000_0000_0000
      ensures drops == old(drops) + (if code == Dropped then 1 else 0) && |queue| > 0
      ensures DatagramLayout(queue[|queue| - 1], lane, old(sequence), prefix + payload)
      ensures queue[..|queue| - 1] == (if code == Dropped then old(queue)[1..] else old(queue))
    {
      var packet := MakePacket(prefix, payload);
      SubmittedBytes(s, lane, prefix, payload, max, packet);
      NextNumber(|s.submissions|);
      code := Enqueue(packet);
    }

    method MakePacket(prefix: seq<byte>, payload: seq<byte>) returns (packet: seq<byte>)
      modifies this`sequence
      ensures packet == Frame(lane, old(sequence), prefix, payload)
      ensures DatagramLayout(packet, lane, old(sequence), prefix + payload)
      ensures sequence == (old(sequence) + 1) % 0x1_0000_0000_0000_0000
    {
      FrameLayout(lane, sequence, prefix, payload);
      packet := Frame(lane, sequence, prefix, payload);
      sequence := (sequence + 1) % WORD;
    }

    method Enqueue(packet: seq<byte>) returns (code: Code)
      requires |queue| <= Capacity(lane)
      modifies this`queue, this`drops, this`highWater
      ensures highWater == Higher(old(highWater), |queue|)
      ensures code == (if |old(queue)| == Capacity(lane) then Dropped else Ok)
      ensures queue == Replace(old(queue), Capacity(lane), packet)
      ensures drops == old(drops) + (if |old(queue)| == Capacity(lane) then 1 else 0)
    {
      var dropped := |queue| == Capacity(lane);
      code := if dropped then Dropped else Ok;
      if dropped { queue := queue[1..]; }
      queue := queue + [packet];
      if dropped { drops := drops + 1; }
      highWater := Higher(highWater, |queue|);
    }
  }

  /** The send task's choice: the oldest audio packet, and only without one the oldest video packet. */
  method PopNextMediaPacket(audio: SendLane, video: SendLane, ghost m: Media, ghost max: nat) returns (packet: Option<(Lane, seq<byte>)>)
    requires audio.lane == Audio && video.lane == Video && audio != video
    requires audio.Shows(m.audio) && video.Shows(m.video) && m.worker.Polling?
    modifies audio, video
    ensures var t := Step(m, max, Dequeue);
            && audio.Shows(t.audio) && video.Shows(t.video)
            && (packet.None? <==> t.worker.Polling?)
            && (packet.Some? ==> t.worker == Sending(packet.value.0)
                                 && packet.value.1 == At(m, packet.value.0).queue[0].bytes)
    ensures packet == (if old(audio.queue) != [] then Some((Audio, old(audio.queue[0])))
                       else if old(video.queue) != [] then Some((Video, old(video.queue[0]))) else None)
    ensures audio.queue == (if old(audio.queue) != [] then old(audio.queue[1..]) else [])
    ensures video.queue == (if old(audio.queue) == [] && old(video.queue) != [] then old(video.queue[1..]) else old(video.queue))
  {
    if audio.queue != [] {
      packet := Some((Audio, audio.queue[0]));
      audio.queue := audio.queue[1..];
    } else if video.queue != [] {
      packet := Some((Video, video.queue[0]));
      video.queue := video.queue[1..];
    } else {
      packet := None;
    }
  }
}
