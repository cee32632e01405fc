/** The single-producer, single-consumer audio ring between the HAL callback and the
    session queue.  Every atomic access and every sample store is one step of `Step`;
    runs are arbitrary interleavings of producer, consumer and stop events under
    sequential consistency. */
module TapRing {
  import opened Wrappers

  const SLOTS := 16
  const MAX_FRAMES := 8192
  const WORD := 0x1_0000_0000

  type u32 = x: int | 0 <= x < 0x1_0000_0000
  type u64 = x: int | 0 <= x < 0x1_0000_0000_0000_0000

  /** An IEEE binary32 bit pattern; a value is finite when its exponent field is not all ones. */
  predicate IsFinite(bits: u32) {
    bits / 0x80_0000 % 256 != 255
  }

  datatype Block = Block(frames: int, hostTime: int, samples: seq<u32>)

  /** The arguments of one push: planar when `right` is present, interleaved stereo otherwise. */
  datatype Request = Request(left: Option<seq<u32>>, right: Option<seq<u32>>, frames: u32, hostTime: u64)

  /** What the C caller guarantees about its buffers whenever the arguments are otherwise valid. */
  predicate Readable(q: Request) {
    q.left.Some? && 1 <= q.frames <= MAX_FRAMES ==>
      if q.right.Some? then |q.left.value| >= q.frames && |q.right.value| >= q.frames
      else |q.left.value| >= 2 * q.frames
  }

  predicate Acceptable(q: Request) {
    Readable(q) && q.left.Some? && 1 <= q.frames <= MAX_FRAMES && q.hostTime != 0
  }

  function LeftSample(q: Request, i: int): u32
    requires Acceptable(q) && 0 <= i < q.frames
  {
    if q.right.Some? then q.left.value[i] else q.left.value[2 * i]
  }

  function RightSample(q: Request, i: int): u32
    requires Acceptable(q) && 0 <= i < q.frames
  {
    if q.right.Some? then q.right.value[i] else q.left.value[2 * i + 1]
  }

  /** Sample `j` of the interleaved block the request asks for. */
  function Wanted(q: Request, j: int): u32
    requires Acceptable(q) && 0 <= j < 2 * q.frames
  {
    if j % 2 == 0 then LeftSample(q, j / 2) else RightSample(q, j / 2)
  }

  function Requested(q: Request): Block
    requires Acceptable(q)
  {
    Block(q.frames, q.hostTime, seq(2 * q.frames, j requires 0 <= j < 2 * q.frames => Wanted(q, j)))
  }

  /** What the caller's buffers say: planar channels, or one interleaved buffer. */
  ghost predicate CarriesFrame(samples: seq<u32>, q: Request, i: nat)
    requires Acceptable(q) && i < q.frames && 2 * i + 1 < |samples|
  {
    && samples[2 * i] == q.left.value[if q.right.Some? then i else 2 * i]
    && samples[2 * i + 1] == (if q.right.Some? then q.right.value[i] else q.left.value[2 * i + 1])
  }

  /** The block holds the request: its length, its time and every sample of both channels. */
  ghost predicate Carries(b: Block, q: Request)
    requires Acceptable(q)
  {
    && b.frames == q.frames && b.hostTime == q.hostTime && 2 * q.frames <= |b.samples|
    && forall i: nat | i < q.frames :: CarriesFrame(b.samples, q, i)
  }

  /** Every sample the request names is finite. */
  ghost predicate AllFinite(q: Request)
    requires Acceptable(q)
  {
    forall i: nat | i < q.frames ::
      && IsFinite(q.left.value[if q.right.Some? then i else 2 * i])
      && IsFinite(if q.right.Some? then q.right.value[i] else q.left.value[2 * i + 1])
  }

  lemma RequestedCarries(q: Request)
    requires Acceptable(q)
    ensures Carries(Requested(q), q) && |Requested(q).samples| == 2 * q.frames
  {
    forall i: nat | i < q.frames ensures CarriesFrame(Requested(q).samples, q, i) {
      assert (2 * i) % 2 == 0 && (2 * i) / 2 == i && (2 * i + 1) % 2 == 1 && (2 * i + 1) / 2 == i;
      assert Requested(q).samples[2 * i] == Wanted(q, 2 * i);
      assert Requested(q).samples[2 * i + 1] == Wanted(q, 2 * i + 1);
    }
  }

  /** Where the producer stands inside PLANKTapPush. */
  datatype Producer =
    | PIdle
    | PLoadWrite(q: Request)
    | PLoadRead(q: Request, write: u32)
    | PDecide(q: Request, write: u32, read: u32)
    | PTime(q: Request, write: u32)
    | PLeft(q: Request, write: u32, i: int)
    | PRight(q: Request, write: u32, i: int)
    | PPublish(q: Request, write: u32)

  /** Where the consumer stands inside Peek, Pop or DiscardOverrun. */
  datatype Consumer =
    | CIdle
    | CPeek(read: u32)
    | CHold(read: u32)
    | CPop(read: u32)
    | CDiscard(count: u32)
    | CSkip(count: u32, write: u32)

  datatype Sys = Sys(readIndex: u32, writeIndex: u32, failed: bool, overruns: u32, stopped: bool,
                     blocks: seq<Block>, p: Producer, c: Consumer)

  datatype Event =
    | Call(q: Request)  // PLANKTapPush entered: load `stopped`
    | Produce           // the producer's next access
    | Stop              // the owner sets `stopped`
    | Peek | Pop | Discard | Forget
    | Consume           // the consumer's next access

  predicate ProducerShape(p: Producer) {
    match p
    case PIdle => true
    case PLoadWrite(q) => Readable(q)
    case PLoadRead(q, _) => Readable(q)
    case PDecide(q, _, _) => Readable(q)
    case PTime(q, _) => Acceptable(q)
    case PLeft(q, _, i) => Acceptable(q) && 0 <= i < q.frames
    case PRight(q, _, i) => Acceptable(q) && 0 <= i < q.frames
    case PPublish(q, _) => Acceptable(q)
  }

  predicate Shape(s: Sys) {
    && |s.blocks| == SLOTS
    && (forall i | 0 <= i < SLOTS :: |s.blocks[i].samples| == 2 * MAX_FRAMES)
    && ProducerShape(s.p)
  }

  function Init(blocks: seq<Block>): Sys {
    Sys(0, 0, false, 0, false, blocks, PIdle, CIdle)
  }

  function Add1(x: u32): u32 { (x + 1) % WORD }

  function SetBlock(s: Sys, i: int, b: Block, p: Producer): (t: Sys)
    requires Shape(s) && 0 <= i < SLOTS && |b.samples| == 2 * MAX_FRAMES && ProducerShape(p)
    ensures Shape(t)
  {
    s.(blocks := s.blocks[i := b], p := p)
  }

  /** The next access of a push in progress. */
  function ProduceStep(s: Sys): (t: Sys)
    requires Shape(s)
    ensures Shape(t)
  {
    match s.p
    case PIdle => s
    case PLoadWrite(q) => s.(p := PLoadRead(q, s.writeIndex))
    case PLoadRead(q, write) => s.(p := PDecide(q, write, s.readIndex))
    case PDecide(q, write, read) =>
      if !Acceptable(q) then s.(failed := true, p := PIdle)
      else if (write - read) % WORD >= SLOTS then s.(overruns := Add1(s.overruns), p := PIdle)
      else SetBlock(s, write % SLOTS, s.blocks[write % SLOTS].(frames := q.frames), PTime(q, write))
    case PTime(q, write) =>
      SetBlock(s, write % SLOTS, s.blocks[write % SLOTS].(hostTime := q.hostTime), PLeft(q, write, 0))
    case PLeft(q, write, i) =>
      if !IsFinite(LeftSample(q, i)) || !IsFinite(RightSample(q, i)) then s.(failed := true, p := PIdle)
      else
        var b := s.blocks[write % SLOTS];
        SetBlock(s, write % SLOTS, b.(samples := b.samples[2 * i := LeftSample(q, i)]), PRight(q, write, i))
    case PRight(q, write, i) =>
      var b := s.blocks[write % SLOTS];
      SetBlock(s, write % SLOTS, b.(samples := b.samples[2 * i + 1 := RightSample(q, i)]),
               if i + 1 < q.frames then PLeft(q, write, i + 1) else PPublish(q, write))
    case PPublish(q, write) => s.(writeIndex := Add1(write), p := PIdle)
  }

  /** The next access of a consumer call in progress. */
  function ConsumeStep(s: Sys): (t: Sys)
    requires Shape(s)
    ensures Shape(t)
  {
    match s.c
    case CPeek(read) => s.(c := if read == s.writeIndex then CIdle else CHold(read))
    case CPop(read) => s.(readIndex := Add1(read), c := CIdle)
    case CDiscard(count) => s.(c := CSkip(count, s.writeIndex))
    case CSkip(_, write) => s.(readIndex := write, c := CIdle)
    case CIdle => s
    case CHold(_) => s
  }

  /** One step of the whole system; an event that is not enabled changes nothing.
      DiscardOverrun is called only between Peek/Pop pairs, as the source demands. */
  function Step(s: Sys, e: Event): (t: Sys)
    requires Shape(s)
    ensures Shape(t)
  {
    match e
    case Call(q) => if s.p.PIdle? && Readable(q) && !s.stopped then s.(p := PLoadWrite(q)) else s
    case Produce => ProduceStep(s)
    case Stop => s.(stopped := true)
    case Peek => if s.c.CIdle? then s.(c := CPeek(s.readIndex)) else s
    case Pop => if s.c.CHold? then s.(c := CPop(s.readIndex)) else s
    case Forget => if s.c.CHold? then s.(c := CIdle) else s
    case Discard =>
      if s.c.CIdle? then s.(overruns := 0, c := if s.overruns != 0 then CDiscard(s.overruns) else CIdle) else s
    case Consume => ConsumeStep(s)
  }

  /** What happened so far, in unbounded numbers.  Nothing in `Step` reads it. */
  datatype History = History(
    pushed: seq<Block>,      // every published block, in order
    read: nat,               // blocks consumed: delivered or discarded
    seenRead: nat,           // the unbounded index behind the producer's last load of readIndex
    seenWrite: nat,          // the unbounded index behind the consumer's last load of writeIndex
    delivered: seq<nat>,     // positions in `pushed` of the blocks popped
    discarded: nat,
    rejected: nat,           // overflow rejections
    pending: nat,            // of those, not yet covered by a DiscardOverrun exchange
    reported: nat,           // the sum of the counts DiscardOverrun returned
    wrapped: bool,           // some exchange came only after 2^32 or more pending rejections
    checked: bool,           // an exchange happened since the last pop
    paired: bool,            // every pop so far followed such an exchange
    late: nat,               // blocks popped since the oldest pending rejection
    requests: seq<Request>)  // the requests behind `pushed`

  const NoHistory := History([], 0, 0, 0, [], 0, 0, 0, 0, false, false, true, 0, [])

  predicate Rejects(s: Sys) {
    s.p.PDecide? && Acceptable(s.p.q) && (s.p.write - s.p.read) % WORD >= SLOTS
  }

  function Track(s: Sys, h: History, e: Event): History
    requires Shape(s)
  {
    match e
    case Produce =>
      if s.p.PLoadRead? then h.(seenRead := h.read)
      else if Rejects(s) then h.(rejected := h.rejected + 1, pending := h.pending + 1)
      else if s.p.PPublish? then h.(pushed := h.pushed + [Requested(s.p.q)], requests := h.requests + [s.p.q])
      else h
    case Consume =>
      if s.c.CPop? then
        h.(delivered := h.delivered + [h.read], read := h.read + 1, checked := false,
           paired := h.paired && h.checked, late := if h.pending > 0 then h.late + 1 else 0)
      else if s.c.CDiscard? then h.(seenWrite := |h.pushed|)
      else if s.c.CSkip? && h.seenWrite >= h.read then
        h.(discarded := h.discarded + (h.seenWrite - h.read), read := h.seenWrite)
      else h
    case Discard =>
      if s.c.CIdle? then
        h.(pending := 0, reported := h.reported + s.overruns, wrapped := h.wrapped || h.pending >= WORD,
           checked := true, late := 0)
      else h
    case _ => h
  }

  datatype State = State(sys: Sys, hist: History)

  function Next(st: State, e: Event): State
    requires Shape(st.sys)
  {
    State(Step(st.sys, e), Track(st.sys, st.hist, e))
  }

  /** An interleaving: the states it passes through, starting from PLANKTapBufferInit. */
  ghost predicate IsRun(states: seq<State>, events: seq<Event>) {
    && |states| == |events| + 1
    && Shape(states[0].sys) && states[0] == State(Init(states[0].sys.blocks), NoHistory)
    && forall i | 0 <= i < |events| :: Shape(states[i].sys) && states[i + 1] == Next(states[i], events[i])
  }

  /** The part of a slot a reader looks at. */
  function View(b: Block): Block {
    if 0 <= 2 * b.frames <= |b.samples| then b.(samples := b.samples[..2 * b.frames]) else b
  }

  /** The queue as a reader of the shared memory sees it: no history involved. */
  function Contents(s: Sys): seq<Block>
    requires Shape(s)
  {
    seq((s.writeIndex - s.readIndex) % WORD,
        i requires 0 <= i => View(s.blocks[(s.readIndex + i) % WORD % SLOTS]))
  }

  // ---------------------------------------------------------------- the invariant

  ghost predicate Indices(s: Sys, h: History) {
    && s.writeIndex == |h.pushed| % WORD
    && s.readIndex == h.read % WORD
    && h.read <= |h.pushed| <= h.read + SLOTS
  }

  /** Every published, unconsumed block is intact in its slot. */
  ghost predicate Stored(s: Sys, h: History)
    requires Shape(s)
  {
    forall k | h.read <= k < |h.pushed| :: View(s.blocks[k % SLOTS]) == h.pushed[k]
  }

  /** The producer owns the slot after the last published block, and has filled it up to `n` samples. */
  ghost predicate Filling(s: Sys, h: History, q: Request, write: u32, n: int)
    requires Shape(s) && Acceptable(q) && 0 <= n <= 2 * q.frames
  {
    && write == s.writeIndex
    && |h.pushed| < h.read + SLOTS
    && s.blocks[write % SLOTS].frames == q.frames
    && forall j | 0 <= j < n :: s.blocks[write % SLOTS].samples[j] == Wanted(q, j) && IsFinite(Wanted(q, j))
  }

  ghost predicate ProducerOk(s: Sys, h: History)
    requires Shape(s)
  {
    match s.p
    case PIdle => true
    case PLoadWrite(_) => true
    case PLoadRead(_, write) => write == s.writeIndex
    case PDecide(_, write, read) =>
      write == s.writeIndex && read == h.seenRead % WORD && h.seenRead <= h.read && |h.pushed| <= h.seenRead + SLOTS
    case PTime(q, write) => Filling(s, h, q, write, 0)
    case PLeft(q, write, i) => Filling(s, h, q, write, 2 * i) && s.blocks[write % SLOTS].hostTime == q.hostTime
    case PRight(q, write, i) =>
      && Filling(s, h, q, write, 2 * i + 1) && s.blocks[write % SLOTS].hostTime == q.hostTime
      && IsFinite(RightSample(q, i))
    case PPublish(q, write) => Filling(s, h, q, write, 2 * q.frames) && s.blocks[write % SLOTS].hostTime == q.hostTime
  }

  ghost predicate ConsumerOk(s: Sys, h: History) {
    match s.c
    case CIdle => true
    case CDiscard(_) => true
    case CPeek(read) => read == s.readIndex
    case CHold(read) => read == s.readIndex && h.read < |h.pushed|
    case CPop(read) => read == s.readIndex && h.read < |h.pushed|
    case CSkip(_, write) => write == h.seenWrite % WORD && h.read <= h.seenWrite <= |h.pushed|
  }

  ghost predicate Ledger(h: History) {
    && h.read == |h.delivered| + h.discarded
    && (forall i | 0 <= i < |h.delivered| :: h.delivered[i] < h.read)
    && (forall i, j | 0 <= i < j < |h.delivered| :: h.delivered[i] < h.delivered[j])
    && (forall k, j | 0 <= k < |h.pushed| && 0 <= j < |h.pushed[k].samples| :: IsFinite(h.pushed[k].samples[j]))
    && |h.requests| == |h.pushed|
    && (forall k | 0 <= k < |h.pushed| :: Acceptable(h.requests[k]) && h.pushed[k] == Requested(h.requests[k]))
  }

  ghost predicate Reports(overruns: u32, h: History) {
    && overruns == h.pending % WORD
    && h.reported + h.pending <= h.rejected
    && (h.reported + h.pending == h.rejected <==> !h.wrapped)
    && (h.pending == 0 ==> h.late == 0)
    && (h.paired ==> h.late <= 1 && (h.checked ==> h.late == 0))
  }

  ghost predicate Core(s: Sys, h: History)
    requires Shape(s)
  {
    Indices(s, h) && Stored(s, h) && ProducerOk(s, h) && ConsumerOk(s, h)
  }

  ghost predicate Inv(s: Sys, h: History)
    requires Shape(s)
  {
    Core(s, h) && Ledger(h) && Reports(s.overruns, h)
  }

  // ---------------------------------------------------------------- wrapping arithmetic

  lemma WrappedDistance(a: nat, b: nat)
    requires b <= a < b + WORD
    ensures (a % WORD - b % WORD) % WORD == a - b
  {
    var qa, qb := a / WORD, b / WORD;
    assert a % WORD - b % WORD == (a - b) + (qb - qa) * WORD;
    assert qa == qb || qa == qb + 1;
  }

  lemma SlotOf(a: nat)
    ensures a % WORD % SLOTS == a % SLOTS
  {
    assert a == a / WORD * WORD + a % WORD;
    assert a / WORD * WORD == a / WORD * 0x1000_0000 * SLOTS;
    assert a == a / WORD * 0x1000_0000 * SLOTS + a % WORD;
  }

  lemma WrappedSuccessor(a: nat)
    ensures (a % WORD + 1) % WORD == (a + 1) % WORD
  {
  }

  /** Within a window of sixteen positions no two positions share a slot. */
  lemma DistinctSlots(k: nat, w: nat)
    requires k < w < k + SLOTS
    ensures k % SLOTS != w % SLOTS
  {
  }

  // ---------------------------------------------------------------- every step keeps the invariant

  /** A store into the producer's slot touches no published block. */
  lemma StoreKeepsPublished(s: Sys, h: History, b: Block)
    requires Shape(s) && Indices(s, h) && Stored(s, h) && |h.pushed| < h.read + SLOTS
    ensures forall k | h.read <= k < |h.pushed| ::
              View(s.blocks[s.writeIndex % SLOTS := b][k % SLOTS]) == h.pushed[k]
  {
    SlotOf(|h.pushed|);
    forall k | h.read <= k < |h.pushed|
      ensures View(s.blocks[s.writeIndex % SLOTS := b][k % SLOTS]) == h.pushed[k]
    {
      DistinctSlots(k, |h.pushed|);
    }
  }

  /** The producer's loads, entering a push, and giving one up. */
  lemma LoadKeeps(s: Sys, h: History, t: Sys, g: History)
    requires Shape(s) && Core(s, h) && Shape(t)
    requires t.blocks == s.blocks && t.writeIndex == s.writeIndex && t.readIndex == s.readIndex && t.c == s.c
    requires g.pushed == h.pushed && g.read == h.read && g.seenWrite == h.seenWrite
    requires t.p.PIdle? || t.p.PLoadWrite? || (t.p.PLoadRead? && t.p.write == s.writeIndex)
             || (t.p.PDecide? && t.p.write == s.writeIndex && t.p.read == s.readIndex && g.seenRead == h.read)
    ensures Core(t, g)
  {
  }

  /** A free slot seen through a stale read index is still free. */
  lemma StaleIndexIsSafe(s: Sys, h: History)
    requires Shape(s) && Indices(s, h) && ProducerOk(s, h)
    requires s.p.PDecide? && Acceptable(s.p.q) && !Rejects(s)
    ensures |h.pushed| < h.read + SLOTS
  {
    WrappedDistance(|h.pushed|, h.seenRead);
  }

  lemma DecideKeeps(s: Sys, h: History)
    requires Shape(s) && Core(s, h) && s.p.PDecide?
    ensures Core(Step(s, Produce), Track(s, h, Produce))
  {
    if Acceptable(s.p.q) && !Rejects(s) {
      var q, slot := s.p.q, s.writeIndex % SLOTS;
      StaleIndexIsSafe(s, h);
      StoreKeepsPublished(s, h, s.blocks[slot].(frames := q.frames));
    } else {
      LoadKeeps(s, h, ProduceStep(s), Track(s, h, Produce));
    }
  }

  /** Storing the time stamp or a left sample into the producer's own slot. */
  lemma StoreKeeps(s: Sys, h: History)
    requires Shape(s) && Core(s, h) && (s.p.PTime? || s.p.PLeft?)
    ensures Core(Step(s, Produce), Track(s, h, Produce))
  {
    var t := ProduceStep(s);
    StoreKeepsPublished(s, h, t.blocks[s.writeIndex % SLOTS]);
  }

  /** Storing a right sample completes one more frame of the slot. */
  lemma StoreRightKeeps(s: Sys, h: History)
    requires Shape(s) && Core(s, h) && s.p.PRight?
    ensures Core(Step(s, Produce), Track(s, h, Produce))
  {
    var t := ProduceStep(s);
    var slot, q, i := s.writeIndex % SLOTS, s.p.q, s.p.i;
    StoreKeepsPublished(s, h, t.blocks[slot]);
    assert forall j | 0 <= j < 2 * i + 2 ::
        t.blocks[slot].samples[j] == Wanted(q, j) && IsFinite(Wanted(q, j));
  }

  /** Publishing appends exactly the requested block. */
  lemma PublishKeeps(s: Sys, h: History)
    requires Shape(s) && Core(s, h) && s.p.PPublish?
    ensures Core(Step(s, Produce), Track(s, h, Produce))
  {
    SlotOf(|h.pushed|);
    WrappedSuccessor(|h.pushed|);
    assert View(s.blocks[s.writeIndex % SLOTS]) == Requested(s.p.q);
  }

  /** A step that stores no block, publishes nothing and only moves the read index forward. */
  lemma ReaderFrame(s: Sys, h: History, t: Sys, g: History)
    requires Shape(s) && Shape(t) && Indices(s, h) && Stored(s, h) && ProducerOk(s, h)
    requires t.blocks == s.blocks && t.writeIndex == s.writeIndex && t.p == s.p
    requires g.pushed == h.pushed && g.seenRead == h.seenRead
    requires h.read <= g.read <= |g.pushed| && t.readIndex == g.read % WORD
    ensures Indices(t, g) && Stored(t, g) && ProducerOk(t, g)
  {
  }

  lemma PeekKeeps(s: Sys, h: History)
    requires Shape(s) && Core(s, h) && s.c.CPeek?
    ensures Core(ConsumeStep(s), h)
  {
    assert s.c.read != s.writeIndex ==> h.read != |h.pushed|;
    ReaderFrame(s, h, ConsumeStep(s), h);
  }

  lemma PopKeeps(s: Sys, h: History)
    requires Shape(s) && Core(s, h) && s.c.CPop?
    ensures Core(ConsumeStep(s), Track(s, h, Consume))
  {
    var t, g := ConsumeStep(s), Track(s, h, Consume);
    assert t.readIndex == g.read % WORD by { WrappedSuccessor(h.read); }
    ReaderFrame(s, h, t, g);
  }

  lemma DiscardKeeps(s: Sys, h: History)
    requires Shape(s) && Core(s, h) && (s.c.CDiscard? || s.c.CSkip?)
    ensures Core(ConsumeStep(s), Track(s, h, Consume))
  {
    ReaderFrame(s, h, ConsumeStep(s), Track(s, h, Consume));
  }

  lemma ConsumeKeeps(s: Sys, h: History)
    requires Shape(s) && Core(s, h)
    ensures Core(Step(s, Consume), Track(s, h, Consume))
  {
    match s.c
    case CPeek(_) => PeekKeeps(s, h);
    case CPop(_) => PopKeeps(s, h);
    case CIdle =>
    case CHold(_) =>
    case _ => DiscardKeeps(s, h);
  }

  lemma ProduceKeeps(s: Sys, h: History)
    requires Shape(s) && Core(s, h)
    ensures Core(Step(s, Produce), Track(s, h, Produce))
  {
    match s.p
    case PIdle =>
    case PLoadWrite(_) => LoadKeeps(s, h, ProduceStep(s), h);
    case PLoadRead(_, _) => LoadKeeps(s, h, ProduceStep(s), Track(s, h, Produce));
    case PDecide(_, _, _) => DecideKeeps(s, h);
    case PPublish(_, _) => PublishKeeps(s, h);
    case PRight(_, _, _) => StoreRightKeeps(s, h);
    case _ => StoreKeeps(s, h);
  }

  lemma CoreKeeps(s: Sys, h: History, e: Event)
    requires Shape(s) && Core(s, h)
    ensures Core(Step(s, e), Track(s, h, e))
  {
    match e
    case Produce => ProduceKeeps(s, h);
    case Consume => ConsumeKeeps(s, h);
    case Call(_) => if Step(s, e) != s { LoadKeeps(s, h, Step(s, e), h); }
    case _ => ReaderFrame(s, h, Step(s, e), Track(s, h, e));
  }

  lemma LedgerKeeps(s: Sys, h: History, e: Event)
    requires Shape(s) && Core(s, h) && Ledger(h)
    ensures Ledger(Track(s, h, e))
  {
    match e
    case Produce => ProduceLedger(s, h);
    case Consume => ConsumeLedger(s, h);
    case Call(_) => case Stop => case Peek => case Pop => case Discard => case Forget =>
  }

  lemma ProduceLedger(s: Sys, h: History)
    requires Shape(s) && Core(s, h) && Ledger(h)
    ensures Ledger(Track(s, h, Produce))
  {
    match s.p
    case PPublish(_, _) => PublishKeepsLedger(s, h);
    case PIdle => case PLoadWrite(_) => case PLoadRead(_, _) => case PDecide(_, _, _) =>
    case PTime(_, _) => case PLeft(_, _, _) => case PRight(_, _, _) =>
  }

  lemma ConsumeLedger(s: Sys, h: History)
    requires Shape(s) && ConsumerOk(s, h) && Ledger(h)
    ensures Ledger(Track(s, h, Consume))
  {
    match s.c case CPop(_) => case CSkip(_, _) => case CDiscard(_) => case CIdle => case CPeek(_) => case CHold(_) =>
  }

  lemma PublishKeepsLedger(s: Sys, h: History)
    requires Shape(s) && Core(s, h) && Ledger(h) && s.p.PPublish?
    ensures Ledger(h.(pushed := h.pushed + [Requested(s.p.q)], requests := h.requests + [s.p.q]))
  {
    var q := s.p.q;
    assert forall j | 0 <= j < 2 * q.frames :: IsFinite(Wanted(q, j));
  }

  lemma ProduceOverruns(s: Sys)
    requires Shape(s)
    ensures ProduceStep(s).overruns == if Rejects(s) then Add1(s.overruns) else s.overruns
  {
    match s.p
    case PIdle => case PLoadWrite(_) => case PLoadRead(_, _) => case PDecide(_, _, _) =>
    case PTime(_, _) => case PLeft(_, _, _) => case PRight(_, _, _) => case PPublish(_, _) =>
  }

  lemma ConsumeOverruns(s: Sys)
    requires Shape(s)
    ensures ConsumeStep(s).overruns == s.overruns
  {
    match s.c case CPop(_) => case CSkip(_, _) => case CDiscard(_) => case CIdle => case CPeek(_) => case CHold(_) =>
  }

  lemma ProduceReports(s: Sys, h: History)
    requires Shape(s) && Reports(s.overruns, h)
    ensures Reports(if Rejects(s) then Add1(s.overruns) else s.overruns, Track(s, h, Produce))
  {
    if Rejects(s) { WrappedSuccessor(h.pending); }
  }

  lemma ConsumeReports(s: Sys, h: History)
    requires Shape(s) && Reports(s.overruns, h)
    ensures Reports(s.overruns, Track(s, h, Consume))
  {
    match s.c case CPop(_) => case CSkip(_, _) => case CDiscard(_) => case CIdle => case CPeek(_) => case CHold(_) =>
  }

  lemma ReportsKeep(s: Sys, h: History, e: Event)
    requires Shape(s) && Reports(s.overruns, h)
    ensures Reports(Step(s, e).overruns, Track(s, h, e))
  {
    match e
    case Produce => ProduceOverruns(s); ProduceReports(s, h);
    case Consume => ConsumeOverruns(s); ConsumeReports(s, h);
    case Call(_) => case Stop => case Peek => case Pop => case Discard => case Forget =>
  }

  lemma {:induction false} RunKeeps(states: seq<State>, events: seq<Event>, n: nat)
    requires IsRun(states, events) && n <= |events|
    ensures Shape(states[n].sys) && Inv(states[n].sys, states[n].hist)
  {
    if n > 0 {
      RunKeeps(states, events, n - 1);
      var e := events[n - 1];
      assert states[n] == Next(states[n - 1], e);
      NextKeeps(states[n - 1].sys, states[n - 1].hist, e);
    }
  }

  lemma NextKeeps(s: Sys, h: History, e: Event)
    requires Shape(s) && Inv(s, h)
    ensures Inv(Step(s, e), Track(s, h, e))
  {
    CoreKeeps(s, h, e);
    LedgerKeeps(s, h, e);
    ReportsKeep(s, h, e);
  }

  // ---------------------------------------------------------------- what every run satisfies

  /** The slot the producer stores into with its next access, if it stores at all. */
  function StoredSlot(s: Sys): Option<int>
    requires Shape(s)
  {
    match s.p
    case PDecide(q, write, _) => if Acceptable(q) && !Rejects(s) then Some(write % SLOTS) else None
    case PTime(_, write) => Some(write % SLOTS)
    case PLeft(q, write, i) =>
      if IsFinite(LeftSample(q, i)) && IsFinite(RightSample(q, i)) then Some(write % SLOTS) else None
    case PRight(_, write, _) => Some(write % SLOTS)
    case _ => None
  }

  lemma SlotAt(r: nat, i: nat)
    ensures (r % WORD + i) % WORD % SLOTS == (r + i) % SLOTS
  {
    assert (r % WORD + i) % WORD == (r + i) % WORD;
    SlotOf(r + i);
  }

  /** Memory and history agree: what a reader finds is exactly the unconsumed suffix of what was pushed. */
  lemma ContentsArePushed(s: Sys, h: History)
    requires Shape(s) && Indices(s, h) && Stored(s, h)
    ensures Contents(s) == h.pushed[h.read..]
  {
    WrappedDistance(|h.pushed|, h.read);
    assert |Contents(s)| == |h.pushed| - h.read;
    forall i | 0 <= i < |h.pushed| - h.read ensures Contents(s)[i] == h.pushed[h.read..][i] {
      ContentAt(s, h, i);
    }
  }

  lemma ContentAt(s: Sys, h: History, i: nat)
    requires Shape(s) && Indices(s, h) && Stored(s, h)
    requires h.read + i < |h.pushed| && |Contents(s)| == |h.pushed| - h.read
    ensures Contents(s)[i] == h.pushed[h.read + i]
  {
    SlotAt(h.read, i);
    SlotView(s, i, (h.read + i) % SLOTS);
    var k := h.read + i;
    assert View(s.blocks[k % SLOTS]) == h.pushed[k];
  }

  lemma SlotView(s: Sys, i: nat, slot: nat)
    requires Shape(s) && i < |Contents(s)| && slot == (s.readIndex + i) % WORD % SLOTS
    ensures Contents(s)[i] == View(s.blocks[slot])
  {
  }

  lemma StoresElsewhere(s: Sys, h: History, k: nat)
    requires Shape(s) && Indices(s, h) && ProducerOk(s, h) && h.read <= k < |h.pushed|
    ensures StoredSlot(s) != Some(k % SLOTS)
  {
    SlotOf(|h.pushed|);
    if StoredSlot(s).Some? {
      if s.p.PDecide? { StaleIndexIsSafe(s, h); }
      DistinctSlots(k, |h.pushed|);
    }
  }

  /** In every interleaving the producer stores only into slots that hold no published, unconsumed
      block, the consumer's pointer names the oldest such block, and that block is what was pushed. */
  lemma NeverOverwrites(states: seq<State>, events: seq<Event>, n: nat, k: nat)
    requires IsRun(states, events) && n <= |events|
    requires states[n].hist.read <= k < |states[n].hist.pushed|
    ensures var s, h := states[n].sys, states[n].hist;
            && Shape(s)
            && StoredSlot(s) != Some(k % SLOTS)
            && View(s.blocks[k % SLOTS]) == h.pushed[k]
            && (s.c.CHold? ==> View(s.blocks[s.c.read % SLOTS]) == h.pushed[h.read])
  {
    RunKeeps(states, events, n);
    StoresElsewhere(states[n].sys, states[n].hist, k);
    SlotOf(states[n].hist.read);
  }

  /** What a reader finds in a published slot is, sample by sample, what the caller's buffers held. */
  lemma PublishedCarriesRequest(states: seq<State>, events: seq<Event>, n: nat, k: nat)
    requires IsRun(states, events) && n <= |events|
    requires states[n].hist.read <= k < |states[n].hist.pushed|
    ensures var s, h := states[n].sys, states[n].hist;
            && Shape(s) && |h.requests| == |h.pushed| && Acceptable(h.requests[k])
            && Carries(s.blocks[k % SLOTS], h.requests[k])
            && (s.c.CHold? ==> Acceptable(h.requests[h.read]) && Carries(s.blocks[s.c.read % SLOTS], h.requests[h.read]))
  {
    RunKeeps(states, events, n);
    var s, h := states[n].sys, states[n].hist;
    ViewCarries(s.blocks[k % SLOTS], h.requests[k]);
    if s.c.CHold? {
      NeverOverwrites(states, events, n, k);
      ViewCarries(s.blocks[s.c.read % SLOTS], h.requests[h.read]);
    }
  }

  lemma ViewCarries(b: Block, q: Request)
    requires Acceptable(q) && View(b) == Requested(q)
    ensures Carries(b, q)
  {
    RequestedCarries(q);
    var v := View(b);
    forall i: nat | i < q.frames ensures CarriesFrame(b.samples, q, i) {
      assert CarriesFrame(v.samples, q, i);
    }
  }

  datatype Op = Enqueue(b: Block) | Dequeue | Drop(n: nat) | Stay

  /** The bounded queue the ring stands for. */
  ghost predicate FifoStep(before: seq<Block>, op: Op, after: seq<Block>) {
    match op
    case Enqueue(b) => |before| < SLOTS && after == before + [b]
    case Dequeue => before != [] && after == before[1..]
    case Drop(n) => n <= |before| && after == before[n..]
    case Stay => after == before
  }

  function OpOf(s: Sys, e: Event): Op
    requires Shape(s)
  {
    if e.Produce? && s.p.PPublish? then Enqueue(Requested(s.p.q))
    else if e.Consume? && s.c.CPop? then Dequeue
    else if e.Consume? && s.c.CSkip? then Drop((s.c.write - s.readIndex) % WORD)
    else Stay
  }

  lemma HistoryIsFifo(s: Sys, h: History, e: Event)
    requires Shape(s) && Core(s, h)
    ensures var g := Track(s, h, e);
            g.read <= |g.pushed| && FifoStep(h.pushed[h.read..], OpOf(s, e), g.pushed[g.read..])
  {
    match e
    case Produce => ProduceIsFifo(s, h);
    case Consume => ConsumeIsFifo(s, h);
    case Call(_) => case Stop => case Peek => case Pop => case Discard => case Forget =>
  }

  lemma ProduceIsFifo(s: Sys, h: History)
    requires Shape(s) && Indices(s, h) && ProducerOk(s, h)
    ensures var g := Track(s, h, Produce);
            g.read <= |g.pushed| && FifoStep(h.pushed[h.read..], OpOf(s, Produce), g.pushed[g.read..])
  {
    match s.p
    case PIdle => case PLoadWrite(_) => case PLoadRead(_, _) => case PDecide(_, _, _) =>
    case PTime(_, _) => case PLeft(_, _, _) => case PRight(_, _, _) =>
    case PPublish(q, _) =>
      assert (h.pushed + [Requested(q)])[h.read..] == h.pushed[h.read..] + [Requested(q)];
  }

  lemma ConsumeIsFifo(s: Sys, h: History)
    requires Shape(s) && Indices(s, h) && ConsumerOk(s, h)
    ensures var g := Track(s, h, Consume);
            g.read <= |g.pushed| && FifoStep(h.pushed[h.read..], OpOf(s, Consume), g.pushed[g.read..])
  {
    match s.c
    case CSkip(_, _) => WrappedDistance(h.seenWrite, h.read);
    case CPop(_) => case CDiscard(_) => case CIdle => case CPeek(_) => case CHold(_) =>
  }

  /** The ring refines a queue of at most sixteen blocks, across any number of index wraps. */
  lemma RefinesFifo(states: seq<State>, events: seq<Event>, n: nat)
    requires IsRun(states, events) && n < |events|
    ensures var s, t := states[n].sys, states[n + 1].sys;
            && Shape(s) && Shape(t)
            && |Contents(s)| <= SLOTS
            && FifoStep(Contents(s), OpOf(s, events[n]), Contents(t))
  {
    RunKeeps(states, events, n);
    RunKeeps(states, events, n + 1);
    ContentsArePushed(states[n].sys, states[n].hist);
    ContentsArePushed(states[n + 1].sys, states[n + 1].hist);
    HistoryIsFifo(states[n].sys, states[n].hist, events[n]);
  }

  /** Conservation, delivery order and finiteness of every delivered sample. */
  lemma Conservation(states: seq<State>, events: seq<Event>, n: nat)
    requires IsRun(states, events) && n <= |events|
    ensures var s, h := states[n].sys, states[n].hist;
            && |h.pushed| == |h.delivered| + h.discarded + (s.writeIndex - s.readIndex) % WORD
            && (s.writeIndex - s.readIndex) % WORD <= SLOTS
            && (forall i | 0 <= i < |h.delivered| :: h.delivered[i] < |h.pushed|)
            && (forall i, j | 0 <= i < j < |h.delivered| :: h.delivered[i] < h.delivered[j])
            && (forall k, j | 0 <= k < |h.pushed| && 0 <= j < |h.pushed[k].samples| :: IsFinite(h.pushed[k].samples[j]))
  {
    RunKeeps(states, events, n);
    WrappedDistance(|states[n].hist.pushed|, states[n].hist.read);
  }

  /** Rejections are reported exactly once unless 2^32 of them pile up between two exchanges, and a
      consumer that checks before every pop delivers at most one block ahead of a pending report. */
  lemma OverrunReports(states: seq<State>, events: seq<Event>, n: nat)
    requires IsRun(states, events) && n <= |events|
    ensures var s, h := states[n].sys, states[n].hist;
            && (h.reported + h.pending == h.rejected <==> !h.wrapped)
            && (s.overruns == h.pending <==> h.pending < WORD)
            && (h.paired ==> h.late <= 1)
  {
    RunKeeps(states, events, n);
  }

  // ---------------------------------------------------------------- the calls themselves

  function Remaining(p: Producer): nat
    requires ProducerShape(p)
  {
    match p
    case PIdle => 0
    case PPublish(_, _) => 1
    case PRight(q, _, i) => 2 * (q.frames - i)
    case PLeft(q, _, i) => 2 * (q.frames - i) + 1
    case PTime(q, _) => 2 * q.frames + 2
    case PDecide(q, _, _) => 2 * q.frames + 3
    case PLoadRead(q, _) => 2 * q.frames + 4
    case PLoadWrite(q) => 2 * q.frames + 5
  }

  /** Where a push stands when `i` of its frames are copied. */
  function Resume(q: Request, write: u32, i: int): Producer {
    if i < q.frames then PLeft(q, write, i) else PPublish(q, write)
  }

  /** The push in progress run to its end without interference. */
  function Finish(s: Sys): (t: Sys)
    requires Shape(s)
    ensures Shape(t) && t.p.PIdle?
    decreases Remaining(s.p)
  {
    if s.p.PIdle? then s else Finish(ProduceStep(s))
  }

  /** A push begins by loading both indices; a refused one ends right there. */
  lemma FinishLoads(s: Sys, q: Request)
    requires Shape(s) && Readable(q)
    ensures var d := s.(p := PDecide(q, s.writeIndex, s.readIndex));
            && Finish(s.(p := PLoadWrite(q))) == Finish(d)
            && (ProduceStep(d).p.PIdle? ==> Finish(d) == ProduceStep(d))
  {
    var a := s.(p := PLoadWrite(q));
    var b := ProduceStep(a);
    assert b == s.(p := PLoadRead(q, s.writeIndex));
    assert ProduceStep(b) == s.(p := PDecide(q, s.writeIndex, s.readIndex));
    assert Finish(a) == Finish(b) == Finish(ProduceStep(b));
  }

  lemma ZeroDistance(w: u32, r: u32)
    ensures (w - r) % WORD == 0 <==> w == r
  {
    assert w < r ==> (w - r) % WORD == w - r + WORD;
  }

  lemma PeekSeesFront(s: Sys)
    requires Shape(s)
    ensures s.readIndex != s.writeIndex <==> Contents(s) != []
    ensures Contents(s) != [] ==> Contents(s)[0] == View(s.blocks[s.readIndex % SLOTS])
  {
    ZeroDistance(s.writeIndex, s.readIndex);
    assert |Contents(s)| == (s.writeIndex - s.readIndex) % WORD;
    if Contents(s) != [] {
      assert Contents(s)[0] == View(s.blocks[(s.readIndex + 0) % WORD % SLOTS]);
      assert (s.readIndex + 0) % WORD == s.readIndex;
    }
  }

  /** The first n frames are copied, and were finite. */
  ghost predicate Copied(b: Block, q: Request, n: int)
    requires Acceptable(q)
  {
    && 0 <= n <= q.frames && |b.samples| == 2 * MAX_FRAMES && b.frames == q.frames && b.hostTime == q.hostTime
    && forall i: nat | i < n ::
         && CarriesFrame(b.samples, q, i)
         && IsFinite(q.left.value[if q.right.Some? then i else 2 * i])
         && IsFinite(if q.right.Some? then q.right.value[i] else q.left.value[2 * i + 1])
  }

  function WithFrame(b: Block, q: Request, i: int): Block
    requires Acceptable(q) && 0 <= i < q.frames && |b.samples| == 2 * MAX_FRAMES
  {
    b.(samples := b.samples[2 * i := LeftSample(q, i)][2 * i + 1 := RightSample(q, i)])
  }

  lemma CopiedNext(b: Block, q: Request, n: int)
    requires Acceptable(q) && Copied(b, q, n) && n < q.frames
    ensures IsFinite(LeftSample(q, n)) && IsFinite(RightSample(q, n)) ==> Copied(WithFrame(b, q, n), q, n + 1)
    ensures !(IsFinite(LeftSample(q, n)) && IsFinite(RightSample(q, n))) ==> !AllFinite(q)
  {
    var c := WithFrame(b, q, n);
    forall i: nat | i < n ensures CarriesFrame(c.samples, q, i) {
      assert CarriesFrame(b.samples, q, i);
    }
    assert CarriesFrame(c.samples, q, n);
  }

  lemma CopiedAll(b: Block, q: Request)
    requires Acceptable(q) && Copied(b, q, q.frames)
    ensures Carries(b, q) && AllFinite(q)
  {
  }

  /** The buffer as the C code holds it; its calls run the step machine's own steps. */
  class TapBuffer {
    var readIndex: u32
    var writeIndex: u32
    var failed: bool
    var overruns: u32
    var stopped: bool
    const blocks: array<Block>

    ghost predicate Valid()
      reads this, blocks
    {
      blocks.Length == SLOTS && Shape(Snapshot())
    }

    ghost function Snapshot(): Sys
      reads this, blocks
    {
      Sys(readIndex, writeIndex, failed, overruns, stopped, blocks[..], PIdle, CIdle)
    }

    /** PLANKTapBufferInit; the blocks keep whatever they held. */
    constructor (blocks: array<Block>)
      ensures this.blocks == blocks && Snapshot() == Init(blocks[..])
    {
      this.blocks := blocks;
      readIndex, writeIndex, failed, overruns, stopped := 0, 0, false, 0, false;
    }

    /** Publishes exactly when the call is not stopped, the arguments are valid, a slot is free and
        every sample is finite, and then the slot carries the caller's buffers. */
    method Push(q: Request) returns (ok: bool)
      requires Valid() && Readable(q)
      modifies this, blocks
      ensures Valid() && Snapshot() == Finish(Step(old(Snapshot()), Call(q)))
      ensures var valid := q.left.Some? && 1 <= q.frames <= 8192 && q.hostTime != 0;
              var room := (old(writeIndex) - old(readIndex)) % 0x1_0000_0000 < 16;
              && (ok <==> !old(stopped) && valid && room && AllFinite(q))
              && writeIndex == (if ok then (old(writeIndex) + 1) % 0x1_0000_0000 else old(writeIndex))
              && overruns == (if !old(stopped) && valid && !room then (old(overruns) + 1) % 0x1_0000_0000 else old(overruns))
              && (failed <==> old(failed) || (!old(stopped) && (!valid || (room && !AllFinite(q)))))
      ensures readIndex == old(readIndex) && stopped == old(stopped)
      ensures ok ==> Carries(blocks[old(writeIndex) % 16], q)
      ensures forall i | 0 <= i < SLOTS && i != old(writeIndex) % 16 :: blocks[i] == old(blocks[i])
    {
      if stopped { return false; }
      var write, read := writeIndex, readIndex;
      FinishLoads(Snapshot(), q);
      if q.left.None? || q.frames == 0 || q.frames > MAX_FRAMES || q.hostTime == 0 {
        failed := true;
        return false;
      }
      if (write - read) % WORD >= SLOTS {
        overruns := Add1(overruns);
        return false;
      }
      ok := Fill(q, write);
    }

    /** A push that found room. */
    method Fill(q: Request, write: u32) returns (ok: bool)
      requires Valid() && Acceptable(q) && write == writeIndex && (write - readIndex) % WORD < SLOTS
      modifies this, blocks
      ensures Valid() && Snapshot() == Finish(old(Snapshot()).(p := PDecide(q, write, readIndex)))
      ensures writeIndex == (if ok then Add1(write) else write) && (ok <==> AllFinite(q))
      ensures (failed <==> old(failed) || !ok) && overruns == old(overruns)
      ensures readIndex == old(readIndex) && stopped == old(stopped)
      ensures ok ==> Carries(blocks[write % SLOTS], q)
      ensures forall i | 0 <= i < SLOTS && i != write % SLOTS :: blocks[i] == old(blocks[i])
    {
      ghost var decide := Snapshot().(p := PDecide(q, write, readIndex));
      var slot := write % SLOTS;
      blocks[slot] := blocks[slot].(frames := q.frames);
      assert blocks[..] == ProduceStep(decide).blocks;
      ghost var time := Snapshot().(p := PTime(q, write));
      blocks[slot] := blocks[slot].(hostTime := q.hostTime);
      assert blocks[..] == ProduceStep(time).blocks;
      ok := CopyAndPublish(q, write);
    }

    method CopyAndPublish(q: Request, write: u32) returns (ok: bool)
      requires Valid() && Acceptable(q) && write == writeIndex
      requires blocks[write % SLOTS].frames == q.frames && blocks[write % SLOTS].hostTime == q.hostTime
      modifies this, blocks
      ensures Valid() && Snapshot() == Finish(old(Snapshot()).(p := PLeft(q, write, 0)))
      ensures writeIndex == (if ok then Add1(write) else write) && (ok <==> AllFinite(q))
      ensures (failed <==> old(failed) || !ok) && overruns == old(overruns)
      ensures readIndex == old(readIndex) && stopped == old(stopped)
      ensures ok ==> Carries(blocks[write % SLOTS], q)
      ensures forall i | 0 <= i < SLOTS && i != write % SLOTS :: blocks[i] == old(blocks[i])
    {
      ok := CopyFrames(q, write);
      if ok {
        CopiedAll(blocks[write % SLOTS], q);
        writeIndex := Add1(write);
      }
    }

    /** The copy loop: all frames, or up to the first that is not finite. */
    method CopyFrames(q: Request, write: u32) returns (ok: bool)
      requires Valid() && Acceptable(q)
      requires blocks[write % SLOTS].frames == q.frames && blocks[write % SLOTS].hostTime == q.hostTime
      modifies this`failed, blocks
      ensures Valid() && (failed <==> old(failed) || !ok) && (ok <==> AllFinite(q))
      ensures Finish(old(Snapshot()).(p := PLeft(q, write, 0)))
           == if ok then Finish(Snapshot().(p := PPublish(q, write))) else Snapshot()
      ensures ok ==> Copied(blocks[write % SLOTS], q, q.frames)
      ensures forall i | 0 <= i < SLOTS && i != write % SLOTS :: blocks[i] == old(blocks[i])
    {
      var i := 0;
      while i < q.frames
        invariant 0 <= i <= q.frames && Valid() && failed == old(failed)
        invariant Finish(old(Snapshot()).(p := PLeft(q, write, 0))) == Finish(Snapshot().(p := Resume(q, write, i)))
        invariant Copied(blocks[write % SLOTS], q, i)
        invariant forall j | 0 <= j < SLOTS && j != write % SLOTS :: blocks[j] == old(blocks[j])
      {
        CopiedNext(blocks[write % SLOTS], q, i);
        ok := StoreFrame(q, write, i);
        if !ok { return; }
        i := i + 1;
      }
      CopiedAll(blocks[write % SLOTS], q);
      ok := true;
    }

    /** One turn of the copy loop. */
    method StoreFrame(q: Request, write: u32, i: int) returns (ok: bool)
      requires Valid() && Acceptable(q) && 0 <= i < q.frames
      modifies this`failed, blocks
      ensures Valid() && (failed <==> old(failed) || !ok)
      ensures Finish(old(Snapshot()).(p := PLeft(q, write, i)))
           == if ok then Finish(Snapshot().(p := Resume(q, write, i + 1))) else Snapshot()
      ensures ok <==> IsFinite(LeftSample(q, i)) && IsFinite(RightSample(q, i))
      ensures blocks[write % SLOTS] == (if ok then WithFrame(old(blocks[write % SLOTS]), q, i) else old(blocks[write % SLOTS]))
      ensures forall j | 0 <= j < SLOTS && j != write % SLOTS :: blocks[j] == old(blocks[j])
    {
      var slot := write % SLOTS;
      ghost var left := Snapshot().(p := PLeft(q, write, i));
      if !IsFinite(LeftSample(q, i)) || !IsFinite(RightSample(q, i)) {
        failed := true;
        return false;
      }
      blocks[slot] := blocks[slot].(samples := blocks[slot].samples[2 * i := LeftSample(q, i)]);
      assert blocks[..] == ProduceStep(left).blocks;
      ghost var right := Snapshot().(p := PRight(q, write, i));
      assert right == ProduceStep(left);
      blocks[slot] := blocks[slot].(samples := blocks[slot].samples[2 * i + 1 := RightSample(q, i)]);
      assert blocks[..] == ProduceStep(right).blocks;
      assert Snapshot().(p := Resume(q, write, i + 1)) == ProduceStep(right);
      ok := true;
    }

    /** Each consumer call is the consumer's own accesses, one after another. */
    method Peek() returns (slot: Option<int>)
      requires Valid()
      ensures slot == (if readIndex == writeIndex then None else Some(readIndex % 16))
      ensures Step(Step(Snapshot(), Event.Peek), Consume)
           == Snapshot().(c := if slot.Some? then CHold(readIndex) else CIdle)
      ensures slot.Some? <==> Contents(Snapshot()) != []
      ensures slot.Some? ==> View(blocks[slot.value]) == Contents(Snapshot())[0]
    {
      PeekSeesFront(Snapshot());
      if readIndex == writeIndex { return None; }
      return Some(readIndex % SLOTS);
    }

    method Pop()
      requires Valid()
      modifies this`readIndex
      ensures Valid() && readIndex == (old(readIndex) + 1) % 0x1_0000_0000
      ensures Snapshot() == Step(Step(old(Snapshot()).(c := CHold(old(readIndex))), Event.Pop), Consume)
    {
      readIndex := Add1(readIndex);
    }

    method DiscardOverrun() returns (count: u32)
      requires Valid()
      modifies this`overruns, this`readIndex
      ensures Valid() && count == old(overruns) && overruns == 0
      ensures readIndex == if count != 0 then writeIndex else old(readIndex)
      ensures Snapshot() == Step(Step(Step(old(Snapshot()), Discard), Consume), Consume)
    {
      count := overruns;
      overruns := 0;
      if count != 0 { readIndex := writeIndex; }
    }
  }
}
