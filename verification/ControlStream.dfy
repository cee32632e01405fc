/** The legacy control stream: length-prefixed records over a reliable byte stream. */
module ControlStream {
  import opened Wire
  import NativeQueues

  const MAGIC: seq<byte> := [0x44, 0x53, 0x43, 0x52]  // "DSCR"
  const HEADER_SIZE := 8
  const MAX_CONTROL_PACKET_SIZE := 64 * 1024

  /** The payloads control_send accepts. */
  predicate Sendable(p: seq<byte>) { 2 <= |p| <= MAX_CONTROL_PACKET_SIZE }

  function Frame(p: seq<byte>): seq<byte>
    requires Sendable(p)
  {
    MAGIC + PutU32(|p|) + p
  }

  predicate AllSendable(ps: seq<seq<byte>>) { forall i | 0 <= i < |ps| :: Sendable(ps[i]) }

  /** The stream that carries the records of `ps`, in order. */
  function Encode(ps: seq<seq<byte>>): seq<byte>
    requires AllSendable(ps)
  {
    if ps == [] then [] else Encode(ps[..|ps| - 1]) + Frame(ps[|ps| - 1])
  }

  /** "DSCR", the length, the payload. */
  ghost predicate RecordLayout(b: seq<byte>, p: seq<byte>) {
    |b| == 8 + |p| && b[..4] == [0x44, 0x53, 0x43, 0x52] && Word32At(b, 4, |p|) && b[8..] == p
  }

  lemma FrameLayout(p: seq<byte>)
    requires Sendable(p)
    ensures RecordLayout(Frame(p), p)
  {
    var b := Frame(p);
    GetPutU32(MAGIC, |p|, p);
    Reads32(b, 4, |p|);
  }

  // ---------------------------------------------------------------- decoding byte by byte

  datatype Phase = Header(got: seq<byte>) | Payload(size: nat, got: seq<byte>) | Broken

  datatype Decoder = Decoder(phase: Phase, records: seq<seq<byte>>)

  const Fresh := Decoder(Header([]), [])

  /** What a complete header leads to. */
  function Opened(h: seq<byte>): Phase
    requires |h| == HEADER_SIZE
  {
    if h[..4] != MAGIC then Broken
    else if 2 <= GetU32(h, 4) <= MAX_CONTROL_PACKET_SIZE then Payload(GetU32(h, 4), []) else Broken
  }

  /** A header is good exactly when it spells "DSCR" and a length of 2 to 65536. */
  lemma OpenedIff(h: seq<byte>, size: nat)
    requires |h| == HEADER_SIZE
    ensures Opened(h) == Payload(size, []) <==>
            h[..4] == [0x44, 0x53, 0x43, 0x52] && Word32At(h, 4, size) && 2 <= size <= 65536
    ensures Opened(h).Payload? || Opened(h).Broken?
  {
    Reads32(h, 4, size);
  }

  function FeedByte(d: Decoder, b: byte): Decoder {
    match d.phase
    case Broken => d
    case Header(got) =>
      d.(phase := if |got| == HEADER_SIZE - 1 then Opened(got + [b]) else Header(got + [b]))
    case Payload(size, got) =>
      if |got| + 1 == size then Decoder(Header([]), d.records + [got + [b]]) else d.(phase := Payload(size, got + [b]))
  }

  function Feed(d: Decoder, bytes: seq<byte>): Decoder {
    if bytes == [] then d else FeedByte(Feed(d, bytes[..|bytes| - 1]), bytes[|bytes| - 1])
  }

  /** However the bytes arrive, the decoder ends in the same place. */
  lemma {:induction false} FeedConcat(d: Decoder, a: seq<byte>, b: seq<byte>)
    ensures Feed(d, a + b) == Feed(Feed(d, a), b)
  {
    if b == [] {
      assert a + b == a;
    } else {
      assert (a + b)[..|a + b| - 1] == a + b[..|b| - 1];
      FeedConcat(d, a, b[..|b| - 1]);
    }
  }

  // ---------------------------------------------------------------- the two directions

  /** The bytes a decoder has taken but not yet turned into a record. */
  function Pending(p: Phase): seq<byte>
    requires p.Payload? ==> p.size < 0x1_0000_0000
  {
    match p
    case Header(got) => got
    case Payload(size, got) => MAGIC + PutU32(size) + got
    case Broken => []
  }

  ghost predicate PhaseOk(p: Phase) {
    match p
    case Header(got) => |got| < HEADER_SIZE
    case Payload(size, got) => 2 <= size <= MAX_CONTROL_PACKET_SIZE && |got| < size
    case Broken => true
  }

  /** Everything a healthy decoder has read is the encoding of its records plus its pending bytes. */
  ghost predicate Faithful(bytes: seq<byte>, d: Decoder) {
    && PhaseOk(d.phase) && AllSendable(d.records)
    && (!d.phase.Broken? ==> bytes == Encode(d.records) + Pending(d.phase))
  }

  lemma OpenedIsFaithful(h: seq<byte>)
    requires |h| == HEADER_SIZE && !Opened(h).Broken?
    ensures Pending(Opened(h)) == h
  {
    PutGetU32(h, 4);
    assert h == h[..4] + h[4..8] + [];
  }

  lemma HeaderByteKeepsFaithful(bytes: seq<byte>, d: Decoder, b: byte)
    requires Faithful(bytes, d) && d.phase.Header?
    ensures Faithful(bytes + [b], FeedByte(d, b))
  {
    var got := d.phase.got;
    assert bytes + [b] == Encode(d.records) + (got + [b]);
    if |got| == HEADER_SIZE - 1 && !Opened(got + [b]).Broken? { OpenedIsFaithful(got + [b]); }
  }

  lemma PayloadByteKeepsFaithful(bytes: seq<byte>, d: Decoder, b: byte)
    requires Faithful(bytes, d) && d.phase.Payload?
    ensures Faithful(bytes + [b], FeedByte(d, b))
  {
    var size, got, done := d.phase.size, d.phase.got, Encode(d.records);
    var pre := MAGIC + PutU32(size);
    assert bytes + [b] == done + (pre + (got + [b])) by {
      assert bytes == done + (pre + got);
      assert (done + (pre + got)) + [b] == done + (pre + (got + [b]));
    }
    if |got| + 1 == size {
      var rs := d.records + [got + [b]];
      assert rs[..|rs| - 1] == d.records;
      assert Encode(rs) == done + Frame(got + [b]);
      assert Encode(rs) + [] == Encode(rs);
    }
  }

  lemma ByteKeepsFaithful(bytes: seq<byte>, d: Decoder, b: byte)
    requires Faithful(bytes, d)
    ensures Faithful(bytes + [b], FeedByte(d, b))
  {
    match d.phase
    case Broken =>
    case Header(_) => HeaderByteKeepsFaithful(bytes, d, b);
    case Payload(_, _) => PayloadByteKeepsFaithful(bytes, d, b);
  }

  /** Any byte stream: the records found so far re-encode to exactly the bytes read, and a stream that
      ended between records is reproduced byte for byte. */
  lemma {:induction false} ReencodesToItself(bytes: seq<byte>)
    ensures Faithful(bytes, Feed(Fresh, bytes))
    ensures var d := Feed(Fresh, bytes); d.phase == Header([]) ==> bytes == Encode(d.records)
  {
    if bytes != [] {
      var init, b := bytes[..|bytes| - 1], bytes[|bytes| - 1];
      ReencodesToItself(init);
      ByteKeepsFaithful(init, Feed(Fresh, init), b);
      assert bytes == init + [b];
    }
  }

  lemma {:induction false} FeedHeader(rs: seq<seq<byte>>, h: seq<byte>)
    requires |h| <= HEADER_SIZE
    ensures Feed(Decoder(Header([]), rs), h) == Decoder(if |h| == HEADER_SIZE then Opened(h) else Header(h), rs)
  {
    if h != [] {
      FeedHeader(rs, h[..|h| - 1]);
      assert h == h[..|h| - 1] + [h[|h| - 1]];
    }
  }

  lemma {:induction false} FeedPayload(rs: seq<seq<byte>>, size: nat, p: seq<byte>)
    requires |p| <= size && 0 < size
    ensures Feed(Decoder(Payload(size, []), rs), p)
         == if |p| == size then Decoder(Header([]), rs + [p]) else Decoder(Payload(size, p), rs)
  {
    if p != [] {
      FeedPayload(rs, size, p[..|p| - 1]);
      assert p == p[..|p| - 1] + [p[|p| - 1]];
    }
  }

  lemma FeedFrame(rs: seq<seq<byte>>, p: seq<byte>)
    requires Sendable(p)
    ensures Feed(Decoder(Header([]), rs), Frame(p)) == Decoder(Header([]), rs + [p])
  {
    var h := MAGIC + PutU32(|p|);
    FeedHeader(rs, h);
    GetPutU32(MAGIC, |p|, []);
    assert h == MAGIC + PutU32(|p|) + [];
    assert h[..4] == MAGIC;
    FeedConcat(Decoder(Header([]), rs), h, p);
    FeedPayload(rs, |p|, p);
  }

  /** What was sent is what is decoded. */
  lemma {:induction false} DecodesWhatWasSent(ps: seq<seq<byte>>)
    requires AllSendable(ps)
    ensures Feed(Fresh, Encode(ps)) == Decoder(Header([]), ps)
  {
    if ps != [] {
      var init, p := ps[..|ps| - 1], ps[|ps| - 1];
      DecodesWhatWasSent(init);
      FeedConcat(Fresh, Encode(init), Frame(p));
      FeedFrame(init, p);
      assert ps == init + [p];
    }
  }

  lemma {:induction false} RecordsOnlyGrow(d: Decoder, bytes: seq<byte>)
    ensures d.records <= Feed(d, bytes).records
    ensures d.phase.Broken? ==> Feed(d, bytes) == d
  {
    if bytes != [] { RecordsOnlyGrow(d, bytes[..|bytes| - 1]); }
  }

  /** A stream cut anywhere yields a prefix of the records, and never an error. */
  lemma PrefixDecodesToPrefix(ps: seq<seq<byte>>, cut: nat)
    requires AllSendable(ps) && cut <= |Encode(ps)|
    ensures var d := Feed(Fresh, Encode(ps)[..cut]); d.records <= ps && !d.phase.Broken?
  {
    var a, b := Encode(ps)[..cut], Encode(ps)[cut..];
    DecodesWhatWasSent(ps);
    assert Encode(ps) == a + b;
    FeedConcat(Fresh, a, b);
    RecordsOnlyGrow(Feed(Fresh, a), b);
  }

  // ---------------------------------------------------------------- the receive loop

  function Flatten(chunks: seq<seq<byte>>): seq<byte> {
    if chunks == [] then [] else chunks[0] + Flatten(chunks[1..])
  }

  /** A receive stream that hands out bytes in whatever chunks the transport produced. */
  class RecvStream {
    var chunks: seq<seq<byte>>

    ghost function Bytes(): seq<byte>
      reads this
    {
      Flatten(chunks)
    }

    /** One read: some bytes, at most `limit`, and none only at the end of the stream. */
    method Read(limit: nat) returns (b: seq<byte>)
      requires 0 < limit
      modifies this
      ensures b + Bytes() == old(Bytes()) && |b| <= limit
      ensures b == [] <==> old(Bytes()) == []
    {
      while chunks != [] && chunks[0] == []
        invariant Bytes() == old(Bytes())
        decreases |chunks|
      {
        chunks := chunks[1..];
      }
      if chunks == [] { return []; }
      if |chunks[0]| <= limit {
        b := chunks[0];
        chunks := chunks[1..];
      } else {
        b := chunks[0][..limit];
        ghost var first, rest := chunks[0], chunks[1..];
        chunks := [chunks[0][limit..]] + chunks[1..];
        assert chunks[1..] == rest;
        assert b + (first[limit..] + Flatten(rest)) == first + Flatten(rest);
      }
    }

    /** read_exact: keeps reading until `n` bytes are there or the stream ends. */
    method ReadExact(n: nat) returns (ok: bool, b: seq<byte>)
      modifies this
      ensures b + Bytes() == old(Bytes())
      ensures ok ==> |b| == n
      ensures !ok ==> |b| < n && Bytes() == []
    {
      b := [];
      while |b| < n
        invariant |b| <= n && b + Bytes() == old(Bytes())
        decreases n - |b|
      {
        ghost var before := Bytes();
        var more := Read(n - |b|);
        if more == [] {
          assert Bytes() == [];
          return false, b;
        }
        assert b + (more + Bytes()) == (b + more) + Bytes();
        b := b + more;
      }
      ok := true;
    }
  }

  /** The records and the verdict a byte stream deserves: a clean end only between two records. */
  function Outcome(d: Decoder): bool { d.phase == Header([]) }

  lemma FeedWholeHeader(rs: seq<seq<byte>>, h: seq<byte>, rest: seq<byte>)
    requires |h| == HEADER_SIZE
    ensures Feed(Decoder(Header([]), rs), h + rest) == Feed(Decoder(Opened(h), rs), rest)
  {
    FeedHeader(rs, h);
    FeedConcat(Decoder(Header([]), rs), h, rest);
  }

  lemma FeedWholePayload(rs: seq<seq<byte>>, p: seq<byte>, rest: seq<byte>)
    requires 0 < |p|
    ensures Feed(Decoder(Payload(|p|, []), rs), p + rest) == Feed(Decoder(Header([]), rs + [p]), rest)
  {
    FeedPayload(rs, |p|, p);
    FeedConcat(Decoder(Payload(|p|, []), rs), p, rest);
  }

  /** How the receive task ends. */
  datatype End = Clean | Malformed | StopTaken | QueueFull

  /** receive_control_records.  The queue takes `room` records before it is found full, and the stop
      arm wins after `patience` reads.  Whatever the chunking, the queued records are those of the
      byte-by-byte decoder, in order: all of them unless a stop or a full queue cuts the list, and
      the task succeeds without a stop exactly when the stream ends between two records. */
  method ReceiveControlRecords(stream: RecvStream, room: nat, patience: nat) returns (end: End, records: seq<seq<byte>>)
    modifies stream
    ensures var d := Feed(Fresh, old(stream.Bytes()));
            && records <= d.records && |records| <= room
            && (end.StopTaken? ==> |records| == patience / 3)
            && (end.QueueFull? ==> |records| == room < |d.records|)
            && (end.Clean? || end.Malformed? ==> records == d.records && (end.Clean? <==> Outcome(d)))
  {
    ghost var all := stream.Bytes();
    records := [];
    var left := patience;
    while true
      invariant Feed(Decoder(Header([]), records), stream.Bytes()) == Feed(Fresh, all)
      invariant |records| <= room && left + 3 * |records| == patience
      decreases |stream.Bytes()|
    {
      ghost var before := stream.Bytes();
      RecordsOnlyGrow(Decoder(Header([]), records), before);
      if left == 0 { return StopTaken, records; }
      var first := stream.Read(1);
      if first == [] {
        assert before == [];
        return Clean, records;
      }
      if left == 1 { return StopTaken, records; }
      var complete, more := stream.ReadExact(HEADER_SIZE - 1);
      var h := first + more;
      assert before == h + stream.Bytes();
      if !complete {
        assert before == h;
        FeedHeader(records, h);
        return Malformed, records;
      }
      FeedWholeHeader(records, h, stream.Bytes());
      if Opened(h).Broken? {
        RecordsOnlyGrow(Decoder(Broken, records), stream.Bytes());
        return Malformed, records;
      }
      var size := GetU32(h, 4);
      ghost var body := stream.Bytes();
      if left == 2 { return StopTaken, records; }
      var filled, p := stream.ReadExact(size);
      if !filled {
        assert body == p;
        FeedPayload(records, size, p);
        return Malformed, records;
      }
      FeedWholePayload(records, p, stream.Bytes());
      if |records| == room {
        RecordsOnlyGrow(Decoder(Header([]), records + [p]), stream.Bytes());
        return QueueFull, records;
      }
      records, left := records + [p], left - 3;
    }
  }

  const CONTROL_SEND_CAPACITY := 64

  /** The sending side: a bounded queue of framed records that never evicts. */
  class ControlSender {
    var queue: seq<seq<byte>>
    var refused: nat
    var highWater: nat

    constructor ()
      ensures queue == [] && refused == 0 && highWater == 0
    {
      queue, refused, highWater := [], 0, 0;
    }

    method ControlSend(ready: bool, packet: seq<byte>) returns (code: NativeQueues.Code)
      requires |queue| <= CONTROL_SEND_CAPACITY
      modifies this
      ensures |queue| <= CONTROL_SEND_CAPACITY
      ensures code == (if !ready then NativeQueues.InvalidState
                       else if |packet| < 2 || |packet| > 65536 then NativeQueues.InvalidArgument
                       else if |old(queue)| == 64 then NativeQueues.Timeout else NativeQueues.Ok)
      ensures code == NativeQueues.Ok ==>
                |queue| > 0 && queue[..|queue| - 1] == old(queue) && RecordLayout(queue[|queue| - 1], packet)
                && highWater == if old(highWater) < |queue| then |queue| else old(highWater)
      ensures code != NativeQueues.Ok ==> queue == old(queue) && highWater == old(highWater)
      ensures refused == old(refused) + if code == NativeQueues.Timeout then 1 else 0
    {
      if !ready { return NativeQueues.InvalidState; }
      if |packet| < 2 || |packet| > MAX_CONTROL_PACKET_SIZE { return NativeQueues.InvalidArgument; }
      var record := Frame(packet);
      FrameLayout(packet);
      if |queue| == CONTROL_SEND_CAPACITY {
        refused := refused + 1;
        return NativeQueues.Timeout;
      }
      queue := queue + [record];
      if highWater < |queue| { highWater := |queue|; }
      code := NativeQueues.Ok;
    }
  }
}
