/** The three packet formats that share the native reliable data lane: setup, control and event. */
module ReliableCodecs {
  import opened Wire
  import opened Wrappers

  const SETUP_MAGIC: u32 := 0x504c5331    // "PLS1"
  const CONTROL_MAGIC: u32 := 0x504c4431  // "PLD1"
  const EVENT_MAGIC: u32 := 0x504c4531    // "PLE1"
  const SETUP_VERSION := 1
  const SETUP_HEADER_SIZE := 20
  const SETUP_MAX_PACKET_SIZE := 65536
  const SETUP_MAX_PAYLOAD_SIZE := 65516
  const SHORT_HEADER_SIZE := 8

  // ---------------------------------------------------------------- setup packets

  datatype Setup = Setup(kind: u16, flags: u16, status: u16, requestId: u32, payload: seq<byte>)

  /** No flag outside RESPONSE (bit 0) and SENSITIVE (bit 1). */
  predicate KnownFlags(flags: u16) { flags / 4 == 0 }

  predicate SetupValid(p: Setup) {
    p.kind != 0 && p.requestId != 0 && KnownFlags(p.flags) && |p.payload| <= SETUP_MAX_PAYLOAD_SIZE
  }

  function SetupBytes(p: Setup): seq<byte>
    requires SetupValid(p)
  {
    PutU32(SETUP_MAGIC) + PutU16(SETUP_VERSION) + PutU16(p.kind) + PutU16(p.flags) + PutU16(p.status)
    + PutU32(p.requestId) + PutU32(|p.payload|) + p.payload
  }

  function SetupDecode(b: seq<byte>): Option<Setup> {
    if |b| < SETUP_HEADER_SIZE || |b| > SETUP_MAX_PACKET_SIZE || GetU32(b, 0) != SETUP_MAGIC
       || GetU16(b, 4) != SETUP_VERSION || GetU16(b, 6) == 0 || GetU32(b, 12) == 0
       || !KnownFlags(GetU16(b, 8)) || GetU32(b, 16) > SETUP_MAX_PAYLOAD_SIZE
       || |b| != SETUP_HEADER_SIZE + GetU32(b, 16)
    then None
    else Some(Setup(GetU16(b, 6), GetU16(b, 8), GetU16(b, 10), GetU32(b, 12), b[SETUP_HEADER_SIZE..]))
  }

  lemma SetupRoundTrip(p: Setup)
    requires SetupValid(p)
    ensures SetupDecode(SetupBytes(p)) == Some(p)
  {
    var b := SetupBytes(p);
    var a0 := PutU32(SETUP_MAGIC);
    var a1 := a0 + PutU16(SETUP_VERSION);
    var a2 := a1 + PutU16(p.kind);
    var a3 := a2 + PutU16(p.flags);
    var a4 := a3 + PutU16(p.status);
    var a5 := a4 + PutU32(p.requestId);
    assert b == [] + PutU32(SETUP_MAGIC) + b[4..];
    GetPutU32([], SETUP_MAGIC, b[4..]);
    assert b == a0 + PutU16(SETUP_VERSION) + b[6..];
    GetPutU16(a0, SETUP_VERSION, b[6..]);
    assert b == a1 + PutU16(p.kind) + b[8..];
    GetPutU16(a1, p.kind, b[8..]);
    assert b == a2 + PutU16(p.flags) + b[10..];
    GetPutU16(a2, p.flags, b[10..]);
    assert b == a3 + PutU16(p.status) + b[12..];
    GetPutU16(a3, p.status, b[12..]);
    assert b == a4 + PutU32(p.requestId) + b[16..];
    GetPutU32(a4, p.requestId, b[16..]);
    assert b == a5 + PutU32(|p.payload|) + p.payload;
    GetPutU32(a5, |p.payload|, p.payload);
  }

  /** Every accepted byte string is the encoding of the packet it decodes to. */
  lemma SetupReencodes(b: seq<byte>)
    requires SetupDecode(b).Some?
    ensures SetupValid(SetupDecode(b).value) && SetupBytes(SetupDecode(b).value) == b
  {
    var p := SetupDecode(b).value;
    PutGetU32(b, 0);
    PutGetU16(b, 4);
    PutGetU16(b, 6);
    PutGetU16(b, 8);
    PutGetU16(b, 10);
    PutGetU32(b, 12);
    PutGetU32(b, 16);
    assert b == b[0..4] + b[4..6] + b[6..8] + b[8..10] + b[10..12] + b[12..16] + b[16..20] + b[20..];
    assert |p.payload| == GetU32(b, 16);
  }

  // ---------------------------------------------------------------- packets with the short header

  datatype Short = Short(kind: u16, payload: seq<byte>)

  function ShortBytes(magic: u32, p: Short): seq<byte>
    requires |p.payload| < 0x1_0000
  {
    PutU32(magic) + PutU16(p.kind) + PutU16(|p.payload|) + p.payload
  }

  function ShortDecode(magic: u32, b: seq<byte>): Option<Short> {
    if |b| < SHORT_HEADER_SIZE || GetU32(b, 0) != magic || |b| != SHORT_HEADER_SIZE + GetU16(b, 6) then None
    else Some(Short(GetU16(b, 4), b[SHORT_HEADER_SIZE..]))
  }

  lemma ShortRoundTrip(magic: u32, p: Short)
    requires |p.payload| < 0x1_0000
    ensures ShortDecode(magic, ShortBytes(magic, p)) == Some(p)
  {
    var b := ShortBytes(magic, p);
    var a0 := PutU32(magic);
    var a1 := a0 + PutU16(p.kind);
    assert b == [] + PutU32(magic) + b[4..];
    GetPutU32([], magic, b[4..]);
    assert b == a0 + PutU16(p.kind) + b[6..];
    GetPutU16(a0, p.kind, b[6..]);
    assert b == a1 + PutU16(|p.payload|) + p.payload;
    GetPutU16(a1, |p.payload|, p.payload);
  }

  lemma ShortReencodes(magic: u32, b: seq<byte>)
    requires ShortDecode(magic, b).Some?
    ensures var p := ShortDecode(magic, b).value; |p.payload| < 0x1_0000 && ShortBytes(magic, p) == b
  {
    PutGetU32(b, 0);
    PutGetU16(b, 4);
    PutGetU16(b, 6);
    assert b == b[0..4] + b[4..6] + b[6..8] + b[8..];
  }

  // ---------------------------------------------------------------- events and control words

  function EventDecode(b: seq<byte>): Option<Short> { ShortDecode(EVENT_MAGIC, b) }

  function ControlDecode(b: seq<byte>): Option<Short> { ShortDecode(CONTROL_MAGIC, b) }

  /** Events: encode and decode are inverse to each other on all packets and all accepted strings. */
  lemma EventInverse(p: Short, b: seq<byte>)
    requires |p.payload| < 0x1_0000
    ensures EventDecode(b) == Some(p) <==> b == ShortBytes(EVENT_MAGIC, p)
  {
    if EventDecode(b) == Some(p) { ShortReencodes(EVENT_MAGIC, b); }
    ShortRoundTrip(EVENT_MAGIC, p);
  }

  function Words(ws: seq<u32>): (b: seq<byte>)
    ensures |b| == 4 * |ws| && |b| % 4 == 0
  {
    if ws == [] then [] else Words(ws[..|ws| - 1]) + PutU32(ws[|ws| - 1])
  }

  function WordsOf(b: seq<byte>): (ws: seq<u32>)
    requires |b| % 4 == 0
    ensures |b| == 4 * |ws|
  {
    if b == [] then [] else WordsOf(b[..|b| - 4]) + [GetU32(b, |b| - 4)]
  }

  /** The last word of a byte string, whatever stands before it. */
  lemma WordsOfAppend(b: seq<byte>, w: u32)
    requires |b| % 4 == 0
    ensures |b + PutU32(w)| % 4 == 0 && WordsOf(b + PutU32(w)) == WordsOf(b) + [w]
  {
    var all := b + PutU32(w);
    assert |PutU32(w)| == 4 && |all| == |b| + 4;
    assert all[..|all| - 4] == b && all == b + PutU32(w) + [];
    GetPutU32(b, w, []);
  }

  lemma {:induction false} WordsInverse(ws: seq<u32>)
    ensures WordsOf(Words(ws)) == ws
  {
    if ws != [] {
      var front, w := ws[..|ws| - 1], ws[|ws| - 1];
      WordsInverse(front);
      WordsOfAppend(Words(front), w);
      assert ws == front + [w];
    }
  }

  lemma WordsAppend(ws: seq<u32>, w: u32)
    ensures Words(ws + [w]) == Words(ws) + PutU32(w)
  {
    assert (ws + [w])[..|ws|] == ws;
  }

  lemma {:induction false} WordsOfInverse(b: seq<byte>)
    requires |b| % 4 == 0
    ensures Words(WordsOf(b)) == b
  {
    if b != [] {
      var front := b[..|b| - 4];
      WordsOfInverse(front);
      WordsAppend(WordsOf(front), GetU32(b, |b| - 4));
      PutGetU32(b, |b| - 4);
      assert b == front + b[|b| - 4..|b|];
    }
  }

  /** Control packets carry up to three words.  The decoder accepts more than the encoder writes:
      an accepted string is an encoding exactly when its payload is zero to three whole words. */
  lemma ControlInverse(b: seq<byte>)
    ensures (exists kind: u16, ws: seq<u32> :: |ws| <= 3 && b == ShortBytes(CONTROL_MAGIC, Short(kind, Words(ws))))
        <==> (ControlDecode(b).Some? && |ControlDecode(b).value.payload| % 4 == 0
              && |ControlDecode(b).value.payload| <= 12)
  {
    forall kind: u16, ws: seq<u32> | |ws| <= 3 && b == ShortBytes(CONTROL_MAGIC, Short(kind, Words(ws)))
      ensures ControlDecode(b) == Some(Short(kind, Words(ws)))
    {
      ShortRoundTrip(CONTROL_MAGIC, Short(kind, Words(ws)));
    }
    if ControlDecode(b).Some? {
      var p := ControlDecode(b).value;
      if |p.payload| % 4 == 0 && |p.payload| <= 12 {
        ShortReencodes(CONTROL_MAGIC, b);
        WordsOfInverse(p.payload);
        assert b == ShortBytes(CONTROL_MAGIC, Short(p.kind, Words(WordsOf(p.payload))));
      }
    }
  }

  lemma ControlRoundTrip(kind: u16, ws: seq<u32>)
    requires |ws| <= 3
    ensures ControlDecode(ShortBytes(CONTROL_MAGIC, Short(kind, Words(ws)))) == Some(Short(kind, Words(ws)))
    ensures WordsOf(Words(ws)) == ws
  {
    ShortRoundTrip(CONTROL_MAGIC, Short(kind, Words(ws)));
    WordsInverse(ws);
  }

  /** The lane's three protocols never claim the same packet. */
  lemma OneProtocolPerPacket(b: seq<byte>)
    ensures !(SetupDecode(b).Some? && ControlDecode(b).Some?)
    ensures !(SetupDecode(b).Some? && EventDecode(b).Some?)
    ensures !(ControlDecode(b).Some? && EventDecode(b).Some?)
  {
  }

  // ---------------------------------------------------------------- the layouts, byte by byte

  /** "PLS1", version 1, type, flags, status, request, length, payload. */
  ghost predicate SetupLayout(b: seq<byte>, p: Setup) {
    && |b| == 20 + |p.payload| && b[..4] == [0x50, 0x4c, 0x53, 0x31]
    && Word16At(b, 4, 1) && Word16At(b, 6, p.kind) && Word16At(b, 8, p.flags) && Word16At(b, 10, p.status)
    && Word32At(b, 12, p.requestId) && Word32At(b, 16, |p.payload|) && b[20..] == p.payload
  }

  /** Four letters, type, length, payload. */
  ghost predicate ShortLayout(b: seq<byte>, letters: seq<byte>, kind: u16, payload: seq<byte>) {
    && |b| == 8 + |payload| && b[..4] == letters
    && Word16At(b, 4, kind) && Word16At(b, 6, |payload|) && b[8..] == payload
  }

  /** The header fields a reader finds are the ones the bytes spell. */
  lemma SetupFields(b: seq<byte>, p: Setup)
    requires |b| >= 20
    ensures (GetU16(b, 4) == 1 && GetU16(b, 6) == p.kind && GetU16(b, 8) == p.flags && GetU16(b, 10) == p.status) <==>
            (Word16At(b, 4, 1) && Word16At(b, 6, p.kind) && Word16At(b, 8, p.flags) && Word16At(b, 10, p.status))
    ensures (GetU32(b, 12) == p.requestId && GetU32(b, 16) == |p.payload|) <==>
            (Word32At(b, 12, p.requestId) && Word32At(b, 16, |p.payload|))
    ensures GetU32(b, 0) == SETUP_MAGIC <==> b[..4] == [0x50, 0x4c, 0x53, 0x31]
  {
    Reads16(b, 4, 1);
    Reads16(b, 6, p.kind);
    Reads16(b, 8, p.flags);
    Reads16(b, 10, p.status);
    Reads32(b, 12, p.requestId);
    Reads32(b, 16, |p.payload|);
    Reads32(b, 0, SETUP_MAGIC);
    FrontLetters(b, [0x50, 0x4c, 0x53, 0x31], SETUP_MAGIC);
  }

  lemma FrontLetters(b: seq<byte>, letters: seq<byte>, magic: int)
    requires |b| >= 4 && |letters| == 4 && Word32At(letters, 0, magic)
    ensures b[..4] == letters <==> Word32At(b, 0, magic)
  {
    var front := b[..4];
    assert front[0] == b[0] && front[1] == b[1] && front[2] == b[2] && front[3] == b[3];
    SameLetters(front, letters, magic);
  }

  /** A valid setup packet's bytes have this layout, and a string decodes exactly when it has it. */
  lemma SetupDecodesIff(b: seq<byte>, p: Setup)
    ensures SetupDecode(b) == Some(p) <==>
            SetupLayout(b, p) && p.kind != 0 && p.requestId != 0 && p.flags < 4 && |p.payload| <= 65516
  {
    if |b| >= 20 { SetupFields(b, p); }
  }

  lemma SetupBytesLayout(p: Setup)
    requires SetupValid(p)
    ensures SetupLayout(SetupBytes(p), p)
  {
    SetupRoundTrip(p);
    SetupDecodesIff(SetupBytes(p), p);
  }

  lemma ShortDecodesIff(magic: u32, letters: seq<byte>, b: seq<byte>, kind: u16, payload: seq<byte>)
    requires |letters| == 4 && Word32At(letters, 0, magic) && |payload| < 0x1_0000
    ensures ShortDecode(magic, b) == Some(Short(kind, payload)) <==> ShortLayout(b, letters, kind, payload)
  {
    if |b| >= 8 {
      Reads32(b, 0, magic);
      Reads16(b, 4, kind);
      Reads16(b, 6, |payload|);
      FrontLetters(b, letters, magic);
    }
  }

  lemma SameLetters(a: seq<byte>, b: seq<byte>, magic: int)
    requires |a| == |b| == 4 && Word32At(b, 0, magic)
    ensures a == b <==> Word32At(a, 0, magic)
  {
  }

  /** Events begin with "PLE1", control packets with "PLD1". */
  lemma EventDecodesIff(b: seq<byte>, kind: u16, payload: seq<byte>)
    requires |payload| < 0x1_0000
    ensures EventDecode(b) == Some(Short(kind, payload)) <==> ShortLayout(b, [0x50, 0x4c, 0x45, 0x31], kind, payload)
  {
    ShortDecodesIff(EVENT_MAGIC, [0x50, 0x4c, 0x45, 0x31], b, kind, payload);
  }

  lemma ControlDecodesIff(b: seq<byte>, kind: u16, payload: seq<byte>)
    requires |payload| < 0x1_0000
    ensures ControlDecode(b) == Some(Short(kind, payload)) <==> ShortLayout(b, [0x50, 0x4c, 0x44, 0x31], kind, payload)
  {
    ShortDecodesIff(CONTROL_MAGIC, [0x50, 0x4c, 0x44, 0x31], b, kind, payload);
  }

  /** Control words stand one after another, each most significant byte first. */
  lemma {:induction false} WordsLayout(ws: seq<u32>, i: nat)
    requires i < |ws|
    ensures Word32At(Words(ws), 4 * i, ws[i])
  {
    var last := |ws| - 1;
    var init := Words(ws[..last]);
    BigEndian32(ws[last]);
    if i < last {
      WordsLayout(ws[..last], i);
      assert forall k | 0 <= k < |init| :: Words(ws)[k] == init[k];
    } else {
      assert forall k | 0 <= k < 4 :: Words(ws)[|init| + k] == PutU32(ws[last])[k];
    }
  }

  // ---------------------------------------------------------------- the encoders

  method WriteU16(output: array<byte>, at: nat, v: u16)
    requires at + 2 <= output.Length
    modifies output
    ensures output[..at + 2] == old(output[..at]) + PutU16(v)
    ensures output[at + 2..] == old(output[at + 2..])
  {
    output[at] := v / 256;
    output[at + 1] := v % 256;
  }

  method WriteU32(output: array<byte>, at: nat, v: u32)
    requires at + 4 <= output.Length
    modifies output
    ensures output[..at + 4] == old(output[..at]) + PutU32(v)
    ensures output[at + 4..] == old(output[at + 4..])
  {
    WriteU16(output, at, v / 0x1_0000);
    ghost var mid := output[..];
    WriteU16(output, at + 2, v % 0x1_0000);
    assert mid[..at + 2] == old(output[..at]) + PutU16(v / 0x1_0000);
    assert mid[at + 2..][2..] == mid[at + 4..] && old(output[at + 2..])[2..] == old(output[at + 4..]);
  }

  method CopyPayload(output: array<byte>, at: nat, payload: seq<byte>)
    requires at + |payload| <= output.Length
    modifies output
    ensures output[..] == old(output[..at]) + payload + old(output[at + |payload|..])
  {
    var i := 0;
    while i < |payload|
      invariant 0 <= i <= |payload|
      invariant output[..at] == old(output[..at]) && output[at..at + i] == payload[..i]
      invariant output[at + i..] == old(output[at + i..])
    {
      output[at + i] := payload[i];
      i := i + 1;
    }
    assert output[..] == output[..at] + output[at..at + i] + output[at + i..];
  }

  /** The header the control and event encoders share. */
  method WriteShortHeader(output: array<byte>, magic: u32, kind: u16, size: u16)
    requires SHORT_HEADER_SIZE <= output.Length
    modifies output
    ensures output[..SHORT_HEADER_SIZE] == PutU32(magic) + PutU16(kind) + PutU16(size)
    ensures output[SHORT_HEADER_SIZE..] == old(output[SHORT_HEADER_SIZE..])
  {
    WriteU32(output, 0, magic);
    assert output[4..][4..] == output[8..] && old(output[4..])[4..] == old(output[8..]);
    WriteU16(output, 4, kind);
    assert output[6..][2..] == output[8..];
    WriteU16(output, 6, size);
  }

  method EventEncode(kind: u16, payload: seq<byte>, output: array<byte>) returns (ok: bool, size: nat)
    modifies output
    ensures ok <==> |payload| < 0x1_0000 && SHORT_HEADER_SIZE + |payload| <= output.Length
    ensures ok ==> size == SHORT_HEADER_SIZE + |payload| && output[..size] == ShortBytes(EVENT_MAGIC, Short(kind, payload))
    ensures ok ==> ShortLayout(output[..size], [0x50, 0x4c, 0x45, 0x31], kind, payload)
    ensures ok ==> output[size..] == old(output[size..])
    ensures !ok ==> output[..] == old(output[..])
  {
    if |payload| >= 0x1_0000 || output.Length < SHORT_HEADER_SIZE + |payload| { return false, 0; }
    WriteShortHeader(output, EVENT_MAGIC, kind, |payload|);
    size := SHORT_HEADER_SIZE + |payload|;
    assert output[8..][|payload|..] == output[size..] && old(output[8..])[|payload|..] == old(output[size..]);
    CopyPayload(output, SHORT_HEADER_SIZE, payload);
    EventInverse(Short(kind, payload), output[..size]);
    EventDecodesIff(output[..size], kind, payload);
    ok := true;
  }

  method WriteWords(output: array<byte>, values: seq<u32>)
    requires SHORT_HEADER_SIZE + 4 * |values| <= output.Length
    modifies output
    ensures output[..SHORT_HEADER_SIZE + 4 * |values|] == old(output[..SHORT_HEADER_SIZE]) + Words(values)
    ensures output[SHORT_HEADER_SIZE + 4 * |values|..] == old(output[SHORT_HEADER_SIZE + 4 * |values|..])
  {
    var i, at := 0, SHORT_HEADER_SIZE;
    assert values[..0] == [];
    while i < |values|
      invariant 0 <= i <= |values| && at == SHORT_HEADER_SIZE + 4 * i
      invariant output[..at] == old(output[..SHORT_HEADER_SIZE]) + Words(values[..i])
      invariant output[at..] == old(output[at..])
    {
      assert output[at..][4..] == output[at + 4..] && old(output[at..])[4..] == old(output[at + 4..]);
      WriteU32(output, at, values[i]);
      assert values[..i + 1][..i] == values[..i];
      i, at := i + 1, at + 4;
    }
    assert values[..i] == values;
  }

  method ControlEncode(kind: u16, values: seq<u32>, output: array<byte>) returns (ok: bool, size: nat)
    modifies output
    ensures ok <==> |values| <= 3 && SHORT_HEADER_SIZE + 4 * |values| <= output.Length
    ensures ok ==> size == SHORT_HEADER_SIZE + 4 * |values|
                   && output[..size] == ShortBytes(CONTROL_MAGIC, Short(kind, Words(values)))
    ensures ok ==> ShortLayout(output[..size], [0x50, 0x4c, 0x44, 0x31], kind, Words(values))
    ensures ok ==> output[size..] == old(output[size..])
    ensures !ok ==> output[..] == old(output[..])
  {
    if |values| > 3 || output.Length < SHORT_HEADER_SIZE + 4 * |values| { return false, 0; }
    size := SHORT_HEADER_SIZE + 4 * |values|;
    WriteShortHeader(output, CONTROL_MAGIC, kind, 4 * |values|);
    assert output[8..][4 * |values|..] == output[size..] && old(output[8..])[4 * |values|..] == old(output[size..]);
    WriteWords(output, values);
    ControlRoundTrip(kind, values);
    ControlDecodesIff(output[..size], kind, Words(values));
    ok := true;
  }

  /** The first twelve bytes of a setup header. */
  method WriteSetupStart(p: Setup, output: array<byte>)
    requires SETUP_HEADER_SIZE <= output.Length
    modifies output
    ensures output[..12] == PutU32(SETUP_MAGIC) + PutU16(SETUP_VERSION) + PutU16(p.kind) + PutU16(p.flags) + PutU16(p.status)
    ensures output[12..] == old(output[12..])
  {
    WriteU32(output, 0, SETUP_MAGIC);
    assert output[4..][8..] == output[12..] && old(output[4..])[8..] == old(output[12..]);
    WriteU16(output, 4, SETUP_VERSION);
    assert output[6..][6..] == output[12..];
    WriteU16(output, 6, p.kind);
    assert output[8..][4..] == output[12..];
    WriteU16(output, 8, p.flags);
    assert output[10..][2..] == output[12..];
    WriteU16(output, 10, p.status);
  }

  method SetupEncode(p: Setup, output: array<byte>) returns (ok: bool, size: nat)
    modifies output
    ensures ok <==> p.kind != 0 && p.requestId != 0 && p.flags < 4 && |p.payload| <= 65516 && 20 + |p.payload| <= output.Length
    ensures ok ==> size == 20 + |p.payload| && output[..size] == SetupBytes(p) && SetupLayout(output[..size], p)
    ensures ok ==> output[size..] == old(output[size..])
    ensures !ok ==> output[..] == old(output[..])
  {
    if p.kind == 0 || p.requestId == 0 || !KnownFlags(p.flags) || |p.payload| > SETUP_MAX_PAYLOAD_SIZE
       || output.Length < SETUP_HEADER_SIZE + |p.payload|
    {
      return false, 0;
    }
    size := SETUP_HEADER_SIZE + |p.payload|;
    WriteSetupStart(p, output);
    ghost var start := output[..12];
    assert output[12..][8..] == output[20..] && old(output[12..])[8..] == old(output[20..]);
    WriteU32(output, 12, p.requestId);
    assert output[16..][4..] == output[20..];
    WriteU32(output, 16, |p.payload|);
    assert output[..20] == start + PutU32(p.requestId) + PutU32(|p.payload|);
    assert output[20..][|p.payload|..] == output[size..] && old(output[20..])[|p.payload|..] == old(output[size..]);
    CopyPayload(output, SETUP_HEADER_SIZE, p.payload);
    SetupBytesLayout(p);
    ok := true;
  }
}
