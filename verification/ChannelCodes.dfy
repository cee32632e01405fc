/** Packing channel codes into X11 pixels by mask and shift, bit by bit. */
module ChannelCodes {
  type word = x: int | 0 <= x < 0x1_0000_0000_0000_0000
  type code = x: int | 0 <= x < 0x1_0000_0000

  const WORD := 0x1_0000_0000_0000_0000
  const CODE := 0x1_0000_0000

  // ---------------------------------------------------------------- machine words as bits

  predicate Bit(x: nat, i: nat) {
    if i == 0 then x % 2 == 1 else Bit(x / 2, i - 1)
  }

  function Pow2(k: nat): nat { if k == 0 then 1 else 2 * Pow2(k - 1) }

  function And(a: nat, b: nat): nat {
    if a == 0 || b == 0 then 0 else 2 * And(a / 2, b / 2) + (if a % 2 == 1 && b % 2 == 1 then 1 else 0)
  }

  function Or(a: nat, b: nat): nat {
    if a == 0 then b else if b == 0 then a
    else 2 * Or(a / 2, b / 2) + (if a % 2 == 1 || b % 2 == 1 then 1 else 0)
  }

  function ShiftRight(x: nat, k: nat): nat { if k == 0 then x else ShiftRight(x / 2, k - 1) }

  function ShiftLeft(x: nat, k: nat): nat { if k == 0 then x else 2 * ShiftLeft(x, k - 1) }

  lemma {:induction false} NoBits(i: nat)
    ensures !Bit(0, i)
  {
    if i > 0 { NoBits(i - 1); }
  }

  lemma {:induction false} BitOfAnd(a: nat, b: nat, i: nat)
    ensures Bit(And(a, b), i) <==> Bit(a, i) && Bit(b, i)
  {
    if a == 0 || b == 0 {
      NoBits(i);
    } else if i > 0 {
      BitOfAnd(a / 2, b / 2, i - 1);
      assert And(a, b) / 2 == And(a / 2, b / 2);
    }
  }

  lemma {:induction false} BitOfOr(a: nat, b: nat, i: nat)
    ensures Bit(Or(a, b), i) <==> Bit(a, i) || Bit(b, i)
  {
    if a == 0 || b == 0 {
      NoBits(i);
    } else if i > 0 {
      BitOfOr(a / 2, b / 2, i - 1);
      assert Or(a, b) / 2 == Or(a / 2, b / 2);
    }
  }

  lemma {:induction false} BitOfShiftRight(x: nat, k: nat, i: nat)
    ensures Bit(ShiftRight(x, k), i) <==> Bit(x, i + k)
  {
    if k > 0 { BitOfShiftRight(x / 2, k - 1, i); }
  }

  lemma {:induction false} BitOfShiftLeft(x: nat, k: nat, i: nat)
    ensures Bit(ShiftLeft(x, k), i) <==> i >= k && Bit(x, i - k)
  {
    if k > 0 && i > 0 {
      BitOfShiftLeft(x, k - 1, i - 1);
      assert ShiftLeft(x, k) / 2 == ShiftLeft(x, k - 1);
    }
  }

  /** The low k bits. */
  function Low(x: nat, k: nat): nat { if k == 0 then 0 else 2 * Low(x / 2, k - 1) + x % 2 }

  lemma {:induction false} BitOfLow(x: nat, k: nat, i: nat)
    ensures Bit(Low(x, k), i) <==> i < k && Bit(x, i)
  {
    if k == 0 {
      NoBits(i);
    } else if i > 0 {
      BitOfLow(x / 2, k - 1, i - 1);
      assert Low(x, k) / 2 == Low(x / 2, k - 1);
    }
  }

  /** Keeping the low k bits is the remainder modulo two to the k. */
  lemma {:induction false} LowIsRemainder(x: nat, k: nat)
    ensures Pow2(k) > 0 && Low(x, k) == x % Pow2(k)
  {
    if k > 0 {
      LowIsRemainder(x / 2, k - 1);
      RemainderOfHalf(x, Pow2(k - 1));
    }
  }

  lemma RemainderOfHalf(x: nat, p: nat)
    requires p > 0
    ensures x % (2 * p) == 2 * (x / 2 % p) + x % 2
  {
    var h := x / 2;
    var q, r := h / p, h % p;
    assert h == p * q + r;
    assert x == (2 * p) * q + (2 * r + x % 2);
    DivisionIsUnique(x, 2 * p, q, 2 * r + x % 2);
  }

  lemma DivisionIsUnique(x: int, d: int, q: int, r: int)
    requires 0 < d && 0 <= r < d && x == d * q + r
    ensures x / d == q && x % d == r
  {
    var e := x / d - q;
    assert x == d * (x / d) + x % d;
    assert d * e == r - x % d;
    OnlyZeroFits(d, e);
  }

  lemma OnlyZeroFits(d: int, e: int)
    requires -d < d * e < d
    ensures e == 0
  {
  }

  /** A number is its bits. */
  lemma {:induction false} SameBits(a: nat, b: nat)
    requires forall i: nat :: Bit(a, i) <==> Bit(b, i)
    ensures a == b
    decreases a + b
  {
    assert Bit(a, 0) <==> Bit(b, 0);
    if a > 0 || b > 0 {
      forall i: nat ensures Bit(a / 2, i) <==> Bit(b / 2, i) {
        assert Bit(a, i + 1) <==> Bit(b, i + 1);
      }
      SameBits(a / 2, b / 2);
    }
  }

  lemma {:induction false} BitsBelow(x: nat, k: nat, i: nat)
    requires x < Pow2(k) && Bit(x, i)
    ensures i < k
  {
    if x == 0 {
      NoBits(i);
    } else if i > 0 {
      BitsBelow(x / 2, k - 1, i - 1);
    }
  }

  lemma CodeWidth()
    ensures Pow2(32) == CODE
  {
    assert Pow2(8) == 256;
    assert Pow2(16) == 256 * Pow2(8);
    assert Pow2(24) == 256 * Pow2(16);
  }

  // ---------------------------------------------------------------- channels

  datatype Channel = Channel(mask: word, shift: nat, bits: nat)

  /** The mask is one unbroken run of bits. */
  ghost predicate Contiguous(mask: word, shift: nat, bits: nat) {
    0 < bits && shift + bits <= 64 && forall i: nat :: Bit(mask, i) <==> shift <= i < shift + bits
  }

  function Ones(x: nat): nat { if x == 0 then 0 else x % 2 + Ones(x / 2) }

  lemma {:induction false} ShiftRightOnce(x: nat, k: nat)
    ensures ShiftRight(x, k) / 2 == ShiftRight(x, k + 1)
  {
    if k > 0 { ShiftRightOnce(x / 2, k - 1); }
  }

  /** The lowest set bit. */
  method TrailingZeroes(value: word) returns (count: nat)
    ensures value == 0 ==> count == 0
    ensures value != 0 ==> Bit(value, count) && forall i: nat | i < count :: !Bit(value, i)
  {
    count := 0;
    if value == 0 { return; }
    var v: nat := value;
    while v % 2 == 0
      invariant v != 0 && v == ShiftRight(value, count)
      invariant forall i: nat | i < count :: !Bit(value, i)
      decreases v
    {
      BitOfShiftRight(value, count, 0);
      ShiftRightOnce(value, count);
      v, count := v / 2, count + 1;
    }
    BitOfShiftRight(value, count, 0);
  }

  method BitCount(value: word) returns (count: nat)
    ensures count == Ones(value)
  {
    count := 0;
    var v: nat := value;
    while v != 0
      invariant count + Ones(v) == Ones(value)
      decreases v
    {
      v, count := v / 2, count + v % 2;
    }
  }

  lemma {:induction false} OnesOfRun(x: nat, shift: nat, bits: nat)
    requires forall i: nat :: Bit(x, i) <==> shift <= i < shift + bits
    ensures Ones(x) == bits
    decreases shift + bits
  {
    assert Bit(x, 0) <==> shift == 0 && bits > 0;
    forall i: nat
      ensures Bit(x / 2, i) <==> (if shift > 0 then shift - 1 <= i < shift - 1 + bits else 0 <= i < bits - 1)
    {
      assert Bit(x, i + 1) <==> shift <= i + 1 < shift + bits;
    }
    if bits == 0 {
      NothingSet(x);
    } else if shift > 0 {
      OnesOfRun(x / 2, shift - 1, bits);
      assert x != 0 by { NoBits(shift); assert Bit(x, shift); }
    } else {
      OnesOfRun(x / 2, 0, bits - 1);
    }
  }

  lemma NothingSet(x: nat)
    requires forall i: nat :: !Bit(x, i)
    ensures x == 0
  {
    forall i: nat ensures Bit(x, i) <==> Bit(0, i) { NoBits(i); }
    SameBits(x, 0);
  }

  /** For a contiguous mask the two counts are the position and the width of its run. */
  method MakeChannel(mask: word) returns (c: Channel)
    ensures c.mask == mask
    ensures forall shift, bits :: Contiguous(mask, shift, bits) ==> c.shift == shift && c.bits == bits
  {
    var shift := TrailingZeroes(mask);
    var bits := BitCount(mask);
    c := Channel(mask, shift, bits);
    forall s, b | Contiguous(mask, s, b) ensures shift == s && bits == b {
      OnesOfRun(mask, s, b);
      LowestOfRun(mask, s, b, shift);
    }
  }

  lemma LowestOfRun(mask: word, s: nat, b: nat, shift: nat)
    requires Contiguous(mask, s, b) && (mask == 0 ==> shift == 0)
    requires mask != 0 ==> Bit(mask, shift) && forall i: nat | i < shift :: !Bit(mask, i)
    ensures shift == s
  {
    assert Bit(mask, s);
    if mask == 0 { NoBits(s); }
  }

  function PackCode(c: Channel, k: code): nat { And(Low(ShiftLeft(k, c.shift), 64), c.mask) }

  function UnpackCode(c: Channel, pixel: nat): nat { Low(ShiftRight(And(pixel, c.mask), c.shift), 32) }

  /** One pixel from several channels. */
  function PackAll(cs: seq<Channel>, ks: seq<code>): nat
    requires |cs| == |ks|
  {
    if cs == [] then 0 else Or(PackAll(cs[..|cs| - 1], ks[..|ks| - 1]), PackCode(cs[|cs| - 1], ks[|ks| - 1]))
  }

  ghost predicate Separate(cs: seq<Channel>) {
    && (forall i | 0 <= i < |cs| :: Contiguous(cs[i].mask, cs[i].shift, cs[i].bits))
    && (forall i, j | 0 <= i < j < |cs| :: And(cs[i].mask, cs[j].mask) == 0)
  }

  /** A packed code shows inside its mask only, */
  lemma BitOfPacked(c: Channel, k: code, i: nat)
    requires Contiguous(c.mask, c.shift, c.bits)
    ensures Bit(PackCode(c, k), i) <==> Bit(c.mask, i) && Bit(k, i - c.shift)
  {
    BitOfAnd(Low(ShiftLeft(k, c.shift), 64), c.mask, i);
    BitOfLow(ShiftLeft(k, c.shift), 64, i);
    BitOfShiftLeft(k, c.shift, i);
    assert Bit(c.mask, i) <==> c.shift <= i < c.shift + c.bits;
  }

  /** An unpacked code is the pixel under the mask, moved down, in 32 bits. */
  lemma BitOfUnpacked(c: Channel, pixel: nat, i: nat)
    ensures Bit(UnpackCode(c, pixel), i) <==> i < 32 && Bit(pixel, i + c.shift) && Bit(c.mask, i + c.shift)
  {
    BitOfLow(ShiftRight(And(pixel, c.mask), c.shift), 32, i);
    BitOfShiftRight(And(pixel, c.mask), c.shift, i);
    BitOfAnd(pixel, c.mask, i + c.shift);
  }

  /** so inside one mask the combined pixel shows that channel's code alone. */
  lemma {:induction false} BitOfAll(cs: seq<Channel>, ks: seq<code>, n: nat, i: nat)
    requires |cs| == |ks| && Separate(cs) && n < |cs| && Bit(cs[n].mask, i)
    ensures Bit(PackAll(cs, ks), i) <==> Bit(ks[n], i - cs[n].shift)
  {
    var last := |cs| - 1;
    var init, kinit := cs[..last], ks[..last];
    BitOfOr(PackAll(init, kinit), PackCode(cs[last], ks[last]), i);
    BitOfPacked(cs[last], ks[last], i);
    if n < last {
      BitOfAll(init, kinit, n, i);
      BitOfAnd(cs[n].mask, cs[last].mask, i);
      NoBits(i);
    } else {
      BitOutside(init, kinit, cs[n], i);
    }
  }

  lemma {:induction false} BitOutside(cs: seq<Channel>, ks: seq<code>, c: Channel, i: nat)
    requires |cs| == |ks| && Separate(cs) && Bit(c.mask, i)
    requires forall j | 0 <= j < |cs| :: And(cs[j].mask, c.mask) == 0
    ensures !Bit(PackAll(cs, ks), i)
  {
    if cs == [] {
      NoBits(i);
    } else {
      var last := |cs| - 1;
      BitOutside(cs[..last], ks[..last], c, i);
      BitOfOr(PackAll(cs[..last], ks[..last]), PackCode(cs[last], ks[last]), i);
      BitOfPacked(cs[last], ks[last], i);
      BitOfAnd(cs[last].mask, c.mask, i);
      NoBits(i);
    }
  }

  /** Unpacking any channel of an OR of packed codes returns that channel's code, reduced to the
      channel's width; so it returns the code itself exactly when the code fits the channel. */
  lemma UnpackOfPacked(cs: seq<Channel>, ks: seq<code>, n: nat)
    requires |cs| == |ks| && Separate(cs) && n < |cs|
    ensures Pow2(cs[n].bits) > 0 && UnpackCode(cs[n], PackAll(cs, ks)) == ks[n] % Pow2(cs[n].bits)
    ensures UnpackCode(cs[n], PackAll(cs, ks)) == ks[n] <==> ks[n] < Pow2(cs[n].bits)
  {
    var c, pixel, k := cs[n], PackAll(cs, ks), ks[n];
    forall i: nat ensures Bit(UnpackCode(c, pixel), i) <==> Bit(Low(k, c.bits), i) { UnpackedBit(cs, ks, n, i); }
    SameBits(UnpackCode(c, pixel), Low(k, c.bits));
    LowIsRemainder(k, c.bits);
    FitsIffUnchanged(k, Pow2(c.bits));
  }

  lemma FitsIffUnchanged(k: nat, p: nat)
    requires p > 0
    ensures k % p == k <==> k < p
  {
  }

  lemma UnpackedBit(cs: seq<Channel>, ks: seq<code>, n: nat, i: nat)
    requires |cs| == |ks| && Separate(cs) && n < |cs|
    ensures Bit(UnpackCode(cs[n], PackAll(cs, ks)), i) <==> Bit(Low(ks[n], cs[n].bits), i)
  {
    var c, pixel, k := cs[n], PackAll(cs, ks), ks[n];
    BitOfUnpacked(c, pixel, i);
    BitOfLow(k, c.bits, i);
    assert Bit(c.mask, i + c.shift) <==> i < c.bits;
    if i < c.bits { BitOfAll(cs, ks, n, i + c.shift); }
    if Bit(k, i) {
      CodeWidth();
      BitsBelow(k, 32, i);
    }
  }

  /** The probes write one code into every channel of a pixel and expect to read it back: they will,
      in each channel, exactly when the code fits it. */
  method PackPixel(cs: seq<Channel>, k: code) returns (pixel: nat)
    ensures Separate(cs) ==> forall n | 0 <= n < |cs| :: UnpackCode(cs[n], pixel) == k <==> k < Pow2(cs[n].bits)
  {
    pixel := 0;
    ghost var ks := seq(|cs|, _ => k);
    for n := 0 to |cs|
      invariant pixel == PackAll(cs[..n], ks[..n])
    {
      pixel := Or(pixel, PackCode(cs[n], k));
      assert cs[..n + 1][..n] == cs[..n] && ks[..n + 1][..n] == ks[..n];
    }
    assert cs[..|cs|] == cs && ks[..|cs|] == ks;
    if Separate(cs) {
      forall n | 0 <= n < |cs| ensures UnpackCode(cs[n], pixel) == k <==> k < Pow2(cs[n].bits) {
        UnpackOfPacked(cs, ks, n);
      }
    }
  }
}
