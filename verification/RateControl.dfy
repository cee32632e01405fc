/** PLANK's rate policy: the wire budget, the congestion window derived from it, and the controller
    whose window does not react to loss. */
module RateControl {
  const MAX64 := 0xFFFF_FFFF_FFFF_FFFF
  const MAX128 := 0xFFFF_FFFF_FFFF_FFFF_FFFF_FFFF_FFFF_FFFF
  const MIN_VIDEO_BITRATE_BPS := 10_000_000
  const AUDIO_AND_CONTROL_RESERVE_BPS := 1_000_000
  const MIN_WINDOW_PACKETS := 64
  const MAX_WINDOW_RTT := 100_000_000      // nanoseconds
  const INITIAL_WINDOW_RTT := 200_000_000  // nanoseconds
  const BITS_PER_BYTE_SECOND := 8_000_000_000

  type u64 = x: int | 0 <= x <= 0xFFFF_FFFF_FFFF_FFFF
  type u16 = x: int | 0 <= x < 0x1_0000

  function Min(a: int, b: int): int { if a < b then a else b }

  function Max(a: int, b: int): int { if a < b then b else a }

  function SatMul64(a: nat, b: nat): nat { Min(a * b, MAX64) }

  function SatAdd64(a: nat, b: nat): nat { Min(a + b, MAX64) }

  function SatMul128(a: nat, b: nat): nat { Min(a * b, MAX128) }

  function DivCeil(a: nat, d: nat): nat
    requires 0 < d
  {
    a / d + if a % d > 0 then 1 else 0
  }

  function VideoToWire(video: u64): u64 {
    SatAdd64(DivCeil(SatMul64(video, 27), 20), AUDIO_AND_CONTROL_RESERVE_BPS)
  }

  function ClampRtt(rtt: nat): nat { Max(Min(rtt, MAX_WINDOW_RTT), 1) }

  /** The rate term of the window: three halves of the bandwidth-delay product, rounded up twice. */
  function RateTerm(rate: u64, rtt: nat): u64 {
    var bdp := DivCeil(SatMul128(rate, ClampRtt(rtt)), BITS_PER_BYTE_SECOND);
    Min(DivCeil(SatMul128(bdp, 3), 2), MAX64)
  }

  function WindowForRate(rate: u64, rtt: nat, mtu: u16): u64 {
    Max(RateTerm(rate, rtt), SatMul64(MIN_WINDOW_PACKETS, mtu))
  }

  // ---------------------------------------------------------------- the arithmetic

  lemma DivCeilBounds(a: nat, d: nat)
    requires 0 < d
    ensures a <= d * DivCeil(a, d) < a + d
  {
    assert a == d * (a / d) + a % d;
  }

  lemma ProductMonotone(rate: nat, r: nat, s: nat)
    requires r <= s
    ensures rate * r <= rate * s
  {
  }

  lemma DivCeilMonotone(a: nat, b: nat, d: nat)
    requires 0 < d && a <= b
    ensures DivCeil(a, d) <= DivCeil(b, d)
  {
    DivCeilBounds(a, d);
    DivCeilBounds(b, d);
    CeilingsAscend(a, b, d, DivCeil(a, d), DivCeil(b, d));
  }

  lemma CeilingsAscend(a: nat, b: nat, d: nat, x: nat, y: nat)
    requires 0 < d && a <= b && a <= d * x < a + d && b <= d * y < b + d
    ensures x <= y
  {
    if x > y {
      ProductMonotone(d, y + 1, x);
      OneMore(d, y);
      assert false;
    }
  }

  lemma OneMore(d: int, y: int)
    ensures d * (y + 1) == d * y + d
  {
  }

  lemma ProductBound(rate: u64, r: nat)
    requires r <= MAX_WINDOW_RTT
    ensures rate * r <= MAX64 * MAX_WINDOW_RTT
  {
    ProductMonotone(rate, r, MAX_WINDOW_RTT);
  }

  /** No saturation ever happens in the window, and the rate term lies in [1.5*BDP, 1.5*BDP + 2),
      where BDP = rate * rtt / (8 * 10^9) bytes at the clamped round-trip time. */
  lemma WindowIsExact(rate: u64, rtt: nat)
    ensures var x := rate * ClampRtt(rtt);
            && SatMul128(rate, ClampRtt(rtt)) == x
            && RateTerm(rate, rtt) == DivCeil(3 * DivCeil(x, BITS_PER_BYTE_SECOND), 2) < MAX64
            && 3 * x <= 2 * BITS_PER_BYTE_SECOND * RateTerm(rate, rtt) < 3 * x + 4 * BITS_PER_BYTE_SECOND
  {
    var x := rate * ClampRtt(rtt);
    ProductBound(rate, ClampRtt(rtt));
    DivCeilBounds(x, BITS_PER_BYTE_SECOND);
    DivCeilBounds(3 * DivCeil(x, BITS_PER_BYTE_SECOND), 2);
  }

  /** The wire budget is the rounded-up 1.35 factor plus the reserve, exactly until 27 times the rate
      leaves 64 bits by more than the rounding hides. */
  lemma WireBudget(video: u64)
    ensures VideoToWire(video) == DivCeil(27 * video, 20) + 1_000_000 <==> 27 * video <= MAX64 + 5
  {
    assert DivCeil(MAX64, 20) == (MAX64 + 5) / 20;
    DivCeilBounds(27 * video, 20);
  }

  /** Every rate the interfaces can set, in 32-bit kilobits per second, is far below that. */
  lemma SettableRatesAreExact(kbps: nat)
    requires kbps < 0x1_0000_0000
    ensures VideoToWire(kbps * 1000) == DivCeil(27 * (kbps * 1000), 20) + 1_000_000
  {
    WireBudget(kbps * 1000);
  }

  /** No round-trip time gives a larger window than the initial 200 ms, which is clamped to 100 ms. */
  lemma InitialWindowIsLargest(rate: u64, rtt: nat, mtu: u16)
    ensures WindowForRate(rate, rtt, mtu) <= WindowForRate(rate, INITIAL_WINDOW_RTT, mtu)
  {
    var a, b := rate * ClampRtt(rtt), rate * ClampRtt(INITIAL_WINDOW_RTT);
    ProductMonotone(rate, ClampRtt(rtt), ClampRtt(INITIAL_WINDOW_RTT));
    assert RateTerm(rate, rtt) == DivCeil(3 * DivCeil(a, BITS_PER_BYTE_SECOND), 2) by { WindowIsExact(rate, rtt); }
    assert RateTerm(rate, INITIAL_WINDOW_RTT) == DivCeil(3 * DivCeil(b, BITS_PER_BYTE_SECOND), 2) by {
      WindowIsExact(rate, INITIAL_WINDOW_RTT);
    }
    DivCeilMonotone(a, b, BITS_PER_BYTE_SECOND);
    DivCeilMonotone(3 * DivCeil(a, BITS_PER_BYTE_SECOND), 3 * DivCeil(b, BITS_PER_BYTE_SECOND), 2);
  }

  /** The window a wire rate, a round-trip time in nanoseconds and an MTU call for: three halves of the
      bandwidth-delay product at that time, held between 1 ns and 100 ms, to within two bytes, and
      never less than 64 packets. */
  ghost predicate WindowFor(window: int, wire: int, rtt: int, mtu: int) {
    var held := if rtt < 1 then 1 else if rtt > 100_000_000 then 100_000_000 else rtt;
    && window >= 64 * mtu && 3 * (wire * held) <= 16_000_000_000 * window
    && (window == 64 * mtu || 16_000_000_000 * window < 3 * (wire * held) + 32_000_000_000)
  }

  lemma WindowFollows(rate: u64, rtt: nat, mtu: u16)
    ensures WindowFor(WindowForRate(rate, rtt, mtu), rate, rtt, mtu)
  {
    WindowIsExact(rate, rtt);
  }

  /** The delivery rate in bits per second, rounded down. */
  ghost predicate BandwidthFor(bandwidth: int, bytes: int, delivery: int) {
    && bandwidth * delivery <= 8_000_000_000 * bytes
    && (8_000_000_000 * bytes < bandwidth * delivery + delivery || bandwidth == 0xFFFF_FFFF_FFFF_FFFF)
  }

  lemma EstimateFollows(bytes: u64, delivery: nat)
    requires delivery > 0
    ensures BandwidthFor(Estimate(bytes, delivery), bytes, delivery)
  {
    var bits := bytes * BITS_PER_BYTE_SECOND;
    var q := bits / delivery;
    assert SatMul128(bytes, BITS_PER_BYTE_SECOND) == bits;
    assert bits == delivery * q + bits % delivery;
    if q > MAX64 { ProductMonotone(delivery, MAX64, q); }
  }

  // ---------------------------------------------------------------- the controller

  datatype Policy = Policy(requested: u64, peak: u64, pacer: u64, repairable: u64, persistent: u64)

  datatype Control = Control(policy: Policy, mtu: u16, rtt: nat, window: u64, bandwidth: u64)

  datatype Event =
    | Ack(bytes: u64, delivery: nat, rtt: nat)
    | Congestion(lasting: bool)
    | Mtu(mtu: u16)
    | SetRate(video: u64, peakVideo: u64)

  function Increment(x: u64): u64 { (x + 1) % (MAX64 + 1) }

  function NewPolicy(video: u64): Policy {
    var v := Max(video, MIN_VIDEO_BITRATE_BPS);
    Policy(v, v, VideoToWire(v), 0, 0)
  }

  function WithRate(p: Policy, video: u64, peakVideo: u64): Policy {
    var v := Max(video, MIN_VIDEO_BITRATE_BPS);
    p.(requested := v, peak := Max(peakVideo, v), pacer := VideoToWire(Max(peakVideo, v)))
  }

  function WithLoss(p: Policy, lasting: bool): Policy {
    if lasting then p.(persistent := Increment(p.persistent)) else p.(repairable := Increment(p.repairable))
  }

  /** A controller for a new path, built on whatever the shared policy holds by then. */
  function Create(p: Policy, mtu: u16): Control {
    Control(p, mtu, INITIAL_WINDOW_RTT, WindowForRate(VideoToWire(p.peak), INITIAL_WINDOW_RTT, mtu), 0)
  }

  function UpdateWindow(c: Control, rtt: nat): Control {
    c.(rtt := rtt, window := WindowForRate(VideoToWire(c.policy.peak), rtt, c.mtu))
  }

  function Estimate(bytes: u64, delivery: nat): u64
    requires delivery > 0
  {
    Min(SatMul128(bytes, BITS_PER_BYTE_SECOND) / delivery, MAX64)
  }

  function After(c: Control, e: Event): Control {
    match e
    case Ack(bytes, delivery, rtt) =>
      UpdateWindow(if delivery == 0 then c else c.(bandwidth := Estimate(bytes, delivery)), rtt)
    case Congestion(lasting) => c.(policy := WithLoss(c.policy, lasting))
    case Mtu(mtu) => UpdateWindow(c.(mtu := mtu), c.rtt)
    case SetRate(video, peakVideo) => c.(policy := WithRate(c.policy, video, peakVideo))
  }

  function Run(c: Control, events: seq<Event>): Control {
    if events == [] then c else After(Run(c, events[..|events| - 1]), events[|events| - 1])
  }

  /** The same events with every loss report deleted. */
  function Lossless(events: seq<Event>): seq<Event> {
    if events == [] then []
    else
      var init, e := Lossless(events[..|events| - 1]), events[|events| - 1];
      if e.Congestion? then init else init + [e]
  }

  /** The controller without its two loss counters. */
  function Visible(c: Control): Control { c.(policy := c.policy.(repairable := 0, persistent := 0)) }

  /** Deleting all loss reports, persistent congestion included, changes nothing but the counters:
      every window along the way is the same. */
  lemma {:induction false} LossIsIgnored(c: Control, events: seq<Event>)
    ensures Visible(Run(c, events)) == Visible(Run(c, Lossless(events)))
    ensures Run(c, events).window == Run(c, Lossless(events)).window
  {
    if events != [] {
      var init, e := events[..|events| - 1], events[|events| - 1];
      LossIsIgnored(c, init);
      if !e.Congestion? {
        var some := Lossless(init) + [e];
        assert some[..|some| - 1] == Lossless(init);
        VisibleStep(Run(c, init), Run(c, Lossless(init)), e);
      }
    }
  }

  lemma VisibleStep(a: Control, b: Control, e: Event)
    requires Visible(a) == Visible(b) && !e.Congestion?
    ensures Visible(After(a, e)) == Visible(After(b, e))
  {
  }

  /** No event ever leaves a window below 64 packets of the current MTU. */
  lemma {:induction false} WindowFloor(p: Policy, mtu: u16, events: seq<Event>)
    ensures var c := Run(Create(p, mtu), events); c.window >= 64 * c.mtu
  {
    if events != [] { WindowFloor(p, mtu, events[..|events| - 1]); }
  }

  /** The window after an ack is decided by that ack's round-trip time, the peak rate then in force and
      the MTU, whatever came before. */
  lemma AckDecidesWindow(c: Control, events: seq<Event>, bytes: u64, delivery: nat, sample: nat)
    ensures var before, after := Run(c, events), Run(c, events + [Ack(bytes, delivery, sample)]);
            && after.rtt == sample && after.mtu == before.mtu && after.policy == before.policy
            && WindowFor(after.window, VideoToWire(before.policy.peak), sample, before.mtu)
            && (if delivery == 0 then after.bandwidth == before.bandwidth else BandwidthFor(after.bandwidth, bytes, delivery))
  {
    assert (events + [Ack(bytes, delivery, sample)])[..|events|] == events;
    var before := Run(c, events);
    WindowFollows(VideoToWire(before.policy.peak), sample, before.mtu);
    if delivery != 0 { EstimateFollows(bytes, delivery); }
  }

  lemma SameAckSameWindow(c: Control, events: seq<Event>, d: Control, others: seq<Event>, bytes: u64, delivery: nat, more: u64, later: nat, sample: nat)
    requires Run(c, events).policy.peak == Run(d, others).policy.peak && Run(c, events).mtu == Run(d, others).mtu
    ensures Run(c, events + [Ack(bytes, delivery, sample)]).window == Run(d, others + [Ack(more, later, sample)]).window
  {
    assert (events + [Ack(bytes, delivery, sample)])[..|events|] == events;
    assert (others + [Ack(more, later, sample)])[..|others|] == others;
  }

  /** No event moves the rate or the MTU away from where the controller started. */
  ghost predicate FixedPath(c: Control, events: seq<Event>) {
    forall i | 0 <= i < |events| ::
      && (events[i].Mtu? ==> events[i].mtu == c.mtu)
      && (events[i].SetRate? ==> WithRate(c.policy, events[i].video, events[i].peakVideo).peak == c.policy.peak)
  }

  lemma {:induction false} NeverAboveInitial(p: Policy, mtu: u16, events: seq<Event>)
    requires FixedPath(Create(p, mtu), events)
    ensures var c := Run(Create(p, mtu), events);
            c.policy.peak == p.peak && c.mtu == mtu && c.window <= Create(p, mtu).window
  {
    if events != [] {
      var init, e := events[..|events| - 1], events[|events| - 1];
      NeverAboveInitial(p, mtu, init);
      var c := Run(Create(p, mtu), events);
      assert e == events[|init|];
      InitialWindowIsLargest(VideoToWire(p.peak), c.rtt, mtu);
    }
  }

  /** The shared policy and the controller as they are updated in place. */
  class RatePolicy {
    var requested: u64
    var peak: u64
    var pacer: u64
    var repairable: u64
    var persistent: u64

    function Value(): Policy
      reads this
    {
      Policy(requested, peak, pacer, repairable, persistent)
    }

    constructor (video: u64)
      ensures Value() == NewPolicy(video)
      ensures requested == peak == (if video < 10_000_000 then 10_000_000 else video) && pacer == VideoToWire(peak)
      ensures repairable == persistent == 0
    {
      var v := Max(video, MIN_VIDEO_BITRATE_BPS);
      requested, peak, pacer := v, v, VideoToWire(v);
      repairable, persistent := 0, 0;
    }

    method SetRequestedVideo(video: u64, peakVideo: u64)
      modifies this
      ensures Value() == WithRate(old(Value()), video, peakVideo)
      ensures requested == (if video < 10_000_000 then 10_000_000 else video)
      ensures peak == (if peakVideo < requested then requested else peakVideo) && pacer == VideoToWire(peak)
      ensures repairable == old(repairable) && persistent == old(persistent)
    {
      requested := Max(video, MIN_VIDEO_BITRATE_BPS);
      peak := Max(peakVideo, requested);
      pacer := VideoToWire(peak);
    }
  }

  class RateController {
    const policy: RatePolicy
    var mtu: u16
    var rtt: nat
    var window: u64
    var bandwidth: u64

    function Value(): Control
      reads this, policy
    {
      Control(policy.Value(), mtu, rtt, window, bandwidth)
    }

    constructor (policy: RatePolicy, mtu: u16)
      ensures this.policy == policy && Value() == Create(policy.Value(), mtu)
      ensures this.mtu == mtu && rtt == 200_000_000 && bandwidth == 0
      ensures WindowFor(window, VideoToWire(policy.peak), 200_000_000, mtu)
    {
      WindowFollows(VideoToWire(policy.peak), INITIAL_WINDOW_RTT, mtu);
      this.policy, this.mtu, rtt, bandwidth := policy, mtu, INITIAL_WINDOW_RTT, 0;
      window := WindowForRate(VideoToWire(policy.peak), INITIAL_WINDOW_RTT, mtu);
    }

    method OnAck(bytes: u64, delivery: nat, sample: nat)
      modifies this
      ensures Value() == After(old(Value()), Ack(bytes, delivery, sample))
      ensures rtt == sample && mtu == old(mtu) && WindowFor(window, VideoToWire(policy.peak), sample, mtu)
      ensures if delivery == 0 then bandwidth == old(bandwidth) else BandwidthFor(bandwidth, bytes, delivery)
    {
      WindowFollows(VideoToWire(policy.peak), sample, mtu);
      if delivery != 0 { EstimateFollows(bytes, delivery); }
      if delivery != 0 { bandwidth := Estimate(bytes, delivery); }
      rtt := sample;
      window := WindowForRate(VideoToWire(policy.peak), rtt, mtu);
    }

    method OnCongestionEvent(lasting: bool)
      modifies policy
      ensures Value() == After(old(Value()), Congestion(lasting))
      ensures policy.persistent == (if lasting then Increment(old(policy.persistent)) else old(policy.persistent))
      ensures policy.repairable == (if lasting then old(policy.repairable) else Increment(old(policy.repairable)))
    {
      if lasting { policy.persistent := Increment(policy.persistent); }
      else { policy.repairable := Increment(policy.repairable); }
    }

    method OnMtuUpdate(newMtu: u16)
      modifies this
      ensures Value() == After(old(Value()), Mtu(newMtu))
      ensures mtu == newMtu && rtt == old(rtt) && WindowFor(window, VideoToWire(policy.peak), rtt, newMtu)
    {
      WindowFollows(VideoToWire(policy.peak), rtt, newMtu);
      mtu := newMtu;
      window := WindowForRate(VideoToWire(policy.peak), rtt, mtu);
    }
  }
}
