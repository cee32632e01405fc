/** The decoder-input pacing of the two client probes: a frame is woken one lead ahead of its target,
    and a schedule that has fallen behind is moved forward by whole refresh periods. */
module FramePacing {
  const WORD := 0x1_0000_0000_0000_0000
  const MIN_FIRST_LEAD: u64 := 12_000_000

  type u64 = x: int | 0 <= x < 0x1_0000_0000_0000_0000

  /** x modulo 2^64 (WrapIsModulo), taken one word at a time. */
  function Wrap(x: int): u64
    decreases if x < 0 then -x else x
  {
    if x < 0 then (if x + WORD < 0 then Wrap(x + WORD) else x + WORD)
    else if x >= WORD then Wrap(x - WORD) else x
  }

  function Max(a: int, b: int): int { if a < b then b else a }

  /** The epoch after the call, the presentation target, and the time to wake. */
  datatype Slot = Slot(epoch: int, target: int, wake: int)

  /** Refresh periods added one at a time until the wake lies after now. */
  function Shift(wake: int, now: int, refresh: int): nat
    requires 0 < refresh
    decreases now - wake
  {
    if wake <= now then refresh + Shift(wake + refresh, now, refresh) else 0
  }

  /** One frame in unbounded arithmetic, `offset` being its distance from the epoch. */
  function IdealAt(epoch: int, offset: int, lead: nat, refresh: int, now: int): Slot
    requires 0 < refresh
  {
    var shift := Shift(epoch + offset - lead, now, refresh);
    Slot(epoch + shift, epoch + offset + shift, epoch + offset - lead + shift)
  }

  function Ideal(epoch: int, index: nat, lead: nat, refresh: int, now: int): Slot
    requires 0 < refresh
  {
    IdealAt(epoch, index * refresh, lead, refresh, now)
  }

  /** The same frame in the code's unsigned 64-bit arithmetic. */
  function Place(epoch: u64, offset: u64, lead: u64, refresh: u64, now: u64): Slot
    requires 0 < refresh
  {
    var target := Wrap(epoch + offset);
    var wake := Wrap(target - lead);
    var shift := Wrap(Shift(wake, now, refresh));
    Slot(Wrap(epoch + shift), Wrap(target + shift), Wrap(wake + shift))
  }

  function Schedule(epoch: u64, index: u64, lead: u64, refresh: u64, now: u64): Slot
    requires 0 < refresh
  {
    Place(epoch, Wrap(index * refresh), lead, refresh, now)
  }

  // ---------------------------------------------------------------- one frame

  /** The late wake ends after now, by less than one extra refresh. */
  lemma {:induction false} ShiftBounds(wake: int, now: int, refresh: int)
    requires 0 < refresh
    ensures var s := Shift(wake, now, refresh);
            if wake <= now then now - wake < s <= now - wake + refresh else s == 0
    decreases now - wake
  {
    if wake <= now { ShiftBounds(wake + refresh, now, refresh); }
  }

  lemma {:induction false} ShiftIsWhole(wake: int, now: int, refresh: int)
    requires 0 < refresh
    ensures Shift(wake, now, refresh) % refresh == 0
    decreases now - wake
  {
    if wake <= now {
      ShiftIsWhole(wake + refresh, now, refresh);
      SumOfMultiples(refresh, Shift(wake + refresh, now, refresh), Shift(wake, now, refresh), refresh);
    } else {
      MultipleOf(0, refresh, 0);
    }
  }

  lemma MultipleOf(k: int, d: int, x: int)
    requires 0 < d && x == k * d
    ensures x % d == 0
  {
    var q, r := x / d, x % d;
    assert x == d * q + r;
    assert (k - q) * d == r;
    Small(k - q, d);
  }

  lemma Small(k: int, d: int)
    requires 0 <= k * d < d
    ensures k == 0
  {
  }

  lemma SumOfMultiples(a: int, b: int, c: int, d: int)
    requires 0 < d && a % d == 0 && b % d == 0 && c == a + b
    ensures c % d == 0
  {
    assert a == d * (a / d) && b == d * (b / d);
    MultipleOf(a / d + b / d, d, c);
  }

  /** The quotient in the code counts those periods. */
  lemma {:induction false} ShiftByDivision(wake: int, now: int, refresh: int, q: nat)
    requires 0 < refresh && q * refresh <= now - wake < q * refresh + refresh
    ensures Shift(wake, now, refresh) == (q + 1) * refresh == q * refresh + refresh
    decreases q
  {
    if q > 0 {
      assert q * refresh == (q - 1) * refresh + refresh;
      ShiftByDivision(wake + refresh, now, refresh, q - 1);
    } else {
      assert Shift(wake + refresh, now, refresh) == 0;
    }
  }

  /** However late or early the clock reads: the wake lies strictly after now, no later than the
      scheduled wake or one refresh after now, one lead ahead of its target; the epoch never moves
      back, and moves by a whole number of periods. */
  lemma CatchesUp(epoch: int, index: nat, lead: nat, refresh: int, now: int)
    requires 0 < refresh
    ensures var s := Ideal(epoch, index, lead, refresh, now);
            && now < s.wake <= Max(epoch + index * refresh - lead, now + refresh)
            && s.target - s.wake == lead
            && s.target == s.epoch + index * refresh
            && s.epoch >= epoch && (s.epoch - epoch) % refresh == 0
  {
    var wake := epoch + index * refresh - lead;
    ShiftBounds(wake, now, refresh);
    ShiftIsWhole(wake, now, refresh);
    assert Ideal(epoch, index, lead, refresh, now).epoch - epoch == Shift(wake, now, refresh);
  }

  /** Seen from its own planned target, the 64-bit code wakes a frame after now and one lead ahead
      exactly when the lead does not reach below time zero and catching up does not wrap. */
  lemma KeepsPromiseIff(epoch: u64, offset: u64, lead: u64, refresh: u64, now: u64)
    requires 0 < refresh
    ensures var s, target := Place(epoch, offset, lead, refresh, now), Wrap(epoch + offset);
            now < s.wake && s.target - s.wake == lead
            <==> lead <= target && target + Shift(target - lead, now, refresh) < WORD
  {
    PromiseAt(Wrap(epoch + offset), lead, refresh, now);
  }

  lemma PromiseAt(target: u64, lead: u64, refresh: u64, now: u64)
    requires 0 < refresh
    ensures var wake := Wrap(target - lead);
            var shift := Wrap(Shift(wake, now, refresh));
            now < Wrap(wake + shift) && Wrap(target + shift) - Wrap(wake + shift) == lead
            <==> lead <= target && target + Shift(target - lead, now, refresh) < WORD
  {
    var wake := Wrap(target - lead);
    var shift := Shift(wake, now, refresh);
    ShiftBounds(wake, now, refresh);
    WrapTwice(target, shift);
    WrapTwice(wake, shift);
    if lead <= target {
      FitsIff(target, lead, refresh, now, shift);
    } else {
      UnderflowBreaks(target, lead, refresh, now, shift);
    }
  }

  lemma {:induction false} WrapIsModulo(x: int)
    ensures Wrap(x) == x % WORD
    decreases if x < 0 then -x else x
  {
    if x < 0 {
      if x + WORD < 0 { WrapIsModulo(x + WORD); }
    } else if x >= WORD {
      WrapIsModulo(x - WORD);
    }
  }

  lemma WrapTwice(a: int, b: int)
    ensures Wrap(a + Wrap(b)) == Wrap(a + b)
  {
    WrapIsModulo(b);
    WrapIsModulo(a + Wrap(b));
    WrapIsModulo(a + b);
    assert (a + b % WORD) % WORD == (a + b) % WORD;
  }

  lemma FitsIff(target: u64, lead: u64, refresh: u64, now: u64, shift: int)
    requires lead <= target
    requires var wake := target - lead;
             if wake <= now then now - wake < shift <= now - wake + refresh else shift == 0
    ensures now < Wrap(target - lead + shift) && Wrap(target + shift) - Wrap(target - lead + shift) == lead
            <==> target + shift < WORD
  {
  }

  lemma UnderflowBreaks(target: u64, lead: u64, refresh: u64, now: u64, shift: int)
    requires target < lead
    requires var wake := Wrap(target - lead);
             if wake <= now then now - wake < shift <= now - wake + refresh else shift == 0
    ensures var wake := Wrap(target - lead);
            !(now < Wrap(wake + shift) && Wrap(target + shift) - Wrap(wake + shift) == lead)
  {
  }

  lemma PlaceFits(epoch: u64, offset: u64, lead: u64, refresh: u64, now: u64)
    requires 0 < refresh && lead <= epoch + offset
    requires epoch + offset + Shift(epoch + offset - lead, now, refresh) < WORD
    ensures var shift := Shift(epoch + offset - lead, now, refresh);
            Place(epoch, offset, lead, refresh, now) == Slot(epoch + shift, epoch + offset + shift, epoch + offset - lead + shift)
  {
    SmallWrap(epoch + offset);
    SmallWrap(epoch + offset - lead);
  }

  /** A frame that comes out as the ideal one keeps its promise, so its lead was not too long. */
  lemma LeadFits(epoch: u64, offset: u64, lead: u64, refresh: u64, now: u64, shift: int)
    requires 0 < refresh && epoch + offset < WORD
    requires Place(epoch, offset, lead, refresh, now).target == epoch + offset + shift
    requires Place(epoch, offset, lead, refresh, now).wake == epoch + offset - lead + shift > now
    ensures lead <= epoch + offset
  {
    KeepsPromiseIff(epoch, offset, lead, refresh, now);
    SmallWrap(epoch + offset);
  }

  lemma PlaceIsIdealIff(epoch: u64, offset: nat, lead: u64, refresh: u64, now: u64)
    requires 0 < refresh
    ensures Place(epoch, Wrap(offset), lead, refresh, now) == IdealAt(epoch, offset, lead, refresh, now)
            <==> lead <= epoch + offset && IdealAt(epoch, offset, lead, refresh, now).target < WORD
  {
    var shift := Shift(epoch + offset - lead, now, refresh);
    ShiftBounds(epoch + offset - lead, now, refresh);
    if epoch + offset + shift < WORD {
      SmallWrap(offset);
      if lead <= epoch + offset {
        PlaceFits(epoch, offset, lead, refresh, now);
      } else if Place(epoch, offset, lead, refresh, now) == IdealAt(epoch, offset, lead, refresh, now) {
        LeadFits(epoch, offset, lead, refresh, now, shift);
      }
    }
  }

  /** Exactly when the 64-bit code computes the ideal frame, grid and spacing included: the lead does not
      reach below time zero and the caught-up target fits in 64 bits. */
  lemma ScheduleIsIdealIff(epoch: u64, index: u64, lead: u64, refresh: u64, now: u64)
    requires 0 < refresh
    ensures Schedule(epoch, index, lead, refresh, now) == Ideal(epoch, index, lead, refresh, now) <==>
            lead <= epoch + index * refresh && Ideal(epoch, index, lead, refresh, now).target < WORD
  {
    NotNegative(index, refresh);
    PlaceIsIdealIff(epoch, index * refresh, lead, refresh, now);
  }

  lemma NotNegative(k: nat, d: nat)
    ensures 0 <= k * d
  {
  }

  lemma SmallWrap(x: int)
    requires 0 <= x < WORD
    ensures Wrap(x) == x
  {
  }

  // ---------------------------------------------------------------- a whole run

  /** Frame k of a run takes the epoch its predecessor left and whatever the clock then reads. */
  ghost predicate IdealRun(epochs: seq<int>, lead: nat, refresh: int, clock: seq<int>, slots: seq<Slot>)
    requires 0 < refresh
  {
    && |slots| == |clock| && |epochs| == |slots| + 1
    && forall k {:trigger slots[k]} | 0 <= k < |slots| ::
         slots[k] == Ideal(epochs[k], k, lead, refresh, clock[k]) && epochs[k + 1] == slots[k].epoch
  }

  ghost predicate MachineRun(epochs: seq<u64>, lead: u64, refresh: u64, clock: seq<u64>, slots: seq<Slot>)
    requires 0 < refresh
  {
    && |slots| == |clock| < WORD && |epochs| == |slots| + 1
    && forall k {:trigger slots[k]} | 0 <= k < |slots| ::
         slots[k] == Schedule(epochs[k], k, lead, refresh, clock[k]) && epochs[k + 1] == slots[k].epoch
  }

  lemma {:induction false} EpochStaysOnGrid(epochs: seq<int>, lead: nat, refresh: int, clock: seq<int>, slots: seq<Slot>, k: nat)
    requires 0 < refresh && IdealRun(epochs, lead, refresh, clock, slots) && k < |epochs|
    ensures epochs[k] >= epochs[0] && (epochs[k] - epochs[0]) % refresh == 0
  {
    if k > 0 {
      EpochStaysOnGrid(epochs, lead, refresh, clock, slots, k - 1);
      FrameMoves(epochs, lead, refresh, clock, slots, k - 1);
      SumOfMultiples(epochs[k] - epochs[k - 1], epochs[k - 1] - epochs[0], epochs[k] - epochs[0], refresh);
    } else {
      MultipleOf(0, refresh, 0);
    }
  }

  /** Frame k keeps the single frame's promises. */
  lemma FrameMoves(epochs: seq<int>, lead: nat, refresh: int, clock: seq<int>, slots: seq<Slot>, k: nat)
    requires 0 < refresh && IdealRun(epochs, lead, refresh, clock, slots) && k < |slots|
    ensures epochs[k + 1] >= epochs[k] && (epochs[k + 1] - epochs[k]) % refresh == 0
    ensures slots[k].target == epochs[k + 1] + k * refresh
    ensures clock[k] < slots[k].wake <= Max(epochs[k] + k * refresh - lead, clock[k] + refresh)
    ensures slots[k].target - slots[k].wake == lead
  {
    CatchesUp(epochs[k], k, lead, refresh, clock[k]);
    assert epochs[k + 1] == slots[k].epoch;
  }

  /** For arbitrary clock readings, even ones that run backwards: every frame wakes after now, not too
      late and one lead before its target, and successive targets are at least one refresh apart; */
  lemma PacedRun(epochs: seq<int>, lead: nat, refresh: int, clock: seq<int>, slots: seq<Slot>, k: nat)
    requires 0 < refresh && IdealRun(epochs, lead, refresh, clock, slots) && k < |slots|
    ensures var scheduled := if k == 0 then epochs[0] - lead else slots[k - 1].wake + refresh;
            clock[k] < slots[k].wake <= Max(scheduled, clock[k] + refresh)
    ensures slots[k].target - slots[k].wake == lead
    ensures k > 0 ==> slots[k].target >= slots[k - 1].target + refresh
  {
    FrameMoves(epochs, lead, refresh, clock, slots, k);
    if k > 0 {
      FrameMoves(epochs, lead, refresh, clock, slots, k - 1);
      NextMultiple(k, refresh);
    }
  }

  lemma NextMultiple(k: int, d: int)
    ensures k * d == (k - 1) * d + d
  {
  }

  /** and all targets stay on the first epoch's refresh grid. */
  lemma TargetsStayOnGrid(epochs: seq<int>, lead: nat, refresh: int, clock: seq<int>, slots: seq<Slot>, k: nat)
    requires 0 < refresh && IdealRun(epochs, lead, refresh, clock, slots) && k < |slots|
    ensures slots[k].target >= epochs[0] && (slots[k].target - epochs[0]) % refresh == 0
  {
    EpochStaysOnGrid(epochs, lead, refresh, clock, slots, k + 1);
    FrameMoves(epochs, lead, refresh, clock, slots, k);
    MultipleOf(k, refresh, k * refresh);
    assert 0 <= k * refresh;
    SumOfMultiples(epochs[k + 1] - epochs[0], k * refresh, slots[k].target - epochs[0], refresh);
  }

  /** Exactly when the code's own run is the ideal one, and so has these properties: the lead does not
      exceed the first epoch and the last target fits in 64 bits. */
  lemma MachineIsIdealIff(
    lead: u64, refresh: u64, clock: seq<u64>,
    epochs: seq<u64>, slots: seq<Slot>, idealEpochs: seq<int>, ideal: seq<Slot>, n: nat)
    requires 0 < refresh && 0 < n <= |clock|
    requires MachineRun(epochs, lead, refresh, clock, slots)
    requires IdealRun(idealEpochs, lead, refresh, clock, ideal)
    requires epochs[0] == idealEpochs[0]
    ensures slots[..n] == ideal[..n] <==> lead <= epochs[0] && ideal[n - 1].target < WORD
  {
    if lead <= epochs[0] && ideal[n - 1].target < WORD {
      MachineFollowsIdeal(lead, refresh, clock, epochs, slots, idealEpochs, ideal, n);
    }
    if slots[..n] == ideal[..n] {
      assert slots[0] == slots[..n][0] == ideal[..n][0] == ideal[0];
      assert slots[n - 1] == slots[..n][n - 1] == ideal[..n][n - 1] == ideal[n - 1];
      FirstFrameIsIdeal(lead, refresh, clock, epochs, slots, idealEpochs, ideal);
    }
  }

  lemma FirstFrameIsIdeal(
    lead: u64, refresh: u64, clock: seq<u64>, epochs: seq<u64>, slots: seq<Slot>, idealEpochs: seq<int>, ideal: seq<Slot>)
    requires 0 < refresh && 0 < |clock|
    requires MachineRun(epochs, lead, refresh, clock, slots) && IdealRun(idealEpochs, lead, refresh, clock, ideal)
    requires epochs[0] == idealEpochs[0] && slots[0] == ideal[0]
    ensures lead <= epochs[0]
  {
    ScheduleIsIdealIff(epochs[0], 0, lead, refresh, clock[0]);
  }

  lemma {:induction false} MachineFollowsIdeal(
    lead: u64, refresh: u64, clock: seq<u64>,
    epochs: seq<u64>, slots: seq<Slot>, idealEpochs: seq<int>, ideal: seq<Slot>, n: nat)
    requires 0 < refresh && n <= |clock|
    requires MachineRun(epochs, lead, refresh, clock, slots)
    requires IdealRun(idealEpochs, lead, refresh, clock, ideal)
    requires lead <= epochs[0] == idealEpochs[0]
    requires n > 0 ==> ideal[n - 1].target < WORD
    ensures epochs[n] == idealEpochs[n] && slots[..n] == ideal[..n]
  {
    if n > 0 {
      if n > 1 { PacedRun(idealEpochs, lead, refresh, clock, ideal, n - 1); }
      MachineFollowsIdeal(lead, refresh, clock, epochs, slots, idealEpochs, ideal, n - 1);
      EpochStaysOnGrid(idealEpochs, lead, refresh, clock, ideal, n - 1);
      FrameFollowsIdeal(lead, refresh, clock, epochs, slots, idealEpochs, ideal, n - 1);
      assert slots[..n] == slots[..n - 1] + [slots[n - 1]];
      assert ideal[..n] == ideal[..n - 1] + [ideal[n - 1]];
    }
  }

  lemma FrameFollowsIdeal(
    lead: u64, refresh: u64, clock: seq<u64>,
    epochs: seq<u64>, slots: seq<Slot>, idealEpochs: seq<int>, ideal: seq<Slot>, k: nat)
    requires 0 < refresh && k < |clock|
    requires MachineRun(epochs, lead, refresh, clock, slots)
    requires IdealRun(idealEpochs, lead, refresh, clock, ideal)
    requires lead <= epochs[k] == idealEpochs[k] && ideal[k].target < WORD
    ensures slots[k] == ideal[k] && epochs[k + 1] == idealEpochs[k + 1]
  {
    NotNegative(k, refresh);
    ScheduleIsIdealIff(epochs[k], k, lead, refresh, clock[k]);
  }

  // ---------------------------------------------------------------- the two probes

  /** The periods a late frame skips, in nanoseconds. */
  method CatchUp(wake: u64, now: u64, refresh: u64) returns (shift: u64)
    requires 0 < refresh && wake <= now
    ensures shift == Wrap(Shift(wake, now, refresh))
  {
    var periods := (now - wake) / refresh + 1;
    shift := Wrap(periods * refresh);
    assert now - wake == refresh * ((now - wake) / refresh) + (now - wake) % refresh;
    ShiftByDivision(wake, now, refresh, (now - wake) / refresh);
  }

  /** The KMS probe's form: epoch, target and wake move together. */
  method Pace(epoch: u64, offset: u64, lead: u64, refresh: u64, now: u64) returns (newEpoch: u64, target: u64, wake: u64)
    requires 0 < refresh
    ensures Slot(newEpoch, target, wake) == Place(epoch, offset, lead, refresh, now)
  {
    newEpoch, target := epoch, Wrap(epoch + offset);
    wake := Wrap(target - lead);
    if wake <= now {
      var shift := CatchUp(wake, now, refresh);
      newEpoch, target, wake := Wrap(newEpoch + shift), Wrap(target + shift), Wrap(wake + shift);
    }
  }

  /** The pipeline probe's form: only epoch and wake move, and the lead is added back. */
  method PaceByWake(epoch: u64, offset: u64, lead: u64, refresh: u64, now: u64) returns (newEpoch: u64, target: u64, wake: u64)
    requires 0 < refresh
    ensures Slot(newEpoch, target, wake) == Place(epoch, offset, lead, refresh, now)
  {
    newEpoch, wake := epoch, Wrap(Wrap(epoch + offset) - lead);
    var shift := 0;
    if wake <= now {
      shift := CatchUp(wake, now, refresh);
      newEpoch, wake := Wrap(newEpoch + shift), Wrap(wake + shift);
    }
    target := Wrap(wake + lead);
    LeadAddedBack(Wrap(epoch + offset), lead, shift);
  }

  datatype Stamp = Stamp(frame: u64, target: u64)

  /** The KMS probe: frame one is not paced, frame two uses the first epoch with a longer lead, and
      the steady phase starts at frame three. */
  class KmsState {
    var submitted: u64
    var firstTarget: u64
    var steadyFirstTarget: u64
    const submitLead: u64
    const refresh: u64
    var failed: bool
    var submitQueue: seq<Stamp>

    constructor (submitLead: u64, refresh: u64, firstTarget: u64, steadyFirstTarget: u64)
      ensures this.submitLead == submitLead && this.refresh == refresh
      ensures this.firstTarget == firstTarget && this.steadyFirstTarget == steadyFirstTarget
      ensures submitted == 0 && submitQueue == [] && !failed
    {
      this.submitLead, this.refresh := submitLead, refresh;
      this.firstTarget, this.steadyFirstTarget := firstTarget, steadyFirstTarget;
      submitted, submitQueue, failed := 0, [], false;
    }

    /** Returns whether the buffer is dropped, and the time slept until, zero for an unpaced frame.
        `writable` and `sleepOk` are the answers of the media framework and of the clock. */
    method OnDecoderInput(writable: bool, now: u64, sleepOk: bool) returns (dropped: bool, wake: u64)
      requires 0 < refresh
      modifies this
      ensures submitted == Wrap(old(submitted) + 1)
      ensures var paced := writable && submitted >= 2 && !old(failed);
              var s := if submitted == 2 then Schedule(old(firstTarget), 0, Max(submitLead, 12_000_000), refresh, now)
                       else Schedule(old(steadyFirstTarget), Wrap(submitted - 3), submitLead, refresh, now);
              && (dropped <==> !writable || (submitted >= 2 && (old(failed) || !sleepOk)))
              && (failed <==> old(failed) || !writable || (paced && !sleepOk))
              && wake == (if paced then s.wake else 0)
              && firstTarget == (if paced && submitted == 2 then s.epoch else old(firstTarget))
              && steadyFirstTarget == (if paced && submitted > 2 then s.epoch else old(steadyFirstTarget))
              && submitQueue == (if dropped then old(submitQueue)
                                 else old(submitQueue) + [Stamp(submitted, if paced then s.target else 0)])
    {
      submitted := Wrap(submitted + 1);
      var frame, target := submitted, 0;
      wake := 0;
      if !writable {
        failed := true;
        return true, 0;
      }
      if frame >= 2 {
        if failed { return true, 0; }
        var epoch := if frame == 2 then firstTarget else steadyFirstTarget;
        var index := if frame == 2 then 0 else frame - 3;
        var lead := if frame == 2 then Max(submitLead, MIN_FIRST_LEAD) else submitLead;
        epoch, target, wake := Pace(epoch, Wrap(index * refresh), lead, refresh, now);
        if frame == 2 { firstTarget := epoch; } else { steadyFirstTarget := epoch; }
        if !sleepOk {
          failed := true;
          return true, wake;
        }
      }
      submitQueue := submitQueue + [Stamp(frame, target)];
      dropped := false;
    }
  }

  /** The pipeline probe computes the wake first and adds the lead back; it paces every frame, and
      none when the lead is zero. */
  class PipelineState {
    var submitted: u64
    var firstTargetPresent: u64
    const submitLead: u64
    const refresh: u64
    var failed: bool
    var submitQueue: seq<Stamp>
    var maxSubmitDepth: nat

    constructor (submitLead: u64, refresh: u64, firstTargetPresent: u64)
      ensures this.submitLead == submitLead && this.refresh == refresh
      ensures this.firstTargetPresent == firstTargetPresent
      ensures submitted == 0 && submitQueue == [] && maxSubmitDepth == 0 && !failed
    {
      this.submitLead, this.refresh, this.firstTargetPresent := submitLead, refresh, firstTargetPresent;
      submitted, submitQueue, maxSubmitDepth, failed := 0, [], 0, false;
    }

    method OnDecoderInput(now: u64, sleepOk: bool) returns (dropped: bool, wake: u64)
      requires 0 < refresh
      modifies this
      ensures submitted == Wrap(old(submitted) + 1)
      ensures var paced := submitLead != 0;
              var s := Schedule(old(firstTargetPresent), Wrap(submitted - 1), submitLead, refresh, now);
              && (dropped <==> paced && !sleepOk) && (failed <==> old(failed) || dropped)
              && wake == (if paced then s.wake else 0)
              && firstTargetPresent == (if paced then s.epoch else old(firstTargetPresent))
              && submitQueue == (if dropped then old(submitQueue)
                                 else old(submitQueue) + [Stamp(submitted, if paced then s.target else 0)])
      ensures maxSubmitDepth == if dropped then old(maxSubmitDepth) else Max(old(maxSubmitDepth), |submitQueue|)
    {
      submitted := Wrap(submitted + 1);
      var target := 0;
      wake := 0;
      if submitLead != 0 {
        var offset := Wrap(Wrap(submitted - 1) * refresh);
        firstTargetPresent, target, wake := PaceByWake(firstTargetPresent, offset, submitLead, refresh, now);
        if !sleepOk {
          failed := true;
          return true, wake;
        }
      }
      submitQueue := submitQueue + [Stamp(submitted, target)];
      maxSubmitDepth := Max(maxSubmitDepth, |submitQueue|);
      dropped := false;
    }
  }

  lemma LeadAddedBack(target: u64, lead: u64, shift: u64)
    ensures Wrap(Wrap(Wrap(target - lead) + shift) + lead) == Wrap(target + shift)
  {
    WrapTwice(shift, target - lead);
    WrapTwice(lead, target - lead + shift);
  }
}
