/** Key-frame recovery on the capture queue, run against the evicting video send queue whose other
    end the transport worker drains concurrently. */
module VideoRecovery {
  import opened NativeQueues
  import opened Wrappers

  datatype Recovery = Recovery(requested: bool, encoding: bool)

  function AfterBegin(r: Recovery): Recovery { if r.requested && !r.encoding then r.(encoding := true) else r }

  function AfterSent(r: Recovery, key: bool, accepted: bool, evicted: bool): Recovery {
    if key && accepted then r.(requested := false)
    else if !accepted || evicted then r.(requested := true)
    else r
  }

  /** The C struct and its two functions. */
  class RecoveryState {
    var requested: bool
    var encoding: bool

    function Value(): Recovery
      reads this
    {
      Recovery(requested, encoding)
    }

    method Begin() returns (force: bool)
      modifies this
      ensures Value() == AfterBegin(old(Value()))
      ensures force <==> old(requested) && !old(encoding)
      ensures requested == old(requested) && encoding == (old(encoding) || force)
    {
      if !requested || encoding { return false; }
      encoding := true;
      return true;
    }

    method Sent(key: bool, accepted: bool, evicted: bool)
      modifies this
      ensures Value() == AfterSent(old(Value()), key, accepted, evicted)
      ensures requested == (if key && accepted then false else if !accepted || evicted then true else old(requested))
      ensures encoding == old(encoding)
    {
      if key && accepted { requested := false; }
      else if !accepted || evicted { requested := true; }
    }
  }

  /** What the endpoint answers to the frame that sendSample submits; `Revoked` is the stream lease
      refusing before the submission, which also ends the capture. */
  datatype Answer = Taken | Refused | Revoked

  datatype Video = Video(
    recovery: Recovery,
    queue: seq<nat>,          // frame numbers in the transport's send queue
    number: nat,              // the last frame number given out
    dequeued: seq<nat>,       // frame numbers the transport worker took
    lastKey: Option<nat>,     // the last accepted key frame
    forced: nat,              // forced key frames in the encoder
    captureFailed: bool)

  datatype Event =
    | Encoded(key: bool, answer: Answer)  // an encoded frame reaches sendSample
    | Dequeue                             // the transport worker pops
    | RequestKey                          // requestKeyFrame: encoder drop, receiver loss, new encoder
    | BeginForced | CompleteForced

  const Start := Video(Recovery(true, false), [], 0, [], None, 0, false)

  function Send(v: Video, key: bool, answer: Answer): Video
    requires |v.queue| <= VIDEO_SEND_CAPACITY
  {
    var n := v.number + 1;
    var full := |v.queue| == VIDEO_SEND_CAPACITY;
    match answer
    case Revoked => v.(captureFailed := true)
    case Refused => v.(number := n, recovery := AfterSent(v.recovery, key, false, false), captureFailed := true)
    case Taken =>
      v.(number := n, queue := Replace(v.queue, VIDEO_SEND_CAPACITY, n),
         recovery := AfterSent(v.recovery, key, true, full), lastKey := if key then Some(n) else v.lastKey)
  }

  function Step(v: Video, e: Event): Video
    requires |v.queue| <= VIDEO_SEND_CAPACITY
  {
    match e
    case Encoded(key, answer) =>
      // A delta frame is skipped, but still numbered, while a key frame is owed.
      if v.recovery.requested && !key then v.(number := v.number + 1) else Send(v, key, answer)
    case Dequeue => if v.queue == [] then v else v.(queue := v.queue[1..], dequeued := v.dequeued + [v.queue[0]])
    case RequestKey => v.(recovery := v.recovery.(requested := true))
    case BeginForced =>
      v.(recovery := AfterBegin(v.recovery),
         forced := v.forced + if v.recovery.requested && !v.recovery.encoding then 1 else 0)
    case CompleteForced =>
      if v.forced == 0 then v else v.(recovery := v.recovery.(encoding := false), forced := v.forced - 1)
  }

  ghost predicate IsRun(vs: seq<Video>, events: seq<Event>) {
    && |vs| == |events| + 1 && vs[0] == Start
    && forall i {:trigger events[i]} | 0 <= i < |events| ::
         |vs[i].queue| <= VIDEO_SEND_CAPACITY && vs[i + 1] == Step(vs[i], events[i])
  }

  /** The numbers from..to, in order. */
  function Range(from: nat, to: nat): seq<nat>
    requires from <= to + 1
  {
    seq(to + 1 - from, i requires 0 <= i => from + i)
  }

  /** `all` ends with exactly the numbers key..number: contiguous, in order, none missing. */
  ghost predicate EndsWith(all: seq<nat>, key: nat, number: nat) {
    && key <= number && |all| >= number + 1 - key
    && all[|all| - (number + 1 - key)..] == Range(key, number)
  }

  ghost predicate Inv(v: Video) {
    && |v.queue| <= VIDEO_SEND_CAPACITY
    && (v.lastKey.None? ==> v.recovery.requested)
    && (v.lastKey.Some? ==> v.lastKey.value <= v.number)
    && (!v.recovery.requested ==> EndsWith(v.dequeued + v.queue, v.lastKey.value, v.number))
    && v.forced == (if v.recovery.encoding then 1 else 0)
  }

  lemma NextNumberExtends(all: seq<nat>, key: nat, number: nat)
    requires EndsWith(all, key, number)
    ensures EndsWith(all + [number + 1], key, number + 1)
  {
    var n := number + 1;
    assert Range(key, n) == Range(key, number) + [n];
    assert (all + [n])[|all| + 1 - (n + 1 - key)..] == all[|all| - (number + 1 - key)..] + [n];
  }

  lemma KeyStartsAfresh(all: seq<nat>, n: nat)
    requires all != [] && all[|all| - 1] == n
    ensures EndsWith(all, n, n)
  {
    assert all[|all| - 1..] == [n] == Range(n, n);
  }

  lemma KeyTakenKeeps(v: Video)
    requires Inv(v)
    ensures Inv(Send(v, true, Taken))
  {
    var w := Send(v, true, Taken);
    assert w.queue[|w.queue| - 1] == w.number;
    KeyStartsAfresh(w.dequeued + w.queue, w.number);
  }

  lemma DeltaTakenKeeps(v: Video)
    requires Inv(v) && !v.recovery.requested
    ensures Inv(Send(v, false, Taken))
  {
    var w := Send(v, false, Taken);
    if !w.recovery.requested {
      NextNumberExtends(v.dequeued + v.queue, v.lastKey.value, v.number);
      assert w.dequeued + w.queue == (v.dequeued + v.queue) + [w.number];
    }
  }

  lemma SendKeeps(v: Video, key: bool, answer: Answer)
    requires Inv(v) && (v.recovery.requested ==> key)
    ensures Inv(Send(v, key, answer))
  {
    match answer
    case Taken => if key { KeyTakenKeeps(v); } else { DeltaTakenKeeps(v); }
    case Refused => case Revoked =>
  }

  lemma StepKeeps(v: Video, e: Event)
    requires Inv(v)
    ensures Inv(Step(v, e))
  {
    match e
    case Encoded(key, answer) => if !(v.recovery.requested && !key) { SendKeeps(v, key, answer); }
    case Dequeue =>
      if v.queue != [] {
        var w := Step(v, e);
        assert w.dequeued + w.queue == v.dequeued + v.queue;
      }
    case _ =>
  }

  lemma {:induction false} RunKeeps(vs: seq<Video>, events: seq<Event>, n: nat)
    requires IsRun(vs, events) && n <= |events|
    ensures Inv(vs[n])
  {
    if n > 0 {
      RunKeeps(vs, events, n - 1);
      assert vs[n] == Step(vs[n - 1], events[n - 1]);
      StepKeeps(vs[n - 1], events[n - 1]);
    }
  }

  /** Whenever no key frame is owed, a key was accepted and every frame numbered since that key has
      been dequeued or is still queued, contiguously; so a frame since the last accepted key that was
      skipped, evicted or refused always leaves a key frame owed. */
  lemma MissingFrameIsOwedAKey(vs: seq<Video>, events: seq<Event>, n: nat, frame: nat)
    requires IsRun(vs, events) && n <= |events|
    ensures !vs[n].recovery.requested ==>
              vs[n].lastKey.Some? && EndsWith(vs[n].dequeued + vs[n].queue, vs[n].lastKey.value, vs[n].number)
    ensures (vs[n].lastKey.Some? && vs[n].lastKey.value <= frame <= vs[n].number
             && frame !in vs[n].dequeued && frame !in vs[n].queue) ==> vs[n].recovery.requested
  {
    RunKeeps(vs, events, n);
    var v := vs[n];
    if !v.recovery.requested && v.lastKey.value <= frame <= v.number {
      var all, k := v.dequeued + v.queue, v.lastKey.value;
      var tail := all[|all| - (v.number + 1 - k)..];
      assert Range(k, v.number)[frame - k] == frame;
      assert tail[frame - k] == frame;
      assert all[|all| - (v.number + 1 - k) + (frame - k)] == frame;
    }
  }

  /** An accepted key settles the debt: it is queued last and no key is owed.  The frames encoded after
      it are taken, not skipped, and as long as each finds room no new key is owed; a full queue, a
      refusal or a request owes one again. */
  lemma KeySettlesTheDebt(vs: seq<Video>, events: seq<Event>, n: nat)
    requires IsRun(vs, events) && n < |events| && events[n] == Encoded(true, Taken)
    ensures var v := vs[n + 1];
            && !v.recovery.requested && v.lastKey == Some(v.number) && v.number == vs[n].number + 1
            && v.queue != [] && v.queue[|v.queue| - 1] == v.number
  {
    RunKeeps(vs, events, n);
    assert vs[n + 1] == Step(vs[n], events[n]);
  }

  lemma DeltaFollowsKey(vs: seq<Video>, events: seq<Event>, n: nat)
    requires IsRun(vs, events) && n < |events| && events[n] == Encoded(false, Taken) && !vs[n].recovery.requested
    ensures var v, w := vs[n], vs[n + 1];
            && w.number == v.number + 1 && w.queue != [] && w.queue[|w.queue| - 1] == w.number
            && (w.recovery.requested <==> |v.queue| == 4)
            && (|v.queue| < 4 ==> w.queue == v.queue + [w.number])
  {
    RunKeeps(vs, events, n);
    assert vs[n + 1] == Step(vs[n], events[n]);
  }

  /** While a key is owed, a delta frame only uses up its number; nothing else ever makes the host skip
      a frame. */
  lemma OnlyOwedFramesAreSkipped(vs: seq<Video>, events: seq<Event>, n: nat, key: bool)
    requires IsRun(vs, events) && n < |events| && events[n] == Encoded(key, Taken)
    ensures (vs[n + 1].number !in vs[n + 1].queue) ==> vs[n].recovery.requested && !key
    ensures vs[n].recovery.requested && !key ==> vs[n + 1] == vs[n].(number := vs[n].number + 1)
  {
    RunKeeps(vs, events, n);
    assert vs[n + 1] == Step(vs[n], events[n]);
    var w := vs[n + 1];
    if !(vs[n].recovery.requested && !key) { assert w.queue[|w.queue| - 1] == w.number; }
  }

  /** A key is owed after an event exactly when it was owed before and no key was taken, or the event
      asked for one, refused a frame or evicted one for a delta frame. */
  lemma OwedIff(vs: seq<Video>, events: seq<Event>, n: nat)
    requires IsRun(vs, events) && n < |events|
    ensures var v, w, e := vs[n], vs[n + 1], events[n];
            w.recovery.requested <==>
              || e == RequestKey
              || (e.Encoded? && e.answer == Refused)
              || (v.recovery.requested && e != Encoded(true, Taken))
              || (e == Encoded(false, Taken) && |v.queue| == 4)
  {
    RunKeeps(vs, events, n);
    assert vs[n + 1] == Step(vs[n], events[n]);
    match events[n]
    case Encoded(_, _) => case Dequeue => case RequestKey => case BeginForced => case CompleteForced =>
  }
}
