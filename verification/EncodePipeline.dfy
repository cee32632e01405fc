/** The two-slot hand-off between the capture/submit loop and the output worker of the encoder
    probe (queue depth one).  Each critical section, each fill and each drain is one step. */
module EncodePipeline {
  const SLOTS := 2

  /** The submit thread; `frame` counts from zero. */
  datatype Submitter =
    | AwaitSlot(frame: nat)
    | Fill(frame: nat)
    | Publish(frame: nat)
    | CloseInput(failed: bool)
    | Join(failed: bool)
    | Finished(failed: bool)

  datatype Worker =
    | AwaitOutput
    | Drain(slot: nat)
    | Release(slot: nat)
    | Report(slot: nat)   // the drain threw
    | Exited

  datatype Pipe = Pipe(
    inUse: seq<bool>,
    pending: seq<nat>,
    inputDone: bool,
    workerError: bool,
    surface: seq<nat>,    // the frame number (from one) each slot's buffers hold
    submitter: Submitter,
    worker: Worker,
    drained: seq<nat>)    // frame numbers written out

  datatype Event = Submit(ok: bool) | Work(ok: bool)

  const Start := Pipe([false, false], [], false, false, [0, 0], AwaitSlot(0), AwaitOutput, [])

  predicate Shape(p: Pipe) {
    && |p.inUse| == SLOTS && |p.surface| == SLOTS
    && (forall i | 0 <= i < |p.pending| :: p.pending[i] < SLOTS)
    && (p.worker.Drain? || p.worker.Release? || p.worker.Report? ==> p.worker.slot < SLOTS)
  }

  function SubmitStep(p: Pipe, count: nat, ok: bool): (r: Pipe)
    requires Shape(p)
    ensures Shape(r)
  {
    match p.submitter
    case AwaitSlot(f) =>
      if f >= count then p.(submitter := CloseInput(false))
      else if p.workerError then p.(submitter := CloseInput(true))
      else if p.inUse[f % SLOTS] then p
      else p.(submitter := Fill(f))
    case Fill(f) =>
      if ok then p.(surface := p.surface[f % SLOTS := f + 1], submitter := Publish(f))
      else p.(submitter := CloseInput(true))
    case Publish(f) =>
      p.(inUse := p.inUse[f % SLOTS := true], pending := p.pending + [f % SLOTS], submitter := AwaitSlot(f + 1))
    case CloseInput(failed) => p.(inputDone := true, submitter := Join(failed))
    case Join(failed) => if p.worker.Exited? then p.(submitter := Finished(failed || p.workerError)) else p
    case Finished(_) => p
  }

  function WorkStep(p: Pipe, ok: bool): (r: Pipe)
    requires Shape(p)
    ensures Shape(r)
  {
    match p.worker
    case AwaitOutput =>
      if p.pending != [] then p.(pending := p.pending[1..], worker := Drain(p.pending[0]))
      else if p.inputDone then p.(worker := Exited)
      else p
    case Drain(s) =>
      if ok then p.(drained := p.drained + [p.surface[s]], worker := Release(s)) else p.(worker := Report(s))
    case Release(s) => p.(inUse := p.inUse[s := false], worker := AwaitOutput)
    case Report(s) => p.(workerError := true, inputDone := true, worker := Exited)
    case Exited => p
  }

  function Step(p: Pipe, count: nat, e: Event): (r: Pipe)
    requires Shape(p)
    ensures Shape(r)
  {
    match e
    case Submit(ok) => SubmitStep(p, count, ok)
    case Work(ok) => WorkStep(p, ok)
  }

  ghost predicate IsRun(ps: seq<Pipe>, events: seq<Event>, count: nat) {
    && |ps| == |events| + 1 && ps[0] == Start
    && forall i {:trigger events[i]} | 0 <= i < |events| :: Shape(ps[i]) && ps[i + 1] == Step(ps[i], count, events[i])
  }

  // ---------------------------------------------------------------- the invariant

  function Busy(w: Worker): nat { if w.Drain? || w.Report? then 1 else 0 }

  /** How many frames have been handed over. */
  function Handed(p: Pipe): nat { |p.drained| + Busy(p.worker) + |p.pending| }

  /** The oldest frame whose slot is still marked in use. */
  function Oldest(p: Pipe): int {
    if p.worker.Release? then |p.drained| - 1 else |p.drained|
  }

  predicate Holds(p: Pipe, s: int) {
    (p.worker.Drain? || p.worker.Release? || p.worker.Report?) && p.worker.slot == s
  }

  /** A slot about to be filled or published is neither pending nor with the worker. */
  ghost predicate SlotFree(p: Pipe)
    requires Shape(p)
  {
    p.submitter.Fill? || p.submitter.Publish? ==>
      var s := p.submitter.frame % SLOTS;
      s !in p.pending && !Holds(p, s) && (!p.workerError ==> !p.inUse[s])
  }

  /** The frames between Oldest and Handed own the slots, alternating; the drained ones are done. */
  ghost predicate HandOff(p: Pipe)
    requires Shape(p)
  {
    var d, lo, n := |p.drained|, Oldest(p), Handed(p);
    && 0 <= lo <= n <= lo + SLOTS
    && (forall i | 0 <= i < |p.pending| :: p.pending[i] == (d + Busy(p.worker) + i) % SLOTS)
    && (Holds(p, 0) || Holds(p, 1) ==> p.worker.slot == lo % SLOTS)
    && (forall g | d <= g < n :: p.surface[g % SLOTS] == g + 1)
    && (forall s | 0 <= s < SLOTS :: p.inUse[s] <==> Owned(s, lo, n))
  }

  ghost predicate SubmitterOk(p: Pipe, count: nat)
    requires Shape(p)
  {
    match p.submitter
    case AwaitSlot(f) => f == Handed(p) <= count
    case Fill(f) => f == Handed(p) < count
    case Publish(f) => f == Handed(p) < count && p.surface[f % SLOTS] == f + 1
    case CloseInput(failed) => !failed ==> Handed(p) == count
    case Join(failed) => !failed ==> Handed(p) == count
    case Finished(failed) => p.worker.Exited? && (!failed ==> Handed(p) == count)
  }

  ghost predicate Inv(p: Pipe, count: nat)
    requires Shape(p)
  {
    && SlotFree(p)
    && (forall i | 0 <= i < |p.drained| :: p.drained[i] == i + 1)
    && (p.workerError ==> p.worker.Exited?)
    && (p.submitter.Finished? ==> p.worker.Exited? && (p.workerError ==> p.submitter.failed))
    && (!p.workerError ==>
          && HandOff(p) && SubmitterOk(p, count)
          && (p.inputDone <==> p.submitter.Join? || p.submitter.Finished?)
          && (p.worker.Exited? ==> p.pending == [] && p.inputDone))
  }

  /** If the next frame's slot is free, at most one frame is outstanding. */
  lemma FreeSlotMeansRoom(p: Pipe)
    requires Shape(p) && HandOff(p) && !p.inUse[Handed(p) % SLOTS]
    ensures Handed(p) <= Oldest(p) + 1
  {
  }

  /** So neither the queue nor the worker holds that slot. */
  lemma FreeSlotIsUnshared(p: Pipe)
    requires Shape(p) && HandOff(p) && !p.inUse[Handed(p) % SLOTS]
    ensures Handed(p) % SLOTS !in p.pending && !Holds(p, Handed(p) % SLOTS)
  {
    FreeSlotMeansRoom(p);
    var d, n := |p.drained| + Busy(p.worker), Handed(p);
    forall i | 0 <= i < |p.pending| ensures p.pending[i] != n % SLOTS {
      assert i == 0 && n == d + 1;
      Alternate(d);
    }
    Alternate(Oldest(p));
  }

  lemma Alternate(a: int)
    ensures a % SLOTS != (a + 1) % SLOTS
  {
  }

  lemma FillKeeps(p: Pipe, count: nat, ok: bool)
    requires Shape(p) && Inv(p, count) && p.submitter.Fill?
    ensures Inv(SubmitStep(p, count, ok), count)
  {
    if !p.workerError {
      FreeSlotMeansRoom(p);
      if ok { FillKeepsHandOff(p, SubmitStep(p, count, ok)); } else { HandOffIsShared(p, SubmitStep(p, count, ok)); }
    }
  }

  /** Filling the next slot leaves the handed-over surfaces alone. */
  lemma FillKeepsHandOff(p: Pipe, q: Pipe)
    requires Shape(p) && Shape(q) && HandOff(p) && Handed(p) <= Oldest(p) + 1
    requires q == p.(surface := p.surface[Handed(p) % SLOTS := Handed(p) + 1], submitter := q.submitter)
    ensures HandOff(q) && Handed(q) == Handed(p)
  {
    forall g | |p.drained| <= g < Handed(p) ensures q.surface[g % SLOTS] == g + 1 {
      assert g == Handed(p) - 1;
      Alternate(g);
    }
  }

  lemma AwaitKeeps(p: Pipe, count: nat, ok: bool)
    requires Shape(p) && Inv(p, count) && p.submitter.AwaitSlot?
    ensures Inv(SubmitStep(p, count, ok), count)
  {
    var f, q := p.submitter.frame, SubmitStep(p, count, ok);
    if !p.workerError {
      HandOffIsShared(p, q);
      if f < count && !p.inUse[f % SLOTS] { FreeSlotIsUnshared(p); }
    }
  }

  /** The hand-off does not depend on where the submit thread stands. */
  lemma HandOffIsShared(p: Pipe, q: Pipe)
    requires Shape(p) && Shape(q) && HandOff(p) && q == p.(submitter := q.submitter, inputDone := q.inputDone)
    ensures HandOff(q) && Handed(q) == Handed(p)
  {
  }

  lemma PublishKeeps(p: Pipe, count: nat, ok: bool)
    requires Shape(p) && Inv(p, count) && p.submitter.Publish?
    ensures Inv(SubmitStep(p, count, ok), count)
  {
    if !p.workerError {
      FreeSlotMeansRoom(p);
      PublishKeepsHandOff(p, SubmitStep(p, count, ok));
    }
  }

  lemma PublishKeepsHandOff(p: Pipe, q: Pipe)
    requires Shape(p) && HandOff(p) && Handed(p) <= Oldest(p) + 1
    requires var s := Handed(p) % SLOTS;
             && p.surface[s] == Handed(p) + 1
             && q == p.(inUse := p.inUse[s := true], pending := p.pending + [s], submitter := q.submitter)
    ensures Shape(q) && HandOff(q) && Handed(q) == Handed(p) + 1
  {
    assert Oldest(q) == Oldest(p);
    MarkSlot(p.inUse, q.inUse, Oldest(p), Handed(p));
    assert forall i | 0 <= i < |p.pending| :: q.pending[i] == p.pending[i];
    assert forall g | |p.drained| <= g < Handed(p) :: p.surface[g % SLOTS] == g + 1;
  }

  /** The slots of the frames from lo up to n. */
  predicate Owned(s: int, lo: int, n: int) {
    (lo < n && lo % SLOTS == s) || (lo + 1 < n && (lo + 1) % SLOTS == s)
  }

  lemma MarkSlot(inUse: seq<bool>, marked: seq<bool>, lo: nat, n: nat)
    requires |inUse| == SLOTS && lo <= n <= lo + 1 && forall s | 0 <= s < SLOTS :: inUse[s] <==> Owned(s, lo, n)
    requires marked == inUse[n % SLOTS := true]
    ensures forall s | 0 <= s < SLOTS :: marked[s] <==> Owned(s, lo, n + 1)
  {
    Alternate(lo);
  }

  lemma SubmitKeeps(p: Pipe, count: nat, ok: bool)
    requires Shape(p) && Inv(p, count)
    ensures Inv(SubmitStep(p, count, ok), count)
  {
    match p.submitter
    case AwaitSlot(_) => AwaitKeeps(p, count, ok);
    case Fill(_) => FillKeeps(p, count, ok);
    case Publish(_) => PublishKeeps(p, count, ok);
    case CloseInput(_) => CloseKeeps(p, count, ok);
    case Join(_) => CloseKeeps(p, count, ok);
    case Finished(_) =>
  }

  lemma CloseKeeps(p: Pipe, count: nat, ok: bool)
    requires Shape(p) && Inv(p, count) && (p.submitter.CloseInput? || p.submitter.Join?)
    ensures Inv(SubmitStep(p, count, ok), count)
  {
    if !p.workerError { HandOffIsShared(p, SubmitStep(p, count, ok)); }
  }

  lemma TakeKeeps(p: Pipe, count: nat)
    requires Shape(p) && Inv(p, count) && p.worker.AwaitOutput? && p.pending != []
    ensures Inv(WorkStep(p, true), count)
  {
  }

  lemma DrainKeeps(p: Pipe, count: nat, ok: bool)
    requires Shape(p) && Inv(p, count) && p.worker.Drain?
    ensures Inv(WorkStep(p, ok), count)
  {
  }

  lemma ReleaseKeeps(p: Pipe, count: nat)
    requires Shape(p) && Inv(p, count) && p.worker.Release?
    ensures Inv(WorkStep(p, true), count)
  {
  }

  lemma WorkKeeps(p: Pipe, count: nat, ok: bool)
    requires Shape(p) && Inv(p, count)
    ensures Inv(WorkStep(p, ok), count)
  {
    match p.worker
    case AwaitOutput => if p.pending != [] { TakeKeeps(p, count); }
    case Drain(_) => DrainKeeps(p, count, ok);
    case Release(_) => ReleaseKeeps(p, count);
    case Report(_) => case Exited =>
  }

  lemma {:induction false} RunKeeps(ps: seq<Pipe>, events: seq<Event>, count: nat, n: nat)
    requires IsRun(ps, events, count) && n <= |events|
    ensures Shape(ps[n]) && Inv(ps[n], count)
  {
    if n > 0 {
      RunKeeps(ps, events, count, n - 1);
      assert ps[n] == Step(ps[n - 1], count, events[n - 1]);
      match events[n - 1] {
        case Submit(ok) => SubmitKeeps(ps[n - 1], count, ok);
        case Work(ok) => WorkKeeps(ps[n - 1], count, ok);
      }
    }
  }

  // ---------------------------------------------------------------- what every run satisfies

  /** A slot is filled only while it is neither pending nor being drained, even after errors; what
      has been drained is always 1, 2, 3, ... in order; and a run that finishes without an error has
      drained every frame exactly once. */
  lemma DrainsEveryFrameInOrder(ps: seq<Pipe>, events: seq<Event>, count: nat, n: nat)
    requires IsRun(ps, events, count) && n <= |events|
    ensures var p := ps[n];
            && (p.submitter.Fill? ==>
                  p.submitter.frame % SLOTS !in p.pending && !Holds(p, p.submitter.frame % SLOTS))
            && (forall i | 0 <= i < |p.drained| :: p.drained[i] == i + 1)
            && (p.submitter == Finished(false) ==> p.drained == seq(count, i requires 0 <= i => i + 1))
  {
    RunKeeps(ps, events, count, n);
  }

  /** The hand-off never deadlocks: until the submit thread has finished, one of the two threads can
      take a step. */
  lemma NeverDeadlocks(ps: seq<Pipe>, events: seq<Event>, count: nat, n: nat)
    requires IsRun(ps, events, count) && n <= |events| && !ps[n].submitter.Finished?
    ensures Shape(ps[n]) && (SubmitStep(ps[n], count, true) != ps[n] || WorkStep(ps[n], true) != ps[n])
  {
    RunKeeps(ps, events, count, n);
    var p := ps[n];
    if p.submitter.AwaitSlot? && !p.workerError && p.inUse[p.submitter.frame % SLOTS] && p.worker.AwaitOutput? {
      assert Handed(p) > |p.drained|;
    }
  }

  // ---------------------------------------------------------------- runs that exist

  ghost predicate Reachable(p: Pipe, count: nat) {
    exists ps: seq<Pipe>, events: seq<Event> :: IsRun(ps, events, count) && ps[|events|] == p
  }

  lemma ReachNext(p: Pipe, count: nat, e: Event, q: Pipe)
    requires Reachable(p, count) && Shape(p) && q == Step(p, count, e)
    ensures Reachable(q, count)
  {
    var ps: seq<Pipe>, events: seq<Event> :| IsRun(ps, events, count) && ps[|events|] == p;
    var all, es := ps + [q], events + [e];
    forall i {:trigger all[i]} {:trigger es[i]} | 0 <= i < |es| ensures Shape(all[i]) && all[i + 1] == Step(all[i], count, es[i]) {
      if i < |events| { assert es[i] == events[i]; }
    }
    assert IsRun(all, es, count);
  }

  /** Between two frames: nothing pending, nothing in use. */
  predicate Resting(p: Pipe, frames: nat) {
    && p.inUse == [false, false] && p.pending == [] && !p.inputDone && !p.workerError && |p.surface| == 2
    && p.submitter == AwaitSlot(frames) && p.worker == AwaitOutput && p.drained == seq(frames, i requires 0 <= i => i + 1)
  }

  /** One frame goes through. */
  lemma OneFrameThrough(p: Pipe, count: nat, frames: nat) returns (q: Pipe)
    requires Reachable(p, count) && Resting(p, frames) && frames < count
    ensures Reachable(q, count) && Resting(q, frames + 1)
  {
    var s := frames % SLOTS;
    var a := p.(submitter := Fill(frames));
    var b := a.(surface := p.surface[s := frames + 1], submitter := Publish(frames));
    ReachNext(p, count, Submit(true), a);
    ReachNext(a, count, Submit(true), b);
    var d := b.(inUse := [false, false][s := true], pending := [s], submitter := AwaitSlot(frames + 1));
    ReachNext(b, count, Submit(true), d);
    q := DrainOne(d, count, frames);
  }

  lemma DrainOne(d: Pipe, count: nat, frames: nat) returns (q: Pipe)
    requires Reachable(d, count) && |d.surface| == 2 && d.surface[frames % SLOTS] == frames + 1
    requires d.inUse == [false, false][frames % SLOTS := true] && d.pending == [frames % SLOTS] && !d.inputDone && !d.workerError
    requires d.submitter == AwaitSlot(frames + 1) && d.worker == AwaitOutput && d.drained == seq(frames, i requires 0 <= i => i + 1)
    ensures Reachable(q, count) && Resting(q, frames + 1)
  {
    var s := frames % SLOTS;
    var f := d.(pending := [], worker := Drain(s));
    var g := f.(drained := d.drained + [frames + 1], worker := Release(s));
    q := g.(inUse := [false, false], worker := AwaitOutput);
    ReachNext(d, count, Work(true), f);
    ReachNext(f, count, Work(true), g);
    assert g.inUse[s := false] == [false, false];
    ReachNext(g, count, Work(true), q);
  }

  lemma {:induction false} FramesGoThrough(count: nat, frames: nat) returns (p: Pipe)
    requires frames <= count
    ensures Reachable(p, count) && Resting(p, frames)
  {
    if frames == 0 {
      p := Start;
      assert IsRun([Start], [], count);
    } else {
      p := FramesGoThrough(count, frames - 1);
      p := OneFrameThrough(p, count, frames - 1);
    }
  }

  /** For every number of frames some run finishes without an error, all frames drained. */
  lemma CanFinish(count: nat) returns (p: Pipe)
    ensures Reachable(p, count) && p.submitter == Finished(false)
    ensures p.drained == seq(count, i requires 0 <= i => i + 1)
  {
    var a := FramesGoThrough(count, count);
    var b := a.(submitter := CloseInput(false));
    var d := b.(submitter := Join(false), inputDone := true);
    var f := d.(worker := Exited);
    p := f.(submitter := Finished(false));
    ReachNext(a, count, Submit(true), b);
    ReachNext(b, count, Submit(true), d);
    ReachNext(d, count, Work(true), f);
    ReachNext(f, count, Submit(true), p);
  }
}
