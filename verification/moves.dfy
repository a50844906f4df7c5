/** How a step can move a future through its life, what closing cuts off, and what poison does. */
module Moves {
  import opened SemaphoreStates
  import opened QueueModel
  import opened ListFacts
  import opened Machine
  import opened Lifecycle

  /** A queue that is open and sound hands out permits and links nodes. */
  predicate Admits<S, P, T, O>(w: World<S, P, T, O>) {
    !w.core.closed && !w.core.poisoned
  }

  /** From `a` to `b` in any number of steps; only an admitting queue links or grants. Results
      are claimed unchanged, or dropped. */
  ghost predicate Move<P, T>(admits: bool, a: Waiter<P, T>, b: Waiter<P, T>) {
    && a.request == b.request
    && match a.phase
       case Initial(_) => b.phase == a.phase || (b.phase.Done? && !b.phase.ending.Claimed?) || admits
       case Linked =>
         || b.phase.Linked? || b.phase.RemovedErr? || (b.phase.Done? && !b.phase.ending.Claimed?)
         || (admits && (b.phase.RemovedOk? || b.phase.Done?))
       case RemovedOk(permit) =>
         b.phase == a.phase || b.phase == Done(Claimed(permit)) || b.phase == Done(Cancelled)
       case RemovedErr(back) =>
         || b.phase == a.phase || b.phase == Done(Cancelled)
         || b.phase == Done(if back.Some? then Rejected(back.value) else Aborted)
       case Done(_) => b.phase == a.phase
  }

  lemma AttemptAdmits<S, P, T, O>(r: Rules<S, P, T, O>, c: Core<S, P, T, O>, params: P, fair: bool)
    requires c.closed ==> r.closeable
    ensures var (d, outcome) := Attempt(r, c, params, fair);
            outcome.Acquired? || outcome.Enqueue? ==> !c.closed && !c.poisoned
  {
  }

  lemma PollMoves<S, P, T, O>(r: Rules<S, P, T, O>, w: World<S, P, T, O>, id: nat, waker: nat)
    requires Safe(r, w) && id < |w.core.waiters|
    ensures Move(Admits(w), w.core.waiters[id], PollCore(r, w.core, id, waker).0.waiters[id])
  {
    var c := w.core;
    PollFrame(r, c, id, waker);
    match c.waiters[id].phase
    case Initial(params) =>
      AttemptFrame(r, DrawTicket(c, id), params, true);
      AttemptAdmits(r, DrawTicket(c, id), params, true);
    case Linked => FindsLinked(c.list, c.waiters, id);
    case _ =>
  }

  lemma DetachMoves<S, P, T, O>(r: Rules<S, P, T, O>, c: Core<S, P, T, O>, x: nat, id: nat)
    requires Findable(c, x) && x < |c.waiters| && id < |c.waiters|
    ensures var d := Detach(r, c, x).0;
            && |d.waiters| == |c.waiters| && Move(false, c.waiters[id], d.waiters[id])
            && d.closed == c.closed && (c.poisoned ==> d.poisoned)
  {
  }

  lemma BeforeMoves<S, P, T, O>(r: Rules<S, P, T, O>, w: World<S, P, T, O>, step: Step<S, P, T>, id: nat)
    requires Safe(r, w) && id < |w.core.waiters|
    ensures var v := Before(r, w, step);
            id < |v.core.waiters| && Move(Admits(w), w.core.waiters[id], v.core.waiters[id])
  {
    match step
    case Poll(x, waker) =>
      if x < |w.core.waiters| {
        PollFrame(r, w.core, x, waker);
        if x == id { PollMoves(r, w, id, waker); }
      }
    case Cancel(x) =>
      if x < |w.core.waiters| { SoundFinds(r, w.core, x); DetachMoves(r, w.core, x, id); }
    case _ => OthersFrame(r, w, step);
  }

  /** Polls and cancels apart, no step touches a node outside its round. */
  lemma OthersFrame<S, P, T, O>(r: Rules<S, P, T, O>, w: World<S, P, T, O>, step: Step<S, P, T>)
    requires !step.Poll? && !step.Cancel?
    ensures var v := Before(r, w, step).core;
            && v.list == w.core.list && v.len == w.core.len
            && v.closed == w.core.closed && v.discarded == w.core.discarded
            && |v.waiters| >= |w.core.waiters| && v.waiters[..|w.core.waiters|] == w.core.waiters
            && (v.waiters == w.core.waiters || step.New?)
            && (w.core.poisoned && !step.ClearPoison? ==> v.poisoned)
  {
    if step.Try? { AttemptFrame(r, w.core, step.params, step.fair); }
  }

  /** Servicing grants only while the queue admits; closing only fails. */
  lemma RoundMoves<S, P, T, O>(r: Rules<S, P, T, O>, w: World<S, P, T, O>, i: nat, id: nat)
    requires Safe(r, w) && i < |w.crews| && id < |w.core.waiters|
    ensures Move(Admits(w), w.core.waiters[id], Round(r, w, i).core.waiters[id])
    ensures |Round(r, w, i).core.waiters| == |w.core.waiters|
    ensures w.core.closed ==> Round(r, w, i).core.closed
    ensures w.core.poisoned ==> Round(r, w, i).core.poisoned
  {
    var c := w.core;
    assert Occurs(c.list, id) == if IsLinked(c.waiters, id) then 1 else 0;
    if w.crews[i].closing {
      CloseSplits(c, r.capacity);
      SettleAt(c.waiters, CloseRemoved(c, r.capacity), id);
      assert Occurs(c.list, id) == Occurs(c.list[Min(r.capacity, |c.list|)..], id)
                                 + Occurs(Entries(CloseRemoved<S, P, T, O>(c, r.capacity)), id);
    } else {
      CheckSplits(r, c, r.capacity);
      var k := CheckScan(r, c, r.capacity);
      SettleAt(c.waiters, k.removed, id);
      assert Occurs(c.list, id) == Occurs(k.kept, id) + Occurs(Entries(k.removed), id);
    }
  }

  /** A round touches only nodes that were linked. */
  lemma RoundSkips<S, P, T, O>(r: Rules<S, P, T, O>, w: World<S, P, T, O>, i: nat, id: nat)
    requires Safe(r, w) && i < |w.crews| && id < |w.core.waiters| && !IsLinked(w.core.waiters, id)
    ensures Round(r, w, i).core.waiters[id] == w.core.waiters[id]
  {
    var c := w.core;
    assert Occurs(c.list, id) == 0;
    if w.crews[i].closing {
      CloseSplits(c, r.capacity);
      SettleAt(c.waiters, CloseRemoved(c, r.capacity), id);
      assert Occurs(c.list, id) == Occurs(c.list[Min(r.capacity, |c.list|)..], id)
                                 + Occurs(Entries(CloseRemoved<S, P, T, O>(c, r.capacity)), id);
    } else {
      CheckSplits(r, c, r.capacity);
      var k := CheckScan(r, c, r.capacity);
      SettleAt(c.waiters, k.removed, id);
      assert Occurs(c.list, id) == Occurs(k.kept, id) + Occurs(Entries(k.removed), id);
    }
  }

  lemma StepMoves<S, P, T, O>(r: Rules<S, P, T, O>, w: World<S, P, T, O>, step: Step<S, P, T>, id: nat)
    requires Safe(r, w) && id < |w.core.waiters|
    ensures var v := Do(r, w, step);
            id < |v.core.waiters| && Move(Admits(w), w.core.waiters[id], v.core.waiters[id])
  {
    BeforeKeepsSafe(r, w, step);
    BeforeMoves(r, w, step, id);
    var v := Before(r, w, step);
    match Then(r, w, step)
    case Nothing =>
    case Check =>
      StaysShut(r, w, step);
      RoundMoves(r, Spawn(v, false), |v.crews|, id);
    case CloseAll => RoundMoves(r, Spawn(w, true), |w.crews|, id);
    case Again(i) => RoundMoves(r, w, i, id);
  }

  lemma PollKeepsPoison<S, P, T, O>(r: Rules<S, P, T, O>, c: Core<S, P, T, O>, id: nat, waker: nat)
    requires id < |c.waiters| && c.poisoned
    ensures PollCore(r, c, id, waker).0.poisoned
  {
    if c.waiters[id].phase.Initial? { FirstPollPoison(r, c, id, waker); }
  }

  lemma PollStaysShut<S, P, T, O>(r: Rules<S, P, T, O>, c: Core<S, P, T, O>, id: nat, waker: nat)
    requires Sound(r, c) && id < |c.waiters|
    ensures var d := PollCore(r, c, id, waker).0;
            d.closed == c.closed && (c.poisoned ==> d.poisoned)
  {
    PollFrame(r, c, id, waker);
    if c.poisoned { PollKeepsPoison(r, c, id, waker); }
  }

  lemma BeforeStaysShut<S, P, T, O>(r: Rules<S, P, T, O>, w: World<S, P, T, O>, step: Step<S, P, T>)
    requires Safe(r, w)
    ensures w.core.closed ==> Before(r, w, step).core.closed
    ensures w.core.poisoned && !step.ClearPoison? ==> Before(r, w, step).core.poisoned
  {
    match step
    case Poll(x, waker) =>
      if x < |w.core.waiters| { PollStaysShut(r, w.core, x, waker); }
    case Cancel(x) =>
      if x < |w.core.waiters| { SoundFinds(r, w.core, x); DetachMoves(r, w.core, x, x); }
    case _ => OthersFrame(r, w, step);
  }

  /** Nothing reopens a closed queue, and only `clear_poison` lifts poison. */
  lemma StaysShut<S, P, T, O>(r: Rules<S, P, T, O>, w: World<S, P, T, O>, step: Step<S, P, T>)
    requires Safe(r, w)
    ensures w.core.closed ==> Before(r, w, step).core.closed && Do(r, w, step).core.closed
    ensures w.core.poisoned && !step.ClearPoison? ==> Before(r, w, step).core.poisoned && Do(r, w, step).core.poisoned
  {
    BeforeStaysShut(r, w, step);
  }

  /** No step of `steps` clears poison. */
  predicate NoClear<S, P, T>(steps: seq<Step<S, P, T>>) {
    forall i :: 0 <= i < |steps| ==> !steps[i].ClearPoison?
  }

  /** Whatever runs after `closed` is set, or while poison is not cleared, nothing is linked and
      nothing granted: each future keeps its result, claims or drops it, fails or is cancelled. */
  lemma {:induction false} ShutRunMoves<S, P, T, O>(
      r: Rules<S, P, T, O>, w: World<S, P, T, O>, steps: seq<Step<S, P, T>>, id: nat)
    requires Safe(r, w) && id < |w.core.waiters|
    requires w.core.closed || (w.core.poisoned && NoClear(steps))
    ensures var v := Exec(r, w, steps);
            && (w.core.closed ==> v.core.closed) && (NoClear(steps) && w.core.poisoned ==> v.core.poisoned)
            && id < |v.core.waiters| && Move(false, w.core.waiters[id], v.core.waiters[id])
    decreases |steps|
  {
    if steps == [] {
    } else {
      StepKeepsSafe(r, w, steps[0]);
      StepMoves(r, w, steps[0], id);
      StaysShut(r, w, steps[0]);
      ShutRunMoves(r, Do(r, w, steps[0]), steps[1..], id);
    }
  }

  lemma {:induction false} ShutRunStays<S, P, T, O>(
      r: Rules<S, P, T, O>, w: World<S, P, T, O>, steps: seq<Step<S, P, T>>)
    requires Safe(r, w) && (w.core.closed || (w.core.poisoned && NoClear(steps)))
    ensures var v := Exec(r, w, steps);
            && Safe(r, v) && (w.core.closed ==> v.core.closed)
            && (w.core.poisoned && NoClear(steps) ==> v.core.poisoned)
    decreases |steps|
  {
    if steps == [] {
    } else {
      StepKeepsSafe(r, w, steps[0]);
      StaysShut(r, w, steps[0]);
      ShutRunStays(r, Do(r, w, steps[0]), steps[1..]);
    }
  }

  /** In every run of a queue that is closed, or poisoned and not cleared, `try_acquire` hands out
      nothing, gives the params back, and changes nothing whatsoever. */
  lemma ShutRunTry<S, P, T, O>(
      r: Rules<S, P, T, O>, w: World<S, P, T, O>, steps: seq<Step<S, P, T>>, params: P, fair: bool)
    requires Safe(r, w) && (w.core.closed || (w.core.poisoned && NoClear(steps)))
    ensures var v := Exec(r, w, steps);
            && Do(r, v, Try(params, fair)) == v
            && Attempt(r, v.core, params, fair)
                 == (v.core, if v.core.poisoned then Poisoned(params) else Closed(params))
  {
    ShutRunStays(r, w, steps);
  }

  /** The step mints a permit, or claims one that was granted before. */
  predicate HandsOut<S, P, T, O>(w: World<S, P, T, O>, step: Step<S, P, T>) {
    step.Mint? || (step.Poll? && step.id < |w.core.waiters| && w.core.waiters[step.id].phase.RemovedOk?)
  }

  function HandedOut<S, P, T, O>(r: Rules<S, P, T, O>, w: World<S, P, T, O>, steps: seq<Step<S, P, T>>): nat
    decreases |steps|
  {
    if steps == [] then 0
    else (if HandsOut(w, steps[0]) then 1 else 0) + HandedOut(r, Do(r, w, steps[0]), steps[1..])
  }

  lemma ShutPollHandsOut<S, P, T, O>(r: Rules<S, P, T, O>, c: Core<S, P, T, O>, id: nat, waker: nat)
    requires Sound(r, c) && id < |c.waiters| && (c.closed || c.poisoned)
    ensures PollCore(r, c, id, waker).1.ReadyOk? <==> c.waiters[id].phase.RemovedOk?
  {
    SoundFinds(r, c, id);
    if c.waiters[id].phase.Initial? { AttemptAdmits(r, DrawTicket(c, id), c.waiters[id].phase.params, true); }
  }

  /** In every run of a shut queue the permits handed out are those minted by users and those that
      were granted before; there is no other. */
  lemma {:induction false} ShutRunHandsOut<S, P, T, O>(
      r: Rules<S, P, T, O>, w: World<S, P, T, O>, steps: seq<Step<S, P, T>>)
    requires Safe(r, w) && (w.core.closed || (w.core.poisoned && NoClear(steps)))
    ensures |Exec(r, w, steps).held| == |w.held| + HandedOut(r, w, steps)
    decreases |steps|
  {
    if steps == [] {
    } else {
      var step := steps[0];
      if step.Poll? && step.id < |w.core.waiters| { ShutPollHandsOut(r, w.core, step.id, step.waker); }
      if step.Try? { AttemptAdmits(r, w.core, step.params, step.fair); }
      assert |Do(r, w, step).held| == |w.held| + if HandsOut(w, step) then 1 else 0;
      StepKeepsSafe(r, w, step);
      StaysShut(r, w, step);
      ShutRunHandsOut(r, Do(r, w, step), steps[1..]);
    }
  }
}
