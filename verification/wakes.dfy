/** No lost and no doubled wake. */
module Wakes {
  import opened SemaphoreStates
  import opened QueueModel
  import opened ListFacts
  import opened Machine
  import opened Lifecycle
  import opened Moves
  import opened Answers

  /** How often `x` is still to be invoked. */
  function Pending(crews: seq<Crew>, x: Wake): nat {
    if crews == [] then 0 else multiset(crews[0].batch)[x] + Pending(crews[1..], x)
  }

  /** `x` wakes a node that servicing or closing removed, through the waker registered last. */
  predicate Due<P, T>(ws: seq<Waiter<P, T>>, x: Wake) {
    x.id < |ws| && ws[x.id].settled && ws[x.id].waker == x.waker
  }

  /** Each due wake has been invoked once or is in one batch once; no other wake exists. */
  ghost predicate Accounted<S, P, T, O>(w: World<S, P, T, O>) {
    forall x :: multiset(w.log)[x] + Pending(w.crews, x) == if Due(w.core.waiters, x) then 1 else 0
  }

  /** Only nodes with a result are settled, and every node with an unclaimed result is. */
  ghost predicate SettledPhases<P, T>(ws: seq<Waiter<P, T>>) {
    forall i :: 0 <= i < |ws| ==>
      && (ws[i].phase.Initial? || ws[i].phase.Linked? ==> !ws[i].settled)
      && (ws[i].phase.RemovedOk? || ws[i].phase.RemovedErr? ==> ws[i].settled)
  }

  ghost predicate WakeSafe<S, P, T, O>(r: Rules<S, P, T, O>, w: World<S, P, T, O>) {
    Safe(r, w) && Accounted(w) && SettledPhases(w.core.waiters)
  }

  lemma {:induction false} PendingUpdate(crews: seq<Crew>, i: nat, crew: Crew, x: Wake)
    requires i < |crews|
    ensures Pending(crews[i := crew], x) == Pending(crews, x) - multiset(crews[i].batch)[x] + multiset(crew.batch)[x]
    decreases |crews|
  {
    if i == 0 {
      assert crews[0 := crew][1..] == crews[1..];
    } else {
      assert crews[i := crew][1..] == crews[1..][i - 1 := crew];
      PendingUpdate(crews[1..], i - 1, crew, x);
    }
  }

  lemma {:induction false} PendingAppend(crews: seq<Crew>, crew: Crew, x: Wake)
    ensures Pending(crews + [crew], x) == Pending(crews, x) + multiset(crew.batch)[x]
    decreases |crews|
  {
    if crews == [] {
      assert (crews + [crew])[1..] == [];
    } else {
      assert (crews + [crew])[1..] == crews[1..] + [crew];
      PendingAppend(crews[1..], crew, x);
    }
  }

  /** A batch holds the registered waker of each removed node, as often as it was removed. */
  lemma {:induction false} BatchCounts<P, T>(rs: seq<Removal<P, T>>, ws: seq<Waiter<P, T>>, x: Wake)
    requires forall k :: 0 <= k < |rs| ==> rs[k].entry.id < |ws| && ws[rs[k].entry.id].waker == rs[k].entry.waker
    ensures multiset(WakesOf(rs))[x]
         == if x.id < |ws| && ws[x.id].waker == x.waker then Occurs(Entries(rs), x.id) else 0
    decreases |rs|
  {
    if rs == [] {
    } else {
      BatchCounts(rs[1..], ws, x);
      assert WakesOf(rs)[1..] == WakesOf(rs[1..]);
      assert WakesOf(rs) == [WakesOf(rs)[0]] + WakesOf(rs[1..]);
      assert Entries(rs)[1..] == Entries(rs[1..]);
      OccursWitness(Entries(rs), x.id);
    }
  }

  lemma SettleAccounts<P, T>(
      list: seq<Entry<P>>, kept: seq<Entry<P>>, rs: seq<Removal<P, T>>, ws: seq<Waiter<P, T>>, x: Wake)
    requires Registered(list, ws) && Agrees(list, ws) && SettledPhases(ws)
    requires DrawnFrom(Entries(rs), list) && Divides(list, kept, rs)
    ensures multiset(WakesOf(rs))[x] + (if Due(ws, x) then 1 else 0) == if Due(Settle(ws, rs), x) then 1 else 0
  {
    forall k | 0 <= k < |rs| ensures rs[k].entry.id < |ws| && ws[rs[k].entry.id].waker == rs[k].entry.waker {
      assert HasNode(list, Entries(rs)[k]);
      var j :| 0 <= j < |list| && SameNode(list[j], Entries(rs)[k]);
      assert list[j].id < |ws|;
    }
    BatchCounts(rs, ws, x);
    assert Occurs(list, x.id) == if IsLinked(ws, x.id) then 1 else 0;
    assert Occurs(list, x.id) == Occurs(kept, x.id) + Occurs(Entries(rs), x.id);
    if x.id < |ws| { SettleAt(ws, rs, x.id); }
  }

  lemma SettleKeepsPhases<P, T>(ws: seq<Waiter<P, T>>, rs: seq<Removal<P, T>>)
    requires SettledPhases(ws) && Results(rs)
    ensures SettledPhases(Settle(ws, rs))
  {
    forall i | 0 <= i < |ws| ensures
      && (Settle(ws, rs)[i].phase.Initial? || Settle(ws, rs)[i].phase.Linked? ==> !Settle(ws, rs)[i].settled)
      && (Settle(ws, rs)[i].phase.RemovedOk? || Settle(ws, rs)[i].phase.RemovedErr? ==> Settle(ws, rs)[i].settled)
    {
      SettleAt(ws, rs, i);
    }
  }

  lemma RoundKeepsWakes<S, P, T, O>(r: Rules<S, P, T, O>, w: World<S, P, T, O>, i: nat)
    requires WakeSafe(r, w) && i < |w.crews| && w.crews[i].batch == [] && (w.crews[i].closing ==> r.closeable)
    ensures WakeSafe(r, Round(r, w, i))
  {
    var c := w.core;
    var v := Round(r, w, i);
    RoundKeepsSound(r, w, i);
    var kept, rs;
    if w.crews[i].closing {
      CloseSplits(c, r.capacity);
      kept, rs := c.list[Min(r.capacity, |c.list|)..], CloseRemoved(c, r.capacity);
    } else {
      CheckSplits(r, c, r.capacity);
      kept, rs := CheckScan(r, c, r.capacity).kept, CheckScan(r, c, r.capacity).removed;
    }
    assert v.core.waiters == Settle(c.waiters, rs) && v.crews[i].batch == WakesOf(rs);
    SettleKeepsPhases(c.waiters, rs);
    forall x ensures multiset(v.log)[x] + Pending(v.crews, x) == if Due(v.core.waiters, x) then 1 else 0 {
      assert multiset(w.log)[x] + Pending(w.crews, x) == if Due(c.waiters, x) then 1 else 0;
      PendingUpdate(w.crews, i, v.crews[i], x);
      SettleAccounts(c.list, kept, rs, c.waiters, x);
    }
  }

  lemma BeginKeepsWakes<S, P, T, O>(r: Rules<S, P, T, O>, w: World<S, P, T, O>, closing: bool)
    requires WakeSafe(r, w) && (closing ==> r.closeable)
    ensures WakeSafe(r, Begin(r, w, closing))
  {
    var v := Spawn(w, closing);
    forall x ensures multiset(v.log)[x] + Pending(v.crews, x) == if Due(v.core.waiters, x) then 1 else 0 {
      assert multiset(w.log)[x] + Pending(w.crews, x) == if Due(w.core.waiters, x) then 1 else 0;
      PendingAppend(w.crews, Crew([], true, closing, 0), x);
    }
    RoundKeepsWakes(r, v, |w.crews|);
  }

  /** The same wakes are due. */
  ghost predicate SameDue<P, T>(a: seq<Waiter<P, T>>, b: seq<Waiter<P, T>>) {
    forall x :: Due(a, x) <==> Due(b, x)
  }

  lemma SameDueAccounted<S, P, T, O>(w: World<S, P, T, O>, core: Core<S, P, T, O>, held: seq<Option<T>>)
    requires Accounted(w) && SameDue(w.core.waiters, core.waiters)
    ensures Accounted(w.(core := core, held := held))
  {
    forall x ensures multiset(w.log)[x] + Pending(w.crews, x) == if Due(core.waiters, x) then 1 else 0 {
      assert Due(w.core.waiters, x) <==> Due(core.waiters, x);
    }
  }

  lemma NotifyKeepsAccounted<S, P, T, O>(r: Rules<S, P, T, O>, w: World<S, P, T, O>, i: nat, unwinds: bool)
    requires Accounted(w) && i < |w.crews| && w.crews[i].batch != []
    ensures Accounted(Before(r, w, Notify(i, unwinds)))
  {
    var v := Before(r, w, Notify(i, unwinds));
    var batch := w.crews[i].batch;
    assert batch == [batch[0]] + batch[1..];
    forall x ensures multiset(v.log)[x] + Pending(v.crews, x) == if Due(v.core.waiters, x) then 1 else 0 {
      assert multiset(w.log)[x] + Pending(w.crews, x) == if Due(w.core.waiters, x) then 1 else 0;
      PendingUpdate(w.crews, i, v.crews[i], x);
    }
  }

  lemma PollKeepsDue<S, P, T, O>(r: Rules<S, P, T, O>, c: Core<S, P, T, O>, id: nat, waker: nat)
    requires Sound(r, c) && SettledPhases(c.waiters) && id < |c.waiters|
    ensures var d := PollCore(r, c, id, waker).0;
            SameDue(c.waiters, d.waiters) && SettledPhases(d.waiters)
  {
    PollFrame(r, c, id, waker);
  }

  lemma DetachKeepsDue<S, P, T, O>(r: Rules<S, P, T, O>, c: Core<S, P, T, O>, id: nat)
    requires Findable(c, id) && SettledPhases(c.waiters) && id < |c.waiters|
    ensures var d := Detach(r, c, id).0;
            SameDue(c.waiters, d.waiters) && SettledPhases(d.waiters)
  {
    DetachWrites(r, c, id);
  }

  lemma DetachWrites<S, P, T, O>(r: Rules<S, P, T, O>, c: Core<S, P, T, O>, id: nat)
    requires Findable(c, id) && id < |c.waiters|
    ensures var d := Detach(r, c, id).0;
            d.waiters == c.waiters || d.waiters == c.waiters[id := c.waiters[id].(phase := Done(Cancelled))]
  {
  }

  lemma BeforeKeepsWakes<S, P, T, O>(r: Rules<S, P, T, O>, w: World<S, P, T, O>, step: Step<S, P, T>)
    requires WakeSafe(r, w)
    ensures WakeSafe(r, Before(r, w, step))
  {
    BeforeKeepsSafe(r, w, step);
    var v := Before(r, w, step);
    match step
    case Notify(i, unwinds) =>
      if i < |w.crews| && w.crews[i].batch != [] { NotifyKeepsAccounted(r, w, i, unwinds); }
    case Poll(id, waker) =>
      if id < |w.core.waiters| {
        PollKeepsDue(r, w.core, id, waker);
        SameDueAccounted(w, v.core, v.held);
      }
    case Cancel(id) =>
      if id < |w.core.waiters| {
        SoundFinds(r, w.core, id);
        DetachKeepsDue(r, w.core, id);
        SameDueAccounted(w, v.core, v.held);
      }
    case _ => OtherKeepsDue(r, w, step); SameDueAccounted(w, v.core, v.held);
  }

  lemma OtherKeepsDue<S, P, T, O>(r: Rules<S, P, T, O>, w: World<S, P, T, O>, step: Step<S, P, T>)
    requires SettledPhases(w.core.waiters) && !step.Poll? && !step.Cancel? && !step.Notify?
    ensures var v := Before(r, w, step);
            && SameDue(w.core.waiters, v.core.waiters) && SettledPhases(v.core.waiters)
            && v.log == w.log && v.crews == w.crews && v.cut == w.cut
  {
    if step.Try? { AttemptFrame(r, w.core, step.params, step.fair); }
  }

  lemma StepKeepsWakes<S, P, T, O>(r: Rules<S, P, T, O>, w: World<S, P, T, O>, step: Step<S, P, T>)
    requires WakeSafe(r, w)
    ensures WakeSafe(r, Do(r, w, step))
  {
    BeforeKeepsWakes(r, w, step);
    match Then(r, w, step)
    case Nothing =>
    case Check => BeginKeepsWakes(r, Before(r, w, step), false);
    case CloseAll => BeginKeepsWakes(r, w, true);
    case Again(i) => RoundKeepsWakes(r, w, i);
  }

  lemma {:induction false} RunKeepsWakes<S, P, T, O>(
      r: Rules<S, P, T, O>, w: World<S, P, T, O>, steps: seq<Step<S, P, T>>)
    requires WakeSafe(r, w)
    ensures WakeSafe(r, Exec(r, w, steps))
    decreases |steps|
  {
    if steps == [] {
    } else {
      StepKeepsWakes(r, w, steps[0]);
      RunKeepsWakes(r, Do(r, w, steps[0]), steps[1..]);
    }
  }

  lemma {:induction false} PendingNone(crews: seq<Crew>, x: Wake)
    requires forall i :: 0 <= i < |crews| ==> crews[i].batch == []
    ensures Pending(crews, x) == 0
    decreases |crews|
  {
    if crews == [] {
    } else {
      PendingNone(crews[1..], x);
    }
  }

  // ----- the waker that was passed in last

  /** The waker of the last poll of `id` in the run that answered Pending. */
  function LastPending<S, P, T, O>(
      r: Rules<S, P, T, O>, w: World<S, P, T, O>, steps: seq<Step<S, P, T>>, id: nat): Option<nat>
    decreases |steps|
  {
    if steps == [] then None
    else
      var later := LastPending(r, Do(r, w, steps[0]), steps[1..], id);
      if later.Some? then later else AnsweredPending(r, w, steps[0], id)
  }

  function AnsweredPending<S, P, T, O>(
      r: Rules<S, P, T, O>, w: World<S, P, T, O>, step: Step<S, P, T>, id: nat): Option<nat>
  {
    if step.Poll? && step.id == id && id < |w.core.waiters| && PollCore(r, w.core, id, step.waker).1.Pending?
    then Some(step.waker) else None
  }

  /** The future has been in the queue, and has neither been claimed nor dropped. */
  predicate Entered<P, T>(ws: seq<Waiter<P, T>>, id: nat) {
    id < |ws| && (ws[id].phase.Linked? || ws[id].phase.RemovedOk? || ws[id].phase.RemovedErr?)
  }

  /** `k` is the waker of node `id`; without a `k` the node has the waker it had, if it is queued. */
  ghost predicate Tracks<P, T>(a: seq<Waiter<P, T>>, b: seq<Waiter<P, T>>, id: nat, k: Option<nat>) {
    match k
    case Some(waker) => id < |b| && b[id].waker == waker
    case None => Entered(b, id) ==> Entered(a, id) && b[id].waker == a[id].waker
  }

  lemma BeforeTracks<S, P, T, O>(r: Rules<S, P, T, O>, w: World<S, P, T, O>, step: Step<S, P, T>, id: nat)
    requires Safe(r, w)
    ensures |w.core.waiters| <= |Before(r, w, step).core.waiters|
    ensures Tracks(w.core.waiters, Before(r, w, step).core.waiters, id, AnsweredPending(r, w, step, id))
  {
    match step
    case Poll(x, waker) =>
      if x < |w.core.waiters| {
        PollFrame(r, w.core, x, waker);
        PollAnswers(r, w.core, x, waker);
      }
    case Cancel(x) =>
      if x < |w.core.waiters| {
        SoundFinds(r, w.core, x);
        DetachWrites(r, w.core, x);
      }
    case _ =>
      OthersFrame(r, w, step);
  }

  lemma RoundTracks<S, P, T, O>(r: Rules<S, P, T, O>, w: World<S, P, T, O>, i: nat, id: nat)
    requires Safe(r, w) && i < |w.crews|
    ensures |Round(r, w, i).core.waiters| == |w.core.waiters|
    ensures id < |w.core.waiters| ==> Round(r, w, i).core.waiters[id].waker == w.core.waiters[id].waker
    ensures Entered(Round(r, w, i).core.waiters, id) ==> Entered(w.core.waiters, id)
  {
    if id < |w.core.waiters| {
      SettleAt(w.core.waiters, CloseRemoved(w.core, r.capacity), id);
      SettleAt(w.core.waiters, CheckScan(r, w.core, r.capacity).removed, id);
      if !IsLinked(w.core.waiters, id) { RoundSkips(r, w, i, id); }
    }
  }

  lemma StepTracks<S, P, T, O>(r: Rules<S, P, T, O>, w: World<S, P, T, O>, step: Step<S, P, T>, id: nat)
    requires Safe(r, w)
    ensures Tracks(w.core.waiters, Do(r, w, step).core.waiters, id, AnsweredPending(r, w, step, id))
  {
    BeforeTracks(r, w, step, id);
    BeforeKeepsSafe(r, w, step);
    match Then(r, w, step)
    case Nothing =>
    case Check =>
      var v := Before(r, w, step);
      RoundTracks(r, Spawn(v, false), |v.crews|, id);
    case CloseAll => RoundTracks(r, Spawn(w, true), |w.crews|, id);
    case Again(i) => RoundTracks(r, w, i, id);
  }

  lemma {:induction false} NewestIsTracked<S, P, T, O>(
      r: Rules<S, P, T, O>, w: World<S, P, T, O>, steps: seq<Step<S, P, T>>, id: nat)
    requires Safe(r, w)
    ensures Tracks(w.core.waiters, Exec(r, w, steps).core.waiters, id,
                   if Entered(Exec(r, w, steps).core.waiters, id) then LastPending(r, w, steps, id) else None)
    decreases |steps|
  {
    if steps == [] {
    } else {
      StepKeepsSafe(r, w, steps[0]);
      StepTracks(r, w, steps[0], id);
      NewestIsTracked(r, Do(r, w, steps[0]), steps[1..], id);
    }
  }

  /** In every run, panics of wakers and callbacks included: an unclaimed result has exactly one
      wake, through the waker that the last poll to answer Pending passed in, either invoked or still
      in a batch; and once all batches are empty it has been invoked. */
  lemma UnclaimedIsWokenOnce<S, P, T, O>(
      r: Rules<S, P, T, O>, state: S, order: O, steps: seq<Step<S, P, T>>, id: nat)
    ensures var w0, w := Init<S, P, T, O>(state, order), Reach(r, state, order, steps);
            var newest := LastPending(r, w0, steps, id);
            id < |w.core.waiters| && (w.core.waiters[id].phase.RemovedOk? || w.core.waiters[id].phase.RemovedErr?) ==>
              && newest.Some?
              && (forall k :: multiset(w.log)[Wake(id, k)] + Pending(w.crews, Wake(id, k))
                    == if k == newest.value then 1 else 0)
              && ((forall i :: 0 <= i < |w.crews| ==> w.crews[i].batch == []) ==>
                    multiset(w.log)[Wake(id, newest.value)] == 1)
  {
    var w := Reach(r, state, order, steps);
    RunKeepsWakes(r, Init<S, P, T, O>(state, order), steps);
    NewestIsTracked(r, Init<S, P, T, O>(state, order), steps, id);
    if id < |w.core.waiters| && (w.core.waiters[id].phase.RemovedOk? || w.core.waiters[id].phase.RemovedErr?) {
      forall k ensures multiset(w.log)[Wake(id, k)] + Pending(w.crews, Wake(id, k))
                    == if k == w.core.waiters[id].waker then 1 else 0 {
        assert Due(w.core.waiters, Wake(id, k)) <==> k == w.core.waiters[id].waker;
      }
      if forall i :: 0 <= i < |w.crews| ==> w.crews[i].batch == [] {
        PendingNone(w.crews, Wake(id, w.core.waiters[id].waker));
      }
    }
  }

  // ----- a panicking waker ends its activation

  lemma StoppedStays<S, P, T, O>(r: Rules<S, P, T, O>, w: World<S, P, T, O>, step: Step<S, P, T>, i: nat)
    requires i < |w.crews| && !w.crews[i].owes
    ensures var v := Do(r, w, step);
            && i < |v.crews| && v.crews[i] == w.crews[i].(batch := v.crews[i].batch)
            && (v.crews[i].batch == w.crews[i].batch
                || (w.crews[i].batch != [] && v.crews[i].batch == w.crews[i].batch[1..]))
  {
    var b := Before(r, w, step);
    match Then(r, w, step)
    case Nothing =>
    case Check => assert b.crews == w.crews;
    case CloseAll =>
    case Again(j) => assert j != i;
  }

  lemma {:induction false} StoppedForGood<S, P, T, O>(
      r: Rules<S, P, T, O>, w: World<S, P, T, O>, steps: seq<Step<S, P, T>>, i: nat)
    requires i < |w.crews| && !w.crews[i].owes
    ensures var v := Exec(r, w, steps);
            && i < |v.crews| && !v.crews[i].owes && v.crews[i].rounds == w.crews[i].rounds
            && |v.crews[i].batch| <= |w.crews[i].batch|
            && v.crews[i].batch == w.crews[i].batch[|w.crews[i].batch| - |v.crews[i].batch|..]
    decreases |steps|
  {
    if steps == [] {
    } else {
      StoppedStays(r, w, steps[0], i);
      StoppedForGood(r, Do(r, w, steps[0]), steps[1..], i);
    }
  }

  /** A waker that panics ends its activation, of `with_queue` and of `close` alike: whatever runs
      afterwards it never does another round, and what is left of its batch stays to be woken, in order. */
  lemma WakerPanicStops<S, P, T, O>(
      r: Rules<S, P, T, O>, w: World<S, P, T, O>, i: nat, steps: seq<Step<S, P, T>>)
    requires i < |w.crews| && w.crews[i].batch != []
    ensures var u := Do(r, w, Notify(i, true));
            var v := Exec(r, u, steps);
            var rest := w.crews[i].batch[1..];
            && u.log == w.log + [w.crews[i].batch[0]] && u.core == w.core && u.held == w.held
            && i < |v.crews| && !v.crews[i].owes && v.crews[i].rounds == w.crews[i].rounds
            && |v.crews[i].batch| <= |rest| && v.crews[i].batch == rest[|rest| - |v.crews[i].batch|..]
  {
    StoppedForGood(r, Do(r, w, Notify(i, true)), steps, i);
  }
}
