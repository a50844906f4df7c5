/** `close` is a clean cut, and it ends whatever runs between its batches. */
module Closing {
  import opened SemaphoreStates
  import opened QueueModel
  import opened ListFacts
  import opened Machine
  import opened Lifecycle
  import opened Moves
  import opened Fates

  // ----- everyone keeps the params of their own request

  ghost predicate OwnEntry<P, T>(e: Entry<P>, ws: seq<Waiter<P, T>>) {
    e.id < |ws| && (e.params.Some? ==> e.params.value == ws[e.id].request)
  }

  ghost predicate OwnEntries<P, T>(list: seq<Entry<P>>, ws: seq<Waiter<P, T>>) {
    forall k :: 0 <= k < |list| ==> OwnEntry(list[k], ws)
  }

  ghost predicate OwnPhase<P, T>(x: Waiter<P, T>) {
    match x.phase
    case Initial(p) => p == x.request
    case RemovedErr(Some(p)) => p == x.request
    case Done(Rejected(p)) => p == x.request
    case _ => true
  }

  ghost predicate OwnParams<S, P, T, O>(c: Core<S, P, T, O>) {
    OwnEntries(c.list, c.waiters) && forall i :: 0 <= i < |c.waiters| ==> OwnPhase(c.waiters[i])
  }

  lemma {:induction false} ServeKeepsOwn<S(!new), P(!new), T(!new), O>(
      r: Rules<S, P, T, O>, s: S, list: seq<Entry<P>>, room: nat, ws: seq<Waiter<P, T>>)
    requires GivesBack(r) && OwnEntries(list, ws)
    ensures OwnEntries(Serve(r, s, list, room).kept, ws)
    decreases |list|
  {
    if list == [] || room == 0 {
    } else {
      assert OwnEntry(list[0], ws);
      if list[0].params.None? {
        ServeKeepsOwn(r, s, list[1..], room, ws);
      } else {
        match r.acquire(s, list[0].params.value)
        case Granted(s', _) => ServeKeepsOwn(r, s', list[1..], room - 1, ws);
        case _ =>
      }
    }
  }

  lemma RequestsStay<P, T>(a: seq<Waiter<P, T>>, b: seq<Waiter<P, T>>, list: seq<Entry<P>>)
    requires OwnEntries(list, a) && |a| <= |b|
    requires forall i :: 0 <= i < |a| ==> b[i].request == a[i].request
    ensures OwnEntries(list, b)
  {
    forall k | 0 <= k < |list| ensures OwnEntry(list[k], b) {
      assert OwnEntry(list[k], a);
    }
  }

  lemma RoundKeepsOwn<S(!new), P(!new), T(!new), O>(r: Rules<S, P, T, O>, w: World<S, P, T, O>, i: nat)
    requires GivesBack(r) && Safe(r, w) && i < |w.crews| && OwnParams(w.core)
    ensures OwnParams(Round(r, w, i).core)
  {
    var c, d := w.core, Round(r, w, i).core;
    if w.crews[i].closing {
      var n := Min(r.capacity, |c.list|);
      var rs: seq<Removal<P, T>> := CloseRemoved(c, r.capacity);
      assert forall k :: 0 <= k < |rs| ==> OwnEntry(c.list[k], c.waiters);
      forall id | 0 <= id < |d.waiters|
        ensures OwnPhase(d.waiters[id]) && d.waiters[id].request == c.waiters[id].request
      {
        assert OwnPhase(c.waiters[id]);
        SettleAt(c.waiters, rs, id);
      }
      RequestsStay(c.waiters, d.waiters, c.list[n..]);
    } else {
      var scan := CheckScan(r, c, r.capacity);
      CheckSplits(r, c, r.capacity);
      CheckGrantsOnly(r, c, r.capacity);
      forall id | 0 <= id < |d.waiters|
        ensures OwnPhase(d.waiters[id]) && d.waiters[id].request == c.waiters[id].request
      {
        assert OwnPhase(c.waiters[id]);
        SettleAt(c.waiters, scan.removed, id);
      }
      if !Idle(r, c) { ServeKeepsOwn(r, c.state, c.list, r.capacity, c.waiters); }
      RequestsStay(c.waiters, d.waiters, scan.kept);
    }
  }

  lemma CheckGrantsOnly<S, P, T, O>(r: Rules<S, P, T, O>, c: Core<S, P, T, O>, room: nat)
    ensures forall k :: 0 <= k < |CheckScan(r, c, room).removed| ==> CheckScan(r, c, room).removed[k].result.RemovedOk?
  {
    if !Idle(r, c) { ServeGrantsOnly(r, c.state, c.list, room); }
  }

  lemma {:induction false} ServeGrantsOnly<S, P, T, O>(r: Rules<S, P, T, O>, s: S, list: seq<Entry<P>>, room: nat)
    ensures forall k :: 0 <= k < |Serve(r, s, list, room).removed| ==>
              Serve(r, s, list, room).removed[k].result.RemovedOk?
    decreases |list|
  {
    if list == [] || room == 0 {
    } else {
      if list[0].params.None? {
        ServeGrantsOnly(r, s, list[1..], room);
      } else {
        match r.acquire(s, list[0].params.value)
        case Granted(s', _) => ServeGrantsOnly(r, s', list[1..], room - 1);
        case _ =>
      }
    }
  }

  lemma AttemptGivesBack<S(!new), P(!new), T(!new), O>(r: Rules<S, P, T, O>, c: Core<S, P, T, O>, params: P, fair: bool)
    requires GivesBack(r)
    ensures match Attempt(r, c, params, fair).1
            case Closed(p) => p == params
            case Poisoned(p) => p == params
            case Enqueue(_, p) => p == params
            case _ => true
  {
  }

  /** A write to one node that keeps its request. */
  lemma WriteKeepsOwn<S, P, T, O>(c: Core<S, P, T, O>, id: nat, x: Waiter<P, T>, list: seq<Entry<P>>)
    requires id < |c.waiters| && OwnParams(c) && OwnEntries(list, c.waiters)
    requires OwnPhase(x) && x.request == c.waiters[id].request
    ensures OwnParams(c.(waiters := c.waiters[id := x], list := list))
  {
    RequestsStay(c.waiters, c.waiters[id := x], list);
  }

  lemma ConcludeKeepsOwn<S, P, T, O>(d: Core<S, P, T, O>, id: nat, waker: nat, outcome: Outcome<P, T>)
    requires OwnParams(d) && id < |d.waiters|
    requires match outcome
             case Closed(p) => p == d.waiters[id].request
             case Enqueue(_, p) => p == d.waiters[id].request
             case _ => true
    ensures OwnParams(Conclude(d, id, waker, outcome).0)
  {
    var x := d.waiters[id];
    match outcome
    case Acquired(permit) => WriteKeepsOwn(d, id, x.(phase := Done(Claimed(permit))), d.list);
    case Closed(params) => WriteKeepsOwn(d, id, x.(phase := Done(Rejected(params))), d.list);
    case Enqueue(front, params) =>
      var e := Entry(id, Some(params), waker, front, x.ticket);
      assert OwnEntry(e, d.waiters);
      WriteKeepsOwn(d, id, x.(phase := Linked, waker := waker), if front then [e] + d.list else d.list + [e]);
    case _ => WriteKeepsOwn(d, id, x.(phase := Done(Aborted)), d.list);
  }

  lemma FirstPollKeepsOwn<S(!new), P(!new), T(!new), O>(r: Rules<S, P, T, O>, c: Core<S, P, T, O>, id: nat, waker: nat)
    requires GivesBack(r) && id < |c.waiters| && c.waiters[id].phase.Initial? && OwnParams(c)
    ensures OwnParams(FirstPoll(r, c, id, waker).0)
  {
    var c0 := DrawTicket(c, id);
    var p := c.waiters[id].phase.params;
    assert OwnPhase(c.waiters[id]);
    WriteKeepsOwn(c, id, c0.waiters[id], c.list);
    AttemptFrame(r, c0, p, true);
    AttemptGivesBack(r, c0, p, true);
    var (d, outcome) := Attempt(r, c0, p, true);
    ConcludeKeepsOwn(d, id, waker, outcome);
  }

  lemma PollLinkedKeepsOwn<S, P, T, O>(r: Rules<S, P, T, O>, c: Core<S, P, T, O>, id: nat, waker: nat)
    requires id < |c.waiters| && IndexOf(c.list, id) < |c.list| && OwnParams(c)
    ensures OwnParams(PollLinked(r, c, id, waker).0)
  {
    var i := IndexOf(c.list, id);
    var e, x := c.list[i], c.waiters[id];
    assert OwnEntry(e, c.waiters);
    if r.closeable && c.closed {
      WriteKeepsOwn(c, id, x.(phase := Done(ErrorOf(e.params))), Without(c.list, i));
    } else {
      WriteKeepsOwn(c, id, x.(waker := waker), c.list[i := e.(waker := waker)]);
    }
  }

  lemma PollKeepsOwn<S(!new), P(!new), T(!new), O>(r: Rules<S, P, T, O>, c: Core<S, P, T, O>, id: nat, waker: nat)
    requires GivesBack(r) && Sound(r, c) && id < |c.waiters| && OwnParams(c)
    ensures OwnParams(PollCore(r, c, id, waker).0)
  {
    assert OwnPhase(c.waiters[id]);
    match c.waiters[id].phase
    case Initial(_) => FirstPollKeepsOwn(r, c, id, waker);
    case Linked => SoundFinds(r, c, id); PollLinkedKeepsOwn(r, c, id, waker);
    case _ => WriteKeepsOwn(c, id, PollCore(r, c, id, waker).0.waiters[id], c.list);
  }

  lemma DetachKeepsOwn<S, P, T, O>(r: Rules<S, P, T, O>, c: Core<S, P, T, O>, id: nat)
    requires Findable(c, id) && id < |c.waiters| && OwnParams(c)
    ensures OwnParams(Detach(r, c, id).0)
  {
    var gone := c.waiters[id].(phase := Done(Cancelled));
    WriteKeepsOwn(c, id, gone, c.list);
    if c.waiters[id].phase.Linked? { WriteKeepsOwn(c, id, gone, Without(c.list, IndexOf(c.list, id))); }
  }

  lemma OldWaitersStay<P, T>(a: seq<Waiter<P, T>>, b: seq<Waiter<P, T>>)
    requires |a| <= |b| && b[..|a|] == a
    ensures forall i :: 0 <= i < |a| ==> b[i] == a[i]
  {
    assert forall i :: 0 <= i < |a| ==> b[i] == b[..|a|][i];
  }

  lemma BeforeKeepsOwn<S(!new), P(!new), T(!new), O>(r: Rules<S, P, T, O>, w: World<S, P, T, O>, step: Step<S, P, T>)
    requires GivesBack(r) && Safe(r, w) && OwnParams(w.core)
    ensures OwnParams(Before(r, w, step).core)
  {
    var c, d := w.core, Before(r, w, step).core;
    match step
    case Poll(id, waker) =>
      if id < |c.waiters| { PollKeepsOwn(r, c, id, waker); }
    case Cancel(id) =>
      if id < |c.waiters| { SoundFinds(r, c, id); DetachKeepsOwn(r, c, id); }
    case _ =>
      OthersFrame(r, w, step);
      OldWaitersStay(c.waiters, d.waiters);
      RequestsStay(c.waiters, d.waiters, c.list);
  }

  lemma StepKeepsOwn<S(!new), P(!new), T(!new), O>(r: Rules<S, P, T, O>, w: World<S, P, T, O>, step: Step<S, P, T>)
    requires GivesBack(r) && Safe(r, w) && OwnParams(w.core)
    ensures OwnParams(Do(r, w, step).core)
  {
    BeforeKeepsSafe(r, w, step);
    BeforeKeepsOwn(r, w, step);
    var v := Before(r, w, step);
    match Then(r, w, step)
    case Nothing =>
    case Check => RoundKeepsOwn(r, Spawn(v, false), |v.crews|);
    case CloseAll => RoundKeepsOwn(r, Spawn(w, true), |w.crews|);
    case Again(i) => RoundKeepsOwn(r, w, i);
  }

  lemma {:induction false} RunKeepsOwn<S(!new), P(!new), T(!new), O>(
      r: Rules<S, P, T, O>, w: World<S, P, T, O>, steps: seq<Step<S, P, T>>)
    requires GivesBack(r) && Safe(r, w) && OwnParams(w.core)
    ensures OwnParams(Exec(r, w, steps).core)
    decreases |steps|
  {
    if steps == [] {
    } else {
      StepKeepsSafe(r, w, steps[0]);
      StepKeepsOwn(r, w, steps[0]);
      RunKeepsOwn(r, Do(r, w, steps[0]), steps[1..]);
    }
  }

  /** `close` is a clean cut. After any run, let the queue be closed and `id` be queued and live:
      whatever runs next, it is still queued, has failed with its own params, or was cancelled. */
  lemma CleanCut<S(!new), P(!new), T(!new), O>(
      r: Rules<S, P, T, O>, state: S, order: O, past: seq<Step<S, P, T>>, steps: seq<Step<S, P, T>>, id: nat)
    requires GivesBack(r)
    requires var w := Reach(r, state, order, past);
             w.core.closed && IsLinked(w.core.waiters, id) && !ListedWith(w.core.list, id, None)
    ensures var w := Reach(r, state, order, past);
            Doomed(Exec(r, w, steps).core, id, Some(w.core.waiters[id].request))
  {
    var w := Reach(r, state, order, past);
    RunKeepsSafe(r, Init<S, P, T, O>(state, order), past);
    RunKeepsOwn(r, Init<S, P, T, O>(state, order), past);
    FindsLinked(w.core.list, w.core.waiters, id);
    var i := IndexOf(w.core.list, id);
    assert OwnEntry(w.core.list[i], w.core.waiters);
    RunKeepsDoomed(r, w, steps, id, Some(w.core.waiters[id].request));
  }

  // ----- rounds

  /** Activation `x` of `close` has removed a full batch in each round but the last. */
  ghost predicate CloserOnTrack(capacity: nat, cut: nat, linked: nat, x: Crew) {
    && x.rounds >= 1
    && (x.rounds == 1 || capacity * (x.rounds - 1) < cut)
    && (x.owes ==> capacity * x.rounds + linked <= cut && capacity * x.rounds < cut)
  }

  ghost predicate OnTrack<S, P, T, O>(r: Rules<S, P, T, O>, w: World<S, P, T, O>) {
    && (w.core.closed ==> |w.core.list| <= w.cut)
    && forall i :: 0 <= i < |w.crews| && w.crews[i].closing ==>
         w.core.closed && CloserOnTrack(r.capacity, w.cut, |w.core.list|, w.crews[i])
  }

  /** Once closed, the list only shrinks. */
  lemma ClosedShrinks<S, P, T, O>(r: Rules<S, P, T, O>, w: World<S, P, T, O>, step: Step<S, P, T>)
    requires Safe(r, w) && w.core.closed
    ensures |Before(r, w, step).core.list| <= |w.core.list|
    ensures Before(r, w, step).core.closed && Before(r, w, step).cut == w.cut
  {
    NeverClosesBefore(r, w, step);
    match step
    case Poll(id, waker) =>
      if id < |w.core.waiters| && w.core.waiters[id].phase.Initial? { ClosedFirstPoll(r, w.core, id, waker); }
    case Cancel(id) =>
    case _ => OthersFrame(r, w, step);
  }

  lemma ClosedFirstPoll<S, P, T, O>(r: Rules<S, P, T, O>, c: Core<S, P, T, O>, id: nat, waker: nat)
    requires id < |c.waiters| && c.waiters[id].phase.Initial? && c.closed && r.closeable
    ensures FirstPoll(r, c, id, waker).0.list == c.list
  {
    AttemptFrame(r, DrawTicket(c, id), c.waiters[id].phase.params, true);
    AttemptAdmits(r, DrawTicket(c, id), c.waiters[id].phase.params, true);
  }

  /** A smaller list keeps everyone on track. */
  lemma ShrinkKeepsTrack(capacity: nat, cut: nat, linked: nat, fewer: nat, x: Crew)
    requires CloserOnTrack(capacity, cut, linked, x) && fewer <= linked
    ensures CloserOnTrack(capacity, cut, fewer, x)
  {
  }

  lemma BeforeKeepsTrack<S, P, T, O>(r: Rules<S, P, T, O>, w: World<S, P, T, O>, step: Step<S, P, T>)
    requires Safe(r, w) && OnTrack(r, w)
    ensures OnTrack(r, Before(r, w, step))
  {
    var v := Before(r, w, step);
    if w.core.closed { ClosedShrinks(r, w, step); }
    if v.core.closed && !w.core.closed { NeverClosesBefore(r, w, step); }
    forall i | 0 <= i < |v.crews| && v.crews[i].closing
      ensures v.core.closed && CloserOnTrack(r.capacity, v.cut, |v.core.list|, v.crews[i])
    {
      assert w.crews[i].closing;
      ShrinkKeepsTrack(r.capacity, w.cut, |w.core.list|, |v.core.list|, w.crews[i]);
    }
  }

  lemma NeverClosesBefore<S, P, T, O>(r: Rules<S, P, T, O>, w: World<S, P, T, O>, step: Step<S, P, T>)
    requires Safe(r, w)
    ensures Before(r, w, step).core.closed == w.core.closed
  {
    match step
    case Poll(id, waker) =>
      if id < |w.core.waiters| { PollFrame(r, w.core, id, waker); }
    case Cancel(id) => FindsLinked(w.core.list, w.core.waiters, id);
    case _ => OthersFrame(r, w, step);
  }

  lemma CheckKeepsTrack<S, P, T, O>(r: Rules<S, P, T, O>, w: World<S, P, T, O>, i: nat)
    requires Safe(r, w) && i < |w.crews| && !w.crews[i].closing && OnTrack(r, w)
    ensures OnTrack(r, Round(r, w, i))
  {
    CheckSplits(r, w.core, r.capacity);
    var v := Round(r, w, i);
    forall j | 0 <= j < |v.crews| && v.crews[j].closing
      ensures v.core.closed && CloserOnTrack(r.capacity, v.cut, |v.core.list|, v.crews[j])
    {
      assert w.crews[j].closing;
      ShrinkKeepsTrack(r.capacity, w.cut, |w.core.list|, |v.core.list|, w.crews[j]);
    }
  }

  /** A closing round: a first one of a fresh activation, or a further one that was owed. */
  lemma CloseKeepsTrack<S, P, T, O>(r: Rules<S, P, T, O>, w: World<S, P, T, O>, i: nat)
    requires Safe(r, w) && i < |w.crews| && w.crews[i].closing && w.crews[i].owes && r.closeable
    requires w.core.closed ==> |w.core.list| <= w.cut
    requires forall j :: 0 <= j < |w.crews| && j != i && w.crews[j].closing ==>
               w.core.closed && CloserOnTrack(r.capacity, w.cut, |w.core.list|, w.crews[j])
    requires w.crews[i].rounds == 0 || (w.core.closed && CloserOnTrack(r.capacity, w.cut, |w.core.list|, w.crews[i]))
    ensures OnTrack(r, Round(r, w, i))
  {
    var v := Round(r, w, i);
    var n := Min(r.capacity, |w.core.list|);
    var rounds := w.crews[i].rounds;
    assert r.capacity * (rounds + 1) == r.capacity * rounds + r.capacity;
    assert CloserOnTrack(r.capacity, v.cut, |v.core.list|, v.crews[i]);
    forall j | 0 <= j < |v.crews| && v.crews[j].closing
      ensures v.core.closed && CloserOnTrack(r.capacity, v.cut, |v.core.list|, v.crews[j])
    {
      if j != i {
        assert w.crews[j].closing;
        ShrinkKeepsTrack(r.capacity, w.cut, |w.core.list|, |v.core.list|, w.crews[j]);
      }
    }
  }

  lemma {:induction false} RunKeepsTrack<S, P, T, O>(
      r: Rules<S, P, T, O>, w: World<S, P, T, O>, steps: seq<Step<S, P, T>>)
    requires Safe(r, w) && OnTrack(r, w)
    ensures OnTrack(r, Exec(r, w, steps))
    decreases |steps|
  {
    if steps == [] {
    } else {
      var step := steps[0];
      BeforeKeepsSafe(r, w, step);
      BeforeKeepsTrack(r, w, step);
      var v := Before(r, w, step);
      match Then(r, w, step) {
        case Nothing =>
        case Check => CheckKeepsTrack(r, Spawn(v, false), |v.crews|);
        case CloseAll => CloseKeepsTrack(r, Spawn(w, true), |w.crews|);
        case Again(i) =>
          if w.crews[i].closing { CloseKeepsTrack(r, w, i); } else { CheckKeepsTrack(r, w, i); }
      }
      StepKeepsSafe(r, w, step);
      RunKeepsTrack(r, Do(r, w, step), steps[1..]);
    }
  }

  function Rounds(n: nat, capacity: nat): nat
    requires capacity >= 1
  {
    if n == 0 then 1 else (n + capacity - 1) / capacity
  }

  lemma MulMonotone(k: nat, a: nat, b: nat)
    requires a <= b
    ensures k * a <= k * b
  {
  }

  lemma RoundsBound(done: nat, n: nat, capacity: nat)
    requires capacity >= 1 && (done <= 1 || capacity * (done - 1) < n)
    ensures done <= Rounds(n, capacity)
  {
    if done > 1 {
      var q := (n + capacity - 1) / capacity;
      if q <= done - 1 { MulMonotone(capacity, q, done - 1); }
    }
  }

  /** Whatever polls, cancels, acquires and closes run between its batches, each activation of
      `close` does at most max(1, ceil(n / 32)) rounds, where n nodes were linked when `closed`
      was first set. */
  lemma CloseRoundsBounded<S, P, T, O>(
      r: Rules<S, P, T, O>, state: S, order: O, steps: seq<Step<S, P, T>>, i: nat)
    requires r.capacity >= 1
    requires var w := Reach(r, state, order, steps);
             i < |w.crews| && w.crews[i].closing
    ensures var w := Reach(r, state, order, steps);
            w.crews[i].rounds <= Rounds(w.cut, r.capacity)
  {
    var w := Reach(r, state, order, steps);
    RunKeepsTrack(r, Init<S, P, T, O>(state, order), steps);
    RoundsBound(w.crews[i].rounds, w.cut, r.capacity);
  }

  // ----- what `close` leaves behind

  ghost predicate ReturnedClosersDone<S, P, T, O>(w: World<S, P, T, O>) {
    forall i :: 0 <= i < |w.crews| && w.crews[i].closing && !w.crews[i].owes ==> w.core.discarded
  }

  /** No waker of an activation with rounds to go panics. */
  predicate WakersCalm<S, P, T, O>(r: Rules<S, P, T, O>, w: World<S, P, T, O>, steps: seq<Step<S, P, T>>)
    decreases |steps|
  {
    steps == [] || (WakerCalm(w, steps[0]) && WakersCalm(r, Do(r, w, steps[0]), steps[1..]))
  }

  lemma BeforeKeepsDiscarded<S, P, T, O>(r: Rules<S, P, T, O>, w: World<S, P, T, O>, step: Step<S, P, T>)
    requires Safe(r, w)
    ensures Before(r, w, step).core.discarded == w.core.discarded
  {
    match step
    case Poll(id, waker) =>
      if id < |w.core.waiters| { PollFrame(r, w.core, id, waker); }
    case Cancel(id) => FindsLinked(w.core.list, w.core.waiters, id);
    case _ => OthersFrame(r, w, step);
  }

  predicate WakerCalm<S, P, T, O>(w: World<S, P, T, O>, step: Step<S, P, T>) {
    !(step.Notify? && step.unwinds && step.crew < |w.crews| && w.crews[step.crew].owes)
  }

  lemma RoundKeepsReturned<S, P, T, O>(r: Rules<S, P, T, O>, w: World<S, P, T, O>, i: nat)
    requires i < |w.crews|
    requires forall j :: 0 <= j < |w.crews| && j != i && w.crews[j].closing && !w.crews[j].owes ==> w.core.discarded
    ensures ReturnedClosersDone(Round(r, w, i))
  {
  }

  lemma BeforeKeepsReturned<S, P, T, O>(r: Rules<S, P, T, O>, w: World<S, P, T, O>, step: Step<S, P, T>)
    requires Safe(r, w) && ReturnedClosersDone(w) && WakerCalm(w, step)
    ensures ReturnedClosersDone(Before(r, w, step))
  {
    BeforeKeepsDiscarded(r, w, step);
    var v := Before(r, w, step);
    forall i | 0 <= i < |v.crews| && v.crews[i].closing && !v.crews[i].owes ensures v.core.discarded {
      assert w.crews[i].closing && !w.crews[i].owes;
    }
  }

  lemma {:induction false} RunKeepsReturned<S, P, T, O>(
      r: Rules<S, P, T, O>, w: World<S, P, T, O>, steps: seq<Step<S, P, T>>)
    requires Safe(r, w) && ReturnedClosersDone(w) && WakersCalm(r, w, steps)
    ensures ReturnedClosersDone(Exec(r, w, steps))
    decreases |steps|
  {
    if steps == [] {
    } else {
      var step := steps[0];
      StepKeepsSafe(r, w, step);
      BeforeKeepsReturned(r, w, step);
      var v := Before(r, w, step);
      match Then(r, w, step) {
        case Nothing =>
        case Check => RoundKeepsReturned(r, Spawn(v, false), |v.crews|);
        case CloseAll => RoundKeepsReturned(r, Spawn(w, true), |w.crews|);
        case Again(i) => RoundKeepsReturned(r, w, i);
      }
      RunKeepsReturned(r, Do(r, w, step), steps[1..]);
    }
  }

  /** Without waker panics, when some activation of `close` has no round left to do, the list is
      discarded, and no node is linked. */
  lemma CloseReturnsEmpty<S, P, T, O>(
      r: Rules<S, P, T, O>, state: S, order: O, steps: seq<Step<S, P, T>>, i: nat, id: nat)
    requires WakersCalm(r, Init<S, P, T, O>(state, order), steps)
    requires var w := Reach(r, state, order, steps);
             i < |w.crews| && w.crews[i].closing && !w.crews[i].owes
    ensures var w := Reach(r, state, order, steps);
            w.core.discarded && !IsLinked(w.core.waiters, id)
  {
    var w := Reach(r, state, order, steps);
    RunKeepsSafe(r, Init<S, P, T, O>(state, order), steps);
    RunKeepsReturned(r, Init<S, P, T, O>(state, order), steps);
    assert Occurs(w.core.list, id) == if IsLinked(w.core.waiters, id) then 1 else 0;
  }
}
