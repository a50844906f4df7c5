/** No stranded waiter: nobody is left waiting for permits that are there. The theorem is exact:
    three kinds of step, and no others, leave a waiter behind. */
module Stranded {
  import opened SemaphoreStates
  import opened QueueModel
  import opened ListFacts
  import opened Machine
  import opened Lifecycle
  import opened Moves
  import opened Poison
  import opened Conservation

  /** The params of the first waiter that still has some. */
  function FirstLive<P>(list: seq<Entry<P>>): Option<P> {
    if list == [] then None else if list[0].params.Some? then list[0].params else FirstLive(list[1..])
  }

  /** The state refuses the first live waiter, if there is one. */
  predicate Blocked<S, P, T, O>(r: Rules<S, P, T, O>, s: S, list: seq<Entry<P>>) {
    FirstLive(list).Some? ==> r.acquire(s, FirstLive(list).value).Refused?
  }

  /** Some activation of `with_queue` will lock again and check. */
  ghost predicate CheckOwed(crews: seq<Crew>) {
    exists i :: 0 <= i < |crews| && crews[i].owes && !crews[i].closing
  }

  predicate NoDead<P>(list: seq<Entry<P>>) {
    forall i :: 0 <= i < |list| ==> list[i].params.Some?
  }

  /** Nobody waits in vain: the queue serves nobody at all, or somebody will look, or looking
      would not help. */
  ghost predicate Attended<S, P, T, O>(r: Rules<S, P, T, O>, w: World<S, P, T, O>) {
    w.core.poisoned || w.core.closed || CheckOwed(w.crews) || Blocked(r, w.core.state, w.core.list)
  }

  /** The future polled for the first time joins, untried, behind nothing but dead waiters, and the
      state would not have refused it. */
  predicate JoinsUntried<S, P, T, O>(r: Rules<S, P, T, O>, c: Core<S, P, T, O>, id: nat) {
    && id < |c.waiters| && c.waiters[id].phase.Initial?
    && c.list != [] && FirstLive(c.list).None? && !r.enqueueFront(c.order, c.len).1
    && !r.acquire(c.state, c.waiters[id].phase.params).Refused?
  }

  /** The steps that leave a waiter behind on an open queue: clearing poison, a panicking waker of
      the only activation that would check, and joining untried behind the dead. */
  ghost predicate Strands<S, P, T, O>(r: Rules<S, P, T, O>, w: World<S, P, T, O>, step: Step<S, P, T>) {
    && !w.core.closed
    && match step
       case ClearPoison =>
         w.core.poisoned && !CheckOwed(w.crews) && !Blocked(r, w.core.state, w.core.list)
       case Notify(i, unwinds) =>
         && unwinds && i < |w.crews| && w.crews[i].batch != []
         && !w.core.poisoned && !Blocked(r, w.core.state, w.core.list)
         && (forall j :: 0 <= j < |w.crews| && j != i ==> !w.crews[j].owes || w.crews[j].closing)
       case Poll(id, _) => !w.core.poisoned && !CheckOwed(w.crews) && JoinsUntried(r, w.core, id)
       case _ => false
  }

  // ----- lists

  lemma {:induction false} FirstLiveConcat<P>(a: seq<Entry<P>>, b: seq<Entry<P>>)
    ensures FirstLive(a + b) == if FirstLive(a).Some? then FirstLive(a) else FirstLive(b)
    decreases |a|
  {
    if a == [] {
      assert a + b == b;
    } else {
      assert (a + b)[1..] == a[1..] + b;
      FirstLiveConcat(a[1..], b);
    }
  }

  lemma {:induction false} FirstLiveUpdate<P>(list: seq<Entry<P>>, i: nat, waker: nat)
    requires i < |list|
    ensures FirstLive(list[i := list[i].(waker := waker)]) == FirstLive(list)
    decreases |list|
  {
    var out := list[i := list[i].(waker := waker)];
    if i == 0 {
      assert out[1..] == list[1..];
    } else {
      assert out[1..] == list[1..][i - 1 := list[1..][i - 1].(waker := waker)];
      FirstLiveUpdate(list[1..], i - 1, waker);
    }
  }

  /** A batch with room left over ended at a live waiter that the state refuses, or at the end. */
  lemma {:induction false} ServeToTheEnd<S(!new), P(!new), T(!new), O>(
      r: Rules<S, P, T, O>, s: S, list: seq<Entry<P>>, room: nat)
    requires GivesBack(r) && Steady(r)
    ensures var k := Serve(r, s, list, room);
            !k.unwound && |k.removed| < room ==> Blocked(r, k.state, k.kept)
    decreases |list|
  {
    if list == [] || room == 0 {
    } else if list[0].params.None? {
      ServeToTheEnd(r, s, list[1..], room);
      var rest := Serve(r, s, list[1..], room).kept;
      assert ([list[0]] + rest)[1..] == rest;
    } else {
      var out := r.acquire(s, list[0].params.value);
      if out.Granted? { ServeToTheEnd(r, out.state, list[1..], room - 1); }
    }
  }

  // ----- rounds

  /** A round always leaves the queue attended, whatever it found. */
  lemma RoundAttends<S(!new), P(!new), T(!new), O>(r: Rules<S, P, T, O>, w: World<S, P, T, O>, i: nat)
    requires GivesBack(r) && Steady(r) && Safe(r, w) && i < |w.crews|
    ensures Attended(r, Round(r, w, i))
  {
    var v := Round(r, w, i);
    if !w.crews[i].closing && !Idle(r, w.core) {
      CheckSplits(r, w.core, r.capacity);
      ServeToTheEnd(r, w.core.state, w.core.list, r.capacity);
      if v.crews[i].owes { assert CheckOwed(v.crews); }
    }
  }

  // ----- polls

  /** An attempt on a queue whose first live waiter is blocked leaves it blocked. */
  lemma AttemptBlocks<S(!new), P(!new), T(!new), O>(
      r: Rules<S, P, T, O>, c: Core<S, P, T, O>, params: P, fair: bool)
    requires Steady(r) && Monotone(r) && Blocked(r, c.state, c.list)
    ensures var d := Attempt(r, c, params, fair).0;
            d.list == c.list && (d.poisoned || Blocked(r, d.state, c.list))
  {
    var out := r.acquire(c.state, params);
    if FirstLive(c.list).Some? && out.Granted? {
      assert r.acquire(c.state, FirstLive(c.list).value).Refused?;
      assert r.acquire(r.acquire(c.state, params).state, FirstLive(c.list).value).Refused?;
    }
  }

  lemma JoinsBlocked<S(!new), P(!new), T(!new), O>(
      r: Rules<S, P, T, O>, d: Core<S, P, T, O>, id: nat, waker: nat, front: bool, params: P)
    requires id < |d.waiters| && Blocked(r, d.state, d.list)
    ensures var e := Join(d, id, waker, front, params);
            Blocked(r, e.state, e.list)
              == ((!front && FirstLive(d.list).Some?) || r.acquire(d.state, params).Refused?)
  {
    var e := Entry(id, Some(params), waker, front, d.waiters[id].ticket);
    assert FirstLive([e]) == Some(params);
    FirstLiveConcat([e], d.list);
    FirstLiveConcat(d.list, [e]);
  }

  lemma FirstPollAttends<S(!new), P(!new), T(!new), O>(
      r: Rules<S, P, T, O>, c: Core<S, P, T, O>, id: nat, waker: nat)
    requires GivesBack(r) && Steady(r) && Monotone(r)
    requires id < |c.waiters| && c.waiters[id].phase.Initial?
    requires !c.poisoned && !c.closed && !c.discarded && Blocked(r, c.state, c.list)
    ensures var d := FirstPoll(r, c, id, waker).0;
            (d.poisoned || Blocked(r, d.state, d.list)) == !JoinsUntried(r, c, id)
  {
    var c0, params := DrawTicket(c, id), c.waiters[id].phase.params;
    AttemptFrame(r, c0, params, true);
    AttemptBlocks(r, c0, params, true);
    var (d, outcome) := Attempt(r, c0, params, true);
    match outcome
    case Enqueue(front, back) =>
      assert back == params && d.state == c.state;
      JoinsBlocked(r, d, id, waker, front, params);
    case _ =>
  }

  lemma PollAttends<S(!new), P(!new), T(!new), O>(
      r: Rules<S, P, T, O>, c: Core<S, P, T, O>, id: nat, waker: nat)
    requires GivesBack(r) && Steady(r) && Monotone(r) && Sound(r, c) && id < |c.waiters|
    requires !c.poisoned && !c.closed && Blocked(r, c.state, c.list)
    ensures var d := PollCore(r, c, id, waker).0;
            (d.poisoned || Blocked(r, d.state, d.list)) == !JoinsUntried(r, c, id)
  {
    SoundFinds(r, c, id);
    match c.waiters[id].phase
    case Initial(_) => FirstPollAttends(r, c, id, waker);
    case Linked => FirstLiveUpdate(c.list, IndexOf(c.list, id), waker);
    case _ =>
  }

  lemma PollStepAttends<S(!new), P(!new), T(!new), O>(
      r: Rules<S, P, T, O>, w: World<S, P, T, O>, id: nat, waker: nat)
    requires GivesBack(r) && Steady(r) && Monotone(r) && Safe(r, w) && Attended(r, w)
    ensures Attended(r, Before(r, w, Poll(id, waker))) <==> !Strands(r, w, Poll(id, waker))
  {
    if id < |w.core.waiters| {
      PollStaysShut(r, w.core, id, waker);
      if !w.core.poisoned && !w.core.closed && !CheckOwed(w.crews) { PollAttends(r, w.core, id, waker); }
    }
  }

  // ----- other steps

  lemma CancelStepAttends<S, P, T, O>(r: Rules<S, P, T, O>, w: World<S, P, T, O>, id: nat)
    requires Safe(r, w) && Attended(r, w) && !Then(r, w, Cancel(id)).Check?
    ensures Attended(r, Before(r, w, Cancel(id)))
  {
    BeforeKeepsSafe(r, w, Cancel(id));
    BeforeStaysShut(r, w, Cancel(id));
    SoundFinds(r, w.core, id);
  }

  lemma TryStepAttends<S(!new), P(!new), T(!new), O>(
      r: Rules<S, P, T, O>, w: World<S, P, T, O>, params: P, fair: bool)
    requires Steady(r) && Monotone(r) && Attended(r, w)
    ensures Attended(r, Before(r, w, Try(params, fair)))
  {
    AttemptFrame(r, w.core, params, fair);
    if Blocked(r, w.core.state, w.core.list) { AttemptBlocks(r, w.core, params, fair); }
  }

  lemma NotifyAttends<S, P, T, O>(r: Rules<S, P, T, O>, w: World<S, P, T, O>, step: Step<S, P, T>)
    requires Attended(r, w) && step.Notify?
    ensures Attended(r, Before(r, w, step)) <==> !Strands(r, w, step)
  {
    var v := Before(r, w, step);
    if CheckOwed(w.crews) && !(step.unwinds && step.crew < |w.crews| && w.crews[step.crew].batch != []) {
      var j :| 0 <= j < |w.crews| && w.crews[j].owes && !w.crews[j].closing;
      assert v.crews[j].owes && !v.crews[j].closing;
    } else if j :| 0 <= j < |w.crews| && j != step.crew && w.crews[j].owes && !w.crews[j].closing {
      assert v.crews[j].owes && !v.crews[j].closing;
    }
  }

  lemma BeforeAttends<S(!new), P(!new), T(!new), O>(
      r: Rules<S, P, T, O>, w: World<S, P, T, O>, step: Step<S, P, T>)
    requires GivesBack(r) && Steady(r) && Monotone(r) && Safe(r, w) && Attended(r, w)
    requires Then(r, w, step).Nothing?
    ensures Attended(r, Before(r, w, step)) <==> !Strands(r, w, step)
  {
    match step
    case Poll(id, waker) => PollStepAttends(r, w, id, waker);
    case Cancel(id) => CancelStepAttends(r, w, id);
    case Try(params, fair) => TryStepAttends(r, w, params, fair);
    case Notify(_, _) => NotifyAttends(r, w, step);
    case _ => BeforeKeepsSafe(r, w, step);
  }

  /** Exactly which steps leave a waiter behind, panics of all kinds included. */
  lemma StepAttends<S(!new), P(!new), T(!new), O>(
      r: Rules<S, P, T, O>, w: World<S, P, T, O>, step: Step<S, P, T>)
    requires GivesBack(r) && Steady(r) && Monotone(r) && Safe(r, w) && Attended(r, w)
    ensures Attended(r, Do(r, w, step)) <==> !Strands(r, w, step)
  {
    BeforeKeepsSafe(r, w, step);
    match Then(r, w, step)
    case Nothing => BeforeAttends(r, w, step);
    case Check =>
      var v := Before(r, w, step);
      RoundAttends(r, Spawn(v, false), |v.crews|);
    case CloseAll => RoundAttends(r, Spawn(w, true), |w.crews|);
    case Again(i) => RoundAttends(r, w, i);
  }

  // ----- runs

  ghost predicate AttendedThroughout<S, P, T, O>(
      r: Rules<S, P, T, O>, w: World<S, P, T, O>, steps: seq<Step<S, P, T>>)
    decreases |steps|
  {
    Attended(r, w) && (steps == [] || AttendedThroughout(r, Do(r, w, steps[0]), steps[1..]))
  }

  ghost predicate NeverStrands<S, P, T, O>(
      r: Rules<S, P, T, O>, w: World<S, P, T, O>, steps: seq<Step<S, P, T>>)
    decreases |steps|
  {
    steps == [] || (!Strands(r, w, steps[0]) && NeverStrands(r, Do(r, w, steps[0]), steps[1..]))
  }

  lemma {:induction false} RunAttends<S(!new), P(!new), T(!new), O>(
      r: Rules<S, P, T, O>, w: World<S, P, T, O>, steps: seq<Step<S, P, T>>)
    requires GivesBack(r) && Steady(r) && Monotone(r) && Safe(r, w) && Attended(r, w)
    ensures AttendedThroughout(r, w, steps) <==> NeverStrands(r, w, steps)
    ensures NeverStrands(r, w, steps) ==> Attended(r, Exec(r, w, steps))
    decreases |steps|
  {
    if steps == [] {
    } else {
      StepKeepsSafe(r, w, steps[0]);
      StepAttends(r, w, steps[0]);
      if !Strands(r, w, steps[0]) { RunAttends(r, Do(r, w, steps[0]), steps[1..]); }
    }
  }

  /** A run of a new queue is attended at every point if and only if none of its steps strands. */
  lemma AttendedExactly<S(!new), P(!new), T(!new), O>(
      r: Rules<S, P, T, O>, state: S, order: O, steps: seq<Step<S, P, T>>)
    requires GivesBack(r) && Steady(r) && Monotone(r)
    ensures AttendedThroughout(r, Init<S, P, T, O>(state, order), steps)
       <==> NeverStrands(r, Init<S, P, T, O>(state, order), steps)
  {
    RunAttends(r, Init<S, P, T, O>(state, order), steps);
  }

  /** In every run in which no step strands: when the queue is open and unpoisoned and the state
      would not refuse its first live waiter, some activation still owes a check. */
  lemma NobodyStranded<S(!new), P(!new), T(!new), O>(
      r: Rules<S, P, T, O>, state: S, order: O, steps: seq<Step<S, P, T>>)
    requires GivesBack(r) && Steady(r) && Monotone(r)
    requires NeverStrands(r, Init<S, P, T, O>(state, order), steps)
    ensures var w := Reach(r, state, order, steps);
            !w.core.closed && !w.core.poisoned && FirstLive(w.core.list).Some?
            && !r.acquire(w.core.state, FirstLive(w.core.list).value).Refused?
            ==> CheckOwed(w.crews)
  {
    RunAttends(r, Init<S, P, T, O>(state, order), steps);
  }

  // ----- runs without panics

  lemma BeforeKeepsLive<S, P, T, O>(r: Rules<S, P, T, O>, w: World<S, P, T, O>, step: Step<S, P, T>)
    requires NoDead(w.core.list)
    ensures NoDead(Before(r, w, step).core.list)
  {
    var list := Before(r, w, step).core.list;
    forall k | 0 <= k < |list| ensures list[k].params.Some? {
      if list[k].params.None? {
        DeadAt(list, k);
        BeforeMakesNoDead(r, w, step, list[k].id);
      }
    }
  }

  lemma StepKeepsLive<S, P, T, O>(r: Rules<S, P, T, O>, w: World<S, P, T, O>, step: Step<S, P, T>)
    requires Safe(r, w) && NoDead(w.core.list) && !Do(r, w, step).core.poisoned
    ensures NoDead(Do(r, w, step).core.list)
  {
    var list := Do(r, w, step).core.list;
    forall k | 0 <= k < |list| ensures list[k].params.Some? {
      if list[k].params.None? {
        DeadAt(list, k);
        DeadByUnwinding(r, w, step, list[k].id);
      }
    }
  }

  lemma StaysPoisoned<S, P, T, O>(r: Rules<S, P, T, O>, w: World<S, P, T, O>, step: Step<S, P, T>)
    ensures Before(r, w, step).core.poisoned ==> Do(r, w, step).core.poisoned
  {
  }

  /** No waker panics. */
  predicate QuietWakers<S, P, T>(steps: seq<Step<S, P, T>>) {
    forall i :: 0 <= i < |steps| ==> !(steps[i].Notify? && steps[i].unwinds)
  }

  lemma {:induction false} QuietNeverStrands<S, P, T, O>(
      r: Rules<S, P, T, O>, w: World<S, P, T, O>, steps: seq<Step<S, P, T>>)
    requires Safe(r, w) && NoDead(w.core.list) && Unpoisoned(r, w, steps) && QuietWakers(steps)
    ensures NeverStrands(r, w, steps) && NoDead(Exec(r, w, steps).core.list)
    decreases |steps|
  {
    if steps == [] {
    } else {
      assert !Strands(r, w, steps[0]);
      StepKeepsSafe(r, w, steps[0]);
      StepKeepsLive(r, w, steps[0]);
      QuietNeverStrands(r, Do(r, w, steps[0]), steps[1..]);
    }
  }

  /** The same in plain words: in every run in which no callback and no waker panics, when the queue
      is open and the state would not refuse its front waiter, some activation still owes a check. */
  lemma QuietRunsStrandNobody<S(!new), P(!new), T(!new), O>(
      r: Rules<S, P, T, O>, state: S, order: O, steps: seq<Step<S, P, T>>)
    requires GivesBack(r) && Steady(r) && Monotone(r)
    requires Unpoisoned(r, Init<S, P, T, O>(state, order), steps) && QuietWakers(steps)
    ensures var w := Reach(r, state, order, steps);
            !w.core.closed && w.core.list != []
            && (w.core.list[0].params.None? || !r.acquire(w.core.state, w.core.list[0].params.value).Refused?)
            ==> CheckOwed(w.crews)
  {
    var w0 := Init<S, P, T, O>(state, order);
    QuietNeverStrands(r, w0, steps);
    RunAttends(r, w0, steps);
    UnpoisonedEnd(r, w0, steps);
  }

  // ----- recovery from poison

  /** The documented recovery. After any run, panics included, once the poison is cleared a
      `with_state` that does not panic leaves the first live waiter refused, or a check owed:
      dead waiters do not hide the ones behind them. */
  lemma RecheckRecovers<S(!new), P(!new), T(!new), O>(
      r: Rules<S, P, T, O>, state: S, order: O, past: seq<Step<S, P, T>>, next: S)
    requires GivesBack(r) && Steady(r)
    ensures var w := Do(r, Reach(r, state, order, past), ClearPoison);
            var v := Do(r, w, Update(next, false));
            !v.core.closed && !v.core.poisoned ==>
              CheckOwed(v.crews) || Blocked(r, v.core.state, v.core.list)
  {
    var w0 := Reach(r, state, order, past);
    RunKeepsSafe(r, Init<S, P, T, O>(state, order), past);
    var w := Do(r, w0, ClearPoison);
    StepKeepsSafe(r, w0, ClearPoison);
    BeforeKeepsSafe(r, w, Update(next, false));
    var b := Before(r, w, Update(next, false));
    if b.core.len != 0 { RoundAttends(r, Spawn(b, false), |b.crews|); }
  }
}
