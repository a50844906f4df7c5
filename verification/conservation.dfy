/** Conservation of permits: nothing the queue does creates or loses a unit. */
module Conservation {
  import opened SemaphoreStates
  import opened QueueModel
  import opened ListFacts
  import opened Machine
  import opened Lifecycle

  function PhaseWorth<S, P, T>(m: Measure<S, T>, phase: Phase<P, T>): int {
    if phase.RemovedOk? then m.worth(phase.permit) else 0
  }

  /** Granted, not yet claimed. */
  function Unclaimed<S, P, T>(m: Measure<S, T>, ws: seq<Waiter<P, T>>): int {
    if ws == [] then 0 else PhaseWorth(m, ws[0].phase) + Unclaimed(m, ws[1..])
  }

  function SlotWorth<S, T>(m: Measure<S, T>, slot: Option<T>): int {
    if slot.Some? then m.worth(slot.value) else 0
  }

  /** In the hands of users. */
  function InHand<S, T>(m: Measure<S, T>, held: seq<Option<T>>): int {
    if held == [] then 0 else SlotWorth(m, held[0]) + InHand(m, held[1..])
  }

  function Balance<S, P, T, O>(m: Measure<S, T>, w: World<S, P, T, O>): int {
    m.value(w.core.state) + Unclaimed(m, w.core.waiters) + InHand(m, w.held)
  }

  /** What a step mints, less what it takes: only users' own interventions count. */
  function Injected<S, P, T, O>(m: Measure<S, T>, w: World<S, P, T, O>, step: Step<S, P, T>): int {
    match step
    case Update(next, _) => m.value(next) - m.value(w.core.state)
    case Mint(permit) => m.worth(permit)
    case TakePermit(i) => if i < |w.held| then -SlotWorth(m, w.held[i]) else 0
    case Amend(i, permit) =>
      if i < |w.held| && w.held[i].Some? then m.worth(permit) - m.worth(w.held[i].value) else 0
    case _ => 0
  }

  lemma {:induction false} UnclaimedUpdate<S, P, T>(m: Measure<S, T>, ws: seq<Waiter<P, T>>, i: nat, x: Waiter<P, T>)
    requires i < |ws|
    ensures Unclaimed(m, ws[i := x]) == Unclaimed(m, ws) - PhaseWorth(m, ws[i].phase) + PhaseWorth(m, x.phase)
    decreases |ws|
  {
    if i == 0 {
      assert ws[0 := x][1..] == ws[1..];
    } else {
      assert ws[i := x][1..] == ws[1..][i - 1 := x];
      UnclaimedUpdate(m, ws[1..], i - 1, x);
    }
  }

  lemma {:induction false} UnclaimedAppend<S, P, T>(m: Measure<S, T>, ws: seq<Waiter<P, T>>, x: Waiter<P, T>)
    ensures Unclaimed(m, ws + [x]) == Unclaimed(m, ws) + PhaseWorth(m, x.phase)
    decreases |ws|
  {
    if ws == [] {
      assert (ws + [x])[1..] == [];
    } else {
      assert (ws + [x])[1..] == ws[1..] + [x];
      UnclaimedAppend(m, ws[1..], x);
    }
  }

  lemma {:induction false} InHandUpdate<S, T>(m: Measure<S, T>, held: seq<Option<T>>, i: nat, x: Option<T>)
    requires i < |held|
    ensures InHand(m, held[i := x]) == InHand(m, held) - SlotWorth(m, held[i]) + SlotWorth(m, x)
    decreases |held|
  {
    if i == 0 {
      assert held[0 := x][1..] == held[1..];
    } else {
      assert held[i := x][1..] == held[1..][i - 1 := x];
      InHandUpdate(m, held[1..], i - 1, x);
    }
  }

  lemma {:induction false} InHandAppend<S, T>(m: Measure<S, T>, held: seq<Option<T>>, x: Option<T>)
    ensures InHand(m, held + [x]) == InHand(m, held) + SlotWorth(m, x)
    decreases |held|
  {
    if held == [] {
      assert (held + [x])[1..] == [];
    } else {
      assert (held + [x])[1..] == held[1..] + [x];
      InHandAppend(m, held[1..], x);
    }
  }

  function RemovedWorth<S, P, T>(m: Measure<S, T>, rs: seq<Removal<P, T>>): int {
    if rs == [] then 0 else PhaseWorth(m, rs[0].result) + RemovedWorth(m, rs[1..])
  }

  /** What the state gives up while serving is what the removed nodes receive. */
  lemma {:induction false} ServeConserves<S(!new), P(!new), T(!new), O>(
      r: Rules<S, P, T, O>, m: Measure<S, T>, s: S, list: seq<Entry<P>>, room: nat)
    requires Conserves(r, m)
    ensures var k := Serve(r, s, list, room);
            !k.unwound ==> m.value(s) == m.value(k.state) + RemovedWorth(m, k.removed)
    decreases |list|
  {
    if list == [] || room == 0 {
    } else if list[0].params.None? {
      ServeConserves(r, m, s, list[1..], room);
    } else {
      var out := r.acquire(s, list[0].params.value);
      if out.Granted? {
        ServeConserves(r, m, out.state, list[1..], room - 1);
        var k := Serve(r, s, list, room);
        assert k.removed[1..] == Serve(r, out.state, list[1..], room - 1).removed;
      }
    }
  }

  /** The removed nodes hold what was removed for them, once each. */
  lemma {:induction false} SettleWorth<S, P, T>(m: Measure<S, T>, ws: seq<Waiter<P, T>>, rs: seq<Removal<P, T>>)
    requires forall id: nat :: Occurs(Entries(rs), id) <= if IsLinked(ws, id) then 1 else 0
    requires Results(rs)
    ensures Unclaimed(m, Settle(ws, rs)) == Unclaimed(m, ws) + RemovedWorth(m, rs)
    decreases |rs|
  {
    if rs == [] {
    } else {
      var id := rs[0].entry.id;
      assert Entries(rs)[1..] == Entries(rs[1..]);
      assert Occurs(Entries(rs), id) >= 1;
      assert IsLinked(ws, id);
      var x := ws[id].(phase := rs[0].result, settled := true);
      UnclaimedUpdate(m, ws, id, x);
      forall y: nat ensures Occurs(Entries(rs[1..]), y) <= if IsLinked(ws[id := x], y) then 1 else 0 {
        assert Occurs(Entries(rs), y) <= if IsLinked(ws, y) then 1 else 0;
      }
      SettleWorth(m, ws[id := x], rs[1..]);
    }
  }

  lemma RemovedAreLinked<P, T>(list: seq<Entry<P>>, kept: seq<Entry<P>>, rs: seq<Removal<P, T>>, ws: seq<Waiter<P, T>>)
    requires Registered(list, ws) && Divides(list, kept, rs)
    ensures forall id: nat :: Occurs(Entries(rs), id) <= if IsLinked(ws, id) then 1 else 0
  {
    forall id: nat ensures Occurs(Entries(rs), id) <= if IsLinked(ws, id) then 1 else 0 {
      assert Occurs(list, id) == if IsLinked(ws, id) then 1 else 0;
      assert Occurs(list, id) == Occurs(kept, id) + Occurs(Entries(rs), id);
    }
  }

  lemma {:induction false} FailsWorthNothing<S, P, T>(m: Measure<S, T>, es: seq<Entry<P>>)
    ensures RemovedWorth(m, Fails<P, T>(es)) == 0
    decreases |es|
  {
    if es == [] {
    } else {
      FailsWorthNothing<S, P, T>(m, es[1..]);
      assert Fails<P, T>(es)[1..] == Fails<P, T>(es[1..]);
    }
  }

  lemma RoundConserves<S(!new), P(!new), T(!new), O>(
      r: Rules<S, P, T, O>, m: Measure<S, T>, w: World<S, P, T, O>, i: nat)
    requires Conserves(r, m) && Safe(r, w) && i < |w.crews|
    requires !Round(r, w, i).core.poisoned
    ensures Balance(m, Round(r, w, i)) == Balance(m, w)
  {
    var c := w.core;
    if w.crews[i].closing {
      CloseSplits(c, r.capacity);
      var rs: seq<Removal<P, T>> := CloseRemoved(c, r.capacity);
      RemovedAreLinked(c.list, c.list[Min(r.capacity, |c.list|)..], rs, c.waiters);
      SettleWorth(m, c.waiters, rs);
      FailsWorthNothing<S, P, T>(m, c.list[..Min(r.capacity, |c.list|)]);
    } else {
      CheckSplits(r, c, r.capacity);
      var k := CheckScan(r, c, r.capacity);
      RemovedAreLinked(c.list, k.kept, k.removed, c.waiters);
      SettleWorth(m, c.waiters, k.removed);
      if !Idle(r, c) { ServeConserves(r, m, c.state, c.list, r.capacity); }
    }
  }

  lemma ConcludeConserves<S, P, T, O>(
      m: Measure<S, T>, d: Core<S, P, T, O>, id: nat, waker: nat, outcome: Outcome<P, T>)
    requires id < |d.waiters| && d.waiters[id].phase.Initial? && (outcome.Enqueue? ==> !d.discarded)
    ensures var (e, reply) := Conclude(d, id, waker, outcome);
            && e.state == d.state && Unclaimed(m, e.waiters) == Unclaimed(m, d.waiters)
            && reply.ReadyOk? == outcome.Acquired? && (reply.ReadyOk? ==> reply.permit == outcome.permit)
  {
    var e := Conclude(d, id, waker, outcome).0;
    UnclaimedUpdate(m, d.waiters, id, e.waiters[id]);
  }

  lemma FirstPollConserves<S(!new), P(!new), T(!new), O>(
      r: Rules<S, P, T, O>, m: Measure<S, T>, c: Core<S, P, T, O>, id: nat, waker: nat)
    requires Conserves(r, m) && id < |c.waiters| && c.waiters[id].phase.Initial?
    requires !Attempt(r, DrawTicket(c, id), c.waiters[id].phase.params, true).0.poisoned
    ensures var (d, reply) := FirstPoll(r, c, id, waker);
            m.value(d.state) + Unclaimed(m, d.waiters) + (if reply.ReadyOk? then m.worth(reply.permit) else 0)
              == m.value(c.state) + Unclaimed(m, c.waiters)
  {
    var c0 := DrawTicket(c, id);
    UnclaimedUpdate(m, c.waiters, id, c0.waiters[id]);
    var (d, outcome) := Attempt(r, c0, c.waiters[id].phase.params, true);
    AttemptConserves(r, m, c0, c.waiters[id].phase.params, true);
    AttemptFrame(r, c0, c.waiters[id].phase.params, true);
    ConcludeConserves(m, d, id, waker, outcome);
  }

  lemma PollConserves<S(!new), P(!new), T(!new), O>(
      r: Rules<S, P, T, O>, m: Measure<S, T>, c: Core<S, P, T, O>, id: nat, waker: nat)
    requires Conserves(r, m) && Sound(r, c) && id < |c.waiters| && !PollCore(r, c, id, waker).0.poisoned
    ensures var (d, reply) := PollCore(r, c, id, waker);
            m.value(d.state) + Unclaimed(m, d.waiters) + (if reply.ReadyOk? then m.worth(reply.permit) else 0)
              == m.value(c.state) + Unclaimed(m, c.waiters)
  {
    SoundFinds(r, c, id);
    if c.waiters[id].phase.Initial? {
      FirstPollPoison(r, c, id, waker);
      FirstPollConserves(r, m, c, id, waker);
    } else {
      UnclaimedUpdate(m, c.waiters, id, PollCore(r, c, id, waker).0.waiters[id]);
    }
  }

  lemma AttemptConserves<S(!new), P(!new), T(!new), O>(
      r: Rules<S, P, T, O>, m: Measure<S, T>, c: Core<S, P, T, O>, params: P, fair: bool)
    requires Conserves(r, m)
    ensures var (d, outcome) := Attempt(r, c, params, fair);
            !d.poisoned ==>
              m.value(d.state) + (if outcome.Acquired? then m.worth(outcome.permit) else 0) == m.value(c.state)
  {
  }

  lemma DetachConserves<S(!new), P(!new), T(!new), O>(
      r: Rules<S, P, T, O>, m: Measure<S, T>, c: Core<S, P, T, O>, id: nat)
    requires Conserves(r, m) && Sound(r, c) && id < |c.waiters| && !Detach(r, c, id).0.poisoned
    ensures var d := Detach(r, c, id).0;
            m.value(d.state) + Unclaimed(m, d.waiters) == m.value(c.state) + Unclaimed(m, c.waiters)
  {
    FindsLinked(c.list, c.waiters, id);
    UnclaimedUpdate(m, c.waiters, id, c.waiters[id].(phase := Done(Cancelled)));
  }

  lemma BeforeConserves<S(!new), P(!new), T(!new), O>(
      r: Rules<S, P, T, O>, m: Measure<S, T>, w: World<S, P, T, O>, step: Step<S, P, T>)
    requires Conserves(r, m) && Safe(r, w) && !w.core.poisoned && !Before(r, w, step).core.poisoned
    ensures Balance(m, Before(r, w, step)) == Balance(m, w) + Injected(m, w, step)
  {
    match step
    case New(params) => UnclaimedAppend(m, w.core.waiters, Waiter(params, Initial(params), 0, 0, false));
    case Poll(id, waker) =>
      if id < |w.core.waiters| {
        PollConserves(r, m, w.core, id, waker);
        var reply := PollCore(r, w.core, id, waker).1;
        if reply.ReadyOk? { InHandAppend(m, w.held, Some(reply.permit)); }
      }
    case Cancel(id) =>
      if id < |w.core.waiters| { DetachConserves(r, m, w.core, id); }
    case Try(params, fair) =>
      AttemptFrame(r, w.core, params, fair);
      AttemptConserves(r, m, w.core, params, fair);
      var outcome := Attempt(r, w.core, params, fair).1;
      if outcome.Acquired? { InHandAppend(m, w.held, Some(outcome.permit)); }
    case Mint(permit) => InHandAppend(m, w.held, Some(permit));
    case DropPermit(i) =>
      if i < |w.held| { InHandUpdate(m, w.held, i, None); }
    case TakePermit(i) =>
      if i < |w.held| { InHandUpdate(m, w.held, i, None); }
    case Amend(i, permit) =>
      if i < |w.held| { InHandUpdate(m, w.held, i, Some(permit)); }
    case _ =>
  }

  lemma StepConserves<S(!new), P(!new), T(!new), O>(
      r: Rules<S, P, T, O>, m: Measure<S, T>, w: World<S, P, T, O>, step: Step<S, P, T>)
    requires Conserves(r, m) && Safe(r, w) && !w.core.poisoned && !Do(r, w, step).core.poisoned
    ensures Balance(m, Do(r, w, step)) == Balance(m, w) + Injected(m, w, step)
  {
    BeforeKeepsSafe(r, w, step);
    BeforeConserves(r, m, w, step);
    var v := Before(r, w, step);
    match Then(r, w, step)
    case Nothing =>
    case Check => RoundConserves(r, m, Spawn(v, false), |v.crews|);
    case CloseAll => RoundConserves(r, m, Spawn(w, true), |w.crews|);
    case Again(i) => RoundConserves(r, m, w, i);
  }

  /** No state along the run is poisoned: no callback has panicked. */
  predicate Unpoisoned<S, P, T, O>(r: Rules<S, P, T, O>, w: World<S, P, T, O>, steps: seq<Step<S, P, T>>)
    decreases |steps|
  {
    !w.core.poisoned && (steps == [] || Unpoisoned(r, Do(r, w, steps[0]), steps[1..]))
  }

  lemma {:induction false} UnpoisonedEnd<S, P, T, O>(
      r: Rules<S, P, T, O>, w: World<S, P, T, O>, steps: seq<Step<S, P, T>>)
    requires Unpoisoned(r, w, steps)
    ensures !Exec(r, w, steps).core.poisoned
    decreases |steps|
  {
    if steps == [] {
    } else {
      UnpoisonedEnd(r, Do(r, w, steps[0]), steps[1..]);
    }
  }

  function InjectedBy<S, P, T, O>(
      r: Rules<S, P, T, O>, m: Measure<S, T>, w: World<S, P, T, O>, steps: seq<Step<S, P, T>>): int
    decreases |steps|
  {
    if steps == [] then 0 else Injected(m, w, steps[0]) + InjectedBy(r, m, Do(r, w, steps[0]), steps[1..])
  }

  /** Available + granted but unclaimed + held = what was there + minted - taken, along every run
      in which no callback panics: through grants, claims, cancels, closing and batching. */
  lemma {:induction false} RunConserves<S(!new), P(!new), T(!new), O>(
      r: Rules<S, P, T, O>, m: Measure<S, T>, w: World<S, P, T, O>, steps: seq<Step<S, P, T>>)
    requires Conserves(r, m) && Safe(r, w) && Unpoisoned(r, w, steps)
    ensures Balance(m, Exec(r, w, steps)) == Balance(m, w) + InjectedBy(r, m, w, steps)
    decreases |steps|
  {
    if steps == [] {
    } else {
      StepKeepsSafe(r, w, steps[0]);
      StepConserves(r, m, w, steps[0]);
      RunConserves(r, m, Do(r, w, steps[0]), steps[1..]);
    }
  }
}
