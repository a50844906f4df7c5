/** The node lifecycle invariant: what the `unsafe` blocks of flag-bearer-queue rely on. It
    needs no law of the user's callbacks, which may even panic. */
module Lifecycle {
  import opened SemaphoreStates
  import opened QueueModel
  import opened ListFacts
  import opened Machine

  predicate IsLinked<P, T>(ws: seq<Waiter<P, T>>, id: nat) {
    id < |ws| && ws[id].phase.Linked?
  }

  /** Each linked node is on the list exactly once, and nothing else is on it. */
  ghost predicate Registered<P, T>(list: seq<Entry<P>>, ws: seq<Waiter<P, T>>) {
    forall id: nat :: Occurs(list, id) == if IsLinked(ws, id) then 1 else 0
  }

  /** A listed node carries its future's most recent waker and its ticket. */
  ghost predicate Agrees<P, T>(list: seq<Entry<P>>, ws: seq<Waiter<P, T>>) {
    forall i :: 0 <= i < |list| ==>
      list[i].id < |ws| && ws[list[i].id].waker == list[i].waker && ws[list[i].id].ticket == list[i].ticket
  }

  ghost predicate Sound<S, P, T, O>(r: Rules<S, P, T, O>, c: Core<S, P, T, O>) {
    && !c.ub
    && c.len == |c.list|
    && (c.discarded ==> c.closed && c.list == [])
    && (c.closed ==> r.closeable)
    && Registered(c.list, c.waiters)
    && Agrees(c.list, c.waiters)
  }

  lemma FindsLinked<P, T>(list: seq<Entry<P>>, ws: seq<Waiter<P, T>>, id: nat)
    requires Registered(list, ws)
    ensures IndexOf(list, id) < |list| <==> IsLinked(ws, id)
  {
    OccursWitness(list, id);
    assert Occurs(list, id) == if IsLinked(ws, id) then 1 else 0;
    var i := IndexOf(list, id);
  }

  /** A linked node is found on a list that is still there. */
  predicate Findable<S, P, T, O>(c: Core<S, P, T, O>, id: nat) {
    IsLinked(c.waiters, id) ==> !c.discarded && IndexOf(c.list, id) < |c.list|
  }

  lemma SoundFinds<S, P, T, O>(r: Rules<S, P, T, O>, c: Core<S, P, T, O>, id: nat)
    requires Sound(r, c)
    ensures Findable(c, id)
  {
    FindsLinked(c.list, c.waiters, id);
  }

  /** A round of servicing or closing: some nodes leave the list with a result. */
  lemma SettleKeepsRegistered<P, T>(
      list: seq<Entry<P>>, kept: seq<Entry<P>>, rs: seq<Removal<P, T>>, ws: seq<Waiter<P, T>>)
    requires Registered(list, ws) && Agrees(list, ws)
    requires DrawnFrom(kept, list) && Results(rs)
    requires Divides(list, kept, rs)
    ensures Registered(kept, Settle(ws, rs)) && Agrees(kept, Settle(ws, rs))
  {
    var out := Settle(ws, rs);
    forall id: nat ensures Occurs(kept, id) == if IsLinked(out, id) then 1 else 0 {
      assert Occurs(list, id) == if IsLinked(ws, id) then 1 else 0;
      assert Occurs(list, id) == Occurs(kept, id) + Occurs(Entries(rs), id);
      if id < |ws| { SettleAt(ws, rs, id); }
    }
    forall k | 0 <= k < |kept|
      ensures kept[k].id < |out| && out[kept[k].id].waker == kept[k].waker && out[kept[k].id].ticket == kept[k].ticket
    {
      assert HasNode(list, kept[k]);
      var j :| 0 <= j < |list| && SameNode(list[j], kept[k]);
      assert list[j].id < |ws|;
      SettleAt(ws, rs, kept[k].id);
    }
  }

  lemma CheckKeepsSound<S, P, T, O>(r: Rules<S, P, T, O>, c: Core<S, P, T, O>, room: nat)
    requires Sound(r, c)
    ensures Sound(r, AfterScan(c, CheckScan(r, c, room)))
  {
    CheckSplits(r, c, room);
    var k := CheckScan(r, c, room);
    SettleKeepsRegistered(c.list, k.kept, k.removed, c.waiters);
  }

  lemma CloseKeepsSound<S, P, T, O>(r: Rules<S, P, T, O>, c: Core<S, P, T, O>, room: nat)
    requires Sound(r, c) && r.closeable
    ensures Sound(r, AfterClose(c, room))
  {
    CloseSplits(c, room);
    SettleKeepsRegistered(c.list, c.list[Min(room, |c.list|)..], CloseRemoved(c, room), c.waiters);
  }

  lemma RoundKeepsSound<S, P, T, O>(r: Rules<S, P, T, O>, w: World<S, P, T, O>, i: nat)
    requires Sound(r, w.core) && i < |w.crews| && (w.crews[i].closing ==> r.closeable)
    ensures Sound(r, Round(r, w, i).core)
  {
    if w.crews[i].closing {
      CloseKeepsSound(r, w.core, r.capacity);
    } else {
      CheckKeepsSound(r, w.core, r.capacity);
    }
  }

  lemma UnlinkKeepsSound<S, P, T, O>(r: Rules<S, P, T, O>, c: Core<S, P, T, O>, id: nat, ending: Ending<P, T>)
    requires Sound(r, c) && IsLinked(c.waiters, id)
    ensures var i := IndexOf(c.list, id);
            i < |c.list| && Sound(r, SetPhase(Unlink(c, i), id, Done(ending)))
  {
    FindsLinked(c.list, c.waiters, id);
    var i := IndexOf(c.list, id);
    var d := SetPhase(Unlink(c, i), id, Done(ending));
    forall x: nat ensures Occurs(d.list, x) == if IsLinked(d.waiters, x) then 1 else 0 {
      assert Occurs(c.list, x) == if IsLinked(c.waiters, x) then 1 else 0;
      OccursWithout(c.list, i, x);
    }
  }

  lemma SetPhaseKeepsSound<S, P, T, O>(r: Rules<S, P, T, O>, c: Core<S, P, T, O>, id: nat, phase: Phase<P, T>)
    requires Sound(r, c) && id < |c.waiters| && !c.waiters[id].phase.Linked? && !phase.Linked?
    ensures Sound(r, SetPhase(c, id, phase))
  {
    var d := SetPhase(c, id, phase);
    forall x: nat ensures Occurs(d.list, x) == if IsLinked(d.waiters, x) then 1 else 0 {
      assert Occurs(c.list, x) == if IsLinked(c.waiters, x) then 1 else 0;
    }
  }

  /** `Enqueue` is only answered while the list is open, and the attempt leaves list and nodes alone. */
  lemma AttemptFrame<S, P, T, O>(r: Rules<S, P, T, O>, c: Core<S, P, T, O>, params: P, fair: bool)
    ensures var (d, outcome) := Attempt(r, c, params, fair);
            && d == c.(order := d.order, state := d.state, poisoned := d.poisoned)
            && (outcome.Enqueue? ==> !c.discarded && !(r.closeable && c.closed) && !c.poisoned)
  {
  }

  lemma JoinKeepsSound<S, P, T, O>(
      r: Rules<S, P, T, O>, d: Core<S, P, T, O>, id: nat, waker: nat, front: bool, params: P)
    requires Sound(r, d) && id < |d.waiters| && d.waiters[id].phase.Initial? && !d.discarded
    ensures Sound(r, Join(d, id, waker, front, params))
  {
    assert Occurs(d.list, id) == 0;
    OccursWitness(d.list, id);
    var e := Entry(id, Some(params), waker, front, d.waiters[id].ticket);
    var f := Join(d, id, waker, front, params);
    forall x: nat ensures Occurs(f.list, x) == if IsLinked(f.waiters, x) then 1 else 0 {
      assert Occurs(d.list, x) == if IsLinked(d.waiters, x) then 1 else 0;
      OccursConcat([e], d.list, x);
      OccursConcat(d.list, [e], x);
    }
  }

  lemma FirstPollPoison<S, P, T, O>(r: Rules<S, P, T, O>, c: Core<S, P, T, O>, id: nat, waker: nat)
    requires id < |c.waiters| && c.waiters[id].phase.Initial?
    ensures FirstPoll(r, c, id, waker).0.poisoned
         == Attempt(r, DrawTicket(c, id), c.waiters[id].phase.params, true).0.poisoned
  {
  }

  lemma DrawKeepsSound<S, P, T, O>(r: Rules<S, P, T, O>, c: Core<S, P, T, O>, id: nat)
    requires Sound(r, c) && id < |c.waiters| && c.waiters[id].phase.Initial?
    ensures Sound(r, DrawTicket(c, id))
  {
    var c0 := DrawTicket(c, id);
    assert Occurs(c.list, id) == 0;
    OccursWitness(c.list, id);
    forall x: nat ensures Occurs(c0.list, x) == if IsLinked(c0.waiters, x) then 1 else 0 {
      assert Occurs(c.list, x) == if IsLinked(c.waiters, x) then 1 else 0;
    }
  }

  lemma ConcludeKeepsSound<S, P, T, O>(
      r: Rules<S, P, T, O>, d: Core<S, P, T, O>, id: nat, waker: nat, outcome: Outcome<P, T>)
    requires Sound(r, d) && id < |d.waiters| && d.waiters[id].phase.Initial? && (outcome.Enqueue? ==> !d.discarded)
    ensures Sound(r, Conclude(d, id, waker, outcome).0)
  {
    match outcome
    case Enqueue(front, params) => JoinKeepsSound(r, d, id, waker, front, params);
    case Acquired(permit) => SetPhaseKeepsSound(r, d, id, Done(Claimed(permit)));
    case Closed(params) => SetPhaseKeepsSound(r, d, id, Done(Rejected(params)));
    case _ => SetPhaseKeepsSound(r, d, id, Done(Aborted));
  }

  lemma FirstPollKeepsSound<S, P, T, O>(r: Rules<S, P, T, O>, c: Core<S, P, T, O>, id: nat, waker: nat)
    requires Sound(r, c) && id < |c.waiters| && c.waiters[id].phase.Initial?
    ensures Sound(r, FirstPoll(r, c, id, waker).0)
  {
    var c0 := DrawTicket(c, id);
    DrawKeepsSound(r, c, id);
    AttemptFrame(r, c0, c.waiters[id].phase.params, true);
    var (d, outcome) := Attempt(r, c0, c.waiters[id].phase.params, true);
    ConcludeKeepsSound(r, d, id, waker, outcome);
  }

  /** A queued future polled again has its new waker registered, in the node and on the list. */
  lemma ReregisterKeepsSound<S, P, T, O>(r: Rules<S, P, T, O>, c: Core<S, P, T, O>, id: nat, waker: nat)
    requires Sound(r, c) && id < |c.waiters|
    requires var i := IndexOf(c.list, id); i < |c.list|
    ensures var i := IndexOf(c.list, id);
            Sound(r, Register(c, id, waker).(list := c.list[i := c.list[i].(waker := waker)]))
  {
    var i := IndexOf(c.list, id);
    var d := Register(c, id, waker).(list := c.list[i := c.list[i].(waker := waker)]);
    forall x: nat ensures Occurs(d.list, x) == if IsLinked(d.waiters, x) then 1 else 0 {
      assert Occurs(c.list, x) == if IsLinked(c.waiters, x) then 1 else 0;
      OccursUpdate(c.list, i, d.list[i], x);
    }
    forall k | 0 <= k < |d.list|
      ensures d.list[k].id < |d.waiters| && d.waiters[d.list[k].id].waker == d.list[k].waker
           && d.waiters[d.list[k].id].ticket == d.list[k].ticket
    {
      if c.list[k].id == id { OnlyOnce(c.list, c.waiters, i, k); }
    }
  }

  lemma OnlyOnce<P, T>(list: seq<Entry<P>>, ws: seq<Waiter<P, T>>, i: nat, j: nat)
    requires Registered(list, ws) && i < |list| && j < |list| && list[i].id == list[j].id
    ensures i == j
  {
    if i != j {
      var id := list[i].id;
      assert Occurs(list, id) <= 1;
      OccursWithout(list, i, id);
      assert Without(list, i)[if j < i then j else j - 1].id == id;
      OccursWitness(Without(list, i), id);
    }
  }

  lemma PollLinkedKeepsSound<S, P, T, O>(r: Rules<S, P, T, O>, c: Core<S, P, T, O>, id: nat, waker: nat)
    requires Sound(r, c) && IsLinked(c.waiters, id)
    ensures Sound(r, PollLinked(r, c, id, waker).0)
  {
    SoundFinds(r, c, id);
    if c.closed {
      var params := c.list[IndexOf(c.list, id)].params;
      UnlinkKeepsSound(r, c, id, if params.Some? then Rejected(params.value) else Aborted);
    } else {
      ReregisterKeepsSound(r, c, id, waker);
    }
  }

  lemma PollKeepsSound<S, P, T, O>(r: Rules<S, P, T, O>, c: Core<S, P, T, O>, id: nat, waker: nat)
    requires Sound(r, c) && id < |c.waiters|
    ensures Sound(r, PollCore(r, c, id, waker).0)
  {
    match c.waiters[id].phase
    case Initial(_) => FirstPollKeepsSound(r, c, id, waker);
    case Linked => PollLinkedKeepsSound(r, c, id, waker);
    case Done(_) =>
    case _ =>
      SetPhaseKeepsSound(r, c, id, PollCore(r, c, id, waker).0.waiters[id].phase);
  }

  /** What a poll of `id` leaves alone: the other waiters, and who owes and made this request. */
  ghost predicate PolledFrom<S, P, T, O>(c: Core<S, P, T, O>, d: Core<S, P, T, O>, id: nat) {
    && id < |c.waiters| && |d.waiters| == |c.waiters|
    && (forall i :: 0 <= i < |c.waiters| && i != id ==> d.waiters[i] == c.waiters[i])
    && d.waiters[id].settled == c.waiters[id].settled
    && d.waiters[id].request == c.waiters[id].request
    && d.closed == c.closed && d.discarded == c.discarded
    && (d.waiters[id].phase.Linked? || d.waiters[id].phase.Done?)
    && (c.waiters[id].phase.Done? ==> d == c)
    && (d.waiters[id].waker != c.waiters[id].waker ==> d.waiters[id].phase.Linked?)
  }

  lemma ConcludeFrame<S, P, T, O>(d: Core<S, P, T, O>, id: nat, waker: nat, outcome: Outcome<P, T>)
    requires id < |d.waiters| && d.waiters[id].phase.Initial? && (outcome.Enqueue? ==> !d.discarded)
    ensures PolledFrom(d, Conclude(d, id, waker, outcome).0, id)
  {
  }

  lemma FirstPollFrame<S, P, T, O>(r: Rules<S, P, T, O>, c: Core<S, P, T, O>, id: nat, waker: nat)
    requires id < |c.waiters| && c.waiters[id].phase.Initial?
    ensures PolledFrom(c, FirstPoll(r, c, id, waker).0, id)
  {
    var c0 := DrawTicket(c, id);
    AttemptFrame(r, c0, c.waiters[id].phase.params, true);
    var (d, outcome) := Attempt(r, c0, c.waiters[id].phase.params, true);
    ConcludeFrame(d, id, waker, outcome);
  }

  lemma PollLinkedFrame<S, P, T, O>(r: Rules<S, P, T, O>, c: Core<S, P, T, O>, id: nat, waker: nat)
    requires Findable(c, id) && IsLinked(c.waiters, id)
    ensures PolledFrom(c, PollLinked(r, c, id, waker).0, id)
  {
  }

  lemma PollFrame<S, P, T, O>(r: Rules<S, P, T, O>, c: Core<S, P, T, O>, id: nat, waker: nat)
    requires Sound(r, c) && id < |c.waiters|
    ensures PolledFrom(c, PollCore(r, c, id, waker).0, id)
  {
    SoundFinds(r, c, id);
    match c.waiters[id].phase
    case Initial(params) => FirstPollFrame(r, c, id, waker);
    case Linked => PollLinkedFrame(r, c, id, waker);
    case _ =>
  }

  lemma DetachKeepsSound<S, P, T, O>(r: Rules<S, P, T, O>, c: Core<S, P, T, O>, id: nat)
    requires Sound(r, c) && id < |c.waiters|
    ensures Sound(r, Detach(r, c, id).0)
  {
    match c.waiters[id].phase
    case Linked =>
      UnlinkKeepsSound(r, c, id, Cancelled);
      assert Detach(r, c, id).0 == SetPhase(Unlink(c, IndexOf(c.list, id)), id, Done(Cancelled));
    case Done(_) =>
    case _ => SetPhaseKeepsSound(r, c, id, Done(Cancelled));
  }

  lemma NewKeepsSound<S, P, T, O>(r: Rules<S, P, T, O>, c: Core<S, P, T, O>, params: P)
    requires Sound(r, c)
    ensures Sound(r, c.(waiters := c.waiters + [Waiter(params, Initial(params), 0, 0, false)]))
  {
    var d := c.(waiters := c.waiters + [Waiter(params, Initial(params), 0, 0, false)]);
    forall x: nat ensures Occurs(d.list, x) == if IsLinked(d.waiters, x) then 1 else 0 {
      assert Occurs(c.list, x) == if IsLinked(c.waiters, x) then 1 else 0;
    }
  }

  ghost predicate ClosersAllowed<S, P, T, O>(r: Rules<S, P, T, O>, w: World<S, P, T, O>) {
    forall i :: 0 <= i < |w.crews| && w.crews[i].closing ==> r.closeable
  }

  ghost predicate Safe<S, P, T, O>(r: Rules<S, P, T, O>, w: World<S, P, T, O>) {
    Sound(r, w.core) && ClosersAllowed(r, w)
  }

  lemma BeginKeepsSafe<S, P, T, O>(r: Rules<S, P, T, O>, w: World<S, P, T, O>, closing: bool)
    requires Safe(r, w) && (closing ==> r.closeable)
    ensures Safe(r, Begin(r, w, closing))
  {
    RoundKeepsSound(r, Spawn(w, closing), |w.crews|);
  }

  lemma BeforeKeepsSafe<S, P, T, O>(r: Rules<S, P, T, O>, w: World<S, P, T, O>, step: Step<S, P, T>)
    requires Safe(r, w)
    ensures Safe(r, Before(r, w, step))
  {
    match step
    case New(params) => NewKeepsSound(r, w.core, params);
    case Poll(id, waker) =>
      if id < |w.core.waiters| { PollKeepsSound(r, w.core, id, waker); }
    case Cancel(id) =>
      if id < |w.core.waiters| { DetachKeepsSound(r, w.core, id); }
    case Try(params, fair) => AttemptFrame(r, w.core, params, fair);
    case _ =>
  }

  lemma StepKeepsSafe<S, P, T, O>(r: Rules<S, P, T, O>, w: World<S, P, T, O>, step: Step<S, P, T>)
    requires Safe(r, w)
    ensures Safe(r, Do(r, w, step))
  {
    BeforeKeepsSafe(r, w, step);
    match Then(r, w, step)
    case Nothing =>
    case Check => BeginKeepsSafe(r, Before(r, w, step), false);
    case CloseAll => BeginKeepsSafe(r, w, true);
    case Again(i) => RoundKeepsSound(r, w, i);
  }

  /** In every run, whatever the callbacks do, no unsafe block is reached with its precondition
      broken, `len` counts the linked nodes, and a discarded list means closed and empty. */
  lemma {:induction false} RunKeepsSafe<S, P, T, O>(
      r: Rules<S, P, T, O>, w: World<S, P, T, O>, steps: seq<Step<S, P, T>>)
    requires Safe(r, w)
    ensures Safe(r, Exec(r, w, steps))
    decreases |steps|
  {
    if steps == [] {
    } else {
      StepKeepsSafe(r, w, steps[0]);
      RunKeepsSafe(r, Do(r, w, steps[0]), steps[1..]);
    }
  }

  lemma InitIsSafe<S, P, T, O>(r: Rules<S, P, T, O>, state: S, order: O)
    ensures Safe(r, Init<S, P, T, O>(state, order))
  {
  }
}
