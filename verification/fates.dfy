/** What becomes of a queued waiter that can no longer be granted: one cut off by `close`, and one
    whose params a panicking `acquire` lost. */
module Fates {
  import opened SemaphoreStates
  import opened QueueModel
  import opened ListFacts
  import opened Machine
  import opened Lifecycle
  import opened Moves

  ghost predicate ListedWith<P>(list: seq<Entry<P>>, id: nat, params: Option<P>) {
    exists k :: 0 <= k < |list| && list[k].id == id && list[k].params == params
  }

  function ErrorOf<P, T>(params: Option<P>): Ending<P, T> {
    if params.Some? then Rejected(params.value) else Aborted
  }

  /** Queued with these params, failed with them, or cancelled: never granted. */
  ghost predicate Doomed<S, P, T, O>(c: Core<S, P, T, O>, id: nat, params: Option<P>) {
    id < |c.waiters| &&
    match c.waiters[id].phase
    case Linked => ListedWith(c.list, id, params)
    case RemovedErr(back) => back == params
    case Done(ending) => ending == Cancelled || ending == ErrorOf(params)
    case _ => false
  }

  lemma {:induction false} ServeKeepsDead<S, P, T, O>(
      r: Rules<S, P, T, O>, s: S, list: seq<Entry<P>>, room: nat, id: nat)
    requires ListedWith(list, id, None)
    ensures ListedWith(Serve(r, s, list, room).kept, id, None)
    decreases |list|
  {
    var k :| 0 <= k < |list| && list[k].id == id && list[k].params == None;
    var kept := Serve(r, s, list, room).kept;
    if room != 0 {
      if list[0].params.None? {
        if k == 0 {
          assert kept[0].id == id;
        } else {
          assert list[1..][k - 1].id == id;
          ServeKeepsDead(r, s, list[1..], room, id);
          var rest := Serve(r, s, list[1..], room).kept;
          var j :| 0 <= j < |rest| && rest[j].id == id && rest[j].params == None;
          assert kept[j + 1] == rest[j];
        }
      } else {
        assert list[1..][k - 1].id == id;
        match r.acquire(s, list[0].params.value)
        case Granted(s', _) => ServeKeepsDead(r, s', list[1..], room - 1, id);
        case _ => assert kept[k] == list[k];
      }
    }
  }

  lemma SettleUnlisted<P, T>(
      list: seq<Entry<P>>, kept: seq<Entry<P>>, rs: seq<Removal<P, T>>, ws: seq<Waiter<P, T>>, id: nat)
    requires Registered(list, ws) && Divides(list, kept, rs) && id < |ws|
    requires !IsLinked(ws, id) || exists k :: 0 <= k < |kept| && kept[k].id == id
    ensures Settle(ws, rs)[id] == ws[id]
  {
    assert Occurs(list, id) == if IsLinked(ws, id) then 1 else 0;
    assert Occurs(list, id) == Occurs(kept, id) + Occurs(Entries(rs), id);
    OccursWitness(kept, id);
    SettleAt(ws, rs, id);
  }

  lemma AllWith<P, T>(list: seq<Entry<P>>, ws: seq<Waiter<P, T>>, id: nat, params: Option<P>)
    requires Registered(list, ws) && ListedWith(list, id, params)
    ensures forall k :: 0 <= k < |list| && list[k].id == id ==> list[k].params == params
  {
    var i :| 0 <= i < |list| && list[i].id == id && list[i].params == params;
    forall k | 0 <= k < |list| && list[k].id == id ensures list[k].params == params {
      OnlyOnce(list, ws, i, k);
    }
  }

  /** Of the first `n` nodes, failed in order, node `id` got its own params back. */
  lemma FailedWith<P, T>(list: seq<Entry<P>>, n: nat, ws: seq<Waiter<P, T>>, id: nat, params: Option<P>)
    requires n <= |list| && id < |ws| && Occurs(Entries(Fails<P, T>(list[..n])), id) > 0
    requires forall k :: 0 <= k < |list| && list[k].id == id ==> list[k].params == params
    ensures Settle(ws, Fails<P, T>(list[..n]))[id].phase == RemovedErr(params)
  {
    var rs := Fails<P, T>(list[..n]);
    SettleAt(ws, rs, id);
    var k :| 0 <= k < |rs| && rs[k].entry.id == id
      && Settle(ws, rs)[id] == ws[id].(phase := rs[k].result, settled := true);
    assert rs[k].entry == list[k];
  }

  lemma CloseKeepsDoomed<S, P, T, O>(r: Rules<S, P, T, O>, c: Core<S, P, T, O>, id: nat, params: Option<P>)
    requires Sound(r, c) && IsLinked(c.waiters, id) && ListedWith(c.list, id, params)
    ensures Doomed(AfterClose(c, r.capacity), id, params)
  {
    var n := Min(r.capacity, |c.list|);
    var rs: seq<Removal<P, T>> := CloseRemoved(c, r.capacity);
    CloseSplits(c, r.capacity);
    AllWith(c.list, c.waiters, id, params);
    assert Occurs(c.list, id) == Occurs(c.list[n..], id) + Occurs(Entries(rs), id);
    if Occurs(Entries(rs), id) > 0 {
      FailedWith(c.list, n, c.waiters, id, params);
    } else {
      SettleAt(c.waiters, rs, id);
      assert Occurs(c.list, id) == 1;
      OccursWitness(c.list[n..], id);
      var k :| 0 <= k < |c.list[n..]| && c.list[n..][k].id == id;
      assert c.list[n + k].params == params;
    }
  }

  lemma CheckKeepsDoomed<S, P, T, O>(r: Rules<S, P, T, O>, c: Core<S, P, T, O>, id: nat, params: Option<P>)
    requires Sound(r, c) && IsLinked(c.waiters, id) && ListedWith(c.list, id, params)
    requires c.closed || params.None?
    ensures Doomed(AfterScan(c, CheckScan(r, c, r.capacity)), id, params)
  {
    CheckSplits(r, c, r.capacity);
    var scan := CheckScan(r, c, r.capacity);
    if !Idle(r, c) { ServeKeepsDead(r, c.state, c.list, r.capacity, id); }
    SettleUnlisted(c.list, scan.kept, scan.removed, c.waiters, id);
  }

  /** Closing fails the doomed with their params; servicing passes over the dead. */
  lemma RoundKeepsDoomed<S, P, T, O>(r: Rules<S, P, T, O>, w: World<S, P, T, O>, i: nat, id: nat, params: Option<P>)
    requires Safe(r, w) && i < |w.crews| && Doomed(w.core, id, params)
    requires w.core.closed || params.None?
    ensures Doomed(Round(r, w, i).core, id, params)
  {
    if !IsLinked(w.core.waiters, id) {
      RoundSkips(r, w, i, id);
    } else if w.crews[i].closing {
      CloseKeepsDoomed(r, w.core, id, params);
    } else {
      CheckKeepsDoomed(r, w.core, id, params);
    }
  }

  lemma FirstPollKeepsListed<S, P, T, O>(
      r: Rules<S, P, T, O>, c: Core<S, P, T, O>, x: nat, waker: nat, id: nat, params: Option<P>)
    requires x < |c.waiters| && c.waiters[x].phase.Initial? && ListedWith(c.list, id, params)
    ensures ListedWith(FirstPoll(r, c, x, waker).0.list, id, params)
  {
    var k :| 0 <= k < |c.list| && c.list[k].id == id && c.list[k].params == params;
    AttemptFrame(r, DrawTicket(c, x), c.waiters[x].phase.params, true);
    var d := FirstPoll(r, c, x, waker).0;
    assert d.list[k] == c.list[k] || d.list[k + 1] == c.list[k];
  }

  lemma ReregisterKeepsListed<P>(list: seq<Entry<P>>, i: nat, waker: nat, id: nat, params: Option<P>)
    requires i < |list| && ListedWith(list, id, params)
    ensures ListedWith(list[i := list[i].(waker := waker)], id, params)
  {
    var k :| 0 <= k < |list| && list[k].id == id && list[k].params == params;
    assert list[i := list[i].(waker := waker)][k].params == params;
  }

  lemma WithoutKeepsListed<P>(list: seq<Entry<P>>, i: nat, id: nat, params: Option<P>)
    requires i < |list| && list[i].id != id && ListedWith(list, id, params)
    ensures ListedWith(Without(list, i), id, params)
  {
    var k :| 0 <= k < |list| && list[k].id == id && list[k].params == params;
    assert Without(list, i)[if k < i then k else k - 1] == list[k];
  }

  /** The one entry of node `id` has these params. */
  lemma FoundWith<S, P, T, O>(r: Rules<S, P, T, O>, c: Core<S, P, T, O>, id: nat, params: Option<P>)
    requires Sound(r, c) && ListedWith(c.list, id, params)
    ensures var i := IndexOf(c.list, id); i < |c.list| && c.list[i].params == params
  {
    var k :| 0 <= k < |c.list| && c.list[k].id == id && c.list[k].params == params;
    OnlyOnce(c.list, c.waiters, IndexOf(c.list, id), k);
  }

  lemma PollLinkedKeepsListed<S, P, T, O>(
      r: Rules<S, P, T, O>, c: Core<S, P, T, O>, x: nat, waker: nat, id: nat, params: Option<P>)
    requires Sound(r, c) && x < |c.waiters| && ListedWith(c.list, id, params) && IsLinked(c.waiters, x)
    ensures var d := PollLinked(r, c, x, waker).0;
            if x == id && c.closed then d.waiters[id].phase == Done(ErrorOf(params)) else ListedWith(d.list, id, params)
  {
    SoundFinds(r, c, x);
    var i := IndexOf(c.list, x);
    if !c.closed {
      ReregisterKeepsListed(c.list, i, waker, id, params);
    } else if x != id {
      WithoutKeepsListed(c.list, i, id, params);
    } else {
      FoundWith(r, c, id, params);
    }
  }

  lemma PollKeepsDoomed<S, P, T, O>(
      r: Rules<S, P, T, O>, c: Core<S, P, T, O>, x: nat, waker: nat, id: nat, params: Option<P>)
    requires Sound(r, c) && x < |c.waiters| && Doomed(c, id, params)
    ensures Doomed(PollCore(r, c, x, waker).0, id, params)
  {
    PollFrame(r, c, x, waker);
    if c.waiters[id].phase.Linked? {
      match c.waiters[x].phase
      case Initial(_) => FirstPollKeepsListed(r, c, x, waker, id, params);
      case Linked => PollLinkedKeepsListed(r, c, x, waker, id, params);
      case _ =>
    }
  }

  lemma DetachKeepsDoomed<S, P, T, O>(r: Rules<S, P, T, O>, c: Core<S, P, T, O>, x: nat, id: nat, params: Option<P>)
    requires Findable(c, x) && x < |c.waiters| && Doomed(c, id, params)
    ensures Doomed(Detach(r, c, x).0, id, params)
  {
    if x != id && c.waiters[x].phase.Linked? && c.waiters[id].phase.Linked? {
      WithoutKeepsListed(c.list, IndexOf(c.list, x), id, params);
    }
  }

  lemma BeforeKeepsDoomed<S, P, T, O>(
      r: Rules<S, P, T, O>, w: World<S, P, T, O>, step: Step<S, P, T>, id: nat, params: Option<P>)
    requires Safe(r, w) && Doomed(w.core, id, params)
    ensures Doomed(Before(r, w, step).core, id, params)
  {
    match step
    case Poll(x, waker) =>
      if x < |w.core.waiters| { PollKeepsDoomed(r, w.core, x, waker, id, params); }
    case Cancel(x) =>
      if x < |w.core.waiters| { SoundFinds(r, w.core, x); DetachKeepsDoomed(r, w.core, x, id, params); }
    case _ =>
      OthersFrame(r, w, step);
      assert Before(r, w, step).core.waiters[..|w.core.waiters|][id] == w.core.waiters[id];
  }

  lemma StepKeepsDoomed<S, P, T, O>(
      r: Rules<S, P, T, O>, w: World<S, P, T, O>, step: Step<S, P, T>, id: nat, params: Option<P>)
    requires Safe(r, w) && Doomed(w.core, id, params)
    requires w.core.closed || params.None?
    ensures Doomed(Do(r, w, step).core, id, params)
  {
    BeforeKeepsSafe(r, w, step);
    BeforeKeepsDoomed(r, w, step, id, params);
    StaysShut(r, w, step);
    var v := Before(r, w, step);
    match Then(r, w, step)
    case Nothing =>
    case Check => RoundKeepsDoomed(r, Spawn(v, false), |v.crews|, id, params);
    case CloseAll => RoundKeepsDoomed(r, Spawn(w, true), |w.crews|, id, params);
    case Again(i) => RoundKeepsDoomed(r, w, i, id, params);
  }

  /** Once the queue is closed a queued waiter can only be cancelled or get its params back; a
      dead waiter, closed queue or not, is never granted: it aborts or is cancelled. */
  lemma {:induction false} RunKeepsDoomed<S, P, T, O>(
      r: Rules<S, P, T, O>, w: World<S, P, T, O>, steps: seq<Step<S, P, T>>, id: nat, params: Option<P>)
    requires Safe(r, w) && Doomed(w.core, id, params)
    requires w.core.closed || params.None?
    ensures Doomed(Exec(r, w, steps).core, id, params)
    decreases |steps|
  {
    if steps == [] {
    } else {
      StepKeepsSafe(r, w, steps[0]);
      StepKeepsDoomed(r, w, steps[0], id, params);
      StaysShut(r, w, steps[0]);
      RunKeepsDoomed(r, Do(r, w, steps[0]), steps[1..], id, params);
    }
  }
}
