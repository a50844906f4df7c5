/** Cancelling a future before or after the queue was served comes to the same. */
module Confluence {
  import opened SemaphoreStates
  import opened QueueModel
  import opened ListFacts
  import opened Lifecycle
  import opened Drain

  /** Served without interference: what `with_queue` comes to (see Servicing). */
  function Drained<S, P, T, O>(r: Rules<S, P, T, O>, c: Core<S, P, T, O>): Core<S, P, T, O> {
    AfterScan(c, PassCore(r, c))
  }

  lemma {:induction false} SettleSkips<P, T>(ws: seq<Waiter<P, T>>, rs: seq<Removal<P, T>>, id: nat, x: Waiter<P, T>)
    requires id < |ws| && Occurs(Entries(rs), id) == 0
    ensures Settle(ws[id := x], rs) == Settle(ws, rs)[id := x]
    decreases |rs|
  {
    if rs == [] {
    } else {
      var h := rs[0].entry.id;
      assert Entries(rs)[1..] == Entries(rs[1..]);
      if h < |ws| {
        var y := ws[h].(phase := rs[0].result, settled := true);
        assert ws[id := x][h := y] == ws[h := y][id := x];
        SettleSkips(ws[h := y], rs[1..], id, x);
      } else {
        SettleSkips(ws, rs[1..], id, x);
      }
    }
  }

  /** A removal that is overwritten later might as well not have happened. */
  lemma SettleForgets<P, T>(
      ws: seq<Waiter<P, T>>, a: seq<Removal<P, T>>, g: Removal<P, T>, b: seq<Removal<P, T>>, x: Waiter<P, T>)
    requires g.entry.id < |ws| && Occurs(Entries(b), g.entry.id) == 0
    ensures Settle(ws, a + [g] + b)[g.entry.id := x] == Settle(ws, a + b)[g.entry.id := x]
  {
    var id := g.entry.id;
    SettleConcat(ws, a + [g], b);
    SettleConcat(ws, a, [g]);
    SettleConcat(ws, a, b);
    var m := Settle(ws, a);
    assert [g][1..] == [];
    var y := m[id].(phase := g.result, settled := true);
    SettleSkips(m, b, id, y);
    WriteTwice(Settle(m, b), id, y, x);
  }

  /** A pass splits the list like a batch with room for everyone. */
  lemma {:induction false} PassIsServe<S, P, T, O>(r: Rules<S, P, T, O>, s: S, list: seq<Entry<P>>, room: nat)
    requires room >= |list|
    ensures Pass(r, s, list) == Serve(r, s, list, room)
    decreases |list|
  {
    if list == [] {
    } else {
      if list[0].params.None? {
        PassIsServe(r, s, list[1..], room);
      } else {
        match r.acquire(s, list[0].params.value)
        case Granted(s', _) => PassIsServe(r, s', list[1..], room - 1);
        case _ =>
      }
    }
  }

  lemma DrainIsCheck<S, P, T, O>(r: Rules<S, P, T, O>, c: Core<S, P, T, O>)
    ensures PassCore(r, c) == CheckScan(r, c, |c.list|)
  {
    if !Idle(r, c) { PassIsServe(r, c.state, c.list, |c.list|); }
  }

  lemma DrainSplits<S, P, T, O>(r: Rules<S, P, T, O>, c: Core<S, P, T, O>, id: nat)
    requires Sound(r, c) && id < |c.waiters|
    ensures var k := PassCore(r, c);
            && Sound(r, Drained(r, c))
            && Occurs(c.list, id) == Occurs(k.kept, id) + Occurs(Entries(k.removed), id)
            && Occurs(c.list, id) == if IsLinked(c.waiters, id) then 1 else 0
  {
    DrainIsCheck(r, c);
    CheckKeepsSound(r, c, |c.list|);
    CheckSplits(r, c, |c.list|);
  }

  /** `a` and `b` agree on everything but the mark that node `id` was woken once. */
  ghost predicate SameButWoken<S, P, T, O>(a: Core<S, P, T, O>, b: Core<S, P, T, O>, id: nat) {
    && id < |a.waiters| && id < |b.waiters|
    && a == b.(waiters := b.waiters[id := b.waiters[id].(settled := a.waiters[id].settled)])
  }

  ghost predicate CancelsAlike<S, P, T, O>(r: Rules<S, P, T, O>, c: Core<S, P, T, O>, id: nat)
    requires id < |c.waiters|
  {
    var (late, goes) := Detach(r, Drained(r, c), id);
    var (early, went) := Detach(r, c, id);
    && goes == went == !(c.waiters[id].phase.Initial? || c.waiters[id].phase.Done?)
    && SameButWoken(Drained(r, late), Drained(r, early), id)
  }

  function Gone<P, T>(x: Waiter<P, T>): Waiter<P, T> { x.(phase := Done(Cancelled)) }

  /** Cores that follow from the same node writes in another order. */
  lemma Reordered<P, T>(ws: seq<Waiter<P, T>>, a: seq<Removal<P, T>>, b: seq<Removal<P, T>>, id: nat)
    requires id < |ws| && Occurs(Entries(a), id) == 0
    ensures Settle(ws, a)[id] == ws[id]
    ensures Settle(Settle(ws, a)[id := Gone(ws[id])], b) == Settle(ws[id := Gone(ws[id])], a + b)
  {
    SettleAt(ws, a, id);
    SettleSkips(ws, a, id, Gone(ws[id]));
    SettleConcat(ws[id := Gone(ws[id])], a, b);
  }

  lemma SameWaiters<S, P, T, O>(a: Core<S, P, T, O>, b: Core<S, P, T, O>, id: nat)
    requires a == b && id < |a.waiters|
    ensures SameButWoken(a, b, id)
  {
  }

  /** Cancel a future whose permit was granted earlier. */
  lemma CancelEarlierGrant<S(!new), P(!new), T(!new), O>(r: Rules<S, P, T, O>, c: Core<S, P, T, O>, id: nat)
    requires Undoable(r) && Steady(r) && GivesBack(r) && Sound(r, c) && !PassCore(r, c).unwound
    requires id < |c.waiters| && c.waiters[id].phase.RemovedOk?
    requires r.release(c.state, c.waiters[id].phase.permit).Returned?
    ensures CancelsAlike(r, c, id)
  {
    DrainSplits(r, c, id);
    var k := PassCore(r, c);
    Reordered(c.waiters, k.removed, PassCore(r, Detach(r, Drained(r, c), id).0).removed, id);
    if !Idle(r, c) {
      ReleaseCommutes(r, c.state, c.waiters[id].phase.permit, c.list);
    }
  }

  lemma DetachLinked<S, P, T, O>(r: Rules<S, P, T, O>, c: Core<S, P, T, O>, id: nat, i: nat)
    requires IsLinked(c.waiters, id) && !c.discarded && i == IndexOf(c.list, id) < |c.list|
    ensures Detach(r, c, id) == (SetPhase(Unlink(c, i), id, Done(Cancelled)), true)
  {
  }

  /** The two detachments of a future that stays queued. */
  lemma StillQueuedDetached<S(!new), P(!new), T(!new), O>(r: Rules<S, P, T, O>, c: Core<S, P, T, O>, id: nat, at: nat)
    requires Sound(r, c) && !Idle(r, c) && IsLinked(c.waiters, id)
    requires var i := IndexOf(c.list, id); i < |c.list| && QueuedUndone(r, c.state, c.list, i)
    requires at == PlaceAfter(r, c.state, c.list, IndexOf(c.list, id))
    ensures var d, i := Drained(r, c), IndexOf(c.list, id);
            && at < |d.list|
            && Detach(r, d, id) == (SetPhase(Unlink(d, at), id, Done(Cancelled)), true)
            && Detach(r, c, id) == (SetPhase(Unlink(c, i), id, Done(Cancelled)), true)
            && Occurs(Entries(PassCore(r, c).removed), id) == 0
  {
    StillThere(r, c, id, at);
    DetachLinked(r, Drained(r, c), id, at);
    DetachLinked(r, c, id, IndexOf(c.list, id));
  }

  /** Cancel a queued future that stays queued, dead or alive. */
  lemma CancelStillQueued<S(!new), P(!new), T(!new), O>(r: Rules<S, P, T, O>, c: Core<S, P, T, O>, id: nat)
    requires Steady(r) && GivesBack(r) && Sound(r, c) && !Idle(r, c)
    requires IsLinked(c.waiters, id) && Misses(r, c.state, c.list, IndexOf(c.list, id))
    ensures CancelsAlike(r, c, id)
  {
    var i := IndexOf(c.list, id);
    CancelQueued(r, c.state, c.list, i);
    var k := PassCore(r, c);
    StillQueuedDetached(r, c, id, PlaceAfter(r, c.state, c.list, i));
    var late, early := Detach(r, Drained(r, c), id).0, Detach(r, c, id).0;
    var again := PassCore(r, late);
    assert PassCore(r, early) == again.(removed := k.removed + again.removed);
    Reordered(c.waiters, k.removed, again.removed, id);
    SameWaiters(Drained(r, late), Drained(r, early), id);
  }

  lemma StillThere<S, P, T, O>(r: Rules<S, P, T, O>, c: Core<S, P, T, O>, id: nat, at: nat)
    requires Sound(r, c) && IsLinked(c.waiters, id)
    requires var kept := PassCore(r, c).kept; at < |kept| && kept[at].id == id
    ensures var d := Drained(r, c);
            && IsLinked(d.waiters, id) && !d.discarded && IndexOf(d.list, id) == at
            && Occurs(Entries(PassCore(r, c).removed), id) == 0
  {
    DrainSplits(r, c, id);
    var d := Drained(r, c);
    OccursWitness(d.list, id);
    FindsLinked(d.list, d.waiters, id);
    OnlyOnce(d.list, d.waiters, IndexOf(d.list, id), at);
  }

  /** Which removal grants node `id`, with what comes before it and after. */
  lemma QueuedGrant<S, P, T, O>(r: Rules<S, P, T, O>, c: Core<S, P, T, O>, id: nat, j: nat)
    requires Sound(r, c) && IsLinked(c.waiters, id)
    requires var rs := PassCore(r, c).removed; j < |rs| && rs[j].entry.id == id
    ensures var rs := PassCore(r, c).removed;
            && rs == rs[..j] + [rs[j]] + rs[j + 1..]
            && Occurs(Entries(rs[..j]), id) == 0 && Occurs(Entries(rs[j + 1..]), id) == 0
            && Drained(r, c).waiters[id] == c.waiters[id].(phase := rs[j].result, settled := true)
  {
    var rs := PassCore(r, c).removed;
    assert rs == rs[..j] + [rs[j]] + rs[j + 1..];
    RemovedOnce(r, c, id, j);
    GrantStands(c.waiters, rs[..j], rs[j], rs[j + 1..]);
  }

  /** Cancel a live queued future that the drain grants. */
  lemma CancelNewGrant<S(!new), P(!new), T(!new), O>(r: Rules<S, P, T, O>, c: Core<S, P, T, O>, id: nat)
    requires Undoable(r) && Steady(r) && GivesBack(r) && Sound(r, c) && !Idle(r, c)
    requires IsLinked(c.waiters, id) && IndexOf(c.list, id) < |c.list|
    requires Reaches(r, c.state, c.list, IndexOf(c.list, id))
    ensures CancelsAlike(r, c, id)
  {
    var i := IndexOf(c.list, id);
    CancelGranted(r, c.state, c.list, i);
    var k := PassCore(r, c);
    var d := Drained(r, c);
    var j := LiveBefore(c.list, i);
    var g, a, b := k.removed[j], k.removed[..j], k.removed[j + 1..];
    QueuedGrant(r, c, id, j);
    var x, y := Gone(d.waiters[id]), Gone(c.waiters[id]);
    var late, early := Detach(r, d, id).0, Detach(r, c, id).0;
    var again := PassCore(r, late);
    DrainSplits(r, c, id);
    StillUnlisted(r, d, id);
    assert late == d.(state := late.state, waiters := d.waiters[id := x]);
    assert early == c.(list := Without(c.list, i), len := c.len - 1, waiters := c.waiters[id := y]);
    assert PassCore(r, early) == again.(removed := a + b + again.removed);
    GrantForgotten(c.waiters, a, g, b, again.removed, x, y);
    NodeAtTheEnd(c.waiters, a, b, again.removed, id, y);
  }

  lemma NodeAtTheEnd<P, T>(
      ws: seq<Waiter<P, T>>, a: seq<Removal<P, T>>, b: seq<Removal<P, T>>, rest: seq<Removal<P, T>>,
      id: nat, y: Waiter<P, T>)
    requires id < |ws|
    requires Occurs(Entries(a), id) == 0 && Occurs(Entries(b), id) == 0 && Occurs(Entries(rest), id) == 0
    ensures Settle(ws[id := y], a + b + rest)[id] == y
  {
    NoneLeft(a, b, rest, id);
    SettleAt(ws[id := y], a + b + rest, id);
  }

  /** After the cancel of an unclaimed future a pass does not touch its node. */
  lemma StillUnlisted<S, P, T, O>(r: Rules<S, P, T, O>, d: Core<S, P, T, O>, id: nat)
    requires Sound(r, d) && id < |d.waiters| && d.waiters[id].phase.RemovedOk?
    ensures Occurs(Entries(PassCore(r, Detach(r, d, id).0).removed), id) == 0
  {
    DetachKeepsSound(r, d, id);
    DrainSplits(r, Detach(r, d, id).0, id);
  }

  lemma GrantStands<P, T>(ws: seq<Waiter<P, T>>, a: seq<Removal<P, T>>, g: Removal<P, T>, b: seq<Removal<P, T>>)
    requires g.entry.id < |ws| && Occurs(Entries(a), g.entry.id) == 0 && Occurs(Entries(b), g.entry.id) == 0
    ensures Settle(ws, a + [g] + b)[g.entry.id] == ws[g.entry.id].(phase := g.result, settled := true)
  {
    SettleAt(ws, a, g.entry.id);
    SettleConcat(ws, a + [g], b);
    SettleConcat(ws, a, [g]);
    assert [g][1..] == [];
    SettleAt(Settle(ws, a + [g]), b, g.entry.id);
  }

  lemma NoneLeft<P, T>(a: seq<Removal<P, T>>, b: seq<Removal<P, T>>, c: seq<Removal<P, T>>, id: nat)
    requires Occurs(Entries(a), id) == 0 && Occurs(Entries(b), id) == 0 && Occurs(Entries(c), id) == 0
    ensures Occurs(Entries(a + b + c), id) == 0
  {
    assert Entries(a + b + c) == Entries(a) + (Entries(b) + Entries(c));
    OccursConcat(Entries(a), Entries(b) + Entries(c), id);
    OccursConcat(Entries(b), Entries(c), id);
  }

  lemma GrantForgotten<P, T>(
      ws: seq<Waiter<P, T>>, a: seq<Removal<P, T>>, g: Removal<P, T>, b: seq<Removal<P, T>>, rest: seq<Removal<P, T>>,
      x: Waiter<P, T>, y: Waiter<P, T>)
    requires var id := g.entry.id;
             id < |ws| && Occurs(Entries(a), id) == 0 && Occurs(Entries(b), id) == 0 && Occurs(Entries(rest), id) == 0
    ensures var id := g.entry.id;
            Settle(Settle(ws, a + [g] + b)[id := x], rest) == Settle(ws[id := y], a + b + rest)[id := x]
  {
    var id := g.entry.id;
    SettleForgets(ws, a, g, b, x);
    SettleSkips(Settle(ws, a + b), rest, id, x);
    SettleConcat(ws, a + b, rest);
    NoneLeft(a, b, rest, id);
    SettleSkips(ws, a + b + rest, id, y);
    WriteTwice(Settle(ws, a + b + rest), id, y, x);
  }

  lemma WriteTwice<X>(xs: seq<X>, i: nat, x: X, y: X)
    requires i < |xs|
    ensures xs[i := x][i := y] == xs[i := y]
  {
  }

  lemma RemovedOnce<S, P, T, O>(r: Rules<S, P, T, O>, c: Core<S, P, T, O>, id: nat, j: nat)
    requires Sound(r, c) && IsLinked(c.waiters, id)
    requires j < |PassCore(r, c).removed| && PassCore(r, c).removed[j].entry.id == id
    ensures Occurs(Entries(PassCore(r, c).removed[..j]), id) == 0
    ensures Occurs(Entries(PassCore(r, c).removed[j + 1..]), id) == 0
  {
    DrainSplits(r, c, id);
    var rs := PassCore(r, c).removed;
    var a, e, b := Entries(rs[..j]), rs[j].entry, Entries(rs[j + 1..]);
    assert Entries(rs) == a + ([e] + b);
    OccursConcat(a, [e] + b, id);
    OccursConcat([e], b, id);
  }

  lemma DrainedTwice<S(!new), P(!new), T(!new), O>(r: Rules<S, P, T, O>, c: Core<S, P, T, O>, d: Core<S, P, T, O>)
    requires Steady(r) && GivesBack(r) && !PassCore(r, c).unwound
    requires var k := PassCore(r, c);
             d.state == k.state && d.list == k.kept && Idle(r, d) == Idle(r, c)
    ensures Drained(r, d) == d
  {
    if !Idle(r, c) { PassTwice(r, c.state, c.list); }
  }

  /** Drop a future that is not queued and holds no permit: one that was never polled, one whose
      error is unclaimed, or one that is done. */
  lemma CancelOther<S(!new), P(!new), T(!new), O>(r: Rules<S, P, T, O>, c: Core<S, P, T, O>, id: nat)
    requires Steady(r) && GivesBack(r) && Sound(r, c) && !PassCore(r, c).unwound
    requires id < |c.waiters| && !c.waiters[id].phase.Linked? && !c.waiters[id].phase.RemovedOk?
    ensures CancelsAlike(r, c, id)
  {
    DrainSplits(r, c, id);
    var k := PassCore(r, c);
    SettleAt(c.waiters, k.removed, id);
    DrainedTwice(r, c, Detach(r, Drained(r, c), id).0);
    var early := Detach(r, c, id).0;
    SettleSkips(c.waiters, k.removed, id, early.waiters[id]);
    assert early == c.(waiters := c.waiters[id := early.waiters[id]]);
  }

  /** Without interference, serve, drop any future and serve again, or drop it first and serve once:
      the same state, the same list and the same results for everybody else. */
  lemma CancelCommutes<S(!new), P(!new), T(!new), O>(r: Rules<S, P, T, O>, c: Core<S, P, T, O>, id: nat)
    requires Undoable(r) && Steady(r) && GivesBack(r) && Sound(r, c) && !PassCore(r, c).unwound
    requires id < |c.waiters|
    requires c.waiters[id].phase.RemovedOk? ==> r.release(c.state, c.waiters[id].phase.permit).Returned?
    ensures CancelsAlike(r, c, id)
  {
    if c.waiters[id].phase.RemovedOk? {
      CancelEarlierGrant(r, c, id);
    } else if c.waiters[id].phase.Linked? {
      FindsLinked(c.list, c.waiters, id);
      var i := IndexOf(c.list, id);
      if Idle(r, c) {
        DrainSplits(r, c, id);
      } else if c.list[i].params.Some? && LiveBefore(c.list, i) < |PassCore(r, c).removed| {
        CancelNewGrant(r, c, id);
      } else {
        CancelStillQueued(r, c, id);
      }
    } else {
      CancelOther(r, c, id);
    }
  }
}
