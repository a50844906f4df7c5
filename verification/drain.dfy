/** Draining without interference: in batches or in one pass, before or after a cancel. */
module Drain {
  import opened SemaphoreStates
  import opened QueueModel

  /** One pass without batches: serve live waiters until the first refusal. */
  function Pass<S, P, T, O>(r: Rules<S, P, T, O>, s: S, list: seq<Entry<P>>): Scan<S, P, T>
    decreases |list|
  {
    if list == [] then Scan(s, [], [], false)
    else if list[0].params.None? then
      var rest := Pass(r, s, list[1..]);
      rest.(kept := [list[0]] + rest.kept)
    else
      match r.acquire(s, list[0].params.value)
      case Granted(s', permit) =>
        var rest := Pass(r, s', list[1..]);
        rest.(removed := [Removal(list[0], RemovedOk(permit))] + rest.removed)
      case Refused(s', params) =>
        Scan(s', [list[0].(params := Some(params))] + list[1..], [], false)
      case AcquireUnwound(s') =>
        Scan(s', [list[0].(params := None)] + list[1..], [], true)
  }

  function PassCore<S, P, T, O>(r: Rules<S, P, T, O>, c: Core<S, P, T, O>): Scan<S, P, T> {
    if Idle(r, c) then Scan(c.state, c.list, [], false) else Pass(r, c.state, c.list)
  }

  /** A batch that did not fill did the whole pass; a full one, rescanning the dead nodes it
      passed over, leaves exactly the rest of it. */
  lemma {:induction false} BatchThenPass<S, P, T, O>(r: Rules<S, P, T, O>, s: S, list: seq<Entry<P>>, room: nat)
    ensures var k := Serve(r, s, list, room);
            if k.unwound || |k.removed| < room then Pass(r, s, list) == k
            else var p := Pass(r, k.state, k.kept);
                 Pass(r, s, list) == p.(removed := k.removed + p.removed)
    decreases |list|
  {
    var k := Serve(r, s, list, room);
    if list == [] || room == 0 {
      assert k.removed == [];
      assert k.removed + Pass(r, s, list).removed == Pass(r, s, list).removed;
    } else if list[0].params.None? {
      BatchThenPass(r, s, list[1..], room);
      assert k.kept[1..] == Serve(r, s, list[1..], room).kept;
    } else {
      match r.acquire(s, list[0].params.value)
      case Granted(s', permit) =>
        BatchThenPass(r, s', list[1..], room - 1);
        var rest := Serve(r, s', list[1..], room - 1);
        assert k.removed == [Removal(list[0], RemovedOk(permit))] + rest.removed;
        var p := Pass(r, k.state, k.kept);
        assert k.removed + p.removed == [Removal(list[0], RemovedOk(permit))] + (rest.removed + p.removed);
      case _ =>
    }
  }

  lemma {:induction false} SettleConcat<P, T>(ws: seq<Waiter<P, T>>, a: seq<Removal<P, T>>, b: seq<Removal<P, T>>)
    ensures Settle(ws, a + b) == Settle(Settle(ws, a), b)
    decreases |a|
  {
    if a == [] {
      assert a + b == b;
    } else {
      var id := a[0].entry.id;
      assert (a + b)[1..] == a[1..] + b;
      SettleConcat(if id < |ws| then ws[id := ws[id].(phase := a[0].result, settled := true)] else ws, a[1..], b);
    }
  }

  /** The same on whole cores: a full batch and then a pass from what it left. */
  lemma BatchThenPassCore<S, P, T, O>(r: Rules<S, P, T, O>, c: Core<S, P, T, O>, room: nat)
    requires room >= 1
    ensures var k := CheckScan(r, c, room);
            var d := AfterScan(c, k);
            if k.unwound || |k.removed| < room then PassCore(r, c) == k
            else
              var p := PassCore(r, d);
              PassCore(r, c).removed == k.removed + p.removed && AfterScan(c, PassCore(r, c)) == AfterScan(d, p)
  {
    if !Idle(r, c) {
      BatchThenPass(r, c.state, c.list, room);
      var k := Serve(r, c.state, c.list, room);
      if !k.unwound && |k.removed| >= room {
        SettleConcat(c.waiters, k.removed, Pass(r, k.state, k.kept).removed);
      }
    }
  }

  /** An empty list has nothing to drain. */
  lemma PassOfNothing<S, P, T, O>(r: Rules<S, P, T, O>, c: Core<S, P, T, O>)
    requires c.list == []
    ensures PassCore(r, c).removed == [] && AfterScan(c, PassCore(r, c)) == c
  {
  }

  // ----- cancelling before or after draining

  /** Giving a permit back after a pass and passing again is giving it back first: the same state,
      the same list, the same grants in the same order. */
  lemma {:induction false} ReleaseCommutes<S(!new), P(!new), T(!new), O>(
      r: Rules<S, P, T, O>, s: S, permit: T, list: seq<Entry<P>>)
    requires Undoable(r) && Steady(r) && GivesBack(r)
    requires r.release(s, permit).Returned? && !Pass(r, s, list).unwound
    ensures var k := Pass(r, s, list);
            && r.release(k.state, permit).Returned?
            && var again := Pass(r, r.release(k.state, permit).state, k.kept);
               Pass(r, r.release(s, permit).state, list) == again.(removed := k.removed + again.removed)
    decreases |list|
  {
    var k := Pass(r, s, list);
    if list == [] {
    } else if list[0].params.None? {
      ReleaseCommutes(r, s, permit, list[1..]);
      assert k.kept[1..] == Pass(r, s, list[1..]).kept;
    } else {
      match r.acquire(s, list[0].params.value)
      case Granted(s', u) =>
        ReleaseCommutes(r, s', permit, list[1..]);
        var rest := Pass(r, s', list[1..]);
        var again := Pass(r, r.release(k.state, permit).state, k.kept);
        assert k.removed + again.removed == [Removal(list[0], RemovedOk(u))] + (rest.removed + again.removed);
      case Refused(s', p) =>
        assert k.kept == list;
    }
  }

  /** How many grants come before node `i`. */
  function LiveBefore<P>(list: seq<Entry<P>>, i: nat): nat
    requires i <= |list|
    decreases i
  {
    if i == 0 then 0 else (if list[0].params.Some? then 1 else 0) + LiveBefore(list[1..], i - 1)
  }

  /** The pass grants the live node `i`. */
  predicate Reaches<S, P, T, O>(r: Rules<S, P, T, O>, s: S, list: seq<Entry<P>>, i: nat) {
    i < |list| && list[i].params.Some? && !Pass(r, s, list).unwound && LiveBefore(list, i) < |Pass(r, s, list).removed|
  }

  /** Giving back what the pass gave node `i` and passing again is one pass without node `i`. */
  ghost predicate GrantUndone<S, P, T, O>(r: Rules<S, P, T, O>, s: S, list: seq<Entry<P>>, i: nat) {
    i < |list| &&
    var k := Pass(r, s, list);
    var j := LiveBefore(list, i);
    && j < |k.removed| && k.removed[j].entry == list[i] && k.removed[j].result.RemovedOk?
    && var back := r.release(k.state, k.removed[j].result.permit);
    && back.Returned?
    && var again := Pass(r, back.state, k.kept);
       Pass(r, s, Without(list, i)) == again.(removed := k.removed[..j] + k.removed[j + 1..] + again.removed)
  }

  lemma WithoutTail<P>(list: seq<Entry<P>>, i: nat)
    requires 0 < i < |list|
    ensures Without(list, i) == [list[0]] + Without(list[1..], i - 1)
    ensures Without(list, i)[0] == list[0] && Without(list, i)[1..] == Without(list[1..], i - 1)
  {
  }

  lemma BehindDead<S, P, T, O>(r: Rules<S, P, T, O>, s: S, list: seq<Entry<P>>, i: nat)
    requires 0 < i < |list| && list[0].params.None? && GrantUndone(r, s, list[1..], i - 1)
    ensures GrantUndone(r, s, list, i)
  {
    WithoutTail(list, i);
    assert Pass(r, s, list).kept[1..] == Pass(r, s, list[1..]).kept;
  }

  lemma ShiftRemoved<X>(g: X, rest: seq<X>, j: nat, again: seq<X>)
    requires 0 < j <= |rest|
    ensures ([g] + rest)[..j] + ([g] + rest)[j + 1..] + again == [g] + (rest[..j - 1] + rest[j..] + again)
  {
    assert ([g] + rest)[..j] == [g] + rest[..j - 1] && ([g] + rest)[j + 1..] == rest[j..];
  }

  lemma BehindGrant<S, P, T, O>(r: Rules<S, P, T, O>, s: S, list: seq<Entry<P>>, i: nat)
    requires 0 < i < |list| && list[0].params.Some? && r.acquire(s, list[0].params.value).Granted?
    requires GrantUndone(r, r.acquire(s, list[0].params.value).state, list[1..], i - 1)
    ensures GrantUndone(r, s, list, i)
  {
    WithoutTail(list, i);
    var out := r.acquire(s, list[0].params.value);
    var rest := Pass(r, out.state, list[1..]);
    var j := LiveBefore(list, i);
    var again := Pass(r, r.release(rest.state, rest.removed[j - 1].result.permit).state, rest.kept);
    ShiftRemoved(Removal(list[0], RemovedOk(out.permit)), rest.removed, j, again.removed);
  }

  lemma AtHead<S(!new), P(!new), T(!new), O>(r: Rules<S, P, T, O>, s: S, list: seq<Entry<P>>)
    requires Undoable(r) && Steady(r) && GivesBack(r) && Reaches(r, s, list, 0)
    ensures GrantUndone(r, s, list, 0)
  {
    var out := r.acquire(s, list[0].params.value);
    ReleaseCommutes(r, out.state, out.permit, list[1..]);
    assert Without(list, 0) == list[1..];
    var k := Pass(r, s, list);
    assert k.removed[..0] + k.removed[1..] == Pass(r, out.state, list[1..]).removed;
  }

  /** Cancel a waiter that the pass granted, and pass again: the same as if it had been cancelled
      before the pass. Everyone else's grants survive, in order. */
  lemma {:induction false} CancelGranted<S(!new), P(!new), T(!new), O>(
      r: Rules<S, P, T, O>, s: S, list: seq<Entry<P>>, i: nat)
    requires Undoable(r) && Steady(r) && GivesBack(r) && Reaches(r, s, list, i)
    ensures GrantUndone(r, s, list, i)
    decreases |list|
  {
    if i == 0 {
      AtHead(r, s, list);
    } else if list[0].params.None? {
      CancelGranted(r, s, list[1..], i - 1);
      BehindDead(r, s, list, i);
    } else {
      CancelGranted(r, r.acquire(s, list[0].params.value).state, list[1..], i - 1);
      BehindGrant(r, s, list, i);
    }
  }

  /** A second pass finds what the first one left, and changes nothing. */
  lemma {:induction false} PassTwice<S(!new), P(!new), T(!new), O>(r: Rules<S, P, T, O>, s: S, list: seq<Entry<P>>)
    requires Steady(r) && GivesBack(r) && !Pass(r, s, list).unwound
    ensures var k := Pass(r, s, list); Pass(r, k.state, k.kept) == Scan(k.state, k.kept, [], false)
    decreases |list|
  {
    if list == [] {
    } else if list[0].params.None? {
      PassTwice(r, s, list[1..]);
      var rest := Pass(r, s, list[1..]).kept;
      assert ([list[0]] + rest)[1..] == rest;
    } else {
      match r.acquire(s, list[0].params.value)
      case Granted(s', _) => PassTwice(r, s', list[1..]);
      case Refused(_, _) => assert Pass(r, s, list).kept == list;
    }
  }

  /** The pass leaves node `i` queued: it did not get that far, or the node is dead. */
  predicate Misses<S, P, T, O>(r: Rules<S, P, T, O>, s: S, list: seq<Entry<P>>, i: nat) {
    && i < |list| && !Pass(r, s, list).unwound
    && (list[i].params.None? || LiveBefore(list, i) >= |Pass(r, s, list).removed|)
  }

  /** Where the pass leaves node `i`. */
  function PlaceAfter<S, P, T, O>(r: Rules<S, P, T, O>, s: S, list: seq<Entry<P>>, i: nat): int
    requires i <= |list|
  {
    i - Min(LiveBefore(list, i), |Pass(r, s, list).removed|)
  }

  /** Taking node `i` out after the pass and passing again is one pass without it. */
  ghost predicate QueuedUndone<S, P, T, O>(r: Rules<S, P, T, O>, s: S, list: seq<Entry<P>>, i: nat) {
    i < |list| &&
    var k := Pass(r, s, list);
    var at := PlaceAfter(r, s, list, i);
    && 0 <= at < |k.kept| && k.kept[at] == list[i]
    && var again := Pass(r, k.state, Without(k.kept, at));
       Pass(r, s, Without(list, i)) == again.(removed := k.removed + again.removed)
  }

  lemma DeadAtHead<S(!new), P(!new), T(!new), O>(r: Rules<S, P, T, O>, s: S, list: seq<Entry<P>>)
    requires Steady(r) && GivesBack(r) && list != [] && list[0].params.None? && !Pass(r, s, list).unwound
    ensures QueuedUndone(r, s, list, 0)
  {
    var k, rest := Pass(r, s, list), Pass(r, s, list[1..]);
    PassTwice(r, s, list[1..]);
    assert Without(list, 0) == list[1..];
    assert Without(k.kept, 0) == rest.kept;
    assert rest.removed + [] == rest.removed;
  }

  lemma QueuedBehindDead<S, P, T, O>(r: Rules<S, P, T, O>, s: S, list: seq<Entry<P>>, i: nat)
    requires 0 < i < |list| && list[0].params.None? && QueuedUndone(r, s, list[1..], i - 1)
    ensures QueuedUndone(r, s, list, i)
  {
    var k, rest := Pass(r, s, list), Pass(r, s, list[1..]);
    WithoutTail(list, i);
    assert k.kept[1..] == rest.kept;
    WithoutTail(k.kept, PlaceAfter(r, s, list, i));
  }

  lemma QueuedBehindGrant<S, P, T, O>(r: Rules<S, P, T, O>, s: S, list: seq<Entry<P>>, i: nat)
    requires 0 < i < |list| && list[0].params.Some? && r.acquire(s, list[0].params.value).Granted?
    requires QueuedUndone(r, r.acquire(s, list[0].params.value).state, list[1..], i - 1)
    ensures QueuedUndone(r, s, list, i)
  {
    WithoutTail(list, i);
    var out := r.acquire(s, list[0].params.value);
    var rest := Pass(r, out.state, list[1..]);
    var again := Pass(r, rest.state, Without(rest.kept, PlaceAfter(r, out.state, list[1..], i - 1)));
    var g := Removal(list[0], RemovedOk(out.permit));
    assert [g] + (rest.removed + again.removed) == [g] + rest.removed + again.removed;
  }

  lemma QueuedBehindRefused<S(!new), P(!new), T(!new), O>(r: Rules<S, P, T, O>, s: S, list: seq<Entry<P>>, i: nat)
    requires Steady(r) && GivesBack(r)
    requires i < |list| && list[0].params.Some? && r.acquire(s, list[0].params.value).Refused?
    ensures QueuedUndone(r, s, list, i)
  {
    assert Pass(r, s, list).kept == list;
    assert [] + Pass(r, s, Without(list, i)).removed == Pass(r, s, Without(list, i)).removed;
  }

  /** Cancel a waiter that the pass left queued, dead or alive, and pass again: the same as if it
      had been cancelled before the pass. */
  lemma {:induction false} CancelQueued<S(!new), P(!new), T(!new), O>(
      r: Rules<S, P, T, O>, s: S, list: seq<Entry<P>>, i: nat)
    requires Steady(r) && GivesBack(r) && Misses(r, s, list, i)
    ensures QueuedUndone(r, s, list, i)
    decreases |list|
  {
    if list[0].params.None? {
      if i == 0 {
        DeadAtHead(r, s, list);
      } else {
        CancelQueued(r, s, list[1..], i - 1);
        QueuedBehindDead(r, s, list, i);
      }
    } else {
      match r.acquire(s, list[0].params.value)
      case Granted(s', _) =>
        CancelQueued(r, s', list[1..], i - 1);
        QueuedBehindGrant(r, s, list, i);
      case Refused(_, _) => QueuedBehindRefused(r, s, list, i);
    }
  }
}
