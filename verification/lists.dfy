/** Facts about serving, closing and settling that every invariant builds on. */
module ListFacts {
  import opened SemaphoreStates
  import opened QueueModel

  function Occurs<P>(es: seq<Entry<P>>, id: nat): nat
    decreases |es|
  {
    if es == [] then 0 else (if es[0].id == id then 1 else 0) + Occurs(es[1..], id)
  }

  function Entries<P, T>(rs: seq<Removal<P, T>>): seq<Entry<P>> {
    seq(|rs|, i requires 0 <= i < |rs| => rs[i].entry)
  }

  lemma {:induction false} OccursConcat<P>(a: seq<Entry<P>>, b: seq<Entry<P>>, id: nat)
    ensures Occurs(a + b, id) == Occurs(a, id) + Occurs(b, id)
    decreases |a|
  {
    if a == [] {
      assert a + b == b;
    } else {
      assert (a + b)[1..] == a[1..] + b;
      OccursConcat(a[1..], b, id);
    }
  }

  lemma {:induction false} OccursWitness<P>(es: seq<Entry<P>>, id: nat)
    ensures Occurs(es, id) > 0 <==> exists i :: 0 <= i < |es| && es[i].id == id
    decreases |es|
  {
    if es == [] {
    } else {
      OccursWitness(es[1..], id);
      if Occurs(es, id) > 0 && es[0].id != id {
        var i :| 0 <= i < |es[1..]| && es[1..][i].id == id;
        assert es[i + 1].id == id;
      }
      if i :| 0 <= i < |es| && es[i].id == id {
        if i > 0 { assert es[1..][i - 1].id == id; }
      }
    }
  }

  /** Taking one node out lowers its own count and no other. */
  lemma OccursWithout<P>(es: seq<Entry<P>>, i: nat, id: nat)
    requires i < |es|
    ensures Occurs(Without(es, i), id) == Occurs(es, id) - (if es[i].id == id then 1 else 0)
  {
    assert es == es[..i] + ([es[i]] + es[i + 1..]);
    OccursConcat(es[..i], [es[i]] + es[i + 1..], id);
    OccursConcat([es[i]], es[i + 1..], id);
    OccursConcat(es[..i], es[i + 1..], id);
  }

  lemma OccursUpdate<P>(es: seq<Entry<P>>, i: nat, e: Entry<P>, id: nat)
    requires i < |es| && e.id == es[i].id
    ensures Occurs(es[i := e], id) == Occurs(es, id)
  {
    OccursConcat(es[..i], es[i..], id);
    OccursConcat(es[..i], [e] + es[i + 1..], id);
    assert es == es[..i] + es[i..];
    assert es[i := e] == es[..i] + ([e] + es[i + 1..]);
  }

  /** Everything about an entry but its params. */
  predicate SameNode<P>(a: Entry<P>, b: Entry<P>) {
    a.id == b.id && a.waker == b.waker && a.front == b.front && a.ticket == b.ticket
  }

  ghost predicate HasNode<P>(list: seq<Entry<P>>, e: Entry<P>) {
    exists j :: 0 <= j < |list| && SameNode(list[j], e)
  }

  /** Each entry of `es` is one of `list`, up to its params. */
  ghost predicate DrawnFrom<P>(es: seq<Entry<P>>, list: seq<Entry<P>>) {
    forall k :: 0 <= k < |es| ==> HasNode(list, es[k])
  }

  lemma HasNodeAt<P>(list: seq<Entry<P>>, j: nat, e: Entry<P>)
    requires j < |list| && SameNode(list[j], e)
    ensures HasNode(list, e)
  {
  }

  lemma DrawnFromSelf<P>(es: seq<Entry<P>>)
    ensures DrawnFrom(es, es)
  {
    forall k | 0 <= k < |es| ensures HasNode(es, es[k]) {
      HasNodeAt(es, k, es[k]);
    }
  }

  lemma DrawnFromTail<P>(es: seq<Entry<P>>, list: seq<Entry<P>>)
    requires list != [] && DrawnFrom(es, list[1..])
    ensures DrawnFrom(es, list)
  {
    forall k | 0 <= k < |es| ensures HasNode(list, es[k]) {
      assert HasNode(list[1..], es[k]);
      var j :| 0 <= j < |list[1..]| && SameNode(list[1..][j], es[k]);
      HasNodeAt(list, j + 1, es[k]);
    }
  }

  lemma DrawnFromCons<P>(e: Entry<P>, es: seq<Entry<P>>, list: seq<Entry<P>>)
    requires list != [] && SameNode(list[0], e) && DrawnFrom(es, list[1..])
    ensures DrawnFrom([e] + es, list)
  {
    DrawnFromTail(es, list);
    HasNodeAt(list, 0, e);
  }

  /** A removal carries a result, never `Linked`. */
  predicate Results<P, T>(rs: seq<Removal<P, T>>) {
    forall i :: 0 <= i < |rs| ==> rs[i].result.RemovedOk? || rs[i].result.RemovedErr?
  }

  /** Each node of `list` is in exactly one of `kept` and `rs`, as often as it was in `list`. */
  ghost predicate Divides<P, T>(list: seq<Entry<P>>, kept: seq<Entry<P>>, rs: seq<Removal<P, T>>) {
    forall id: nat :: Occurs(list, id) == Occurs(kept, id) + Occurs(Entries(rs), id)
  }

  lemma DividesKept<P, T>(list: seq<Entry<P>>, e: Entry<P>, kept: seq<Entry<P>>, rs: seq<Removal<P, T>>)
    requires list != [] && e.id == list[0].id && Divides(list[1..], kept, rs)
    ensures Divides(list, [e] + kept, rs)
  {
    assert ([e] + kept)[1..] == kept;
  }

  lemma DividesRemoved<P, T>(list: seq<Entry<P>>, kept: seq<Entry<P>>, g: Removal<P, T>, rs: seq<Removal<P, T>>)
    requires list != [] && g.entry == list[0] && Divides(list[1..], kept, rs)
    ensures Divides(list, kept, [g] + rs)
    ensures Entries([g] + rs) == [list[0]] + Entries(rs)
  {
    assert Entries([g] + rs) == [list[0]] + Entries(rs);
    assert ([list[0]] + Entries(rs))[1..] == Entries(rs);
  }

  lemma DividesNone<P, T>(list: seq<Entry<P>>)
    ensures Divides<P, T>(list, list, [])
  {
  }

  /** Serving splits the list: every node is either kept or removed, once, and the batch never
      overflows. */
  lemma {:induction false} ServeSplits<S, P, T, O>(r: Rules<S, P, T, O>, s: S, list: seq<Entry<P>>, room: nat)
    ensures var k := Serve(r, s, list, room);
            && |k.kept| + |k.removed| == |list|
            && |k.removed| <= room
            && DrawnFrom(k.kept, list) && DrawnFrom(Entries(k.removed), list)
            && Results(k.removed)
            && Divides(list, k.kept, k.removed)
    decreases |list|
  {
    if list == [] || room == 0 {
      DrawnFromSelf(list);
    } else if list[0].params.None? {
      ServeSplits(r, s, list[1..], room);
      var rest := Serve(r, s, list[1..], room);
      DrawnFromCons(list[0], rest.kept, list);
      DrawnFromTail(Entries(rest.removed), list);
      DividesKept(list, list[0], rest.kept, rest.removed);
    } else {
      match r.acquire(s, list[0].params.value)
      case Granted(s', permit) =>
        ServeSplits(r, s', list[1..], room - 1);
        var rest := Serve(r, s', list[1..], room - 1);
        DividesRemoved(list, rest.kept, Removal(list[0], RemovedOk(permit)), rest.removed);
        DrawnFromCons(list[0], Entries(rest.removed), list);
        DrawnFromTail(rest.kept, list);
      case Refused(_, params) => HeadKept<P, T>(list, Some(params));
      case AcquireUnwound(_) => HeadKept<P, T>(list, None);
    }
  }

  lemma HeadKept<P, T>(list: seq<Entry<P>>, params: Option<P>)
    requires list != []
    ensures var kept := [list[0].(params := params)] + list[1..];
            DrawnFrom(kept, list) && Divides<P, T>(list, kept, [])
  {
    DrawnFromSelf(list[1..]);
    DrawnFromCons(list[0].(params := params), list[1..], list);
    DividesNone<P, T>(list[1..]);
    DividesKept<P, T>(list, list[0].(params := params), list[1..], []);
  }

  lemma CheckSplits<S, P, T, O>(r: Rules<S, P, T, O>, c: Core<S, P, T, O>, room: nat)
    ensures var k := CheckScan(r, c, room);
            && |k.kept| + |k.removed| == |c.list|
            && |k.removed| <= room
            && DrawnFrom(k.kept, c.list) && DrawnFrom(Entries(k.removed), c.list)
            && Results(k.removed)
            && Divides(c.list, k.kept, k.removed)
  {
    if Idle(r, c) {
      DrawnFromSelf(c.list);
    } else {
      ServeSplits(r, c.state, c.list, room);
    }
  }

  lemma CloseSplits<S, P, T, O>(c: Core<S, P, T, O>, room: nat)
    ensures var rs: seq<Removal<P, T>> := CloseRemoved(c, room);
            var kept := c.list[Min(room, |c.list|)..];
            && |kept| + |rs| == |c.list|
            && DrawnFrom(kept, c.list) && DrawnFrom(Entries(rs), c.list)
            && Results(rs)
            && Divides(c.list, kept, rs)
  {
    var n := Min(room, |c.list|);
    var rs: seq<Removal<P, T>> := CloseRemoved(c, room);
    assert Entries(rs) == c.list[..n];
    assert c.list == c.list[..n] + c.list[n..];
    forall id: nat ensures Occurs(c.list, id) == Occurs(c.list[n..], id) + Occurs(Entries(rs), id) {
      OccursConcat(c.list[..n], c.list[n..], id);
    }
    forall k | 0 <= k < |c.list[n..]| ensures HasNode(c.list, c.list[n..][k]) {
      HasNodeAt(c.list, n + k, c.list[n..][k]);
    }
    forall k | 0 <= k < |Entries(rs)| ensures HasNode(c.list, Entries(rs)[k]) {
      HasNodeAt(c.list, k, Entries(rs)[k]);
    }
  }

  /** Settling writes the result of its removal into each removed node, and touches no other. */
  lemma {:induction false} SettleAt<P, T>(ws: seq<Waiter<P, T>>, rs: seq<Removal<P, T>>, id: nat)
    requires id < |ws|
    ensures Occurs(Entries(rs), id) == 0 ==> Settle(ws, rs)[id] == ws[id]
    ensures Occurs(Entries(rs), id) > 0 ==>
              exists k :: 0 <= k < |rs| && rs[k].entry.id == id
                && Settle(ws, rs)[id] == ws[id].(phase := rs[k].result, settled := true)
    decreases |rs|
  {
    if rs == [] {
    } else {
      var h := rs[0].entry.id;
      var ws' := if h < |ws| then ws[h := ws[h].(phase := rs[0].result, settled := true)] else ws;
      SettleAt(ws', rs[1..], id);
      assert Entries(rs) == [rs[0].entry] + Entries(rs[1..]);
      if Occurs(Entries(rs[1..]), id) > 0 {
        var k :| 0 <= k < |rs[1..]| && rs[1..][k].entry.id == id
          && Settle(ws', rs[1..])[id] == ws'[id].(phase := rs[1..][k].result, settled := true);
        assert rs[k + 1].entry.id == id;
      } else if h == id {
        assert rs[0].entry.id == id;
      }
    }
  }
}
