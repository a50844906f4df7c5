/** The shape of the list under any policy, and who is granted before whom. */
module Ordering {
  import opened SemaphoreStates
  import opened Orders
  import opened QueueModel
  import opened ListFacts
  import opened Machine
  import opened Lifecycle
  import opened Moves

  // ----- nodes leave the list from anywhere, but never change places

  predicate SamePlace<P>(a: Entry<P>, b: Entry<P>) {
    a.id == b.id && a.front == b.front && a.ticket == b.ticket
  }

  predicate Thin<P>(list: seq<Entry<P>>, kept: seq<Entry<P>>)
    decreases |list|
  {
    || kept == []
    || (list != [] && SamePlace(list[0], kept[0]) && Thin(list[1..], kept[1..]))
    || (list != [] && Thin(list[1..], kept))
  }

  lemma {:induction false} ThinSelf<P>(list: seq<Entry<P>>)
    ensures Thin(list, list)
    decreases |list|
  {
    if list == [] {
    } else {
      ThinSelf(list[1..]);
    }
  }

  lemma ThinCons<P>(list: seq<Entry<P>>, e: Entry<P>, kept: seq<Entry<P>>)
    requires list != [] && SamePlace(list[0], e) && Thin(list[1..], kept)
    ensures Thin(list, [e] + kept)
  {
    assert ([e] + kept)[1..] == kept;
  }

  lemma {:induction false} ThinWithout<P>(list: seq<Entry<P>>, i: nat)
    requires i < |list|
    ensures Thin(list, Without(list, i))
    decreases |list|
  {
    if i == 0 {
      ThinSelf(list[1..]);
      assert Without(list, 0) == list[1..];
    } else {
      ThinWithout(list[1..], i - 1);
      assert Without(list, i) == [list[0]] + Without(list[1..], i - 1);
      ThinCons(list, list[0], Without(list[1..], i - 1));
    }
  }

  lemma {:induction false} ThinUpdate<P>(list: seq<Entry<P>>, i: nat, e: Entry<P>)
    requires i < |list| && SamePlace(list[i], e)
    ensures Thin(list, list[i := e])
    decreases |list|
  {
    if i == 0 {
      ThinSelf(list[1..]);
      assert list[0 := e] == [e] + list[1..];
      ThinCons(list, e, list[1..]);
    } else {
      ThinUpdate(list[1..], i - 1, e);
      assert list[i := e] == [list[0]] + list[1..][i - 1 := e];
      ThinCons(list, list[0], list[1..][i - 1 := e]);
    }
  }

  lemma {:induction false} ThinDrop<P>(list: seq<Entry<P>>, n: nat)
    requires n <= |list|
    ensures Thin(list, list[n..])
    decreases |list|
  {
    if n == 0 {
      ThinSelf(list);
    } else {
      ThinDrop(list[1..], n - 1);
      assert list[n..] == list[1..][n - 1..];
    }
  }

  lemma {:induction false} ServeThins<S, P, T, O>(r: Rules<S, P, T, O>, s: S, list: seq<Entry<P>>, room: nat)
    ensures Thin(list, Serve(r, s, list, room).kept)
    decreases |list|
  {
    if list == [] || room == 0 {
      ThinSelf(list);
    } else if list[0].params.None? {
      ServeThins(r, s, list[1..], room);
      ThinCons(list, list[0], Serve(r, s, list[1..], room).kept);
    } else {
      match r.acquire(s, list[0].params.value)
      case Granted(s', _) => ServeThins(r, s', list[1..], room - 1);
      case Refused(_, params) => ThinSelf(list[1..]); ThinCons(list, list[0].(params := Some(params)), list[1..]);
      case AcquireUnwound(_) => ThinSelf(list[1..]); ThinCons(list, list[0].(params := None), list[1..]);
    }
  }

  lemma RoundThins<S, P, T, O>(r: Rules<S, P, T, O>, w: World<S, P, T, O>, i: nat)
    requires i < |w.crews|
    ensures Thin(w.core.list, Round(r, w, i).core.list)
    ensures Round(r, w, i).core.tickets == w.core.tickets && Round(r, w, i).core.order == w.core.order
  {
    if w.crews[i].closing {
      ThinDrop(w.core.list, Min(r.capacity, |w.core.list|));
    } else if Idle(r, w.core) {
      ThinSelf(w.core.list);
    } else {
      ServeThins(r, w.core.state, w.core.list, r.capacity);
    }
  }

  // ----- the shape

  /** `a` may stand in front of `b`: front-joiners come before back-joiners, the younger first
      among the former and the older first among the latter. */
  predicate MayPrecede<P>(a: Entry<P>, b: Entry<P>) {
    if b.front then a.front && a.ticket > b.ticket else a.front || a.ticket < b.ticket
  }

  predicate LeadsAll<P>(e: Entry<P>, list: seq<Entry<P>>) {
    forall k :: 0 <= k < |list| ==> MayPrecede(e, list[k])
  }

  predicate Shaped<P>(list: seq<Entry<P>>)
    decreases |list|
  {
    list == [] || (LeadsAll(list[0], list[1..]) && Shaped(list[1..]))
  }

  predicate Drawn<P>(list: seq<Entry<P>>, tickets: nat) {
    forall k :: 0 <= k < |list| ==> list[k].ticket < tickets
  }

  lemma {:induction false} ThinLeads<P>(e: Entry<P>, list: seq<Entry<P>>, kept: seq<Entry<P>>)
    requires Thin(list, kept) && LeadsAll(e, list)
    ensures LeadsAll(e, kept)
    decreases |list|
  {
    if kept == [] {
    } else {
      if SamePlace(list[0], kept[0]) && Thin(list[1..], kept[1..]) {
        ThinLeads(e, list[1..], kept[1..]);
        assert MayPrecede(e, list[0]);
        assert kept == [kept[0]] + kept[1..];
      } else {
        ThinLeads(e, list[1..], kept);
      }
    }
  }

  lemma {:induction false} ThinShaped<P>(list: seq<Entry<P>>, kept: seq<Entry<P>>)
    requires Thin(list, kept) && Shaped(list)
    ensures Shaped(kept)
    decreases |list|
  {
    if kept == [] {
    } else {
      if SamePlace(list[0], kept[0]) && Thin(list[1..], kept[1..]) {
        ThinShaped(list[1..], kept[1..]);
        ThinLeads(list[0], list[1..], kept[1..]);
      } else {
        ThinShaped(list[1..], kept);
      }
    }
  }

  lemma {:induction false} ThinDrawn<P>(list: seq<Entry<P>>, kept: seq<Entry<P>>, tickets: nat)
    requires Thin(list, kept) && Drawn(list, tickets)
    ensures Drawn(kept, tickets)
    decreases |list|
  {
    if kept == [] {
    } else {
      if SamePlace(list[0], kept[0]) && Thin(list[1..], kept[1..]) {
        ThinDrawn(list[1..], kept[1..], tickets);
        assert kept == [kept[0]] + kept[1..];
      } else {
        ThinDrawn(list[1..], kept, tickets);
      }
    }
  }

  lemma {:induction false} ShapedAtBack<P>(list: seq<Entry<P>>, e: Entry<P>)
    requires Shaped(list) && Drawn(list, e.ticket) && !e.front
    ensures Shaped(list + [e])
    decreases |list|
  {
    if list == [] {
      assert [e][1..] == [];
    } else {
      ShapedAtBack(list[1..], e);
      assert (list + [e])[1..] == list[1..] + [e];
    }
  }

  /** Between any two listed nodes the one in front may precede the other. */
  lemma {:induction false} ShapedPairs<P>(list: seq<Entry<P>>, i: nat, j: nat)
    requires Shaped(list) && i < j < |list|
    ensures MayPrecede(list[i], list[j])
    decreases |list|
  {
    if i == 0 {
      assert list[j] == list[1..][j - 1];
    } else {
      ShapedPairs(list[1..], i - 1, j - 1);
    }
  }

  // ----- what a step does to the list

  /** The step linked its node, which carries the newest ticket, at the end the policy chose. */
  ghost predicate Joins<S, P, T, O>(r: Rules<S, P, T, O>, c: Core<S, P, T, O>, d: Core<S, P, T, O>) {
    && c.len == |c.list|
    && d.tickets == c.tickets + 1
    && |d.list| == |c.list| + 1
    && (if r.enqueueFront(c.order, c.len).1
        then d.list[1..] == c.list && d.list[0].front && d.list[0].ticket == c.tickets
        else d.list[..|c.list|] == c.list && !d.list[|c.list|].front && d.list[|c.list|].ticket == c.tickets)
  }

  ghost predicate OrderSteps<S, P, T, O>(r: Rules<S, P, T, O>, c: Core<S, P, T, O>, d: Core<S, P, T, O>) {
    d.order == c.order || d.order == r.enqueueFront(c.order, c.len).0
  }

  ghost predicate ThinsOrJoins<S, P, T, O>(r: Rules<S, P, T, O>, c: Core<S, P, T, O>, d: Core<S, P, T, O>) {
    c.tickets <= d.tickets && OrderSteps(r, c, d) && (Thin(c.list, d.list) || Joins(r, c, d))
  }

  lemma FirstPollThinsOrJoins<S, P, T, O>(r: Rules<S, P, T, O>, c: Core<S, P, T, O>, id: nat, waker: nat)
    requires c.len == |c.list| && id < |c.waiters| && c.waiters[id].phase.Initial?
    ensures ThinsOrJoins(r, c, FirstPoll(r, c, id, waker).0)
  {
    ThinSelf(c.list);
    AttemptFrame(r, DrawTicket(c, id), c.waiters[id].phase.params, true);
  }

  lemma PollLinkedThins<S, P, T, O>(r: Rules<S, P, T, O>, c: Core<S, P, T, O>, id: nat, waker: nat)
    requires id < |c.waiters|
    ensures var d := PollLinked(r, c, id, waker).0;
            d.tickets == c.tickets && d.order == c.order && Thin(c.list, d.list)
  {
    ThinSelf(c.list);
    var i := IndexOf(c.list, id);
    if i < |c.list| {
      ThinWithout(c.list, i);
      ThinUpdate(c.list, i, c.list[i].(waker := waker));
    }
  }

  lemma DetachThins<S, P, T, O>(r: Rules<S, P, T, O>, c: Core<S, P, T, O>, id: nat)
    requires id < |c.waiters|
    ensures var d := Detach(r, c, id).0;
            d.tickets == c.tickets && d.order == c.order && Thin(c.list, d.list)
  {
    var i := IndexOf(c.list, id);
    DetachList(r, c, id);
    if i < |c.list| { ThinWithout(c.list, i); }
    ThinSelf(c.list);
  }

  lemma DetachList<S, P, T, O>(r: Rules<S, P, T, O>, c: Core<S, P, T, O>, id: nat)
    requires id < |c.waiters|
    ensures var d := Detach(r, c, id).0;
            var i := IndexOf(c.list, id);
            && d.tickets == c.tickets && d.order == c.order
            && (d.list == c.list || (i < |c.list| && d.list == Without(c.list, i)))
  {
    var gone := SetPhase(c, id, Done(Cancelled));
    if c.waiters[id].phase.RemovedOk? {
      var out := r.release(c.state, c.waiters[id].phase.permit);
      assert Detach(r, c, id).0 == AfterCall(gone, out.state, out.ReleaseUnwound?);
    } else if c.waiters[id].phase.Linked? {
      var i := IndexOf(c.list, id);
      assert Detach(r, c, id).0 == if c.discarded || i == |c.list| then c.(ub := true) else Unlink(gone, i);
    }
  }

  lemma ThinsOnly<S, P, T, O>(r: Rules<S, P, T, O>, c: Core<S, P, T, O>, d: Core<S, P, T, O>)
    requires c.tickets == d.tickets && d.order == c.order && Thin(c.list, d.list)
    ensures ThinsOrJoins(r, c, d)
  {
  }

  lemma PollThinsOrJoins<S, P, T, O>(r: Rules<S, P, T, O>, c: Core<S, P, T, O>, id: nat, waker: nat)
    requires c.len == |c.list| && id < |c.waiters|
    ensures ThinsOrJoins(r, c, PollCore(r, c, id, waker).0)
  {
    match c.waiters[id].phase
    case Initial(_) => FirstPollThinsOrJoins(r, c, id, waker);
    case Linked => PollLinkedThins(r, c, id, waker);
    case _ => ThinSelf(c.list);
  }

  lemma BeforeThinsOrJoins<S, P, T, O>(r: Rules<S, P, T, O>, w: World<S, P, T, O>, step: Step<S, P, T>)
    requires Safe(r, w)
    ensures ThinsOrJoins(r, w.core, Before(r, w, step).core)
  {
    var c := w.core;
    ThinSelf(c.list);
    match step
    case Poll(id, waker) =>
      if id < |c.waiters| { PollThinsOrJoins(r, c, id, waker); }
    case Cancel(id) =>
      if id < |c.waiters| {
        DetachThins(r, c, id);
        ThinsOnly(r, c, Detach(r, c, id).0);
      }
    case Try(params, fair) => AttemptFrame(r, c, params, fair);
    case _ => ThinsOnly(r, c, Before(r, w, step).core);
  }

  /** The two cases of ThinsOrJoins, as lists. */
  lemma ListCases<S, P, T, O>(r: Rules<S, P, T, O>, c: Core<S, P, T, O>, d: Core<S, P, T, O>)
    requires ThinsOrJoins(r, c, d) && !Thin(c.list, d.list)
    ensures d.list != [] && d.tickets == c.tickets + 1
    ensures var front := r.enqueueFront(c.order, c.len).1;
            var e := if front then d.list[0] else d.list[|c.list|];
            && e.front == front && e.ticket == c.tickets
            && d.list == if front then [e] + c.list else c.list + [e]
  {
    var n := |c.list|;
    if r.enqueueFront(c.order, c.len).1 {
      assert d.list == [d.list[0]] + d.list[1..];
    } else {
      assert d.list == d.list[..n] + [d.list[n]];
    }
  }

  ghost predicate InShape<S, P, T, O>(r: Rules<S, P, T, O>, w: World<S, P, T, O>) {
    Safe(r, w) && Shaped(w.core.list) && Drawn(w.core.list, w.core.tickets)
  }

  lemma BeforeKeepsShape<S, P, T, O>(r: Rules<S, P, T, O>, w: World<S, P, T, O>, step: Step<S, P, T>)
    requires InShape(r, w)
    ensures InShape(r, Before(r, w, step))
  {
    BeforeKeepsSafe(r, w, step);
    BeforeThinsOrJoins(r, w, step);
    var c, d := w.core, Before(r, w, step).core;
    if Thin(c.list, d.list) {
      ThinShaped(c.list, d.list);
      ThinDrawn(c.list, d.list, d.tickets);
    } else {
      ListCases(r, c, d);
      if !r.enqueueFront(c.order, c.len).1 { ShapedAtBack(c.list, d.list[|c.list|]); }
    }
  }

  lemma RoundKeepsShape<S, P, T, O>(r: Rules<S, P, T, O>, w: World<S, P, T, O>, i: nat)
    requires InShape(r, w) && i < |w.crews| && (w.crews[i].closing ==> r.closeable)
    ensures InShape(r, Round(r, w, i))
  {
    RoundKeepsSound(r, w, i);
    RoundThins(r, w, i);
    ThinShaped(w.core.list, Round(r, w, i).core.list);
    ThinDrawn(w.core.list, Round(r, w, i).core.list, w.core.tickets);
  }

  lemma StepKeepsShape<S, P, T, O>(r: Rules<S, P, T, O>, w: World<S, P, T, O>, step: Step<S, P, T>)
    requires InShape(r, w)
    ensures InShape(r, Do(r, w, step))
  {
    BeforeKeepsShape(r, w, step);
    var v := Before(r, w, step);
    match Then(r, w, step)
    case Nothing =>
    case Check => RoundKeepsShape(r, Spawn(v, false), |v.crews|);
    case CloseAll => RoundKeepsShape(r, Spawn(w, true), |w.crews|);
    case Again(i) => RoundKeepsShape(r, w, i);
  }

  lemma {:induction false} RunKeepsShape<S, P, T, O>(
      r: Rules<S, P, T, O>, w: World<S, P, T, O>, steps: seq<Step<S, P, T>>)
    requires InShape(r, w)
    ensures InShape(r, Exec(r, w, steps))
    decreases |steps|
  {
    if steps == [] {
    } else {
      StepKeepsShape(r, w, steps[0]);
      RunKeepsShape(r, Do(r, w, steps[0]), steps[1..]);
    }
  }

  /** In every run under any policy, however stateful: the list is a segment of front-joiners,
      youngest first, followed by a segment of back-joiners, oldest first. */
  lemma AnyPolicyShape<S, P, T, O>(
      r: Rules<S, P, T, O>, state: S, order: O, steps: seq<Step<S, P, T>>, i: nat, j: nat)
    requires i < j < |Reach(r, state, order, steps).core.list|
    ensures var list := Reach(r, state, order, steps).core.list;
            && (list[j].front ==> list[i].front)
            && (list[i].front && list[j].front ==> list[i].ticket > list[j].ticket)
            && (!list[i].front && !list[j].front ==> list[i].ticket < list[j].ticket)
  {
    RunKeepsShape(r, Init<S, P, T, O>(state, order), steps);
    ShapedPairs(Reach(r, state, order, steps).core.list, i, j);
  }

  // ----- Hybrid

  function BackJoined<P>(list: seq<Entry<P>>): nat {
    if list == [] then 0 else (if list[0].front then 0 else 1) + BackJoined(list[1..])
  }

  lemma {:induction false} ThinBackJoined<P>(list: seq<Entry<P>>, kept: seq<Entry<P>>)
    requires Thin(list, kept)
    ensures BackJoined(kept) <= BackJoined(list) <= |list|
    decreases |list|
  {
    if list == [] {
    } else {
      if kept == [] {
        ThinBackJoined(list[1..], kept);
      } else if SamePlace(list[0], kept[0]) && Thin(list[1..], kept[1..]) {
        ThinBackJoined(list[1..], kept[1..]);
      } else {
        ThinBackJoined(list[1..], kept);
      }
    }
  }

  lemma {:induction false} BackJoinedAppend<P>(list: seq<Entry<P>>, e: Entry<P>)
    ensures BackJoined(list + [e]) == BackJoined(list) + (if e.front then 0 else 1)
    decreases |list|
  {
    if list == [] {
      assert [e][1..] == [];
    } else {
      BackJoinedAppend(list[1..], e);
      assert (list + [e])[1..] == list[1..] + [e];
    }
  }

  ghost predicate IsHybrid<S, P, T>(r: Rules<S, P, T, Hybrid>) {
    forall o, n :: r.enqueueFront(o, n) == HybridFront(o, n)
  }

  predicate HybridBound<S, P, T>(w: World<S, P, T, Hybrid>, h: Hybrid) {
    w.core.order == h && BackJoined(w.core.list) <= h.lifoAbove + 1
  }

  lemma BeforeKeepsHybridBound<S, P, T>(
      r: Rules<S, P, T, Hybrid>, w: World<S, P, T, Hybrid>, step: Step<S, P, T>, h: Hybrid)
    requires IsHybrid(r) && Safe(r, w) && HybridBound(w, h)
    ensures HybridBound(Before(r, w, step), h)
  {
    BeforeThinsOrJoins(r, w, step);
    var c, d := w.core, Before(r, w, step).core;
    assert r.enqueueFront(c.order, c.len) == HybridFront(c.order, c.len);
    ThinSelf(c.list);
    ThinBackJoined(c.list, c.list);
    if Thin(c.list, d.list) {
      ThinBackJoined(c.list, d.list);
    } else {
      ListCases(r, c, d);
      if !r.enqueueFront(c.order, c.len).1 { BackJoinedAppend(c.list, d.list[|c.list|]); }
    }
  }

  lemma RoundKeepsHybridBound<S, P, T>(r: Rules<S, P, T, Hybrid>, w: World<S, P, T, Hybrid>, i: nat, h: Hybrid)
    requires i < |w.crews| && HybridBound(w, h)
    ensures HybridBound(Round(r, w, i), h)
  {
    RoundThins(r, w, i);
    ThinBackJoined(w.core.list, Round(r, w, i).core.list);
  }

  lemma StepKeepsHybridBound<S, P, T>(
      r: Rules<S, P, T, Hybrid>, w: World<S, P, T, Hybrid>, step: Step<S, P, T>, h: Hybrid)
    requires IsHybrid(r) && Safe(r, w) && HybridBound(w, h)
    ensures HybridBound(Do(r, w, step), h)
  {
    BeforeKeepsHybridBound(r, w, step, h);
    var v := Before(r, w, step);
    match Then(r, w, step)
    case Nothing =>
    case Check => RoundKeepsHybridBound(r, Spawn(v, false), |v.crews|, h);
    case CloseAll => RoundKeepsHybridBound(r, Spawn(w, true), |w.crews|, h);
    case Again(i) => RoundKeepsHybridBound(r, w, i, h);
  }

  /** Under `Hybrid` never more than `lifo_above` + 1 back-joiners wait, in any run. */
  lemma {:induction false} HybridRun<S, P, T>(
      r: Rules<S, P, T, Hybrid>, w: World<S, P, T, Hybrid>, steps: seq<Step<S, P, T>>, h: Hybrid)
    requires IsHybrid(r)
    requires Safe(r, w) && HybridBound(w, h)
    ensures HybridBound(Exec(r, w, steps), h)
    decreases |steps|
  {
    if steps == [] {
    } else {
      StepKeepsSafe(r, w, steps[0]);
      StepKeepsHybridBound(r, w, steps[0], h);
      HybridRun(r, Do(r, w, steps[0]), steps[1..], h);
    }
  }

  lemma {:induction false} ThinLength<P>(list: seq<Entry<P>>, kept: seq<Entry<P>>)
    requires Thin(list, kept)
    ensures |kept| <= |list|
    decreases |list|
  {
    if kept == [] {
    } else if SamePlace(list[0], kept[0]) && Thin(list[1..], kept[1..]) {
      ThinLength(list[1..], kept[1..]);
    } else {
      ThinLength(list[1..], kept);
    }
  }

  /** A step that makes the list longer adds one node, at the end that the policy names. */
  lemma StepLinks<S, P, T, O>(r: Rules<S, P, T, O>, w: World<S, P, T, O>, step: Step<S, P, T>)
    requires Safe(r, w) && |Do(r, w, step).core.list| > |w.core.list|
    ensures Joins(r, w.core, Do(r, w, step).core) && Do(r, w, step) == Before(r, w, step)
  {
    BeforeThinsOrJoins(r, w, step);
    var v := Before(r, w, step);
    if Thin(w.core.list, v.core.list) { ThinLength(w.core.list, v.core.list); }
    match Then(r, w, step)
    case Nothing =>
    case Check =>
      CheckStepsThin(r, w, step);
      RoundThins(r, Spawn(v, false), |v.crews|);
      ThinLength(v.core.list, Do(r, w, step).core.list);
      ThinLength(w.core.list, v.core.list);
    case CloseAll =>
      RoundThins(r, Spawn(w, true), |w.crews|);
      ThinLength(w.core.list, Do(r, w, step).core.list);
    case Again(i) =>
      RoundThins(r, w, i);
      ThinLength(w.core.list, Do(r, w, step).core.list);
  }

  /** Under `Hybrid` the newcomer of any run joins in front of everybody exactly when more than
      `lifo_above` nodes are linked, and otherwise behind everybody. */
  lemma HybridJoins<S, P, T>(
      r: Rules<S, P, T, Hybrid>, state: S, h: Hybrid, past: seq<Step<S, P, T>>, step: Step<S, P, T>)
    requires IsHybrid(r)
    requires var w := Reach(r, state, h, past); |Do(r, w, step).core.list| > |w.core.list|
    ensures var w := Reach(r, state, h, past);
            var before, after := w.core.list, Do(r, w, step).core.list;
            && |after| == |before| + 1
            && if |before| > h.lifoAbove then after[0].front && after[1..] == before
               else !after[|before|].front && after[..|before|] == before
  {
    var w := Reach(r, state, h, past);
    RunKeepsSafe(r, Init<S, P, T, Hybrid>(state, h), past);
    HybridRun(r, Init<S, P, T, Hybrid>(state, h), past, h);
    StepLinks(r, w, step);
    assert r.enqueueFront(w.core.order, w.core.len) == HybridFront(w.core.order, w.core.len);
  }

  /** Never more than `n` nodes are linked at once. */
  predicate NeverLonger<S, P, T, O>(r: Rules<S, P, T, O>, w: World<S, P, T, O>, steps: seq<Step<S, P, T>>, n: nat)
    decreases |steps|
  {
    |w.core.list| <= n && (steps == [] || NeverLonger(r, Do(r, w, steps[0]), steps[1..], n))
  }

  lemma StepKeepsBackJoined<S, P, T>(
      r: Rules<S, P, T, Hybrid>, w: World<S, P, T, Hybrid>, step: Step<S, P, T>, h: Hybrid)
    requires IsHybrid(r) && Safe(r, w) && w.core.order == h && Uniform(w.core.list, false)
    requires |Do(r, w, step).core.list| <= h.lifoAbove + 1
    ensures Uniform(Do(r, w, step).core.list, false)
  {
    BeforeThinsOrJoins(r, w, step);
    var c, v := w.core, Before(r, w, step);
    assert r.enqueueFront(c.order, c.len) == HybridFront(c.order, c.len);
    if Thin(c.list, v.core.list) {
      ThinUniform(c.list, v.core.list, false);
    } else {
      ListCases(r, c, v.core);
      if Then(r, w, step).Check? { CheckStepsThin(r, w, step); }
    }
    match Then(r, w, step)
    case Nothing =>
    case Check =>
      RoundThins(r, Spawn(v, false), |v.crews|);
      ThinUniform(v.core.list, Do(r, w, step).core.list, false);
    case CloseAll =>
      RoundThins(r, Spawn(w, true), |w.crews|);
      ThinUniform(c.list, Do(r, w, step).core.list, false);
    case Again(i) =>
      RoundThins(r, w, i);
      ThinUniform(c.list, Do(r, w, step).core.list, false);
  }

  lemma {:induction false} ShortRunBackJoined<S, P, T>(
      r: Rules<S, P, T, Hybrid>, w: World<S, P, T, Hybrid>, steps: seq<Step<S, P, T>>, h: Hybrid)
    requires IsHybrid(r) && Safe(r, w) && HybridBound(w, h) && Uniform(w.core.list, false)
    requires NeverLonger(r, w, steps, h.lifoAbove + 1)
    ensures Uniform(Exec(r, w, steps).core.list, false)
    decreases |steps|
  {
    if steps == [] {
    } else {
      StepKeepsSafe(r, w, steps[0]);
      StepKeepsHybridBound(r, w, steps[0], h);
      var v := Do(r, w, steps[0]);
      assert NeverLonger(r, v, steps[1..], h.lifoAbove + 1);
      StepKeepsBackJoined(r, w, steps[0], h);
      ShortRunBackJoined(r, v, steps[1..], h);
    }
  }

  /** Under `Hybrid`, as long as at most `lifo_above` + 1 nodes were ever linked at once, the queue is
      first in, first out: oldest first. */
  lemma HybridIsFifoWhenShort<S, P, T>(
      r: Rules<S, P, T, Hybrid>, state: S, h: Hybrid, steps: seq<Step<S, P, T>>, i: nat, j: nat)
    requires IsHybrid(r) && NeverLonger(r, Init<S, P, T, Hybrid>(state, h), steps, h.lifoAbove + 1)
    requires i < j < |Reach(r, state, h, steps).core.list|
    ensures var list := Reach(r, state, h, steps).core.list; list[i].ticket < list[j].ticket
  {
    var w0 := Init<S, P, T, Hybrid>(state, h);
    ShortRunBackJoined(r, w0, steps, h);
    RunKeepsShape(r, w0, steps);
    ShapedPairs(Reach(r, state, h, steps).core.list, i, j);
  }

  // ----- FIFO and LIFO

  ghost predicate IsFair<S, P, T>(r: Rules<S, P, T, FairOrder>) {
    forall o, n :: r.enqueueFront(o, n) == FairFront(o, n)
  }

  predicate Uniform<P>(list: seq<Entry<P>>, front: bool) {
    forall k :: 0 <= k < |list| ==> list[k].front == front
  }

  lemma {:induction false} ThinUniform<P>(list: seq<Entry<P>>, kept: seq<Entry<P>>, front: bool)
    requires Thin(list, kept) && Uniform(list, front)
    ensures Uniform(kept, front)
    decreases |list|
  {
    if kept == [] {
    } else {
      if SamePlace(list[0], kept[0]) && Thin(list[1..], kept[1..]) {
        ThinUniform(list[1..], kept[1..], front);
        assert kept == [kept[0]] + kept[1..];
      } else {
        ThinUniform(list[1..], kept, front);
      }
    }
  }

  ghost predicate FairRun<S, P, T>(r: Rules<S, P, T, FairOrder>, w: World<S, P, T, FairOrder>, o: FairOrder) {
    InShape(r, w) && w.core.order == o && Uniform(w.core.list, o.Lifo?)
  }

  lemma BeforeKeepsUniform<S, P, T>(
      r: Rules<S, P, T, FairOrder>, w: World<S, P, T, FairOrder>, step: Step<S, P, T>, o: FairOrder)
    requires IsFair(r) && FairRun(r, w, o)
    ensures Before(r, w, step).core.order == o && Uniform(Before(r, w, step).core.list, o.Lifo?)
  {
    BeforeThinsOrJoins(r, w, step);
    var c, d := w.core, Before(r, w, step).core;
    assert r.enqueueFront(c.order, c.len) == FairFront(c.order, c.len);
    if Thin(c.list, d.list) {
      ThinUniform(c.list, d.list, o.Lifo?);
    } else {
      ListCases(r, c, d);
    }
  }

  lemma RoundKeepsUniform<S, P, T>(r: Rules<S, P, T, FairOrder>, w: World<S, P, T, FairOrder>, i: nat, o: FairOrder)
    requires i < |w.crews| && w.core.order == o && Uniform(w.core.list, o.Lifo?)
    ensures Round(r, w, i).core.order == o && Uniform(Round(r, w, i).core.list, o.Lifo?)
  {
    RoundThins(r, w, i);
    ThinUniform(w.core.list, Round(r, w, i).core.list, o.Lifo?);
  }

  lemma StepKeepsFair<S, P, T>(
      r: Rules<S, P, T, FairOrder>, w: World<S, P, T, FairOrder>, step: Step<S, P, T>, o: FairOrder)
    requires IsFair(r) && FairRun(r, w, o)
    ensures FairRun(r, Do(r, w, step), o)
  {
    StepKeepsShape(r, w, step);
    BeforeKeepsUniform(r, w, step, o);
    var v := Before(r, w, step);
    match Then(r, w, step)
    case Nothing =>
    case Check => RoundKeepsUniform(r, Spawn(v, false), |v.crews|, o);
    case CloseAll => RoundKeepsUniform(r, Spawn(w, true), |w.crews|, o);
    case Again(i) => RoundKeepsUniform(r, w, i, o);
  }

  lemma {:induction false} RunKeepsFair<S, P, T>(
      r: Rules<S, P, T, FairOrder>, w: World<S, P, T, FairOrder>, steps: seq<Step<S, P, T>>, o: FairOrder)
    requires IsFair(r) && FairRun(r, w, o)
    ensures FairRun(r, Exec(r, w, steps), o)
    decreases |steps|
  {
    if steps == [] {
    } else {
      StepKeepsFair(r, w, steps[0], o);
      RunKeepsFair(r, Do(r, w, steps[0]), steps[1..], o);
    }
  }

  // ----- who is granted first

  /** Every granted node may precede every live one that stays. */
  predicate GrantsLead<P, T>(rs: seq<Removal<P, T>>, kept: seq<Entry<P>>) {
    forall i, k :: 0 <= i < |rs| && 0 <= k < |kept| && kept[k].params.Some? ==> MayPrecede(rs[i].entry, kept[k])
  }

  lemma {:induction false} ServeGrantsLead<S, P, T, O>(r: Rules<S, P, T, O>, s: S, list: seq<Entry<P>>, room: nat)
    requires Shaped(list)
    ensures var k := Serve(r, s, list, room); GrantsLead(k.removed, k.kept)
    decreases |list|
  {
    if list == [] || room == 0 {
    } else if list[0].params.None? {
      ServeGrantsLead(r, s, list[1..], room);
    } else {
      match r.acquire(s, list[0].params.value)
      case Granted(s', permit) =>
        ServeGrantsLead(r, s', list[1..], room - 1);
        ServeThins(r, s', list[1..], room - 1);
        ThinLeads(list[0], list[1..], Serve(r, s', list[1..], room - 1).kept);
      case _ =>
    }
  }

  /** The step granted a permit to `id`: from the queue, or at its first poll. */
  predicate Grants<S, P, T, O>(w: World<S, P, T, O>, v: World<S, P, T, O>, id: nat) {
    && id < |w.core.waiters| && id < |v.core.waiters|
    && ((w.core.waiters[id].phase.Linked? && v.core.waiters[id].phase.RemovedOk?)
        || (w.core.waiters[id].phase.Initial? && v.core.waiters[id].phase.Done?
            && v.core.waiters[id].phase.ending.Claimed?))
  }

  lemma RoundGrantsLead<S, P, T, O>(r: Rules<S, P, T, O>, w: World<S, P, T, O>, i: nat, id: nat, k: nat)
    requires InShape(r, w) && i < |w.crews|
    requires Grants(w, Round(r, w, i), id)
    requires k < |Round(r, w, i).core.list| && Round(r, w, i).core.list[k].params.Some?
    ensures exists j :: 0 <= j < |w.core.list| && w.core.list[j].id == id
              && MayPrecede(w.core.list[j], Round(r, w, i).core.list[k])
              && w.core.list[j].ticket == Round(r, w, i).core.waiters[id].ticket
  {
    var c := w.core;
    if w.crews[i].closing {
      SettleAt(c.waiters, CloseRemoved(c, r.capacity), id);
    } else if Idle(r, c) {
    } else {
      CheckSplits(r, c, r.capacity);
      var scan := Serve(r, c.state, c.list, r.capacity);
      SettleAt(c.waiters, scan.removed, id);
      ServeGrantsLead(r, c.state, c.list, r.capacity);
      var n :| 0 <= n < |scan.removed| && scan.removed[n].entry.id == id;
      ServeRemovedListed(r, c.state, c.list, r.capacity, n);
    }
  }

  /** What is granted was on the list as it is. */
  lemma {:induction false} ServeRemovedListed<S, P, T, O>(
      r: Rules<S, P, T, O>, s: S, list: seq<Entry<P>>, room: nat, n: nat)
    requires n < |Serve(r, s, list, room).removed|
    ensures exists j :: 0 <= j < |list| && list[j] == Serve(r, s, list, room).removed[n].entry && list[j].params.Some?
    decreases |list|
  {
    var e := Serve(r, s, list, room).removed[n].entry;
    if list[0].params.None? {
      ServeRemovedListed(r, s, list[1..], room, n);
      var j :| 0 <= j < |list[1..]| && list[1..][j] == e && list[1..][j].params.Some?;
      assert list[j + 1] == e;
    } else if n > 0 {
      var s' := r.acquire(s, list[0].params.value).state;
      ServeRemovedListed(r, s', list[1..], room - 1, n - 1);
      var j :| 0 <= j < |list[1..]| && list[1..][j] == e && list[1..][j].params.Some?;
      assert list[j + 1] == e;
    } else {
      assert list[0] == e;
    }
  }

  /** Before its check, a step that checks only takes a node out or changes the state. */
  lemma CheckStepsThin<S, P, T, O>(r: Rules<S, P, T, O>, w: World<S, P, T, O>, step: Step<S, P, T>)
    requires Safe(r, w) && Then(r, w, step).Check?
    ensures var c, d := w.core, Before(r, w, step).core;
            && d.order == c.order && d.tickets == c.tickets && Thin(c.list, d.list)
            && |d.waiters| == |c.waiters|
            && forall id :: 0 <= id < |c.waiters| ==>
                 d.waiters[id] == c.waiters[id] || d.waiters[id] == c.waiters[id].(phase := Done(Cancelled))
  {
    ThinSelf(w.core.list);
    match step
    case Cancel(id) =>
      if id < |w.core.waiters| { DetachThins(r, w.core, id); FindsLinked(w.core.list, w.core.waiters, id); }
    case _ =>
  }

  lemma CheckGrants<S, P, T, O>(r: Rules<S, P, T, O>, w: World<S, P, T, O>, step: Step<S, P, T>, id: nat)
    requires Safe(r, w) && Then(r, w, step).Check? && Grants(w, Do(r, w, step), id)
    ensures Grants(Before(r, w, step), Do(r, w, step), id)
  {
    BeforeKeepsSafe(r, w, step);
    CheckStepsThin(r, w, step);
    var v := Before(r, w, step);
    if !IsLinked(v.core.waiters, id) { RoundSkips(r, Spawn(v, false), |v.crews|, id); }
  }

  /** Outside a round only a first poll grants. */
  lemma OnlyFirstPollsGrant<S, P, T, O>(r: Rules<S, P, T, O>, w: World<S, P, T, O>, step: Step<S, P, T>, id: nat)
    requires Safe(r, w) && Grants(w, Before(r, w, step), id)
    ensures step.Poll? && step.id == id && w.core.waiters[id].phase.Initial?
  {
    match step
    case Poll(x, waker) =>
      PollFrame(r, w.core, x, waker);
      if x == id && w.core.waiters[id].phase.Linked? { FindsLinked(w.core.list, w.core.waiters, x); }
    case Cancel(x) =>
      if x < |w.core.waiters| { SoundFinds(r, w.core, x); DetachMoves(r, w.core, x, id); }
    case _ => OthersFrame(r, w, step);
  }

  lemma ImmediateGrant<S, P, T, O>(r: Rules<S, P, T, O>, c: Core<S, P, T, O>, id: nat, waker: nat)
    requires id < |c.waiters| && c.waiters[id].phase.Initial?
    requires var phase := FirstPoll(r, c, id, waker).0.waiters[id].phase; phase.Done? && phase.ending.Claimed?
    ensures var d := FirstPoll(r, c, id, waker).0;
            && d.list == c.list && d.waiters[id].ticket == c.tickets
            && (r.enqueueFront(c.order, c.len).1 || c.list == [])
  {
    AttemptFrame(r, DrawTicket(c, id), c.waiters[id].phase.params, true);
  }

  /** An immediate grant under a fair policy: nobody is queued, or the newcomer is the youngest. */
  lemma FairFirstPoll<S, P, T>(
      r: Rules<S, P, T, FairOrder>, w: World<S, P, T, FairOrder>, step: Step<S, P, T>, o: FairOrder, id: nat)
    requires IsFair(r) && FairRun(r, w, o) && Then(r, w, step).Nothing? && Grants(w, Do(r, w, step), id)
    ensures var v := Do(r, w, step);
            && v.core.list == w.core.list && (o.Fifo? ==> w.core.list == [])
            && v.core.waiters[id].ticket == w.core.tickets
  {
    OnlyFirstPollsGrant(r, w, step, id);
    ImmediateGrant(r, w.core, id, step.waker);
    assert r.enqueueFront(w.core.order, w.core.len) == FairFront(w.core.order, w.core.len);
  }

  /** FIFO: each fair grant goes to a waiter with a smaller ticket than every live waiter still
      queued after it. LIFO: to the youngest. */
  lemma FairGrant<S, P, T>(
      r: Rules<S, P, T, FairOrder>, w: World<S, P, T, FairOrder>, step: Step<S, P, T>, o: FairOrder, id: nat, k: nat)
    requires IsFair(r) && FairRun(r, w, o)
    requires var v := Do(r, w, step);
             Grants(w, v, id) && k < |v.core.list| && v.core.list[k].params.Some?
    ensures var v := Do(r, w, step);
            if o.Fifo? then v.core.waiters[id].ticket < v.core.list[k].ticket
            else v.core.waiters[id].ticket > v.core.list[k].ticket
  {
    BeforeKeepsShape(r, w, step);
    var v := Before(r, w, step);
    match Then(r, w, step)
    case Nothing => FairFirstPoll(r, w, step, o, id);
    case Check =>
      CheckGrants(r, w, step, id);
      CheckStepsThin(r, w, step);
      ThinUniform(w.core.list, v.core.list, o.Lifo?);
      RoundFairGrant(r, Spawn(v, false), |v.crews|, o, id, k);
    case CloseAll => RoundFairGrant(r, Spawn(w, true), |w.crews|, o, id, k);
    case Again(i) => RoundFairGrant(r, w, i, o, id, k);
  }

  lemma RoundFairGrant<S, P, T>(
      r: Rules<S, P, T, FairOrder>, w: World<S, P, T, FairOrder>, i: nat, o: FairOrder, id: nat, k: nat)
    requires FairRun(r, w, o) && i < |w.crews|
    requires var v := Round(r, w, i);
             Grants(w, v, id) && k < |v.core.list| && v.core.list[k].params.Some?
    ensures var v := Round(r, w, i);
            if o.Fifo? then v.core.waiters[id].ticket < v.core.list[k].ticket
            else v.core.waiters[id].ticket > v.core.list[k].ticket
  {
    RoundGrantsLead(r, w, i, id, k);
    RoundKeepsUniform(r, w, i, o);
  }

  /** The same along any run: `past` from a new queue, then one step that grants to `id` while the
      live waiter at position `k` stays queued. */
  lemma FairGrantInRun<S, P, T>(
      r: Rules<S, P, T, FairOrder>, state: S, o: FairOrder, past: seq<Step<S, P, T>>, step: Step<S, P, T>,
      id: nat, k: nat)
    requires IsFair(r)
    requires var w := Reach(r, state, o, past); var v := Do(r, w, step);
             Grants(w, v, id) && k < |v.core.list| && v.core.list[k].params.Some?
    ensures var v := Do(r, Reach(r, state, o, past), step);
            if o.Fifo? then v.core.waiters[id].ticket < v.core.list[k].ticket
            else v.core.waiters[id].ticket > v.core.list[k].ticket
  {
    RunKeepsFair(r, Init<S, P, T, FairOrder>(state, o), past, o);
    FairGrant(r, Reach(r, state, o, past), step, o, id, k);
  }

  /** The list itself: strictly ascending tickets under FIFO, strictly descending under LIFO. */
  lemma FairListSorted<S, P, T>(
      r: Rules<S, P, T, FairOrder>, state: S, o: FairOrder, past: seq<Step<S, P, T>>, i: nat, j: nat)
    requires IsFair(r) && i < j < |Reach(r, state, o, past).core.list|
    ensures var list := Reach(r, state, o, past).core.list;
            if o.Fifo? then list[i].ticket < list[j].ticket else list[i].ticket > list[j].ticket
  {
    RunKeepsFair(r, Init<S, P, T, FairOrder>(state, o), past, o);
    ShapedPairs(Reach(r, state, o, past).core.list, i, j);
  }
}
