/** Poison: set by exactly the callbacks that unwind, and what it does to the queue. */
module Poison {
  import opened SemaphoreStates
  import opened QueueModel
  import opened Machine
  import opened Lifecycle
  import opened Moves

  /** One guarded call of user code. */
  datatype Call<+S, +P, +T> =
    | AcquireCall(state: S, params: P)
    | ReleaseCall(state: S, permit: T)
    | ClosureCall(state: S, next: S, unwinds: bool)

  predicate Unwinds<S, P, T, O>(r: Rules<S, P, T, O>, call: Call<S, P, T>) {
    match call
    case AcquireCall(s, p) => r.acquire(s, p).AcquireUnwound?
    case ReleaseCall(s, t) => r.release(s, t).ReleaseUnwound?
    case ClosureCall(_, _, unwinds) => unwinds
  }

  /** The calls of `acquire` made while serving, in order. */
  function ServeCalls<S, P, T, O>(r: Rules<S, P, T, O>, s: S, list: seq<Entry<P>>, room: nat): seq<Call<S, P, T>>
    decreases |list|
  {
    if list == [] || room == 0 then []
    else if list[0].params.None? then ServeCalls(r, s, list[1..], room)
    else
      var call := AcquireCall(s, list[0].params.value);
      match r.acquire(s, list[0].params.value)
      case Granted(s', _) => [call] + ServeCalls(r, s', list[1..], room - 1)
      case _ => [call]
  }

  function RoundCalls<S, P, T, O>(r: Rules<S, P, T, O>, w: World<S, P, T, O>, i: nat): seq<Call<S, P, T>>
    requires i < |w.crews|
  {
    if w.crews[i].closing || Idle(r, w.core) then [] else ServeCalls(r, w.core.state, w.core.list, r.capacity)
  }

  function AttemptCalls<S, P, T, O>(
      r: Rules<S, P, T, O>, c: Core<S, P, T, O>, params: P, fair: bool): seq<Call<S, P, T>> {
    if c.poisoned || (r.closeable && c.closed) || c.discarded then []
    else if fair && !r.enqueueFront(c.order, c.len).1 && c.list != [] then []
    else [AcquireCall(c.state, params)]
  }

  function BeforeCalls<S, P, T, O>(
      r: Rules<S, P, T, O>, w: World<S, P, T, O>, step: Step<S, P, T>): seq<Call<S, P, T>> {
    match step
    case Poll(id, _) =>
      if id < |w.core.waiters| && w.core.waiters[id].phase.Initial?
      then AttemptCalls(r, w.core, w.core.waiters[id].phase.params, true) else []
    case Cancel(id) =>
      if id < |w.core.waiters| && w.core.waiters[id].phase.RemovedOk?
      then [ReleaseCall(w.core.state, w.core.waiters[id].phase.permit)] else []
    case Try(params, fair) => AttemptCalls(r, w.core, params, fair)
    case Update(next, unwinds) => [ClosureCall(w.core.state, next, unwinds)]
    case DropPermit(i) =>
      if i < |w.held| && w.held[i].Some? then [ReleaseCall(w.core.state, w.held[i].value)] else []
    case _ => []
  }

  /** All the user code a step runs under the lock, in order. */
  function Calls<S, P, T, O>(r: Rules<S, P, T, O>, w: World<S, P, T, O>, step: Step<S, P, T>): seq<Call<S, P, T>> {
    BeforeCalls(r, w, step) +
    match Then(r, w, step)
    case Nothing => []
    case Check => var v := Spawn(Before(r, w, step), false); RoundCalls(r, v, |v.crews| - 1)
    case CloseAll => var v := Spawn(w, true); RoundCalls(r, v, |v.crews| - 1)
    case Again(i) => RoundCalls(r, w, i)
  }

  predicate SomeUnwinds<S, P, T, O>(r: Rules<S, P, T, O>, calls: seq<Call<S, P, T>>) {
    exists i :: 0 <= i < |calls| && Unwinds(r, calls[i])
  }

  /** Nothing is called after a call that unwound. */
  predicate OnlyLastUnwinds<S, P, T, O>(r: Rules<S, P, T, O>, calls: seq<Call<S, P, T>>) {
    forall i :: 0 <= i < |calls| - 1 ==> !Unwinds(r, calls[i])
  }

  lemma ConsUnwinds<S, P, T, O>(r: Rules<S, P, T, O>, call: Call<S, P, T>, calls: seq<Call<S, P, T>>)
    requires !Unwinds(r, call) && OnlyLastUnwinds(r, calls)
    ensures SomeUnwinds(r, [call] + calls) <==> SomeUnwinds(r, calls)
    ensures OnlyLastUnwinds(r, [call] + calls)
  {
    var all := [call] + calls;
    if i :| 0 <= i < |calls| && Unwinds(r, calls[i]) { assert Unwinds(r, all[i + 1]); }
    if i :| 0 <= i < |all| && Unwinds(r, all[i]) { assert Unwinds(r, calls[i - 1]); }
  }

  lemma {:induction false} ServeUnwinds<S, P, T, O>(r: Rules<S, P, T, O>, s: S, list: seq<Entry<P>>, room: nat)
    ensures Serve(r, s, list, room).unwound <==> SomeUnwinds(r, ServeCalls(r, s, list, room))
    ensures OnlyLastUnwinds(r, ServeCalls(r, s, list, room))
    decreases |list|
  {
    if list == [] || room == 0 {
    } else if list[0].params.None? {
      ServeUnwinds(r, s, list[1..], room);
    } else {
      var call := AcquireCall(s, list[0].params.value);
      match r.acquire(s, list[0].params.value)
      case Granted(s', _) =>
        ServeUnwinds(r, s', list[1..], room - 1);
        ConsUnwinds(r, call, ServeCalls(r, s', list[1..], room - 1));
      case Refused(_, _) => assert [call][0] == call;
      case AcquireUnwound(_) => assert Unwinds(r, [call][0]);
    }
  }

  lemma RoundUnwinds<S, P, T, O>(r: Rules<S, P, T, O>, w: World<S, P, T, O>, i: nat)
    requires i < |w.crews|
    ensures Round(r, w, i).core.poisoned <==> w.core.poisoned || SomeUnwinds(r, RoundCalls(r, w, i))
    ensures OnlyLastUnwinds(r, RoundCalls(r, w, i))
  {
    if !w.crews[i].closing && !Idle(r, w.core) { ServeUnwinds(r, w.core.state, w.core.list, r.capacity); }
  }

  lemma AttemptUnwinds<S, P, T, O>(r: Rules<S, P, T, O>, c: Core<S, P, T, O>, params: P, fair: bool)
    ensures Attempt(r, c, params, fair).0.poisoned <==> c.poisoned || SomeUnwinds(r, AttemptCalls(r, c, params, fair))
  {
    var calls := AttemptCalls(r, c, params, fair);
    if calls != [] { assert Unwinds(r, calls[0]) <==> r.acquire(c.state, params).AcquireUnwound?; }
  }

  lemma OneCall<S, P, T, O>(r: Rules<S, P, T, O>, call: Call<S, P, T>)
    ensures SomeUnwinds(r, [call]) <==> Unwinds(r, call)
    ensures !SomeUnwinds<S, P, T, O>(r, [])
  {
    assert [call][0] == call;
  }

  lemma PollUnwinds<S, P, T, O>(r: Rules<S, P, T, O>, w: World<S, P, T, O>, id: nat, waker: nat)
    requires Findable(w.core, id) && id < |w.core.waiters|
    ensures PollCore(r, w.core, id, waker).0.poisoned
       <==> w.core.poisoned || SomeUnwinds(r, BeforeCalls(r, w, Poll(id, waker)))
  {
    match w.core.waiters[id].phase
    case Initial(params) =>
      var c0 := DrawTicket(w.core, id);
      AttemptFrame(r, c0, params, true);
      AttemptUnwinds(r, c0, params, true);
      FirstPollPoison(r, w.core, id, waker);
    case _ =>
  }

  lemma CancelUnwinds<S, P, T, O>(r: Rules<S, P, T, O>, w: World<S, P, T, O>, id: nat)
    requires id < |w.core.waiters|
    ensures Detach(r, w.core, id).0.poisoned
       <==> w.core.poisoned || SomeUnwinds(r, BeforeCalls(r, w, Cancel(id)))
    ensures SomeUnwinds(r, BeforeCalls(r, w, Cancel(id))) ==> !Detach(r, w.core, id).1
  {
    if w.core.waiters[id].phase.RemovedOk? {
      OneCall(r, ReleaseCall(w.core.state, w.core.waiters[id].phase.permit));
    }
  }

  lemma BeforeUnwinds<S, P, T, O>(r: Rules<S, P, T, O>, w: World<S, P, T, O>, step: Step<S, P, T>)
    requires Safe(r, w)
    ensures Before(r, w, step).core.poisoned
       <==> (w.core.poisoned && !step.ClearPoison?) || SomeUnwinds(r, BeforeCalls(r, w, step))
    ensures |BeforeCalls(r, w, step)| <= 1
    ensures SomeUnwinds(r, BeforeCalls(r, w, step)) ==> Then(r, w, step).Nothing?
  {
    match step
    case Poll(id, waker) =>
      SoundFinds(r, w.core, id);
      if id < |w.core.waiters| { PollUnwinds(r, w, id, waker); }
    case Try(params, fair) => AttemptUnwinds(r, w.core, params, fair);
    case Cancel(id) =>
      if id < |w.core.waiters| { CancelUnwinds(r, w, id); }
    case Update(next, unwinds) => OneCall(r, ClosureCall(w.core.state, next, unwinds));
    case DropPermit(i) =>
      if i < |w.held| && w.held[i].Some? { OneCall(r, ReleaseCall(w.core.state, w.held[i].value)); }
    case _ =>
  }

  /** Poison is set exactly by a step in which a guarded call unwinds, which is then the last call
      of that step; it stays until cleared. */
  lemma PoisonIsUnwinding<S, P, T, O>(r: Rules<S, P, T, O>, w: World<S, P, T, O>, step: Step<S, P, T>)
    requires Safe(r, w)
    ensures Do(r, w, step).core.poisoned
       <==> (w.core.poisoned && !step.ClearPoison?) || SomeUnwinds(r, Calls(r, w, step))
    ensures OnlyLastUnwinds(r, Calls(r, w, step))
  {
    BeforeUnwinds(r, w, step);
    var v := Before(r, w, step);
    var first := BeforeCalls(r, w, step);
    var rest: seq<Call<S, P, T>>;
    match Then(r, w, step) {
      case Nothing => rest := [];
      case Check => RoundUnwinds(r, Spawn(v, false), |v.crews|); rest := RoundCalls(r, Spawn(v, false), |v.crews|);
      case CloseAll => RoundUnwinds(r, Spawn(w, true), |w.crews|); rest := RoundCalls(r, Spawn(w, true), |w.crews|);
      case Again(i) => RoundUnwinds(r, w, i); rest := RoundCalls(r, w, i);
    }
    assert Calls(r, w, step) == first + rest;
    if first == [] {
      assert first + rest == rest;
    } else if rest == [] {
      assert first + rest == first;
    } else {
      assert !Unwinds(r, first[0]);
      ConsUnwinds(r, first[0], rest);
      assert first == [first[0]];
    }
  }

  // ----- what the callbacks leave is what there is

  /** The state that a call leaves, whether it returns or unwinds. */
  function LeftBy<S, P, T, O>(r: Rules<S, P, T, O>, call: Call<S, P, T>): S {
    match call
    case AcquireCall(s, p) => r.acquire(s, p).state
    case ReleaseCall(s, t) => r.release(s, t).state
    case ClosureCall(_, next, _) => next
  }

  /** The first call finds `s`, each other one what its predecessor left, and the last leaves `end`. */
  ghost predicate Chained<S, P, T, O>(r: Rules<S, P, T, O>, s: S, calls: seq<Call<S, P, T>>, end: S)
    decreases |calls|
  {
    if calls == [] then s == end else calls[0].state == s && Chained(r, LeftBy(r, calls[0]), calls[1..], end)
  }

  lemma {:induction false} ChainConcat<S, P, T, O>(
      r: Rules<S, P, T, O>, s: S, a: seq<Call<S, P, T>>, mid: S, b: seq<Call<S, P, T>>, end: S)
    requires Chained(r, s, a, mid) && Chained(r, mid, b, end)
    ensures Chained(r, s, a + b, end)
    decreases |a|
  {
    if a == [] {
      assert a + b == b;
    } else {
      assert (a + b)[1..] == a[1..] + b;
      ChainConcat(r, LeftBy(r, a[0]), a[1..], mid, b, end);
    }
  }

  lemma {:induction false} ChainEnd<S, P, T, O>(r: Rules<S, P, T, O>, s: S, calls: seq<Call<S, P, T>>, end: S)
    requires Chained(r, s, calls, end) && calls != []
    ensures end == LeftBy(r, calls[|calls| - 1])
    decreases |calls|
  {
    if |calls| == 1 {
      assert calls[1..] == [];
    } else {
      ChainEnd(r, LeftBy(r, calls[0]), calls[1..], end);
    }
  }

  lemma {:induction false} ServeChains<S, P, T, O>(r: Rules<S, P, T, O>, s: S, list: seq<Entry<P>>, room: nat)
    ensures Chained(r, s, ServeCalls(r, s, list, room), Serve(r, s, list, room).state)
    decreases |list|
  {
    if list == [] || room == 0 {
    } else if list[0].params.None? {
      ServeChains(r, s, list[1..], room);
    } else {
      var call: Call<S, P, T> := AcquireCall(s, list[0].params.value);
      match r.acquire(s, list[0].params.value)
      case Granted(s', _) =>
        ServeChains(r, s', list[1..], room - 1);
        var rest := ServeCalls(r, s', list[1..], room - 1);
        assert ([call] + rest)[1..] == rest;
      case _ => OneChained(r, call);
    }
  }

  lemma RoundChains<S, P, T, O>(r: Rules<S, P, T, O>, w: World<S, P, T, O>, i: nat)
    requires i < |w.crews|
    ensures Chained(r, w.core.state, RoundCalls(r, w, i), Round(r, w, i).core.state)
  {
    if !w.crews[i].closing && !Idle(r, w.core) { ServeChains(r, w.core.state, w.core.list, r.capacity); }
  }

  lemma OneChained<S, P, T, O>(r: Rules<S, P, T, O>, call: Call<S, P, T>)
    ensures Chained(r, call.state, [call], LeftBy(r, call))
  {
    assert [call][1..] == [];
  }

  lemma AttemptChains<S, P, T, O>(r: Rules<S, P, T, O>, c: Core<S, P, T, O>, params: P, fair: bool)
    ensures Chained(r, c.state, AttemptCalls(r, c, params, fair), Attempt(r, c, params, fair).0.state)
  {
    OneChained<S, P, T, O>(r, AcquireCall(c.state, params));
  }

  lemma PollChains<S, P, T, O>(r: Rules<S, P, T, O>, w: World<S, P, T, O>, id: nat, waker: nat)
    requires Findable(w.core, id) && id < |w.core.waiters|
    ensures Chained(r, w.core.state, BeforeCalls(r, w, Poll(id, waker)), PollCore(r, w.core, id, waker).0.state)
  {
    if w.core.waiters[id].phase.Initial? {
      AttemptChains(r, DrawTicket(w.core, id), w.core.waiters[id].phase.params, true);
    }
  }

  lemma CancelChains<S, P, T, O>(r: Rules<S, P, T, O>, w: World<S, P, T, O>, id: nat)
    requires id < |w.core.waiters|
    ensures Chained(r, w.core.state, BeforeCalls(r, w, Cancel(id)), Detach(r, w.core, id).0.state)
  {
    if w.core.waiters[id].phase.RemovedOk? {
      OneChained(r, ReleaseCall(w.core.state, w.core.waiters[id].phase.permit));
    }
  }

  lemma BeforeChains<S, P, T, O>(r: Rules<S, P, T, O>, w: World<S, P, T, O>, step: Step<S, P, T>)
    requires Safe(r, w)
    ensures Chained(r, w.core.state, BeforeCalls(r, w, step), Before(r, w, step).core.state)
  {
    match step
    case Poll(id, waker) =>
      SoundFinds(r, w.core, id);
      if id < |w.core.waiters| { PollChains(r, w, id, waker); }
    case Cancel(id) =>
      if id < |w.core.waiters| { CancelChains(r, w, id); }
    case Try(params, fair) => AttemptChains(r, w.core, params, fair);
    case Update(next, unwinds) => OneChained(r, ClosureCall(w.core.state, next, unwinds));
    case DropPermit(i) =>
      if i < |w.held| && w.held[i].Some? { OneChained(r, ReleaseCall(w.core.state, w.held[i].value)); }
    case _ =>
  }

  /** Over every step and every kind of panic: each callback finds the state that its predecessor
      left, and the state after the step is the one that the last callback left, half-updated or not;
      nothing else touches it and nothing is rolled back. */
  lemma StateIsWhatCallsLeave<S, P, T, O>(r: Rules<S, P, T, O>, w: World<S, P, T, O>, step: Step<S, P, T>)
    requires Safe(r, w)
    ensures Chained(r, w.core.state, Calls(r, w, step), Do(r, w, step).core.state)
    ensures Calls(r, w, step) == [] ==> Do(r, w, step).core.state == w.core.state
    ensures Calls(r, w, step) != [] ==>
              Do(r, w, step).core.state == LeftBy(r, Calls(r, w, step)[|Calls(r, w, step)| - 1])
  {
    BeforeChains(r, w, step);
    var b := Before(r, w, step);
    var first, end := BeforeCalls(r, w, step), Do(r, w, step).core.state;
    match Then(r, w, step) {
      case Nothing => assert Calls(r, w, step) == first;
      case Check =>
        var v := Spawn(b, false);
        RoundChains(r, v, |b.crews|);
        ChainConcat(r, w.core.state, first, b.core.state, RoundCalls(r, v, |b.crews|), end);
      case CloseAll =>
        var v := Spawn(w, true);
        RoundChains(r, v, |w.crews|);
        ChainConcat(r, w.core.state, first, b.core.state, RoundCalls(r, v, |w.crews|), end);
      case Again(i) =>
        RoundChains(r, w, i);
        ChainConcat(r, w.core.state, first, b.core.state, RoundCalls(r, w, i), end);
    }
    if Calls(r, w, step) != [] { ChainEnd(r, w.core.state, Calls(r, w, step), end); }
  }

  /** In any run, what a `with_state` closure, a `release` or an attempt leaves when it unwinds is
      what the next callback finds. */
  lemma PanicsKeepTheirState<S, P, T, O>(
      r: Rules<S, P, T, O>, state: S, order: O, past: seq<Step<S, P, T>>, step: Step<S, P, T>)
    ensures var w := Reach(r, state, order, past);
            var calls := Calls(r, w, step);
            && (SomeUnwinds(r, calls) ==>
                  && Unwinds(r, calls[|calls| - 1])
                  && Do(r, w, step).core.state == LeftBy(r, calls[|calls| - 1]))
            && (step.Update? && step.unwinds ==> Do(r, w, step).core.state == step.next)
  {
    var w := Reach(r, state, order, past);
    RunKeepsSafe(r, Init<S, P, T, O>(state, order), past);
    StateIsWhatCallsLeave(r, w, step);
    PoisonIsUnwinding(r, w, step);
    var calls := Calls(r, w, step);
    if i :| 0 <= i < |calls| && Unwinds(r, calls[i]) { assert i == |calls| - 1; }
  }

  // ----- dead waiters

  /** When a batch ends in a panic, the waiter whose params that call of `acquire` took is dead. */
  lemma {:induction false} UnwindingKills<S, P, T, O>(r: Rules<S, P, T, O>, s: S, list: seq<Entry<P>>, room: nat)
    requires Serve(r, s, list, room).unwound
    ensures var k, calls := Serve(r, s, list, room), ServeCalls(r, s, list, room);
            && calls != [] && calls[|calls| - 1].AcquireCall?
            && exists i, j :: 0 <= i < |list| && 0 <= j < |k.kept|
                 && list[i].params == Some(calls[|calls| - 1].params) && k.kept[j] == list[i].(params := None)
    decreases |list|
  {
    if list[0].params.None? {
      UnwindingKills(r, s, list[1..], room);
      var rest, calls := Serve(r, s, list[1..], room), ServeCalls(r, s, list[1..], room);
      var i, j :| 0 <= i < |list[1..]| && 0 <= j < |rest.kept|
        && list[1..][i].params == Some(calls[|calls| - 1].params) && rest.kept[j] == list[1..][i].(params := None);
      assert list[i + 1].params == Some(calls[|calls| - 1].params);
      assert Serve(r, s, list, room).kept[j + 1] == list[i + 1].(params := None);
    } else {
      match r.acquire(s, list[0].params.value)
      case Granted(s', _) =>
        UnwindingKills(r, s', list[1..], room - 1);
        var rest, calls := Serve(r, s', list[1..], room - 1), ServeCalls(r, s', list[1..], room - 1);
        var i, j :| 0 <= i < |list[1..]| && 0 <= j < |rest.kept|
          && list[1..][i].params == Some(calls[|calls| - 1].params) && rest.kept[j] == list[1..][i].(params := None);
        assert list[i + 1].params == Some(calls[|calls| - 1].params);
        assert Serve(r, s, list, room).kept[j] == list[i + 1].(params := None);
      case AcquireUnwound(_) =>
        var k := Serve(r, s, list, room);
        assert k.kept[0] == list[0].(params := None);
      case Refused(_, _) => assert false;
    }
  }

  predicate Dead<P>(list: seq<Entry<P>>, id: nat) {
    exists k :: 0 <= k < |list| && list[k].id == id && list[k].params.None?
  }

  /** Serving makes a waiter dead only by an `acquire` that unwinds. */
  lemma {:induction false} ServeMakesDead<S, P, T, O>(
      r: Rules<S, P, T, O>, s: S, list: seq<Entry<P>>, room: nat, id: nat)
    requires Dead(Serve(r, s, list, room).kept, id)
    ensures Dead(list, id) || Serve(r, s, list, room).unwound
    decreases |list|
  {
    if list != [] && room != 0 && !Serve(r, s, list, room).unwound {
      var kept := Serve(r, s, list, room).kept;
      var k :| 0 <= k < |kept| && kept[k].id == id && kept[k].params.None?;
      if list[0].params.None? {
        var rest := Serve(r, s, list[1..], room).kept;
        if k > 0 {
          assert rest[k - 1] == kept[k];
          ServeMakesDead(r, s, list[1..], room, id);
          DeadTail(list, id);
        } else {
          assert list[0].id == id;
        }
      } else {
        match r.acquire(s, list[0].params.value)
        case Granted(s', _) => ServeMakesDead(r, s', list[1..], room - 1, id); DeadTail(list, id);
        case Refused(_, _) => assert list[k] == kept[k];
        case AcquireUnwound(_) =>
      }
    }
  }

  lemma DeadTail<P>(list: seq<Entry<P>>, id: nat)
    requires list != [] && Dead(list[1..], id)
    ensures Dead(list, id)
  {
    var k :| 0 <= k < |list[1..]| && list[1..][k].id == id && list[1..][k].params.None?;
    assert list[k + 1].id == id;
  }

  function Alive<P>(list: seq<Entry<P>>): seq<Entry<P>> {
    if list == [] then []
    else if list[0].params.Some? then [list[0]] + Alive(list[1..])
    else Alive(list[1..])
  }

  lemma {:induction false} AliveIsAllAlive<P>(list: seq<Entry<P>>)
    ensures Alive(Alive(list)) == Alive(list)
    decreases |list|
  {
    if list == [] {
    } else {
      AliveIsAllAlive(list[1..]);
      assert ([list[0]] + Alive(list[1..]))[1..] == Alive(list[1..]);
    }
  }

  /** Dead waiters never stop a check: it grants, wakes, changes the state and panics as if they
      were not there, and leaves the same live waiters. */
  lemma {:induction false} DeadAreSkipped<S, P, T, O>(r: Rules<S, P, T, O>, s: S, list: seq<Entry<P>>, room: nat)
    ensures var a, b := Serve(r, s, list, room), Serve(r, s, Alive(list), room);
            && a.state == b.state && a.removed == b.removed && a.unwound == b.unwound
            && Alive(a.kept) == Alive(b.kept)
    decreases |list|
  {
    if list == [] {
    } else if room == 0 {
      AliveIsAllAlive(list);
    } else if list[0].params.None? {
      DeadAreSkipped(r, s, list[1..], room);
      assert Alive(list) == Alive(list[1..]);
      var rest := Serve(r, s, list[1..], room).kept;
      assert ([list[0]] + rest)[1..] == rest;
    } else {
      var tail := Alive(list[1..]);
      assert Alive(list) == [list[0]] + tail && Alive(list)[1..] == tail;
      match r.acquire(s, list[0].params.value)
      case Granted(s', _) => DeadAreSkipped(r, s', list[1..], room - 1);
      case Refused(s', params) =>
        var e := list[0].(params := Some(params));
        AliveIsAllAlive(list[1..]);
        assert ([e] + list[1..])[1..] == list[1..] && ([e] + tail)[1..] == tail;
      case AcquireUnwound(s') =>
        var e := list[0].(params := None);
        AliveIsAllAlive(list[1..]);
        assert ([e] + list[1..])[1..] == list[1..] && ([e] + tail)[1..] == tail;
    }
  }

  /** A step leaves a new dead waiter only by poisoning the queue. */
  lemma DeadByUnwinding<S, P, T, O>(r: Rules<S, P, T, O>, w: World<S, P, T, O>, step: Step<S, P, T>, id: nat)
    requires Safe(r, w) && Dead(Do(r, w, step).core.list, id)
    ensures Dead(w.core.list, id) || (!w.core.poisoned && Do(r, w, step).core.poisoned)
  {
    var v := Before(r, w, step);
    match Then(r, w, step)
    case Nothing => BeforeMakesNoDead(r, w, step, id);
    case Check =>
      StaysShut(r, w, step);
      RoundMakesDead(r, Spawn(v, false), |v.crews|, id);
      if Dead(v.core.list, id) { BeforeMakesNoDead(r, w, step, id); }
    case CloseAll => RoundMakesDead(r, Spawn(w, true), |w.crews|, id);
    case Again(i) => RoundMakesDead(r, w, i, id);
  }

  lemma DeadAt<P>(list: seq<Entry<P>>, k: nat)
    requires k < |list| && list[k].params.None?
    ensures Dead(list, list[k].id)
  {
  }

  lemma RoundMakesDead<S, P, T, O>(r: Rules<S, P, T, O>, w: World<S, P, T, O>, i: nat, id: nat)
    requires i < |w.crews| && Dead(Round(r, w, i).core.list, id)
    ensures Dead(w.core.list, id) || (!w.core.poisoned && Round(r, w, i).core.poisoned)
  {
    var c, d := w.core, Round(r, w, i).core;
    if w.crews[i].closing {
      var k :| 0 <= k < |d.list| && d.list[k].id == id && d.list[k].params.None?;
      DeadAt(c.list, k + Min(r.capacity, |c.list|));
    } else if !Idle(r, c) {
      ServeMakesDead(r, c.state, c.list, r.capacity, id);
    }
  }

  lemma FirstPollMakesNoDead<S, P, T, O>(r: Rules<S, P, T, O>, c: Core<S, P, T, O>, x: nat, waker: nat, id: nat)
    requires x < |c.waiters| && c.waiters[x].phase.Initial? && Dead(FirstPoll(r, c, x, waker).0.list, id)
    ensures Dead(c.list, id)
  {
    FirstPollList(r, c, x, waker);
    var list := FirstPoll(r, c, x, waker).0.list;
    var k :| 0 <= k < |list| && list[k].id == id && list[k].params.None?;
    if k < |c.list| && c.list[k] == list[k] { DeadAt(c.list, k); } else { DeadAt(c.list, k - 1); }
  }

  /** A first poll adds at most one live node, at one end. */
  lemma FirstPollList<S, P, T, O>(r: Rules<S, P, T, O>, c: Core<S, P, T, O>, x: nat, waker: nat)
    requires x < |c.waiters| && c.waiters[x].phase.Initial?
    ensures var list := FirstPoll(r, c, x, waker).0.list;
            list == c.list
            || exists e: Entry<P> :: e.params.Some? && (list == [e] + c.list || list == c.list + [e])
  {
    var c0 := DrawTicket(c, x);
    AttemptFrame(r, c0, c.waiters[x].phase.params, true);
    var (d, outcome) := Attempt(r, c0, c.waiters[x].phase.params, true);
    if outcome.Enqueue? {
      var e := Entry(x, Some(outcome.params), waker, outcome.front, d.waiters[x].ticket);
      assert Join(d, x, waker, outcome.front, outcome.params).list
          == if outcome.front then [e] + c.list else c.list + [e];
    }
  }

  lemma WithoutMakesNoDead<P>(list: seq<Entry<P>>, i: nat, id: nat)
    requires i < |list| && Dead(Without(list, i), id)
    ensures Dead(list, id)
  {
    var rest := Without(list, i);
    var k :| 0 <= k < |rest| && rest[k].id == id && rest[k].params.None?;
    DeadAt(list, if k < i then k else k + 1);
  }

  lemma PollLinkedMakesNoDead<S, P, T, O>(r: Rules<S, P, T, O>, c: Core<S, P, T, O>, x: nat, waker: nat, id: nat)
    requires x < |c.waiters| && Dead(PollLinked(r, c, x, waker).0.list, id)
    ensures Dead(c.list, id)
  {
    var d := PollLinked(r, c, x, waker).0;
    var i := IndexOf(c.list, x);
    if |d.list| < |c.list| {
      WithoutMakesNoDead(c.list, i, id);
    } else {
      var k :| 0 <= k < |d.list| && d.list[k].id == id && d.list[k].params.None?;
      DeadAt(c.list, k);
    }
  }

  lemma DetachMakesNoDead<S, P, T, O>(r: Rules<S, P, T, O>, c: Core<S, P, T, O>, x: nat, id: nat)
    requires x < |c.waiters| && Dead(Detach(r, c, x).0.list, id)
    ensures Dead(c.list, id)
  {
    var i := IndexOf(c.list, x);
    if i < |c.list| && Detach(r, c, x).0.list == Without(c.list, i) { WithoutMakesNoDead(c.list, i, id); }
  }

  lemma BeforeMakesNoDead<S, P, T, O>(r: Rules<S, P, T, O>, w: World<S, P, T, O>, step: Step<S, P, T>, id: nat)
    requires Dead(Before(r, w, step).core.list, id)
    ensures Dead(w.core.list, id)
  {
    match step
    case Poll(x, waker) =>
      if x < |w.core.waiters| {
        match w.core.waiters[x].phase
        case Initial(_) => FirstPollMakesNoDead(r, w.core, x, waker, id);
        case Linked => PollLinkedMakesNoDead(r, w.core, x, waker, id);
        case _ =>
      }
    case Cancel(x) =>
      if x < |w.core.waiters| { DetachMakesNoDead(r, w.core, x, id); }
    case _ => OthersFrame(r, w, step);
  }
}
