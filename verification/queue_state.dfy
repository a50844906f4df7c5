/** The wait queue in the form the source gives it: fields updated in place under a mutex, and
    loops over a cursor and a bounded waker buffer. Each method is proved against QueueModel. */
module WaitQueue {
  import opened SemaphoreStates
  import opened QueueModel
  import opened Machine
  import opened Lifecycle
  import opened Drain

  /** A bounded buffer of wakers of nodes already removed. */
  class WakeBatch {
    const capacity: nat
    var wakers: seq<Wake>

    constructor (capacity: nat)
      ensures this.capacity == capacity && wakers == []
    {
      this.capacity := capacity;
      wakers := [];
    }

    method Push(x: Wake)
      requires |wakers| < capacity
      modifies this
      ensures wakers == old(wakers) + [x]
    {
      wakers := wakers + [x];
    }
  }

  /** `Serve` as the loop of `check` runs it: what it has passed over and granted so far, and what
      is still ahead of the cursor. */
  function ServeFrom<S, P, T, O>(
      r: Rules<S, P, T, O>, passed: seq<Entry<P>>, done: seq<Removal<P, T>>,
      s: S, ahead: seq<Entry<P>>, room: nat): Scan<S, P, T>
    decreases |ahead|
  {
    if ahead == [] || room == 0 then Scan(s, passed + ahead, done, false)
    else if ahead[0].params.None? then ServeFrom(r, passed + [ahead[0]], done, s, ahead[1..], room)
    else
      match r.acquire(s, ahead[0].params.value)
      case Granted(s', permit) =>
        ServeFrom(r, passed, done + [Removal(ahead[0], RemovedOk(permit))], s', ahead[1..], room - 1)
      case Refused(s', params) =>
        Scan(s', (passed + ahead)[|passed| := ahead[0].(params := Some(params))], done, false)
      case AcquireUnwound(s') =>
        Scan(s', (passed + ahead)[|passed| := ahead[0].(params := None)], done, true)
  }

  lemma {:induction false} ServeFromIsServe<S, P, T, O>(
      r: Rules<S, P, T, O>, passed: seq<Entry<P>>, done: seq<Removal<P, T>>,
      s: S, ahead: seq<Entry<P>>, room: nat)
    ensures var k := Serve(r, s, ahead, room);
            ServeFrom(r, passed, done, s, ahead, room) == k.(kept := passed + k.kept, removed := done + k.removed)
    decreases |ahead|
  {
    if ahead == [] || room == 0 {
      assert done + [] == done;
    } else if ahead[0].params.None? {
      ServeFromIsServe(r, passed + [ahead[0]], done, s, ahead[1..], room);
      var rest := Serve(r, s, ahead[1..], room);
      assert passed + ([ahead[0]] + rest.kept) == passed + [ahead[0]] + rest.kept;
    } else {
      assert done + [] == done;
      match r.acquire(s, ahead[0].params.value)
      case Granted(s', permit) =>
        var g := Removal(ahead[0], RemovedOk(permit));
        ServeFromIsServe(r, passed, done + [g], s', ahead[1..], room - 1);
        var rest := Serve(r, s', ahead[1..], room - 1);
        assert done + ([g] + rest.removed) == done + [g] + rest.removed;
      case Refused(_, params) =>
        var e := ahead[0].(params := Some(params));
        assert (passed + ahead)[|passed| := e] == passed + ([e] + ahead[1..]);
      case AcquireUnwound(_) =>
        var e := ahead[0].(params := None);
        assert (passed + ahead)[|passed| := e] == passed + ([e] + ahead[1..]);
    }
  }

  lemma ServeFromStart<S, P, T, O>(r: Rules<S, P, T, O>, s: S, list: seq<Entry<P>>, room: nat)
    ensures ServeFrom(r, [], [], s, list, room) == Serve(r, s, list, room)
  {
    ServeFromIsServe(r, [], [], s, list, room);
    var k := Serve(r, s, list, room);
    assert [] + k.kept == k.kept && [] + k.removed == k.removed;
  }

  lemma {:induction false} WakesConcat<P, T>(a: seq<Removal<P, T>>, b: seq<Removal<P, T>>)
    ensures WakesOf(a + b) == WakesOf(a) + WakesOf(b)
  {
  }

  /** What removing the node under the cursor does to nodes, wakers and list. */
  lemma GrantWritten<P, T>(
      ws: seq<Waiter<P, T>>, passed: seq<Entry<P>>, ahead: seq<Entry<P>>, done: seq<Removal<P, T>>, g: Removal<P, T>)
    requires ahead != [] && g.entry == ahead[0] && g.entry.id < |ws|
    ensures var id := g.entry.id;
            Settle(ws, done + [g]) == Settle(ws, done)[id := Settle(ws, done)[id].(phase := g.result, settled := true)]
    ensures WakesOf(done + [g]) == WakesOf(done) + [Wake(g.entry.id, g.entry.waker)]
    ensures Without(passed + ahead, |passed|) == passed + ahead[1..]
  {
    SettleConcat(ws, done, [g]);
    WakesConcat(done, [g]);
    assert [g][1..] == [];
  }

  predicate Known<P>(es: seq<Entry<P>>, n: nat)
    decreases |es|
  {
    es == [] || (es[0].id < n && Known(es[1..], n))
  }

  lemma {:induction false} AgreesKnown<P, T>(list: seq<Entry<P>>, ws: seq<Waiter<P, T>>)
    requires Agrees(list, ws)
    ensures Known(list, |ws|)
    decreases |list|
  {
    if list == [] {
    } else {
      AgreesKnown(list[1..], ws);
    }
  }

  class QueueState<S(!new), P(!new), T(!new), O> {
    const rules: Rules<S, P, T, O>
    var list: seq<Entry<P>>
    var discarded: bool
    var poisoned: bool
    var closed: bool
    var len: int
    var order: O
    var state: S
    /** The pinned nodes of the futures that borrow this queue. */
    var waiters: seq<Waiter<P, T>>
    var tickets: nat

    ghost function Value(): Core<S, P, T, O>
      reads this
    {
      Core(list, discarded, poisoned, closed, len, order, state, waiters, tickets, false)
    }

    ghost predicate Valid()
      reads this
    {
      Sound(rules, Value())
    }

    constructor (rules: Rules<S, P, T, O>, state: S, order: O)
      ensures Valid() && this.rules == rules && Value() == InitCore<S, P, T, O>(state, order)
    {
      this.rules := rules;
      this.state, this.order := state, order;
      list, discarded, poisoned, closed, len := [], false, false, false, 0;
      waiters, tickets := [], 0;
    }

    /** Only the closure's outcome matters here: it may set any state, and may unwind. */
    method UpdateState(next: S, unwinds: bool)
      requires Valid()
      modifies this
      ensures Valid() && Value() == AfterCall(old(Value()), next, unwinds)
    {
      state := next;
      if unwinds { poisoned := true; }
    }

    method ClearPoison()
      requires Valid()
      modifies this
      ensures Valid() && Value() == old(Value()).(poisoned := false)
    {
      poisoned := false;
    }

    method Check(wakes: WakeBatch) returns (unwound: bool)
      requires Valid() && wakes.wakers == [] && wakes.capacity == rules.capacity >= 1
      modifies this, wakes
      ensures var k := CheckScan(rules, old(Value()), rules.capacity);
              Value() == AfterScan(old(Value()), k) && wakes.wakers == WakesOf(k.removed) && unwound == k.unwound
      ensures Valid()
    {
      ghost var c := Value();
      CheckKeepsSound(rules, c, rules.capacity);
      if poisoned || (rules.closeable && closed) || discarded {
        unwound := false;
      } else {
        AgreesKnown(list, waiters);
        unwound := ServeList(wakes);
      }
    }

    /** Take the node under the cursor off the list and write the permit into it. */
    method RemoveCurrent(at: nat, permit: T, wakes: WakeBatch)
      requires at < |list| && list[at].id < |waiters| && |wakes.wakers| < wakes.capacity
      modifies this`list, this`len, this`waiters, wakes
      ensures list == old(Without(list, at)) && len == old(len) - 1
      ensures waiters == old(waiters[list[at].id := waiters[list[at].id].(phase := RemovedOk(permit), settled := true)])
      ensures wakes.wakers == old(wakes.wakers + [Wake(list[at].id, list[at].waker)])
    {
      var e := list[at];
      waiters := waiters[e.id := waiters[e.id].(phase := RemovedOk(permit), settled := true)];
      list := Without(list, at);
      len := len - 1;
      wakes.Push(Wake(e.id, e.waker));
    }

    /** The leader stays: with its params when refused, without them when `acquire` panicked. */
    method PutBack(at: nat, outcome: Acquired<S, P, T>) returns (unwound: bool)
      requires at < |list| && !outcome.Granted?
      modifies this`list, this`state, this`poisoned
      ensures unwound == outcome.AcquireUnwound? && poisoned == (old(poisoned) || unwound) && state == outcome.state
      ensures list == old(list)[at := old(list)[at].(params := if outcome.Refused? then Some(outcome.params) else None)]
    {
      list := list[at := list[at].(params := if outcome.Refused? then Some(outcome.params) else None)];
      state := outcome.state;
      unwound := outcome.AcquireUnwound?;
      poisoned := poisoned || unwound;
    }

    /** The loop of `check`. The cursor cannot be off the list when a node is removed, and the
        batch never overflows. */
    method ServeList(wakes: WakeBatch) returns (unwound: bool)
      requires Known(list, |waiters|)
      requires wakes.wakers == [] && wakes.capacity == rules.capacity >= 1
      modifies this`list, this`len, this`poisoned, this`state, this`waiters, wakes
      ensures var k := Serve(rules, old(state), old(list), rules.capacity);
              && list == k.kept && len == old(len) - |k.removed| && state == k.state
              && waiters == Settle(old(waiters), k.removed) && poisoned == (old(poisoned) || k.unwound)
              && wakes.wakers == WakesOf(k.removed) && unwound == k.unwound
    {
      ghost var k := Serve(rules, state, list, rules.capacity);
      ServeFromStart(rules, state, list, rules.capacity);
      ghost var passed, ahead: seq<Entry<P>>, done: seq<Removal<P, T>> := [], list, [];
      unwound := false;
      var at := 0;
      while at < |list|
        invariant at == |passed| && list == passed + ahead && |done| < rules.capacity
        invariant len == old(len) - |done| && poisoned == old(poisoned) && !unwound
        invariant waiters == Settle(old(waiters), done)
        invariant wakes.wakers == WakesOf(done)
        invariant ServeFrom(rules, passed, done, state, ahead, rules.capacity - |done|) == k
        invariant Known(ahead, |old(waiters)|)
        decreases |ahead|
      {
        var e := list[at];
        assert e == ahead[0];
        if e.params.None? {
          passed, ahead, at := passed + [e], ahead[1..], at + 1;
        } else {
          var outcome := rules.acquire(state, e.params.value);
          if outcome.Granted? {
            ghost var g := Removal(e, RemovedOk(outcome.permit));
            GrantWritten(old(waiters), passed, ahead, done, g);
            state := outcome.state;
            RemoveCurrent(at, outcome.permit, wakes);
            done, ahead := done + [g], ahead[1..];
            if |wakes.wakers| == wakes.capacity { break; }
          } else {
            unwound := PutBack(at, outcome);
            return;
          }
        }
      }
    }

    /** Remove one node with the error result, and discard the list when nothing is left. */
    method CloseOne() returns (waker: Option<Wake>)
      requires Valid() && rules.closeable
      modifies this
      ensures Valid() && Value() == AfterClose(old(Value()), 1)
      ensures waker == if old(list) == [] then None else Some(Wake(old(list[0].id), old(list[0].waker)))
    {
      CloseKeepsSound(rules, Value(), 1);
      closed := true;
      waker := None;
      if !discarded {
        if list != [] {
          var e := list[0];
          AgreesKnown(list, waiters);
          OneFails(waiters, list);
          waiters := waiters[e.id := waiters[e.id].(phase := RemovedErr(e.params), settled := true)];
          list := list[1..];
          len := len - 1;
          waker := Some(Wake(e.id, e.waker));
        }
        if list == [] { discarded := true; }
      }
    }

    /** Permission to take a permit at once, or the end to queue at. */
    method AcquireOrEnqueue(params: P, fair: bool) returns (outcome: Outcome<P, T>)
      modifies this
      ensures (Value(), outcome) == Attempt(rules, old(Value()), params, fair)
    {
      if poisoned { return Poisoned(params); }
      if (rules.closeable && closed) || discarded { return Closed(params); }
      var empty := |list| == 0;
      var front := true;
      if fair {
        var (next, choice) := rules.enqueueFront(order, len);
        order, front := next, choice;
      }
      if !(front || empty) { return Enqueue(front, params); }
      var result := rules.acquire(state, params);
      state := result.state;
      match result {
        case Granted(_, permit) => outcome := Acquired(permit);
        case Refused(_, back) => outcome := Enqueue(front, back);
        case AcquireUnwound(_) => poisoned := true; outcome := Panicked;
      }
    }

    /** What `take_removed_unchecked` may only be called for: a node with a result. */
    method TakeRemoved(id: nat) returns (result: Phase<P, T>)
      requires id < |waiters| && (waiters[id].phase.RemovedOk? || waiters[id].phase.RemovedErr?)
      ensures result == waiters[id].phase
    {
      result := waiters[id].phase;
    }

    method Finish(id: nat, ending: Ending<P, T>)
      requires id < |waiters|
      modifies this`waiters
      ensures waiters == old(waiters[id := waiters[id].(phase := Done(ending))])
    {
      waiters := waiters[id := waiters[id].(phase := Done(ending))];
    }

    /** Link the node at the end the policy chose. */
    method Push(id: nat, waker: nat, front: bool, params: P)
      requires id < |waiters|
      modifies this`list, this`len, this`waiters
      ensures Value() == Join(old(Value()), id, waker, front, params)
    {
      var e := Entry(id, Some(params), waker, front, waiters[id].ticket);
      list := if front then [e] + list else list + [e];
      waiters := waiters[id := waiters[id].(phase := Linked, waker := waker)];
      len := len + 1;
    }

    method PollFirst(id: nat, waker: nat) returns (reply: Reply<P, T>)
      requires id < |waiters| && waiters[id].phase.Initial?
      modifies this
      ensures (Value(), reply) == FirstPoll(rules, old(Value()), id, waker)
    {
      var params := waiters[id].phase.params;
      waiters := waiters[id := waiters[id].(ticket := tickets)];
      tickets := tickets + 1;
      AttemptFrame(rules, Value(), params, true);
      var outcome := AcquireOrEnqueue(params, true);
      match outcome {
        case Acquired(permit) => Finish(id, Claimed(permit)); reply := ReadyOk(permit);
        case Closed(back) => Finish(id, Rejected(back)); reply := ReadyErr(back);
        case Poisoned(_) => Finish(id, Aborted); reply := Panics;
        case Panicked => Finish(id, Aborted); reply := Panics;
        case Enqueue(front, back) =>
          // the unchecked branch of the source: Enqueue means the list is open
          assert !discarded;
          Push(id, waker, front, back);
          reply := Pending;
      }
    }

    method PollQueued(id: nat, waker: nat) returns (reply: Reply<P, T>)
      requires id < |waiters| && !discarded && IndexOf(list, id) < |list|
      modifies this`list, this`len, this`waiters
      ensures (Value(), reply) == PollLinked(rules, old(Value()), id, waker)
    {
      var i := IndexOf(list, id);
      if rules.closeable && closed {
        var params := list[i].params;
        list, len := Without(list, i), len - 1;
        Finish(id, if params.Some? then Rejected(params.value) else Aborted);
        reply := if params.Some? then ReadyErr(params.value) else Panics;
      } else {
        list := list[i := list[i].(waker := waker)];
        waiters := waiters[id := waiters[id].(waker := waker)];
        reply := Pending;
      }
    }

    /** The futures that `acquire` returns: a node that nobody has linked. */
    method Enroll(params: P) returns (id: nat)
      requires Valid()
      modifies this`waiters
      ensures Valid() && id == old(|waiters|)
      ensures waiters == old(waiters) + [Waiter(params, Initial(params), 0, 0, false)]
    {
      id := |waiters|;
      ghost var c := Value();
      waiters := waiters + [Waiter(params, Initial(params), 0, 0, false)];
      NewKeepsSound(rules, c, params);
    }

    method Poll(id: nat, waker: nat) returns (reply: Reply<P, T>)
      requires Valid() && id < |waiters|
      modifies this
      ensures (Value(), reply) == PollCore(rules, old(Value()), id, waker)
      ensures Valid()
    {
      PollKeepsSound(rules, Value(), id, waker);
      FindsLinked(list, waiters, id);
      match waiters[id].phase {
        case Initial(_) => reply := PollFirst(id, waker);
        case Done(_) => reply := Panics;
        case Linked => reply := PollQueued(id, waker);
        case RemovedOk(_) =>
          var result := TakeRemoved(id);
          Finish(id, Claimed(result.permit));
          reply := ReadyOk(result.permit);
        case RemovedErr(_) =>
          var result := TakeRemoved(id);
          Finish(id, if result.returned.Some? then Rejected(result.returned.value) else Aborted);
          reply := if result.returned.Some? then ReadyErr(result.returned.value) else Panics;
      }
    }

    /** The closure that dropping a future passes to `with_queue`. */
    method Detach(id: nat) returns (goesOn: bool)
      requires Valid() && id < |waiters|
      modifies this
      ensures (Value(), goesOn) == QueueModel.Detach(rules, old(Value()), id)
      ensures Valid()
    {
      DetachKeepsSound(rules, Value(), id);
      FindsLinked(list, waiters, id);
      match waiters[id].phase {
        case Initial(_) => Finish(id, Cancelled); goesOn := false;
        case Done(_) => goesOn := false;
        case Linked =>
          var i := IndexOf(list, id);
          list, len := Without(list, i), len - 1;
          Finish(id, Cancelled);
          goesOn := true;
        case RemovedErr(_) =>
          var _ := TakeRemoved(id);
          Finish(id, Cancelled);
          goesOn := true;
        case RemovedOk(_) =>
          var result := TakeRemoved(id);
          Finish(id, Cancelled);
          var out := rules.release(state, result.permit);
          state := out.state;
          poisoned, goesOn := poisoned || out.ReleaseUnwound?, out.Returned?;
      }
    }
  }

  lemma OneFails<P, T>(ws: seq<Waiter<P, T>>, list: seq<Entry<P>>)
    requires list != [] && list[0].id < |ws|
    ensures Settle(ws, Fails<P, T>(list[..1]))
         == ws[list[0].id := ws[list[0].id].(phase := RemovedErr(list[0].params), settled := true)]
  {
    assert list[..1] == [list[0]];
    assert Fails<P, T>(list[..1]) == [Removal(list[0], RemovedErr(list[0].params))];
    assert Fails<P, T>(list[..1])[1..] == [];
  }
}
