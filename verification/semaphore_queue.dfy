/** `with_queue` and `close` as they loop: lock, fill a batch, unlock, wake, lock again. Here
    nothing runs between the batches; Machine covers what may. */
module Servicing {
  import opened SemaphoreStates
  import opened QueueModel
  import opened ListFacts
  import opened Machine
  import opened Lifecycle
  import opened Drain
  import opened WaitQueue

  predicate Panicky(panics: Wake -> bool, wakers: seq<Wake>) {
    exists i :: 0 <= i < |wakers| && panics(wakers[i])
  }

  lemma PanickyConcat(panics: Wake -> bool, a: seq<Wake>, b: seq<Wake>)
    ensures Panicky(panics, a + b) <==> Panicky(panics, a) || Panicky(panics, b)
  {
    if i :| 0 <= i < |a| && panics(a[i]) { assert panics((a + b)[i]); }
    if i :| 0 <= i < |b| && panics(b[i]) { assert panics((a + b)[|a| + i]); }
  }

  /** What was logged since `log0`. */
  function Since(log0: seq<Wake>, log: seq<Wake>): seq<Wake>
    requires log0 <= log
  {
    log[|log0|..]
  }

  /** Closing everything that is linked, at once. */
  function AllFailed<S, P, T, O>(c: Core<S, P, T, O>): Core<S, P, T, O> {
    AfterClose(c, |c.list|)
  }

  lemma FailsConcat<P, T>(a: seq<Entry<P>>, b: seq<Entry<P>>)
    ensures Fails<P, T>(a + b) == Fails<P, T>(a) + Fails<P, T>(b)
  {
    var l, r := Fails<P, T>(a + b), Fails<P, T>(a) + Fails<P, T>(b);
    assert forall i :: 0 <= i < |l| ==> l[i] == r[i];
  }

  /** Failing `m` nodes and then `n` more is failing `m + n`. */
  lemma CloseInSteps<S, P, T, O>(c: Core<S, P, T, O>, m: nat, n: nat)
    ensures var d := AfterClose(c, m);
            && AfterClose(d, n) == AfterClose(c, m + n)
            && CloseRemoved<S, P, T, O>(c, m) + CloseRemoved<S, P, T, O>(d, n) == CloseRemoved<S, P, T, O>(c, m + n)
  {
    var d := AfterClose(c, m);
    var i, j := Min(m, |c.list|), Min(n, |d.list|);
    assert Min(m + n, |c.list|) == i + j;
    SliceInSteps(c.list, i, j);
    FailsConcat<P, T>(c.list[..i], d.list[..j]);
    SettleConcat(c.waiters, CloseRemoved(c, m), CloseRemoved(d, n));
  }

  lemma SliceInSteps<X>(xs: seq<X>, i: nat, j: nat)
    requires i + j <= |xs|
    ensures xs[..i + j] == xs[..i] + xs[i..][..j] && xs[i..][j..] == xs[i + j..]
  {
  }

  /** From `c`, one simple pass leads to `now`, and `log` has grown by the wakes of its grants. */
  ghost predicate Served<S, P, T, O>(
      r: Rules<S, P, T, O>, c: Core<S, P, T, O>, log0: seq<Wake>, now: Core<S, P, T, O>, log: seq<Wake>, unwound: bool)
  {
    var pass := PassCore(r, c);
    now == AfterScan(c, pass) && log == log0 + WakesOf(pass.removed) && unwound == pass.unwound
  }

  /** The outcome of servicing whatever the wakers do. When none panics it is the simple pass; when
      one does, that unwinds, and what was done is the pass or can be completed to it by another. */
  ghost predicate ServedOrCut<S, P, T, O>(
      r: Rules<S, P, T, O>, panics: Wake -> bool,
      c: Core<S, P, T, O>, log0: seq<Wake>, now: Core<S, P, T, O>, log: seq<Wake>, unwound: bool)
  {
    && log0 <= log
    && if !Panicky(panics, Since(log0, log)) then Served(r, c, log0, now, log, unwound)
       else unwound && (Remains(r, c, log0, now, log) || Served(r, c, log0, now, log, PassCore(r, c).unwound))
  }

  /** Every round but the last filled its batch, and none of its wakers panicked. */
  ghost predicate CutInLastRound(panics: Wake -> bool, capacity: nat, rounds: nat, woken: seq<Wake>) {
    rounds == 0 ||
    (capacity * (rounds - 1) <= |woken| <= capacity * rounds && !Panicky(panics, woken[..capacity * (rounds - 1)]))
  }

  class SemaphoreQueue<S(!new), P(!new), T(!new), O> {
    const state: QueueState<S, P, T, O>
    var locked: bool
    /** Every waker invoked so far. */
    var log: seq<Wake>

    ghost predicate Valid()
      reads state
    {
      state.Valid() && state.rules.capacity >= 1
    }

    constructor (rules: Rules<S, P, T, O>, state: S, order: O)
      requires rules.capacity >= 1
      ensures Valid() && !locked && log == [] && this.state.rules == rules && fresh(this.state)
      ensures this.state.Value() == InitCore<S, P, T, O>(state, order)
    {
      this.state := new QueueState(rules, state, order);
      locked, log := false, [];
    }

    method Lock()
      requires !locked
      modifies this`locked
      ensures locked
    {
      locked := true;
    }

    method Unlock()
      requires locked
      modifies this`locked
      ensures !locked
    {
      locked := false;
    }

    /** User code runs here, so never with the mutex held. */
    method Wake(x: Wake, panics: Wake -> bool) returns (unwound: bool)
      requires !locked
      modifies this`log
      ensures log == old(log) + [x] && unwound == panics(x)
    {
      log := log + [x];
      unwound := panics(x);
    }

    /** Each waker of the batch is invoked once, in queue order, even when one panics: an entry is
        removed before it is invoked, and the rest is woken while unwinding. */
    method WakeAll(batch: WakeBatch, panics: Wake -> bool) returns (unwound: bool)
      requires !locked
      modifies this`log, batch
      ensures batch.wakers == [] && log == old(log) + old(batch.wakers)
      ensures unwound == Panicky(panics, old(batch.wakers))
    {
      unwound := false;
      ghost var woken: seq<Machine.Wake> := [];
      while batch.wakers != []
        invariant woken + batch.wakers == old(batch.wakers) && log == old(log) + woken
        invariant unwound == Panicky(panics, woken)
        decreases |batch.wakers|
      {
        var x := batch.wakers[0];
        batch.wakers := batch.wakers[1..];
        var p := Wake(x, panics);
        unwound := unwound || p;
        ghost var more := woken + [x];
        PanickyConcat(panics, woken, [x]);
        assert Panicky(panics, [x]) <==> panics([x][0]);
        woken := more;
      }
      assert woken == old(batch.wakers);
    }

    /** One locked round of `with_queue` and the wakes it leads to. */
    method CheckBatch(wakes: WakeBatch, panics: Machine.Wake -> bool) returns (unwound: bool, more: bool)
      requires Valid() && locked && wakes.wakers == [] && wakes.capacity == state.rules.capacity
      modifies this`locked, this`log, state, wakes
      ensures Valid() && !locked && wakes.wakers == []
      ensures var k := CheckScan(state.rules, old(state.Value()), state.rules.capacity);
              && state.Value() == AfterScan(old(state.Value()), k)
              && log == old(log) + WakesOf(k.removed)
              && unwound == (k.unwound || Panicky(panics, WakesOf(k.removed)))
              && more == (!unwound && |k.removed| == state.rules.capacity && state.list != [])
      ensures more ==> |state.list| + state.rules.capacity == |old(state.list)|
    {
      CheckSplits(state.rules, state.Value(), state.rules.capacity);
      unwound := state.Check(wakes);
      more := !unwound && |wakes.wakers| == wakes.capacity && state.len != 0;
      Unlock();
      var p := WakeAll(wakes, panics);
      unwound, more := unwound || p, more && !p;
    }

    /** A round of `with_queue` that began at `c`: check, unlock, wake, and lock again for more. */
    method CheckRound(
        wakes: WakeBatch, panics: Machine.Wake -> bool, ghost c: Core<S, P, T, O>, ghost log0: seq<Machine.Wake>)
      returns (unwound: bool, more: bool)
      requires Valid() && locked && wakes.wakers == [] && wakes.capacity == state.rules.capacity
      requires Remains(state.rules, c, log0, state.Value(), log)
      requires log0 <= log && !Panicky(panics, Since(log0, log))
      modifies this`locked, this`log, state, wakes
      ensures Valid() && locked == more && wakes.wakers == []
      ensures old(log) <= log && |log| <= |old(log)| + state.rules.capacity
      ensures more ==> Remains(state.rules, c, log0, state.Value(), log) && !Panicky(panics, Since(log0, log))
      ensures more ==> state.list != [] && |state.list| + state.rules.capacity == |old(state.list)|
      ensures more ==> |log| == |old(log)| + state.rules.capacity
      ensures !more ==> ServedOrCut(state.rules, panics, c, log0, state.Value(), log, unwound)
    {
      RoundContinues(state.rules, c, log0, state.Value(), log);
      CheckSplits(state.rules, state.Value(), state.rules.capacity);
      ghost var woken := WakesOf(CheckScan(state.rules, state.Value(), state.rules.capacity).removed);
      PanickyConcat(panics, Since(log0, log), woken);
      assert Since(log0, log + woken) == Since(log0, log) + woken;
      unwound, more := CheckBatch(wakes, panics);
      if more { Lock(); }
    }

    /** The loop of `with_queue`. */
    method Rounds(panics: Machine.Wake -> bool) returns (unwound: bool, rounds: nat)
      requires Valid() && locked
      modifies this`locked, this`log, state
      ensures Valid() && !locked && old(log) <= log && rounds >= 1
      ensures rounds == 1 || state.rules.capacity * (rounds - 1) < |old(state.list)|
      ensures CutInLastRound(panics, state.rules.capacity, rounds, Since(old(log), log))
      ensures ServedOrCut(state.rules, panics, old(state.Value()), old(log), state.Value(), log, unwound)
    {
      ghost var c := state.Value();
      var wakes := new WakeBatch(state.rules.capacity);
      rounds := 0;
      while true
        invariant Valid() && locked && fresh(wakes) && wakes.wakers == [] && wakes.capacity == state.rules.capacity
        invariant Remains(state.rules, c, old(log), state.Value(), log)
        invariant old(log) <= log && !Panicky(panics, Since(old(log), log))
        invariant |log| == |old(log)| + state.rules.capacity * rounds
        invariant state.rules.capacity * rounds + |state.list| == |c.list| && (rounds > 0 ==> state.list != [])
        decreases |state.list|
      {
        ghost var before := log;
        var more;
        unwound, more := CheckRound(wakes, panics, c, old(log));
        OneMore(state.rules.capacity, rounds);
        assert Since(old(log), log)[..|before| - |old(log)|] == Since(old(log), before);
        rounds := rounds + 1;
        if !more { return; }
      }
    }

    /** `with_queue` after its closure returned, the mutex still held. It takes at most
        max(1, ceil(n / capacity)) rounds for n linked nodes. Without panicking wakers it leaves what
        one simple pass leaves and wakes what that pass grants, in that order; a waker that panics
        ends it after the batch it is in, and another pass would complete it. */
    method Service(panics: Machine.Wake -> bool) returns (unwound: bool, rounds: nat)
      requires Valid() && locked
      modifies this`locked, this`log, state
      ensures Valid() && !locked && old(log) <= log
      ensures rounds <= 1 || state.rules.capacity * (rounds - 1) < |old(state.list)|
      ensures CutInLastRound(panics, state.rules.capacity, rounds, Since(old(log), log))
      ensures ServedOrCut(state.rules, panics, old(state.Value()), old(log), state.Value(), log, unwound)
    {
      if state.len == 0 {
        PassOfNothing(state.rules, state.Value());
        unwound, rounds := false, 0;
        Unlock();
      } else {
        unwound, rounds := Rounds(panics);
      }
    }

    /** One locked round of `close` and the wakes it leads to. */
    method FailBatch(wakes: WakeBatch, panics: Machine.Wake -> bool) returns (unwound: bool, more: bool)
      requires Valid() && !locked && state.rules.closeable
      requires wakes.wakers == [] && wakes.capacity == state.rules.capacity
      modifies this`locked, this`log, state, wakes
      ensures Valid() && !locked && wakes.wakers == []
      ensures state.Value() == AfterClose(old(state.Value()), state.rules.capacity)
      ensures log == old(log) + WakesOf(CloseRemoved<S, P, T, O>(old(state.Value()), state.rules.capacity))
      ensures more == (!unwound && !state.discarded)
      ensures unwound == Panicky(panics, WakesOf(CloseRemoved<S, P, T, O>(old(state.Value()), state.rules.capacity)))
      ensures more ==> state.list != [] && |state.list| + state.rules.capacity == |old(state.list)|
    {
      Lock();
      CloseBatch(wakes);
      more := !state.discarded;
      Unlock();
      unwound := WakeAll(wakes, panics);
      more := more && !unwound;
    }

    /** A round of a `close` that began at `c`. */
    method FailRound(
        wakes: WakeBatch, panics: Machine.Wake -> bool, ghost c: Core<S, P, T, O>, ghost log0: seq<Machine.Wake>)
      returns (unwound: bool, more: bool)
      requires Valid() && !locked && state.rules.closeable
      requires wakes.wakers == [] && wakes.capacity == state.rules.capacity
      requires RemainsToFail(c, log0, state.Value(), log)
      requires log0 <= log && !Panicky(panics, Since(log0, log))
      modifies this`locked, this`log, state, wakes
      ensures Valid() && !locked && wakes.wakers == [] && state.closed
      ensures old(log) <= log && |log| <= |old(log)| + state.rules.capacity
      ensures RemainsToFail(c, log0, state.Value(), log) && unwound == Panicky(panics, Since(log0, log))
      ensures more == (!unwound && !state.discarded)
      ensures more ==> state.list != [] && |state.list| + state.rules.capacity == |old(state.list)|
      ensures more ==> |log| == |old(log)| + state.rules.capacity
    {
      FailsContinue(c, log0, state.Value(), log, state.rules.capacity);
      ghost var woken := WakesOf(CloseRemoved<S, P, T, O>(state.Value(), state.rules.capacity));
      PanickyConcat(panics, Since(log0, log), woken);
      assert Since(log0, log + woken) == Since(log0, log) + woken;
      unwound, more := FailBatch(wakes, panics);
    }

    /** The loop of `close`. */
    method FailRounds(panics: Machine.Wake -> bool) returns (unwound: bool, rounds: nat)
      requires Valid() && !locked && state.rules.closeable
      modifies this`locked, this`log, state
      ensures Valid() && !locked && state.closed && old(log) <= log
      ensures rounds <= 1 || state.rules.capacity * (rounds - 1) < |old(state.list)|
      ensures CutInLastRound(panics, state.rules.capacity, rounds, Since(old(log), log))
      ensures RemainsToFail(old(state.Value()), old(log), state.Value(), log)
      ensures unwound == Panicky(panics, Since(old(log), log)) && (!unwound ==> state.discarded)
    {
      ghost var c := state.Value();
      var wakes := new WakeBatch(state.rules.capacity);
      rounds := 0;
      while true
        invariant Valid() && !locked && fresh(wakes) && wakes.wakers == [] && wakes.capacity == state.rules.capacity
        invariant RemainsToFail(c, old(log), state.Value(), log)
        invariant old(log) <= log && !Panicky(panics, Since(old(log), log))
        invariant |log| == |old(log)| + state.rules.capacity * rounds
        invariant state.rules.capacity * rounds + |state.list| == |c.list| && (rounds > 0 ==> state.list != [])
        decreases |state.list|
      {
        ghost var before := log;
        var more;
        unwound, more := FailRound(wakes, panics, c, old(log));
        OneMore(state.rules.capacity, rounds);
        assert Since(old(log), log)[..|before| - |old(log)|] == Since(old(log), before);
        rounds := rounds + 1;
        if !more { return; }
      }
    }

    /** `close`, alone. Unless a waker panics every linked node fails, in queue order, and is woken
        once. A waker that panics ends it after the batch it is in; the queue is closed all the same,
        and failing what is left, as another `close` does, completes it. */
    method Close(panics: Machine.Wake -> bool) returns (unwound: bool, rounds: nat)
      requires Valid() && !locked && state.rules.closeable
      modifies this`locked, this`log, state
      ensures Valid() && !locked && old(log) <= log && state.closed
      ensures rounds <= 1 || state.rules.capacity * (rounds - 1) < |old(state.list)|
      ensures CutInLastRound(panics, state.rules.capacity, rounds, Since(old(log), log))
      ensures RemainsToFail(old(state.Value()), old(log), state.Value(), log)
      ensures unwound == Panicky(panics, Since(old(log), log)) && (!unwound ==> state.discarded)
      ensures state.discarded ==>
                && state.Value() == AllFailed(old(state.Value()))
                && log == old(log) + WakesOf(Fails<P, T>(old(state.list)))
    {
      unwound, rounds := FailRounds(panics);
      if state.discarded { NothingToFail(state.Value()); }
    }

    /** `with_state`: the closure leaves `next`; when it unwinds the queue is poisoned and nobody
        is served. */
    method WithState(next: S, unwinds: bool, panics: Machine.Wake -> bool) returns (unwound: bool)
      requires Valid() && !locked
      modifies this`locked, this`log, state
      ensures Valid() && !locked
      ensures unwinds ==> unwound && state.Value() == AfterCall(old(state.Value()), next, true) && log == old(log)
      ensures !unwinds ==>
                var c := AfterCall(old(state.Value()), next, false);
                ServedOrCut(state.rules, panics, c, old(log), state.Value(), log, unwound)
    {
      Lock();
      state.UpdateState(next, unwinds);
      if unwinds {
        Unlock();
        unwound := true;
      } else {
        var rounds;
        unwound, rounds := Service(panics);
      }
    }

    /** Dropping an `Acquire` future: a queued one leaves the list, an unclaimed permit is given
        back, and in both cases whoever waits behind is served. */
    method Cancel(id: nat, panics: Machine.Wake -> bool) returns (unwound: bool)
      requires Valid() && !locked && id < |state.waiters|
      modifies this`locked, this`log, state
      ensures Valid() && !locked
      ensures var (c, goesOn) := QueueModel.Detach(state.rules, old(state.Value()), id);
              if !goesOn then
                && state.Value() == c && log == old(log)
                && unwound == old(state.waiters[id].phase.RemovedOk?)
              else ServedOrCut(state.rules, panics, c, old(log), state.Value(), log, unwound)
    {
      Lock();
      var granted := state.waiters[id].phase.RemovedOk?;
      var goesOn := state.Detach(id);
      if goesOn {
        var rounds;
        unwound, rounds := Service(panics);
      } else {
        Unlock();
        unwound := granted;
      }
    }

    /** `acquire`: nothing happens to the queue until the future is polled. */
    method Acquire(params: P) returns (id: nat)
      requires Valid()
      modifies state
      ensures Valid() && id == old(|state.waiters|)
      ensures state.Value()
           == old(state.Value()).(waiters := old(state.waiters) + [Waiter(params, Initial(params), 0, 0, false)])
    {
      id := state.Enroll(params);
    }

    /** Polling an `Acquire` future serves nobody and wakes nobody. */
    method Poll(id: nat, waker: nat) returns (reply: Reply<P, T>)
      requires Valid() && !locked && id < |state.waiters|
      modifies this`locked, state
      ensures Valid() && !locked
      ensures (state.Value(), reply) == PollCore(state.rules, old(state.Value()), id, waker)
    {
      Lock();
      reply := state.Poll(id, waker);
      Unlock();
    }

    /** Take a permit now or not at all; nobody is served and nobody woken. */
    method TryAcquire(params: P, fair: bool) returns (result: Outcome<P, T>)
      requires Valid() && !locked
      modifies this`locked, state
      ensures Valid() && !locked && log == old(log)
      ensures (state.Value(), result) == Attempt(state.rules, old(state.Value()), params, fair)
    {
      AttemptFrame(state.rules, state.Value(), params, fair);
      Lock();
      result := state.AcquireOrEnqueue(params, fair);
      Unlock();
    }

    /** The inner loop of `close`: fail nodes until the batch is full or none is left. */
    method CloseBatch(wakes: WakeBatch)
      requires Valid() && locked && state.rules.closeable
      requires wakes.wakers == [] && wakes.capacity == state.rules.capacity
      modifies state, wakes
      ensures Valid() && state.Value() == AfterClose(old(state.Value()), state.rules.capacity)
      ensures wakes.wakers == WakesOf(CloseRemoved<S, P, T, O>(old(state.Value()), state.rules.capacity))
    {
      ghost var c := state.Value();
      NoneFailed(c);
      while |wakes.wakers| < wakes.capacity
        invariant Valid() && |wakes.wakers| <= wakes.capacity
        invariant FailedSoFar(c, |wakes.wakers|, state.Value(), wakes.wakers)
        decreases wakes.capacity - |wakes.wakers|
      {
        NextFailed(c, |wakes.wakers|, wakes.capacity, state.Value(), wakes.wakers);
        var waker := state.CloseOne();
        match waker {
          case None => return;
          case Some(x) => wakes.Push(x);
        }
      }
      CountFailed(c, |wakes.wakers|, state.Value(), wakes.wakers);
    }
  }

  /** `n` nodes of `c` have been failed one by one, and their wakers collected. */
  ghost predicate FailedSoFar<S, P, T, O>(c: Core<S, P, T, O>, n: nat, now: Core<S, P, T, O>, wakers: seq<Wake>) {
    && n <= |c.list| && (if n == 0 then now == c else now == AfterClose(c, n))
    && wakers == WakesOf(CloseRemoved<S, P, T, O>(c, n))
  }

  lemma NoneFailed<S, P, T, O>(c: Core<S, P, T, O>)
    ensures FailedSoFar(c, 0, c, [])
  {
  }

  lemma CountFailed<S, P, T, O>(c: Core<S, P, T, O>, n: nat, now: Core<S, P, T, O>, wakers: seq<Wake>)
    requires FailedSoFar(c, n, now, wakers) && n >= 1
    ensures now == AfterClose(c, n) && wakers == WakesOf(CloseRemoved<S, P, T, O>(c, n))
  {
  }

  /** Failing one node more, or finding none and so being done with the batch. */
  lemma NextFailed<S, P, T, O>(c: Core<S, P, T, O>, n: nat, room: nat, now: Core<S, P, T, O>, wakers: seq<Wake>)
    requires FailedSoFar(c, n, now, wakers) && n < room
    ensures now.list != [] ==>
              FailedSoFar(c, n + 1, AfterClose(now, 1), wakers + [Wake(now.list[0].id, now.list[0].waker)])
    ensures now.list == [] ==>
              AfterClose(now, 1) == AfterClose(c, room) && wakers == WakesOf(CloseRemoved<S, P, T, O>(c, room))
  {
    if n == 0 {
      assert c.list[..0] == [];
      CloseInSteps(c, 0, 1);
    } else {
      CloseInSteps(c, n, 1);
    }
    if now.list == [] {
      assert |c.list| == n;
      OverTheEnd(c, n, room);
      if n > 0 { OverTheEnd(c, n + 1, room); }
    } else {
      var g: Removal<P, T> := Removal(now.list[0], RemovedErr(now.list[0].params));
      assert CloseRemoved<S, P, T, O>(now, 1) == [g];
      WakesConcat(CloseRemoved<S, P, T, O>(c, n), [g]);
    }
  }

  lemma OverTheEnd<S, P, T, O>(c: Core<S, P, T, O>, n: nat, room: nat)
    requires |c.list| <= n && |c.list| <= room
    ensures AfterClose(c, n) == AfterClose(c, room)
    ensures CloseRemoved<S, P, T, O>(c, n) == CloseRemoved<S, P, T, O>(c, room)
  {
  }

  lemma OneMore(k: nat, n: nat)
    ensures k * (n + 1) == k * n + k
  {
  }

  // ----- rounds of with_queue

  /** The wakes of the grants of one simple pass. */
  function PassLeft<S, P, T, O>(r: Rules<S, P, T, O>, d: Core<S, P, T, O>): seq<Wake> {
    WakesOf(PassCore(r, d).removed)
  }

  /** From `now` one simple pass does what is left of the pass from `c`. */
  ghost predicate Remains<S, P, T, O>(
      r: Rules<S, P, T, O>, c: Core<S, P, T, O>, log0: seq<Wake>, now: Core<S, P, T, O>, log: seq<Wake>)
  {
    && AfterScan(now, PassCore(r, now)) == AfterScan(c, PassCore(r, c))
    && PassCore(r, now).unwound == PassCore(r, c).unwound
    && log + PassLeft(r, now) == log0 + PassLeft(r, c)
  }

  /** The round from `d` fills its batch and leaves somebody queued. */
  predicate FullRound<S, P, T, O>(r: Rules<S, P, T, O>, d: Core<S, P, T, O>) {
    var k := CheckScan(r, d, r.capacity);
    !k.unwound && |k.removed| == r.capacity && k.kept != []
  }

  lemma AppendAssociates(a: seq<Wake>, b: seq<Wake>, c: seq<Wake>)
    ensures a + (b + c) == a + b + c
  {
  }

  lemma OneRound<S, P, T, O>(r: Rules<S, P, T, O>, d: Core<S, P, T, O>)
    requires r.capacity >= 1
    ensures var k := CheckScan(r, d, r.capacity);
            var e := AfterScan(d, k);
            if FullRound(r, d) then
              && AfterScan(d, PassCore(r, d)) == AfterScan(e, PassCore(r, e))
              && WakesOf(PassCore(r, d).removed) == WakesOf(k.removed) + WakesOf(PassCore(r, e).removed)
              && PassCore(r, d).unwound == PassCore(r, e).unwound
            else
              && AfterScan(d, PassCore(r, d)) == e
              && WakesOf(PassCore(r, d).removed) == WakesOf(k.removed)
              && PassCore(r, d).unwound == k.unwound
  {
    BatchThenPassCore(r, d, r.capacity);
    CheckSplits(r, d, r.capacity);
    var k := CheckScan(r, d, r.capacity);
    var e := AfterScan(d, k);
    if !k.unwound && |k.removed| == r.capacity {
      WakesConcat(k.removed, PassCore(r, e).removed);
      if e.list == [] {
        PassOfNothing(r, e);
        assert WakesOf(k.removed) + [] == WakesOf(k.removed);
      }
    }
  }

  /** A round with more to come leaves exactly the rest of the pass; another one completes it. */
  lemma RoundContinues<S, P, T, O>(
      r: Rules<S, P, T, O>, c: Core<S, P, T, O>, log0: seq<Wake>, d: Core<S, P, T, O>, log: seq<Wake>)
    requires r.capacity >= 1 && Remains(r, c, log0, d, log)
    ensures var k := CheckScan(r, d, r.capacity);
            var e, log' := AfterScan(d, k), log + WakesOf(k.removed);
            if FullRound(r, d) then Remains(r, c, log0, e, log') else Served(r, c, log0, e, log', k.unwound)
  {
    OneRound(r, d);
    var k := CheckScan(r, d, r.capacity);
    if FullRound(r, d) {
      AppendAssociates(log, WakesOf(k.removed), PassLeft(r, AfterScan(d, k)));
    }
  }

  // ----- rounds of close

  function RestWakes<S, P, T, O>(d: Core<S, P, T, O>): seq<Wake> {
    WakesOf(Fails<P, T>(d.list))
  }

  /** Failing everything that is left at `now` completes what began at `c`. */
  ghost predicate RemainsToFail<S, P, T, O>(
      c: Core<S, P, T, O>, log0: seq<Wake>, now: Core<S, P, T, O>, log: seq<Wake>) {
    AllFailed(now) == AllFailed(c) && log + RestWakes(now) == log0 + RestWakes(c)
  }

  /** A round of closing leaves what it did not fail, and nothing else, to the next. */
  lemma RestFails<S, P, T, O>(d: Core<S, P, T, O>, n: nat)
    ensures var e := AfterClose(d, n);
            && AllFailed(e) == AllFailed(d)
            && WakesOf(CloseRemoved<S, P, T, O>(d, n)) + WakesOf(Fails<P, T>(e.list)) == WakesOf(Fails<P, T>(d.list))
  {
    var e := AfterClose(d, n);
    CloseInSteps(d, n, |e.list|);
    OverTheEnd(d, n + |e.list|, |d.list|);
    WholeList(d);
    WholeList(e);
    WakesConcat(CloseRemoved<S, P, T, O>(d, n), Fails<P, T>(e.list));
  }

  lemma WholeList<S, P, T, O>(d: Core<S, P, T, O>)
    ensures CloseRemoved<S, P, T, O>(d, |d.list|) == Fails(d.list)
  {
    assert d.list[..|d.list|] == d.list;
  }

  lemma FailsContinue<S, P, T, O>(c: Core<S, P, T, O>, log0: seq<Wake>, d: Core<S, P, T, O>, log: seq<Wake>, n: nat)
    requires RemainsToFail(c, log0, d, log)
    ensures RemainsToFail(c, log0, AfterClose(d, n), log + WakesOf(CloseRemoved<S, P, T, O>(d, n)))
  {
    RestFails(d, n);
    AppendAssociates(log, WakesOf(CloseRemoved<S, P, T, O>(d, n)), RestWakes(AfterClose(d, n)));
  }

  lemma NothingToFail<S, P, T, O>(d: Core<S, P, T, O>)
    requires d.closed && d.discarded && d.list == []
    ensures AllFailed(d) == d && WakesOf(Fails<P, T>(d.list)) == []
  {
    assert d.list[0..] == d.list;
  }
}
