/** Two semaphore states of the repository: the counting semaphore of the crate documentation and
    the two-dimensional limit of the multi_dimensional example, with the laws they satisfy and
    what those laws give over whole runs. Arithmetic that overflows panics. */
module Limits {
  import opened SemaphoreStates
  import opened QueueModel
  import opened Machine
  import opened Lifecycle
  import opened Conservation
  import opened Answers
  import opened Stranded

  const MAX: int := 0xFFFF_FFFF_FFFF_FFFF

  type Word = x: int | 0 <= x <= MAX

  // ----- the counter

  function CounterAcquire(permits: Word, n: Word): Acquired<Word, Word, Word> {
    if n <= permits then Granted(permits - n, n) else Refused(permits, n)
  }

  function CounterRelease(permits: Word, n: Word): Released<Word> {
    if permits + n <= MAX then Returned(permits + n) else ReleaseUnwound(permits)
  }

  function Counter<O>(front: (O, int) -> (O, bool), closeable: bool): Rules<Word, Word, Word, O> {
    Rules(CounterAcquire, CounterRelease, front, closeable, 32)
  }

  function Units(): Measure<Word, Word> {
    Measure((s: Word) => s, (t: Word) => t)
  }

  lemma CounterLaws<O>(front: (O, int) -> (O, bool), closeable: bool)
    ensures var r := Counter(front, closeable);
            && GivesBack(r) && Steady(r) && Monotone(r) && Undoable(r) && Conserves(r, Units())
            && Tight(r, Units(), Units(), (n: Word) => n, (n: Word) => n) && Reusable(r)
  {
  }

  /** The release returns exactly when the sum fits a word, and otherwise leaves the count alone. */
  lemma CounterReleaseExactly(permits: Word, n: Word)
    ensures var fits := permits + n < 0x1_0000_0000_0000_0000;
            && (CounterRelease(permits, n).Returned? <==> fits)
            && CounterRelease(permits, n).state == if fits then permits + n else permits
  {
  }

  // ----- requests and bytes

  datatype Limit = Limit(requests: Word, bytes: Word)

  datatype Reservation = Reservation(bytes: Word)

  function LimitAcquire(s: Limit, req: Reservation): Acquired<Limit, Reservation, Reservation> {
    if s.requests >= 1 && s.bytes >= req.bytes
    then Granted(Limit(s.requests - 1, s.bytes - req.bytes), req)
    else Refused(s, req)
  }

  /** The first addition may have happened when the second one overflows. */
  function LimitRelease(s: Limit, req: Reservation): Released<Limit> {
    if s.requests + 1 > MAX then ReleaseUnwound(s)
    else if s.bytes + req.bytes > MAX then ReleaseUnwound(Limit(s.requests + 1, s.bytes))
    else Returned(Limit(s.requests + 1, s.bytes + req.bytes))
  }

  /** The same two methods as they update their fields. A Release that overflows stops where it is. */
  class Limits {
    var requests: Word
    var bytes: Word

    ghost function Value(): Limit
      reads this
    {
      Limit(requests, bytes)
    }

    constructor (requests: Word, bytes: Word)
      ensures Value() == Limit(requests, bytes)
    {
      this.requests, this.bytes := requests, bytes;
    }

    method Acquire(req: Reservation) returns (result: Acquired<Limit, Reservation, Reservation>)
      modifies this
      ensures result == LimitAcquire(old(Value()), req) && result.state == Value()
    {
      if requests >= 1 && bytes >= req.bytes {
        requests := requests - 1;
        bytes := bytes - req.bytes;
        result := Granted(Limit(requests, bytes), req);
      } else {
        result := Refused(Limit(requests, bytes), req);
      }
    }

    method Release(req: Reservation) returns (unwound: bool)
      modifies this
      ensures LimitRelease(old(Value()), req) == if unwound then ReleaseUnwound(Value()) else Returned(Value())
    {
      if requests + 1 > MAX { return true; }
      requests := requests + 1;
      if bytes + req.bytes > MAX { return true; }
      bytes := bytes + req.bytes;
      unwound := false;
    }
  }

  function TwoLimits<O>(front: (O, int) -> (O, bool), closeable: bool): Rules<Limit, Reservation, Reservation, O> {
    Rules(LimitAcquire, LimitRelease, front, closeable, 32)
  }

  function Requests(): Measure<Limit, Reservation> {
    Measure((s: Limit) => s.requests, (t: Reservation) => 1)
  }

  function Bytes(): Measure<Limit, Reservation> {
    Measure((s: Limit) => s.bytes, (t: Reservation) => t.bytes)
  }

  lemma LimitLaws<O>(front: (O, int) -> (O, bool), closeable: bool)
    ensures var r := TwoLimits(front, closeable);
            && GivesBack(r) && Steady(r) && Monotone(r) && Undoable(r)
            && Conserves(r, Requests()) && Conserves(r, Bytes())
            && Tight(r, Requests(), Bytes(), (p: Reservation) => 1, (p: Reservation) => p.bytes) && Reusable(r)
  {
  }

  /** The release returns exactly when both sums fit. When it unwinds, the requests are counted
      already unless it is their own sum that does not fit, and the bytes are not. */
  lemma LimitReleaseExactly(s: Limit, req: Reservation)
    ensures var out := LimitRelease(s, req);
            var counted := s.requests + 1 < 0x1_0000_0000_0000_0000;
            && (out.Returned? <==> counted && s.bytes + req.bytes < 0x1_0000_0000_0000_0000)
            && out.state.requests == (if counted then s.requests + 1 else s.requests)
            && out.state.bytes == (if out.Returned? then s.bytes + req.bytes else s.bytes)
  {
  }

  // ----- what conservation gives: the limit is never exceeded and release never overflows

  /** `m` measures something that is never negative. */
  ghost predicate Natural<S(!new), T(!new)>(m: Measure<S, T>) {
    (forall s :: m.value(s) >= 0) && (forall t :: m.worth(t) >= 0)
  }

  /** `acquire` never panics, and `release` only when one of two bounded quantities overflows. */
  ghost predicate PanicsOnlyOnOverflow<S(!new), P(!new), T(!new), O>(
      r: Rules<S, P, T, O>, m: Measure<S, T>, n: Measure<S, T>)
  {
    && (forall s, p :: !r.acquire(s, p).AcquireUnwound?)
    && (forall s, t :: m.value(s) + m.worth(t) <= MAX && n.value(s) + n.worth(t) <= MAX ==> r.release(s, t).Returned?)
  }

  /** Users neither set the state nor mint or change permits. */
  predicate Untampered<S, P, T>(step: Step<S, P, T>) {
    !step.Update? && !step.Mint? && !step.Amend?
  }

  lemma {:induction false} UnclaimedCovers<S(!new), P, T(!new)>(m: Measure<S, T>, ws: seq<Waiter<P, T>>, i: nat)
    requires Natural(m)
    ensures Unclaimed(m, ws) >= 0
    ensures i < |ws| ==> Unclaimed(m, ws) >= PhaseWorth(m, ws[i].phase)
    decreases |ws|
  {
    if ws == [] {
    } else {
      UnclaimedCovers(m, ws[1..], if i > 0 then i - 1 else 0);
    }
  }

  lemma {:induction false} InHandCovers<S(!new), T(!new)>(m: Measure<S, T>, held: seq<Option<T>>, i: nat)
    requires Natural(m)
    ensures InHand(m, held) >= 0
    ensures i < |held| ==> InHand(m, held) >= SlotWorth(m, held[i])
    decreases |held|
  {
    if held == [] {
    } else {
      InHandCovers(m, held[1..], if i > 0 then i - 1 else 0);
    }
  }

  /** A permit that exists can be given back without overflow. */
  lemma ReleaseFits<S(!new), P(!new), T(!new), O>(r: Rules<S, P, T, O>, m: Measure<S, T>, w: World<S, P, T, O>, i: nat)
    requires Natural(m) && Balance(m, w) <= MAX
    ensures i < |w.core.waiters| && w.core.waiters[i].phase.RemovedOk? ==>
              m.value(w.core.state) + m.worth(w.core.waiters[i].phase.permit) <= MAX
    ensures i < |w.held| && w.held[i].Some? ==> m.value(w.core.state) + m.worth(w.held[i].value) <= MAX
  {
    UnclaimedCovers(m, w.core.waiters, i);
    InHandCovers(m, w.held, i);
  }

  lemma {:induction false} ServeNeverUnwinds<S(!new), P(!new), T(!new), O>(
      r: Rules<S, P, T, O>, s: S, list: seq<Entry<P>>, room: nat)
    requires forall s, p :: !r.acquire(s, p).AcquireUnwound?
    ensures !Serve(r, s, list, room).unwound
    decreases |list|
  {
    if list == [] || room == 0 {
    } else {
      if list[0].params.None? {
        ServeNeverUnwinds(r, s, list[1..], room);
      } else {
        var out := r.acquire(s, list[0].params.value);
        if out.Granted? { ServeNeverUnwinds(r, out.state, list[1..], room - 1); }
      }
    }
  }

  ghost predicate Within<S(!new), P, T(!new), O>(m: Measure<S, T>, w: World<S, P, T, O>) {
    Natural(m) && Balance(m, w) <= MAX
  }

  lemma PollNeverPanics<S(!new), P(!new), T(!new), O>(r: Rules<S, P, T, O>, c: Core<S, P, T, O>, id: nat, waker: nat)
    requires forall s, p :: !r.acquire(s, p).AcquireUnwound?
    requires id < |c.waiters| && !c.poisoned
    ensures !PollCore(r, c, id, waker).0.poisoned
  {
    if c.waiters[id].phase.Initial? { FirstPollPoison(r, c, id, waker); }
  }

  lemma BeforeNeverPanics<S(!new), P(!new), T(!new), O>(
      r: Rules<S, P, T, O>, m: Measure<S, T>, n: Measure<S, T>, w: World<S, P, T, O>, step: Step<S, P, T>)
    requires PanicsOnlyOnOverflow(r, m, n) && Within(m, w) && Within(n, w)
    requires !w.core.poisoned && Untampered(step)
    ensures !Before(r, w, step).core.poisoned
  {
    match step
    case Poll(id, waker) =>
      if id < |w.core.waiters| { PollNeverPanics(r, w.core, id, waker); }
    case Cancel(id) =>
      ReleaseFits(r, m, w, id);
      ReleaseFits(r, n, w, id);
    case DropPermit(i) =>
      ReleaseFits(r, m, w, i);
      ReleaseFits(r, n, w, i);
    case _ =>
  }

  lemma StepNeverPanics<S(!new), P(!new), T(!new), O>(
      r: Rules<S, P, T, O>, m: Measure<S, T>, n: Measure<S, T>, w: World<S, P, T, O>, step: Step<S, P, T>)
    requires PanicsOnlyOnOverflow(r, m, n) && Within(m, w) && Within(n, w)
    requires Safe(r, w) && !w.core.poisoned && Untampered(step)
    ensures !Do(r, w, step).core.poisoned
  {
    BeforeNeverPanics(r, m, n, w, step);
    var c := Before(r, w, step).core;
    ServeNeverUnwinds(r, c.state, c.list, r.capacity);
  }

  /** While users only acquire, claim, cancel, drop and take, no callback ever panics, the balance
      never rises, and so no more is out than was there at the start. */
  lemma {:induction false} NeverExceeded<S(!new), P(!new), T(!new), O>(
      r: Rules<S, P, T, O>, m: Measure<S, T>, n: Measure<S, T>, w: World<S, P, T, O>, steps: seq<Step<S, P, T>>)
    requires PanicsOnlyOnOverflow(r, m, n) && Conserves(r, m) && Conserves(r, n)
    requires Within(m, w) && Within(n, w) && Safe(r, w) && !w.core.poisoned
    requires forall i :: 0 <= i < |steps| ==> Untampered(steps[i])
    ensures var v := Exec(r, w, steps);
            && Unpoisoned(r, w, steps)
            && Balance(m, v) <= Balance(m, w) && Balance(n, v) <= Balance(n, w)
            && Unclaimed(m, v.core.waiters) + InHand(m, v.held) <= Balance(m, w)
            && Unclaimed(n, v.core.waiters) + InHand(n, v.held) <= Balance(n, w)
    decreases |steps|
  {
    if steps == [] {
    } else {
      var v := Do(r, w, steps[0]);
      StepKeepsSafe(r, w, steps[0]);
      StepNeverPanics(r, m, n, w, steps[0]);
      StepConserves(r, m, w, steps[0]);
      StepConserves(r, n, w, steps[0]);
      InjectedNothing(m, w, steps[0]);
      InjectedNothing(n, w, steps[0]);
      NeverExceeded(r, m, n, v, steps[1..]);
    }
  }

  lemma InjectedNothing<S(!new), P, T(!new), O>(m: Measure<S, T>, w: World<S, P, T, O>, step: Step<S, P, T>)
    requires Natural(m) && Untampered(step)
    ensures Injected(m, w, step) <= 0
  {
  }

  /** The two-dimensional limit: in every such run at most `requests` reservations of at most
      `bytes` bytes in all are admitted at any time, none overflows, and what is admitted and what
      is available add up to no more than the limits. */
  lemma LimitsHold<O>(
      front: (O, int) -> (O, bool), closeable: bool, limit: Limit, order: O,
      steps: seq<Step<Limit, Reservation, Reservation>>)
    requires forall i :: 0 <= i < |steps| ==> Untampered(steps[i])
    ensures var w := Reach(TwoLimits(front, closeable), limit, order, steps);
            && !w.core.poisoned
            && Balance(Requests(), w) <= limit.requests && Balance(Bytes(), w) <= limit.bytes
            && Unclaimed(Requests(), w.core.waiters) + InHand(Requests(), w.held) <= limit.requests
            && Unclaimed(Bytes(), w.core.waiters) + InHand(Bytes(), w.held) <= limit.bytes
  {
    var r := TwoLimits(front, closeable);
    LimitLaws(front, closeable);
    NeverExceeded(r, Requests(), Bytes(), Init<Limit, Reservation, Reservation, O>(limit, order), steps);
    UnpoisonedEnd(r, Init<Limit, Reservation, Reservation, O>(limit, order), steps);
  }

  lemma CounterHolds<O>(
      front: (O, int) -> (O, bool), closeable: bool, permits: Word, order: O, steps: seq<Step<Word, Word, Word>>)
    requires forall i :: 0 <= i < |steps| ==> Untampered(steps[i])
    ensures var w := Reach<Word, Word, Word, O>(Counter(front, closeable), permits, order, steps);
            && !w.core.poisoned
            && w.core.state + Unclaimed<Word, Word, Word>(Units(), w.core.waiters)
                 + InHand<Word, Word>(Units(), w.held) <= permits
  {
    var r := Counter(front, closeable);
    CounterLaws(front, closeable);
    NeverExceeded(r, Units(), Units(), Init<Word, Word, Word, O>(permits, order), steps);
    UnpoisonedEnd(r, Init<Word, Word, Word, O>(permits, order), steps);
  }

  /** Along every run in which nothing panics, interventions of the users included, each quantity
      that is available, granted and held is what it was plus what they put in. */
  lemma LimitsConserve<O>(
      front: (O, int) -> (O, bool), closeable: bool, limit: Limit, order: O,
      steps: seq<Step<Limit, Reservation, Reservation>>)
    requires Unpoisoned(TwoLimits(front, closeable), Init<Limit, Reservation, Reservation, O>(limit, order), steps)
    ensures var r := TwoLimits(front, closeable);
            var w0, w := Init<Limit, Reservation, Reservation, O>(limit, order), Reach(r, limit, order, steps);
            && Balance(Requests(), w) == limit.requests + InjectedBy(r, Requests(), w0, steps)
            && Balance(Bytes(), w) == limit.bytes + InjectedBy(r, Bytes(), w0, steps)
  {
    var r := TwoLimits(front, closeable);
    LimitLaws(front, closeable);
    RunConserves(r, Requests(), Init<Limit, Reservation, Reservation, O>(limit, order), steps);
    RunConserves(r, Bytes(), Init<Limit, Reservation, Reservation, O>(limit, order), steps);
  }

  /** The same for the counter. */
  lemma CounterConserves<O>(
      front: (O, int) -> (O, bool), closeable: bool, permits: Word, order: O, steps: seq<Step<Word, Word, Word>>)
    requires Unpoisoned(Counter(front, closeable), Init<Word, Word, Word, O>(permits, order), steps)
    ensures var r := Counter(front, closeable);
            Balance(Units(), Reach(r, permits, order, steps))
              == permits + InjectedBy(r, Units(), Init<Word, Word, Word, O>(permits, order), steps)
  {
    CounterLaws(front, closeable);
    RunConserves(Counter(front, closeable), Units(), Init<Word, Word, Word, O>(permits, order), steps);
  }

  // ----- nothing that fits is refused

  /** Nobody takes a permit out of circulation either. */
  predicate Circulating<S, P, T>(steps: seq<Step<S, P, T>>) {
    forall i :: 0 <= i < |steps| ==> Untampered(steps[i]) && !steps[i].TakePermit?
  }

  /** Nothing is granted and unclaimed, and nothing is held. */
  predicate AllReturned<S, P, T, O>(w: World<S, P, T, O>) {
    && (forall i :: 0 <= i < |w.core.waiters| ==> !w.core.waiters[i].phase.RemovedOk?)
    && (forall i :: 0 <= i < |w.held| ==> w.held[i].None?)
  }

  lemma {:induction false} NoneUnclaimed<S, P, T>(m: Measure<S, T>, ws: seq<Waiter<P, T>>)
    requires forall i :: 0 <= i < |ws| ==> !ws[i].phase.RemovedOk?
    ensures Unclaimed(m, ws) == 0
    decreases |ws|
  {
    if ws == [] {
    } else {
      NoneUnclaimed(m, ws[1..]);
    }
  }

  lemma {:induction false} NoneInHand<S, T>(m: Measure<S, T>, held: seq<Option<T>>)
    requires forall i :: 0 <= i < |held| ==> held[i].None?
    ensures InHand(m, held) == 0
    decreases |held|
  {
    if held == [] {
    } else {
      NoneInHand(m, held[1..]);
    }
  }

  lemma {:induction false} NothingInjected<S, P, T, O>(
      r: Rules<S, P, T, O>, m: Measure<S, T>, w: World<S, P, T, O>, steps: seq<Step<S, P, T>>)
    requires Circulating(steps)
    ensures InjectedBy(r, m, w, steps) == 0
    decreases |steps|
  {
    if steps == [] {
    } else {
      NothingInjected(r, m, Do(r, w, steps[0]), steps[1..]);
    }
  }

  /** When everything has come back, everything is there again. */
  lemma AllIsBack<S(!new), P(!new), T(!new), O>(
      r: Rules<S, P, T, O>, m: Measure<S, T>, state: S, order: O, steps: seq<Step<S, P, T>>)
    requires Conserves(r, m) && Circulating(steps) && Unpoisoned(r, Init<S, P, T, O>(state, order), steps)
    requires AllReturned(Reach(r, state, order, steps))
    ensures m.value(Reach(r, state, order, steps).core.state) == m.value(state)
  {
    var w0, w := Init<S, P, T, O>(state, order), Reach(r, state, order, steps);
    RunConserves(r, m, w0, steps);
    NothingInjected(r, m, w0, steps);
    NoneUnclaimed(m, w.core.waiters);
    NoneInHand(m, w.held);
  }

  /** In every run in which users only acquire, claim, cancel and drop: once everything has come
      back, an open queue admits exactly the requests within the limits it was made with, at once if
      they are unfair; and when no check is owed either, whoever is first in line asks for more. */
  lemma AdmitsWithinLimits<S(!new), P(!new), T(!new), O>(
      r: Rules<S, P, T, O>, m: Measure<S, T>, n: Measure<S, T>, needM: P -> int, needN: P -> int,
      state: S, order: O, steps: seq<Step<S, P, T>>, params: P)
    requires PanicsOnlyOnOverflow(r, m, n) && Conserves(r, m) && Conserves(r, n) && Natural(m) && Natural(n)
    requires GivesBack(r) && Steady(r) && Monotone(r) && Tight(r, m, n, needM, needN)
    requires m.value(state) <= MAX && n.value(state) <= MAX && Circulating(steps)
    requires var w := Reach(r, state, order, steps); AllReturned(w) && !w.core.closed
    ensures var w := Reach(r, state, order, steps);
            var v := Do(r, w, Try(params, false));
            if needM(params) <= m.value(state) && needN(params) <= n.value(state) then
              && |v.held| == |w.held| + 1 && v.held[..|w.held|] == w.held && v.held[|w.held|].Some?
              && m.worth(v.held[|w.held|].value) == needM(params) && n.worth(v.held[|w.held|].value) == needN(params)
            else v.held == w.held
    ensures var w := Reach(r, state, order, steps);
            QuietWakers(steps) && !CheckOwed(w.crews) && w.core.list != [] ==>
              && w.core.list[0].params.Some?
              && var p := w.core.list[0].params.value;
                 needM(p) > m.value(state) || needN(p) > n.value(state)
  {
    var w0, w := Init<S, P, T, O>(state, order), Reach(r, state, order, steps);
    NeverExceeded(r, m, n, w0, steps);
    UnpoisonedEnd(r, w0, steps);
    AllIsBack(r, m, state, order, steps);
    AllIsBack(r, n, state, order, steps);
    TryExactly(r, state, order, steps, params, false);
    assert Tight(r, m, n, needM, needN);
    if QuietWakers(steps) && !CheckOwed(w.crews) && w.core.list != [] {
      QuietRunsStrandNobody(r, state, order, steps);
    }
  }

  lemma LimitsAdmit<O>(
      front: (O, int) -> (O, bool), closeable: bool, limit: Limit, order: O,
      steps: seq<Step<Limit, Reservation, Reservation>>, req: Reservation)
    requires Circulating(steps)
    requires var w := Reach(TwoLimits(front, closeable), limit, order, steps); AllReturned(w) && !w.core.closed
    ensures var r := TwoLimits(front, closeable);
            var w := Reach(r, limit, order, steps);
            && (|Do(r, w, Try(req, false)).held| > |w.held| <==> limit.requests >= 1 && req.bytes <= limit.bytes)
            && (QuietWakers(steps) && !CheckOwed(w.crews) && w.core.list != [] ==>
                  && w.core.list[0].params.Some?
                  && (limit.requests < 1 || w.core.list[0].params.value.bytes > limit.bytes))
  {
    LimitLaws(front, closeable);
    AdmitsWithinLimits(TwoLimits(front, closeable), Requests(), Bytes(), (p: Reservation) => 1,
                       (p: Reservation) => p.bytes, limit, order, steps, req);
  }

  lemma CounterAdmits<O>(
      front: (O, int) -> (O, bool), closeable: bool, permits: Word, order: O,
      steps: seq<Step<Word, Word, Word>>, n: Word)
    requires Circulating(steps)
    requires var w := Reach(Counter(front, closeable), permits, order, steps); AllReturned(w) && !w.core.closed
    ensures var r := Counter(front, closeable);
            var w := Reach(r, permits, order, steps);
            && (|Do(r, w, Try(n, false)).held| > |w.held| <==> n <= permits)
            && (QuietWakers(steps) && !CheckOwed(w.crews) && w.core.list != [] ==>
                  w.core.list[0].params.Some? && w.core.list[0].params.value > permits)
  {
    CounterLaws(front, closeable);
    AdmitsWithinLimits(Counter(front, closeable), Units(), Units(), (p: Word) => p, (p: Word) => p,
                       permits, order, steps, n);
  }
}
