/** The permit guard of flag-bearer/src/permit.rs over the wrapper of drop_wrapper.rs. */
module Permits {
  import opened QueueModel
  import opened Machine
  import opened Servicing
  import opened DropWrappers

  class Permit<S(!new), P(!new), T(!new), O> {
    const semaphore: SemaphoreQueue<S, P, T, O>
    const inner: DropWrapper<T>

    ghost predicate Valid()
      reads inner
    {
      inner.Valid()
    }

    /** `out_of_thin_air`; the state knows nothing about it. */
    constructor (semaphore: SemaphoreQueue<S, P, T, O>, permit: T)
      ensures Valid() && fresh(inner) && this.semaphore == semaphore && inner.Cell() == DropWrappers.Fresh(permit)
    {
      this.semaphore := semaphore;
      inner := new DropWrapper(permit);
    }

    method Amend(permit: T)
      requires Valid() && inner.guard.Live?
      modifies inner
      ensures Valid() && inner.Cell() == Write(old(inner.Cell()), permit)
    {
      inner.Replace(permit);
    }

    /** Moves the value out without giving it back: the semaphore is not touched, now or when the
        guard's scope ends. */
    method Take() returns (permit: T)
      requires Valid() && inner.guard.Live?
      modifies inner
      ensures Valid() && permit == old(inner.value) && inner.Cell() == TakeOut(old(inner.Cell()), false)
      ensures Leave(inner.Cell()) == inner.Cell()
    {
      permit := inner.Take();
    }

    /** The end of the guard's scope: unless it was taken or dropped before, the value is given back,
        once, and who is waiting for it is served. */
    method Drop(panics: Wake -> bool) returns (unwound: bool)
      requires Valid() && semaphore.Valid() && !semaphore.locked
      modifies inner, semaphore`locked, semaphore`log, semaphore.state
      ensures Valid() && semaphore.Valid() && !semaphore.locked && !inner.guard.Live?
      ensures inner.Cell() == Leave(old(inner.Cell()))
      ensures !old(inner.guard).Live? ==>
                && !unwound && semaphore.state.Value() == old(semaphore.state.Value())
                && semaphore.log == old(semaphore.log)
      ensures old(inner.guard).Live? ==>
                match semaphore.state.rules.release(old(semaphore.state.state), old(inner.value))
                case ReleaseUnwound(s) =>
                  unwound && semaphore.state.Value() == AfterCall(old(semaphore.state.Value()), s, true)
                  && semaphore.log == old(semaphore.log)
                case Returned(s) =>
                  ServedOrCut(semaphore.state.rules, panics, AfterCall(old(semaphore.state.Value()), s, false),
                              old(semaphore.log), semaphore.state.Value(), semaphore.log, unwound)
    {
      var handed := inner.LeaveScope();
      unwound := false;
      if handed.Some? {
        var out := semaphore.state.rules.release(semaphore.state.state, handed.value);
        unwound := semaphore.WithState(out.state, out.ReleaseUnwound?, panics);
      }
    }
  }
}

/** The slots of the machine are such guards: every permit handed out leaves its cell at most once,
    and exactly once when it is given back or taken. */
module PermitLedger {
  import opened SemaphoreStates
  import opened QueueModel
  import opened Machine
  import opened DropWrappers

  predicate Full<S, P, T, O>(w: World<S, P, T, O>, i: nat) { i < |w.held| && w.held[i].Some? }

  /** The step gives slot `i` back to the state or moves it out. */
  predicate Consumes<S, P, T, O>(w: World<S, P, T, O>, step: Step<S, P, T>, i: nat) {
    Full(w, i) && (step == DropPermit(i) || step == TakePermit(i))
  }

  function Consumed<S, P, T, O>(
      r: Rules<S, P, T, O>, w: World<S, P, T, O>, steps: seq<Step<S, P, T>>, i: nat): nat
    decreases |steps|
  {
    if steps == [] then 0
    else (if Consumes(w, steps[0], i) then 1 else 0) + Consumed(r, Do(r, w, steps[0]), steps[1..], i)
  }

  lemma StepKeepsSlot<S, P, T, O>(r: Rules<S, P, T, O>, w: World<S, P, T, O>, step: Step<S, P, T>, i: nat)
    ensures var v := Do(r, w, step);
            && |w.held| <= |v.held|
            && (i < |w.held| ==> (Full(v, i) <==> Full(w, i) && !Consumes(w, step, i)))
            && (|w.held| <= i < |v.held| ==> Full(v, i))
  {
    var v := Before(r, w, step);
    assert Do(r, w, step).held == v.held;
  }

  /** A slot that was filled is full still, or was consumed once; never twice. */
  lemma {:induction false} ConsumedOnce<S, P, T, O>(
      r: Rules<S, P, T, O>, w: World<S, P, T, O>, steps: seq<Step<S, P, T>>, i: nat)
    ensures var v := Exec(r, w, steps);
            && |w.held| <= |v.held|
            && Consumed(r, w, steps, i) + (if Full(v, i) then 1 else 0)
                 == if Full(w, i) || |w.held| <= i < |v.held| then 1 else 0
    decreases |steps|
  {
    if steps == [] {
    } else {
      StepKeepsSlot(r, w, steps[0], i);
      ConsumedOnce(r, Do(r, w, steps[0]), steps[1..], i);
    }
  }

  /** What a step of the machine does to the wrappers of the permits. */
  function OpsOf<S, P, T, O>(r: Rules<S, P, T, O>, w: World<S, P, T, O>, step: Step<S, P, T>): seq<Op<T>> {
    match step
    case Poll(id, waker) =>
      if id >= |w.core.waiters| then []
      else
        var reply := PollCore(r, w.core, id, waker).1;
        if reply.ReadyOk? then [Create(reply.permit)] else []
    case Try(params, fair) =>
      var outcome := Attempt(r, w.core, params, fair).1;
      if outcome.Acquired? then [Create(outcome.permit)] else []
    case Mint(permit) => [Create(permit)]
    case DropPermit(i) => [Exit(i)]
    case TakePermit(i) => [Op.Take(i, false)]
    case Amend(i, permit) => [Op.Amend(i, permit)]
    case _ => []
  }

  function RunOps<S, P, T, O>(
      r: Rules<S, P, T, O>, w: World<S, P, T, O>, steps: seq<Step<S, P, T>>, m: seq<Wrapper<T>>): seq<Wrapper<T>>
    decreases |steps|
  {
    if steps == [] then m else RunOps(r, Do(r, w, steps[0]), steps[1..], Run(m, OpsOf(r, w, steps[0])))
  }

  /** A filled slot is a live guard with the same value, unread; an empty one is gone and read once. */
  ghost predicate Matches<T>(held: seq<Option<T>>, m: seq<Wrapper<T>>) {
    && |held| == |m|
    && forall i :: 0 <= i < |held| ==>
         match held[i]
         case Some(permit) => m[i] == Fresh(permit)
         case None => m[i].moves == 1 && !m[i].guard.Live? && !m[i].ub
  }

  lemma RunOne<T>(m: seq<Wrapper<T>>, op: Op<T>)
    ensures Run(m, [op]) == Perform(m, op)
  {
    assert [op][1..] == [];
  }

  lemma StepMatches<S, P, T, O>(
      r: Rules<S, P, T, O>, w: World<S, P, T, O>, step: Step<S, P, T>, m: seq<Wrapper<T>>)
    requires Matches(w.held, m)
    ensures Matches(Do(r, w, step).held, Run(m, OpsOf(r, w, step)))
  {
    assert Do(r, w, step).held == Before(r, w, step).held;
    var ops := OpsOf(r, w, step);
    if ops != [] { RunOne(m, ops[0]); }
  }

  lemma {:induction false} RunMatches<S, P, T, O>(
      r: Rules<S, P, T, O>, w: World<S, P, T, O>, steps: seq<Step<S, P, T>>, m: seq<Wrapper<T>>)
    requires Matches(w.held, m)
    ensures Matches(Exec(r, w, steps).held, RunOps(r, w, steps, m))
    decreases |steps|
  {
    if steps == [] {
    } else {
      StepMatches(r, w, steps[0], m);
      RunMatches(r, Do(r, w, steps[0]), steps[1..], Run(m, OpsOf(r, w, steps[0])));
    }
  }

  /** In every run of a new queue each permit handed out sits in a wrapper that is never read after
      it was moved out, holds the value the machine says, and is read as often as the permit was
      given back or taken: once when it is gone, never before. */
  lemma PermitsReadOnce<S, P, T, O>(
      r: Rules<S, P, T, O>, state: S, order: O, steps: seq<Step<S, P, T>>, i: nat)
    requires i < |Reach(r, state, order, steps).held|
    ensures var w0, w := Init<S, P, T, O>(state, order), Reach(r, state, order, steps);
            var m := RunOps(r, w0, steps, []);
            && |m| == |w.held| && !m[i].ub && m[i].guard.Live? == w.held[i].Some?
            && m[i].moves == Consumed(r, w0, steps, i) == (if w.held[i].Some? then 0 else 1)
            && (w.held[i].Some? ==> m[i].value == w.held[i].value)
  {
    var w0 := Init<S, P, T, O>(state, order);
    RunMatches(r, w0, steps, []);
    ConsumedOnce(r, w0, steps, i);
  }
}
