/** What an attempt and a poll answer, and exactly when: stated from the queue as the caller finds
    it and the one call of `acquire` that may be made, for every sound queue and every phase. */
module Answers {
  import opened SemaphoreStates
  import opened QueueModel
  import opened Machine
  import opened Lifecycle
  import opened Fates
  import opened Closing

  /** The queue admits requests, and this one need not wait its turn: unfair callers never do, fair
      ones do not when nobody is queued or the policy puts them in front. */
  predicate MayTry<S, P, T, O>(r: Rules<S, P, T, O>, c: Core<S, P, T, O>, fair: bool) {
    !c.poisoned && !c.closed && (!fair || c.list == [] || r.enqueueFront(c.order, |c.list|).1)
  }

  /** Every outcome exactly. `acquire` is called once if the request may try and not otherwise; the
      policy is asked once by a fair request of a queue that admits, and not otherwise. */
  lemma AttemptExactly<S, P, T, O>(r: Rules<S, P, T, O>, c: Core<S, P, T, O>, params: P, fair: bool)
    requires Sound(r, c)
    ensures var (d, outcome) := Attempt(r, c, params, fair);
            var may, out := MayTry(r, c, fair), r.acquire(c.state, params);
            && (outcome.Poisoned? <==> c.poisoned)
            && (outcome.Closed? <==> c.closed && !c.poisoned)
            && (outcome.Acquired? <==> may && out.Granted?)
            && (outcome.Panicked? <==> may && out.AcquireUnwound?)
            && (outcome.Acquired? ==> outcome.permit == out.permit)
            && (outcome.Poisoned? || outcome.Closed? ==> outcome.params == params)
            && (outcome.Enqueue? ==>
                  && outcome.params == (if may then out.params else params)
                  && outcome.front == (!fair || r.enqueueFront(c.order, |c.list|).1))
            && d.state == (if may then out.state else c.state)
            && d.poisoned == (c.poisoned || outcome.Panicked?)
            && d.order == (if fair && !c.poisoned && !c.closed then r.enqueueFront(c.order, |c.list|).0 else c.order)
            && d == c.(state := d.state, poisoned := d.poisoned, order := d.order)
  {
  }

  /** `try_acquire` in any run: it hands out exactly the permit of its call of `acquire`, when it may
      make one and is granted, whoever is queued if it is unfair; and it never queues, serves, wakes
      or closes anything. */
  lemma TryExactly<S, P, T, O>(
      r: Rules<S, P, T, O>, state: S, order: O, past: seq<Step<S, P, T>>, params: P, fair: bool)
    ensures var w := Reach(r, state, order, past);
            var v := Do(r, w, Try(params, fair));
            var may, out := MayTry(r, w.core, fair), r.acquire(w.core.state, params);
            && v.held == (if may && out.Granted? then w.held + [Some(out.permit)] else w.held)
            && v.core.state == (if may then out.state else w.core.state)
            && v.core.poisoned == (w.core.poisoned || (may && out.AcquireUnwound?))
            && v == w.(held := v.held,
                       core := w.core.(state := v.core.state, poisoned := v.core.poisoned, order := v.core.order))
  {
    RunKeepsSafe(r, Init<S, P, T, O>(state, order), past);
    AttemptExactly(r, Reach(r, state, order, past).core, params, fair);
  }

  /** The step makes a fair attempt on a queue that admits. */
  predicate AsksPolicy<S, P, T, O>(w: World<S, P, T, O>, step: Step<S, P, T>) {
    && !w.core.poisoned && !w.core.closed
    && ((step.Poll? && step.id < |w.core.waiters| && w.core.waiters[step.id].phase.Initial?)
        || (step.Try? && step.fair))
  }

  lemma BeforeAsksPolicy<S, P, T, O>(r: Rules<S, P, T, O>, w: World<S, P, T, O>, step: Step<S, P, T>)
    requires Safe(r, w)
    ensures Before(r, w, step).core.order
         == if AsksPolicy(w, step) then r.enqueueFront(w.core.order, |w.core.list|).0 else w.core.order
  {
    match step
    case Poll(id, waker) =>
      if id < |w.core.waiters| { PollOrder(r, w.core, id, waker); }
    case Try(params, fair) => AttemptExactly(r, w.core, params, fair);
    case _ =>
  }

  /** The policy is asked exactly once, with the number of linked nodes, by such a step, and by no
      other: a stateful policy draws once per acquisition. */
  lemma StepAsksPolicy<S, P, T, O>(r: Rules<S, P, T, O>, w: World<S, P, T, O>, step: Step<S, P, T>)
    requires Safe(r, w)
    ensures Do(r, w, step).core.order
         == if AsksPolicy(w, step) then r.enqueueFront(w.core.order, |w.core.list|).0 else w.core.order
  {
    BeforeAsksPolicy(r, w, step);
    assert Do(r, w, step).core.order == Before(r, w, step).core.order;
  }

  lemma PollOrder<S, P, T, O>(r: Rules<S, P, T, O>, c: Core<S, P, T, O>, id: nat, waker: nat)
    requires Sound(r, c) && id < |c.waiters|
    ensures PollCore(r, c, id, waker).0.order
         == if c.waiters[id].phase.Initial? && !c.poisoned && !c.closed
            then r.enqueueFront(c.order, |c.list|).0 else c.order
  {
    SoundFinds(r, c, id);
    if c.waiters[id].phase.Initial? {
      DrawKeepsSound(r, c, id);
      AttemptExactly(r, DrawTicket(c, id), c.waiters[id].phase.params, true);
    }
  }

  // ----- polls

  /** The answer and what the future has become say the same. */
  ghost predicate AnswersFor<P, T>(before: Waiter<P, T>, after: Waiter<P, T>, waker: nat, reply: Reply<P, T>) {
    && (reply.Pending? <==> after.phase.Linked?)
    && (reply.Pending? ==> after.waker == waker)
    && (!reply.Pending? ==> after.waker == before.waker)
    && if before.phase.Done? then reply.Panics? && after == before
       else match reply
            case Pending => true
            case ReadyOk(permit) => after.phase == Done(Claimed(permit))
            case ReadyErr(params) => after.phase == Done(Rejected(params))
            case Panics => after.phase == Done(Aborted)
  }

  lemma ConcludeAnswers<S, P, T, O>(d: Core<S, P, T, O>, id: nat, waker: nat, outcome: Outcome<P, T>)
    requires id < |d.waiters| && d.waiters[id].phase.Initial? && (outcome.Enqueue? ==> !d.discarded)
    ensures var (e, reply) := Conclude(d, id, waker, outcome);
            AnswersFor(d.waiters[id], e.waiters[id], waker, reply)
    ensures match (Conclude(d, id, waker, outcome).1, outcome)
            case (Pending, Enqueue(_, _)) => true
            case (ReadyOk(t), Acquired(u)) => t == u
            case (ReadyErr(p), Closed(q)) => p == q
            case (Panics, Poisoned(_)) => true
            case (Panics, Panicked) => true
            case _ => false
  {
  }

  /** Pending exactly when the future is queued afterwards, and then with the waker of this very
      poll; a result exactly when the future ends with it; a panic exactly when it aborts, or was
      done before. */
  lemma PollAnswers<S, P, T, O>(r: Rules<S, P, T, O>, c: Core<S, P, T, O>, id: nat, waker: nat)
    requires Sound(r, c) && id < |c.waiters|
    ensures var (d, reply) := PollCore(r, c, id, waker);
            AnswersFor(c.waiters[id], d.waiters[id], waker, reply)
  {
    SoundFinds(r, c, id);
    match c.waiters[id].phase
    case Initial(params) => FirstPollAnswers(r, c, id, waker);
    case _ =>
  }

  /** The answer to a first poll, from the call of `acquire` that it may make. */
  lemma FirstPollAnswers<S, P, T, O>(r: Rules<S, P, T, O>, c: Core<S, P, T, O>, id: nat, waker: nat)
    requires Sound(r, c) && id < |c.waiters| && c.waiters[id].phase.Initial?
    ensures var (d, reply) := FirstPoll(r, c, id, waker);
            var params := c.waiters[id].phase.params;
            var may, out := MayTry(r, c, true), r.acquire(c.state, params);
            && AnswersFor(c.waiters[id], d.waiters[id], waker, reply)
            && (reply.Panics? <==> c.poisoned || (may && out.AcquireUnwound?))
            && (reply.ReadyErr? <==> c.closed && !c.poisoned)
            && (reply.ReadyOk? <==> may && out.Granted?)
            && (reply.ReadyErr? ==> reply.params == params)
            && (reply.ReadyOk? ==> reply.permit == out.permit)
  {
    var c0, params := DrawTicket(c, id), c.waiters[id].phase.params;
    DrawKeepsSound(r, c, id);
    AttemptExactly(r, c0, params, true);
    AttemptFrame(r, c0, params, true);
    var (d, outcome) := Attempt(r, c0, params, true);
    ConcludeAnswers(d, id, waker, outcome);
  }

  /** Where a first poll that answers Pending leaves its request. */
  lemma FirstPollJoins<S, P, T, O>(r: Rules<S, P, T, O>, c: Core<S, P, T, O>, id: nat, waker: nat)
    requires Sound(r, c) && id < |c.waiters| && c.waiters[id].phase.Initial?
    ensures var (d, reply) := FirstPoll(r, c, id, waker);
            var params, front := c.waiters[id].phase.params, r.enqueueFront(c.order, |c.list|).1;
            var out := r.acquire(c.state, params);
            var back := if MayTry(r, c, true) && out.Refused? then out.params else params;
            && (!reply.Pending? ==> d.list == c.list)
            && (reply.Pending? ==>
                  var e := Entry(id, Some(back), waker, front, c.tickets);
                  d.list == if front then [e] + c.list else c.list + [e])
  {
    var c0, params := DrawTicket(c, id), c.waiters[id].phase.params;
    DrawKeepsSound(r, c, id);
    AttemptExactly(r, c0, params, true);
    AttemptFrame(r, c0, params, true);
  }

  /** The answer to a later poll, from what the queue and the node hold. */
  lemma LaterPollAnswers<S, P, T, O>(r: Rules<S, P, T, O>, c: Core<S, P, T, O>, id: nat, waker: nat, params: Option<P>)
    requires Sound(r, c) && id < |c.waiters| && !c.waiters[id].phase.Initial?
    requires c.waiters[id].phase.Linked? ==> ListedWith(c.list, id, params)
    ensures var (d, reply) := PollCore(r, c, id, waker);
            match c.waiters[id].phase
            case Linked =>
              if !c.closed then reply == Pending else reply == if params.Some? then ReadyErr(params.value) else Panics
            case RemovedOk(permit) => reply == ReadyOk(permit)
            case RemovedErr(back) => reply == if back.Some? then ReadyErr(back.value) else Panics
            case Done(_) => reply == Panics && d == c
  {
    SoundFinds(r, c, id);
    if c.waiters[id].phase.Linked? { FoundWith(r, c, id, params); }
  }

  /** In any run a live queued future that is polled while a close is draining does not wait for its
      turn: it leaves the list and gets its own params back. */
  lemma PollWhileClosing<S(!new), P(!new), T(!new), O>(
      r: Rules<S, P, T, O>, state: S, order: O, past: seq<Step<S, P, T>>, id: nat, waker: nat)
    requires GivesBack(r)
    requires var w := Reach(r, state, order, past);
             w.core.closed && IsLinked(w.core.waiters, id) && !ListedWith(w.core.list, id, None)
    ensures var w := Reach(r, state, order, past);
            var (d, reply) := PollCore(r, w.core, id, waker);
            && reply == ReadyErr(w.core.waiters[id].request)
            && d.waiters[id].phase == Done(Rejected(w.core.waiters[id].request))
            && |d.list| == |w.core.list| - 1 && IndexOf(d.list, id) == |d.list|
  {
    var w := Reach(r, state, order, past);
    RunKeepsSafe(r, Init<S, P, T, O>(state, order), past);
    RunKeepsOwn(r, Init<S, P, T, O>(state, order), past);
    FindsLinked(w.core.list, w.core.waiters, id);
    var e := w.core.list[IndexOf(w.core.list, id)];
    assert OwnEntry(e, w.core.waiters);
    LaterPollAnswers(r, w.core, id, waker, e.params);
    PollAnswers(r, w.core, id, waker);
    PollKeepsSound(r, w.core, id, waker);
    var d := PollCore(r, w.core, id, waker).0;
    FindsLinked(d.list, d.waiters, id);
  }

  // ----- drops

  /** Dropping a future ends it, whatever phase it was in and even if giving its permit back unwinds:
      no result can be claimed and no permit given back a second time. `release` is called exactly
      for an unclaimed permit, only a queued node leaves the list, and servicing follows unless the
      node was never linked, was done, or `release` unwound. */
  lemma DropExactly<S, P, T, O>(r: Rules<S, P, T, O>, c: Core<S, P, T, O>, id: nat)
    requires Sound(r, c) && id < |c.waiters|
    ensures var (d, goesOn) := Detach(r, c, id);
            var x := c.waiters[id];
            && d.waiters == c.waiters[id := if x.phase.Done? then x else x.(phase := Done(Cancelled))]
            && d.list == (if x.phase.Linked? then Without(c.list, IndexOf(c.list, id)) else c.list)
            && (match x.phase
                case RemovedOk(permit) =>
                  var out := r.release(c.state, permit);
                  d.state == out.state && d.poisoned == (c.poisoned || out.ReleaseUnwound?) && goesOn == out.Returned?
                case phase =>
                  && d.state == c.state && d.poisoned == c.poisoned
                  && goesOn == (phase.Linked? || phase.RemovedErr?))
            && d == c.(waiters := d.waiters, list := d.list, len := d.len, state := d.state, poisoned := d.poisoned)
  {
    SoundFinds(r, c, id);
    var x := c.waiters[id];
    if x.phase.Done? { assert c.waiters[id := x] == c.waiters; }
  }
}
