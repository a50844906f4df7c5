/** The contract between the queue and the user's code: `SemaphoreState` (flag-bearer-core)
    and `Order` (flag-bearer-queue/src/order.rs).

    A `&mut self` method of the user's state is a function from the state it finds to the
    outcome it leaves. A callback that panics may leave the state half-updated, so a panic is
    an outcome that carries a state like the others. */
module SemaphoreStates {

  datatype Option<+T> = None | Some(value: T)

  /** What one call of `SemaphoreState::acquire` does. */
  datatype Acquired<+S, +P, +T> =
    | Granted(state: S, permit: T)
    | Refused(state: S, params: P)
    | AcquireUnwound(state: S)

  /** What one call of `SemaphoreState::release` does. */
  datatype Released<+S> = Returned(state: S) | ReleaseUnwound(state: S)

  /** Everything a queue is parametric in: the semaphore state's two methods, the ordering
      policy (a stateful one returns its own next state), whether the queue can be closed, and
      the capacity of a wake batch (32 in the source). */
  datatype Rules<!S, !P, !T, !O> = Rules(
    acquire: (S, P) -> Acquired<S, P, T>,
    release: (S, T) -> Released<S>,
    enqueueFront: (O, int) -> (O, bool),
    closeable: bool,
    capacity: nat)

  /** A refused request gets its own params back. */
  ghost predicate GivesBack<S(!new), P(!new), T(!new), O>(r: Rules<S, P, T, O>) {
    forall s, p :: r.acquire(s, p).Refused? ==> r.acquire(s, p).params == p
  }

  /** A refusal leaves the state as it was. */
  ghost predicate Steady<S(!new), P(!new), T(!new), O>(r: Rules<S, P, T, O>) {
    forall s, p :: r.acquire(s, p).Refused? ==> r.acquire(s, p).state == s
  }

  /** A refused request is still refused after anyone else's successful acquire. */
  ghost predicate Monotone<S(!new), P(!new), T(!new), O>(r: Rules<S, P, T, O>) {
    forall s, p, q ::
      r.acquire(s, p).Refused? && r.acquire(s, q).Granted? ==>
        r.acquire(r.acquire(s, q).state, p).Refused?
  }

  /** One conserved quantity: how much of it a state has available, and how much a permit holds. */
  datatype Measure<!S, !T> = Measure(value: S -> int, worth: T -> int)

  ghost predicate Conserves<S(!new), P(!new), T(!new), O>(r: Rules<S, P, T, O>, m: Measure<S, T>) {
    && (forall s, p ::
          match r.acquire(s, p)
          case Granted(s', t) => m.value(s) == m.value(s') + m.worth(t)
          case Refused(s', _) => m.value(s) == m.value(s')
          case AcquireUnwound(_) => true)
    && (forall s, t ::
          match r.release(s, t)
          case Returned(s') => m.value(s') == m.value(s) + m.worth(t)
          case ReleaseUnwound(_) => true)
  }

  /** Two quantities decide: a request is granted if there is enough of both, and refused only if
      there is not; its permit is worth what it needed. Nothing that fits is refused. */
  ghost predicate Tight<S(!new), P(!new), T(!new), O>(
      r: Rules<S, P, T, O>, m: Measure<S, T>, n: Measure<S, T>, needM: P -> int, needN: P -> int)
  {
    forall s, p ::
      match r.acquire(s, p)
      case Granted(_, t) =>
        m.value(s) >= needM(p) == m.worth(t) && n.value(s) >= needN(p) == n.worth(t)
      case Refused(_, _) => m.value(s) < needM(p) || n.value(s) < needN(p)
      case AcquireUnwound(_) => false
  }

  /** What has been given back can be had again: after a release a request with that need is granted. */
  ghost predicate Reusable<S(!new), P(!new), T(!new), O>(r: Rules<S, P, T, O>) {
    forall s, s', p, t ::
      r.acquire(s', p).Granted? && r.acquire(s', p).permit == t && r.release(s, t).Returned? ==>
        r.acquire(r.release(s, t).state, p).Granted?
  }

  /** A grant can be taken back exactly, and giving a permit back commutes with later grants. */
  ghost predicate Undoable<S(!new), P(!new), T(!new), O>(r: Rules<S, P, T, O>) {
    && (forall s, p ::
          r.acquire(s, p).Granted? ==>
            r.release(r.acquire(s, p).state, r.acquire(s, p).permit) == Returned(s))
    && (forall s, q, t ::
          r.acquire(s, q).Granted? && r.release(s, t).Returned? ==>
            && r.release(r.acquire(s, q).state, t).Returned?
            && r.acquire(r.release(s, t).state, q)
               == Granted(r.release(r.acquire(s, q).state, t).state, r.acquire(s, q).permit))
  }
}
