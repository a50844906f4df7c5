/** The locked sections of the wait queue as functions on values: `QueueState` together with
    the pinned nodes of the futures that borrow it. */
module QueueModel {
  import opened SemaphoreStates

  /** The protected data of a linked node. `params` is None when a panicking `acquire` lost
      them (a dead waiter). `front` and `ticket` record how and when the waiter joined. */
  datatype Entry<+P> = Entry(id: nat, params: Option<P>, waker: nat, front: bool, ticket: nat)

  /** How a future that can do nothing more came to its end. */
  datatype Ending<+P, +T> = Claimed(permit: T) | Rejected(params: P) | Cancelled | Aborted

  /** The life of an `Acquire` future and its node. */
  datatype Phase<+P, +T> =
    | Initial(params: P)
    | Linked
    | RemovedOk(permit: T)
    | RemovedErr(returned: Option<P>)
    | Done(ending: Ending<P, T>)

  /** `waker` is the waker registered last, `settled` says that servicing or closing took the
      node off the list (and so owes it one wake). */
  datatype Waiter<+P, +T> = Waiter(request: P, phase: Phase<P, T>, waker: nat, ticket: nat, settled: bool)

  /** `ub` records that an unsafe block was entered with its precondition broken. */
  datatype Core<S, P, T, O> = Core(
    list: seq<Entry<P>>,
    discarded: bool,
    poisoned: bool,
    closed: bool,
    len: int,
    order: O,
    state: S,
    waiters: seq<Waiter<P, T>>,
    tickets: nat,
    ub: bool)

  function InitCore<S, P, T, O>(state: S, order: O): Core<S, P, T, O> {
    Core([], false, false, false, 0, order, state, [], 0, false)
  }

  // ----- nodes and lists

  function IndexOf<P>(list: seq<Entry<P>>, id: nat): (i: nat)
    ensures i <= |list|
    ensures i < |list| ==> list[i].id == id
    ensures forall j :: 0 <= j < i ==> list[j].id != id
  {
    if list == [] || list[0].id == id then 0 else 1 + IndexOf(list[1..], id)
  }

  function Without<P>(list: seq<Entry<P>>, i: nat): (rest: seq<Entry<P>>)
    requires i < |list|
    ensures |rest| == |list| - 1
  {
    list[..i] + list[i + 1..]
  }

  /** A node taken off the list by servicing or closing, and the result written into it. */
  datatype Removal<+P, +T> = Removal(entry: Entry<P>, result: Phase<P, T>)

  function Settle<P, T>(ws: seq<Waiter<P, T>>, rs: seq<Removal<P, T>>): (out: seq<Waiter<P, T>>)
    ensures |out| == |ws|
    decreases |rs|
  {
    if rs == [] then ws
    else
      var id := rs[0].entry.id;
      Settle(if id < |ws| then ws[id := ws[id].(phase := rs[0].result, settled := true)] else ws, rs[1..])
  }

  // ----- QueueState::check

  datatype Scan<S, P, T> = Scan(state: S, kept: seq<Entry<P>>, removed: seq<Removal<P, T>>, unwound: bool)

  /** Serve the list front to back until `room` nodes are granted, a live waiter is refused or
      `acquire` unwinds; dead waiters are passed over. */
  function Serve<S, P, T, O>(r: Rules<S, P, T, O>, s: S, list: seq<Entry<P>>, room: nat): Scan<S, P, T>
    decreases |list|
  {
    if list == [] || room == 0 then Scan(s, list, [], false)
    else if list[0].params.None? then
      var rest := Serve(r, s, list[1..], room);
      rest.(kept := [list[0]] + rest.kept)
    else
      match r.acquire(s, list[0].params.value)
      case Granted(s', permit) =>
        var rest := Serve(r, s', list[1..], room - 1);
        rest.(removed := [Removal(list[0], RemovedOk(permit))] + rest.removed)
      case Refused(s', params) =>
        Scan(s', [list[0].(params := Some(params))] + list[1..], [], false)
      case AcquireUnwound(s') =>
        Scan(s', [list[0].(params := None)] + list[1..], [], true)
  }

  predicate Idle<S, P, T, O>(r: Rules<S, P, T, O>, c: Core<S, P, T, O>) {
    c.poisoned || (r.closeable && c.closed) || c.discarded
  }

  function CheckScan<S, P, T, O>(r: Rules<S, P, T, O>, c: Core<S, P, T, O>, room: nat): Scan<S, P, T> {
    if Idle(r, c) then Scan(c.state, c.list, [], false) else Serve(r, c.state, c.list, room)
  }

  function AfterScan<S, P, T, O>(c: Core<S, P, T, O>, k: Scan<S, P, T>): Core<S, P, T, O> {
    c.(list := k.kept, len := c.len - |k.removed|, poisoned := c.poisoned || k.unwound,
       state := k.state, waiters := Settle(c.waiters, k.removed))
  }

  // ----- QueueState::close_one, repeated until the batch is full or nothing is left

  function Min(a: nat, b: nat): nat { if a <= b then a else b }

  function Fails<P, T>(es: seq<Entry<P>>): seq<Removal<P, T>> {
    seq(|es|, i requires 0 <= i < |es| => Removal(es[i], RemovedErr(es[i].params)))
  }

  function CloseRemoved<S, P, T, O>(c: Core<S, P, T, O>, room: nat): seq<Removal<P, T>> {
    Fails(c.list[..Min(room, |c.list|)])
  }

  function AfterClose<S, P, T, O>(c: Core<S, P, T, O>, room: nat): Core<S, P, T, O> {
    var n := Min(room, |c.list|);
    c.(list := c.list[n..], len := c.len - n, closed := true,
       discarded := c.discarded || n == |c.list|, waiters := Settle(c.waiters, CloseRemoved(c, room)))
  }

  // ----- QueueState::update_state

  function AfterCall<S, P, T, O>(c: Core<S, P, T, O>, state: S, unwound: bool): Core<S, P, T, O> {
    c.(state := state, poisoned := c.poisoned || unwound)
  }

  // ----- QueueState::acquire_or_enqueue

  datatype Outcome<+P, +T> =
    | Acquired(permit: T)
    | Closed(params: P)
    | Poisoned(params: P)
    | Enqueue(front: bool, params: P)
    | Panicked

  function Attempt<S, P, T, O>(r: Rules<S, P, T, O>, c: Core<S, P, T, O>, params: P, fair: bool)
    : (Core<S, P, T, O>, Outcome<P, T>)
  {
    if c.poisoned then (c, Poisoned(params))
    else if (r.closeable && c.closed) || c.discarded then (c, Closed(params))
    else
      var (order, front) :=
        if fair then r.enqueueFront(c.order, c.len) else (c.order, true);
      var d := c.(order := order);
      if !front && c.list != [] then (d, Enqueue(front, params))
      else
        match r.acquire(c.state, params)
        case Granted(s, permit) => (d.(state := s), Acquired(permit))
        case Refused(s, back) => (d.(state := s), Enqueue(front, back))
        case AcquireUnwound(s) => (d.(state := s, poisoned := true), Panicked)
  }

  // ----- Acquire::poll

  datatype Reply<+P, +T> = Pending | ReadyOk(permit: T) | ReadyErr(params: P) | Panics

  function SetPhase<S, P, T, O>(c: Core<S, P, T, O>, id: nat, phase: Phase<P, T>): Core<S, P, T, O>
    requires id < |c.waiters|
  {
    c.(waiters := c.waiters[id := c.waiters[id].(phase := phase)])
  }

  function Register<S, P, T, O>(c: Core<S, P, T, O>, id: nat, waker: nat): Core<S, P, T, O>
    requires id < |c.waiters|
  {
    c.(waiters := c.waiters[id := c.waiters[id].(waker := waker)])
  }

  function DrawTicket<S, P, T, O>(c: Core<S, P, T, O>, id: nat): Core<S, P, T, O>
    requires id < |c.waiters|
  {
    c.(tickets := c.tickets + 1, waiters := c.waiters[id := c.waiters[id].(ticket := c.tickets)])
  }

  /** Link the node at the front or the back of the list. */
  function Join<S, P, T, O>(c: Core<S, P, T, O>, id: nat, waker: nat, front: bool, params: P): Core<S, P, T, O>
    requires id < |c.waiters|
  {
    var e := Entry(id, Some(params), waker, front, c.waiters[id].ticket);
    c.(list := if front then [e] + c.list else c.list + [e], len := c.len + 1,
       waiters := c.waiters[id := c.waiters[id].(phase := Linked, waker := waker)])
  }

  /** What a first poll does with the outcome of its attempt. */
  function Conclude<S, P, T, O>(d: Core<S, P, T, O>, id: nat, waker: nat, outcome: Outcome<P, T>)
    : (Core<S, P, T, O>, Reply<P, T>)
    requires id < |d.waiters|
  {
    match outcome
    case Acquired(permit) => (SetPhase(d, id, Done(Claimed(permit))), ReadyOk(permit))
    case Closed(params) => (SetPhase(d, id, Done(Rejected(params))), ReadyErr(params))
    case Poisoned(_) => (SetPhase(d, id, Done(Aborted)), Panics)
    case Panicked => (SetPhase(d, id, Done(Aborted)), Panics)
    case Enqueue(front, params) =>
      if d.discarded then (d.(ub := true), Panics) else (Join(d, id, waker, front, params), Pending)
  }

  function FirstPoll<S, P, T, O>(r: Rules<S, P, T, O>, c: Core<S, P, T, O>, id: nat, waker: nat)
    : (Core<S, P, T, O>, Reply<P, T>)
    requires id < |c.waiters| && c.waiters[id].phase.Initial?
  {
    var (d, outcome) := Attempt(r, DrawTicket(c, id), c.waiters[id].phase.params, true);
    Conclude(d, id, waker, outcome)
  }

  function Unlink<S, P, T, O>(c: Core<S, P, T, O>, i: nat): Core<S, P, T, O>
    requires i < |c.list|
  {
    c.(list := Without(c.list, i), len := c.len - 1)
  }

  function PollLinked<S, P, T, O>(r: Rules<S, P, T, O>, c: Core<S, P, T, O>, id: nat, waker: nat)
    : (Core<S, P, T, O>, Reply<P, T>)
    requires id < |c.waiters|
  {
    var i := IndexOf(c.list, id);
    if c.discarded || i == |c.list| then (c.(ub := true), Panics)
    else if r.closeable && c.closed then
      match c.list[i].params
      case Some(params) => (SetPhase(Unlink(c, i), id, Done(Rejected(params))), ReadyErr(params))
      case None => (SetPhase(Unlink(c, i), id, Done(Aborted)), Panics)
    else
      (Register(c, id, waker).(list := c.list[i := c.list[i].(waker := waker)]), Pending)
  }

  function PollCore<S, P, T, O>(r: Rules<S, P, T, O>, c: Core<S, P, T, O>, id: nat, waker: nat)
    : (Core<S, P, T, O>, Reply<P, T>)
    requires id < |c.waiters|
  {
    match c.waiters[id].phase
    case Initial(_) => FirstPoll(r, c, id, waker)
    case Linked => PollLinked(r, c, id, waker)
    case RemovedOk(permit) => (SetPhase(c, id, Done(Claimed(permit))), ReadyOk(permit))
    case RemovedErr(Some(params)) => (SetPhase(c, id, Done(Rejected(params))), ReadyErr(params))
    case RemovedErr(None) => (SetPhase(c, id, Done(Aborted)), Panics)
    case Done(_) => (c, Panics)
  }

  // ----- Acquire::drop, up to the point where `with_queue` looks at `len`

  /** The new core, and whether `with_queue` goes on to service the queue: it does not when the
      node was never linked, and not when `release` unwinds. */
  function Detach<S, P, T, O>(r: Rules<S, P, T, O>, c: Core<S, P, T, O>, id: nat): (Core<S, P, T, O>, bool)
    requires id < |c.waiters|
  {
    var d := SetPhase(c, id, Done(Cancelled));
    match c.waiters[id].phase
    case Linked =>
      var i := IndexOf(c.list, id);
      if c.discarded || i == |c.list| then (c.(ub := true), false) else (Unlink(d, i), true)
    case RemovedOk(permit) =>
      (match r.release(c.state, permit)
       case Returned(s) => (AfterCall(d, s, false), true)
       case ReleaseUnwound(s) => (AfterCall(d, s, true), false))
    case RemovedErr(_) => (d, true)
    case Initial(_) => (d, false)
    case Done(_) => (c, false)
  }
}
