/** The wait queue under any interleaving. Each locked section is one step; wakes run between
    locked sections, one per step, so anything may happen before the next wake or round. */
module Machine {
  import opened SemaphoreStates
  import opened QueueModel

  datatype Wake = Wake(id: nat, waker: nat)

  /** One activation of `with_queue` or `close`: the wakers it still has to invoke, whether it
      will lock again for another round afterwards, and how many rounds it has done. */
  datatype Crew = Crew(batch: seq<Wake>, owes: bool, closing: bool, rounds: nat)

  /** `log` lists the wakes invoked so far, `held` the permits handed to users (None once dropped
      or taken), `cut` the number of nodes linked when `closed` was first set. */
  datatype World<S, P, T, O> = World(
    core: Core<S, P, T, O>,
    crews: seq<Crew>,
    log: seq<Wake>,
    held: seq<Option<T>>,
    cut: nat)

  function Init<S, P, T, O>(state: S, order: O): World<S, P, T, O> {
    World(InitCore(state, order), [], [], [], 0)
  }

  /** What users, the runtime and the scheduler can do. A label whose target does not exist (or
      is not in the right phase) does nothing. */
  datatype Step<+S, +P, +T> =
    | New(params: P)                          // create an Acquire future
    | Poll(id: nat, waker: nat)
    | Cancel(id: nat)                         // drop the future
    | Try(params: P, fair: bool)              // try_acquire
    | Update(next: S, unwinds: bool)          // with_state: any closure
    | Close
    | Resume(crew: nat)                       // lock again for the next round
    | Notify(crew: nat, unwinds: bool)        // invoke the next waker of a batch
    | ClearPoison
    | Mint(permit: T)                         // Permit::out_of_thin_air
    | DropPermit(slot: nat)
    | TakePermit(slot: nat)                   // Permit::take
    | Amend(slot: nat, permit: T)             // Permit::deref_mut

  function WakesOf<P, T>(rs: seq<Removal<P, T>>): seq<Wake> {
    seq(|rs|, i requires 0 <= i < |rs| => Wake(rs[i].entry.id, rs[i].entry.waker))
  }

  /** One locked round of activation `i`. */
  function Round<S, P, T, O>(r: Rules<S, P, T, O>, w: World<S, P, T, O>, i: nat): World<S, P, T, O>
    requires i < |w.crews|
  {
    var crew := w.crews[i];
    if crew.closing then
      var removed := CloseRemoved(w.core, r.capacity);
      var core := AfterClose(w.core, r.capacity);
      w.(core := core,
         crews := w.crews[i := Crew(WakesOf(removed), !core.discarded, true, crew.rounds + 1)],
         cut := if w.core.closed then w.cut else |w.core.list|)
    else
      var scan := CheckScan(r, w.core, r.capacity);
      var core := AfterScan(w.core, scan);
      var more := !scan.unwound && |scan.removed| == r.capacity && core.len != 0;
      w.(core := core,
         crews := w.crews[i := Crew(WakesOf(scan.removed), more, false, crew.rounds + 1)])
  }

  function Spawn<S, P, T, O>(w: World<S, P, T, O>, closing: bool): World<S, P, T, O> {
    w.(crews := w.crews + [Crew([], true, closing, 0)])
  }

  /** The first round of a new activation, in the same locked section as what came before. */
  function Begin<S, P, T, O>(r: Rules<S, P, T, O>, w: World<S, P, T, O>, closing: bool): World<S, P, T, O> {
    Round(r, Spawn(w, closing), |w.crews|)
  }

  /** What a step does besides a locked round. */
  function Before<S, P, T, O>(r: Rules<S, P, T, O>, w: World<S, P, T, O>, step: Step<S, P, T>): World<S, P, T, O> {
    match step
    case New(params) =>
      w.(core := w.core.(waiters := w.core.waiters + [Waiter(params, Initial(params), 0, 0, false)]))
    case Poll(id, waker) =>
      if id >= |w.core.waiters| then w
      else
        var (core, reply) := PollCore(r, w.core, id, waker);
        w.(core := core, held := if reply.ReadyOk? then w.held + [Some(reply.permit)] else w.held)
    case Cancel(id) => if id < |w.core.waiters| then w.(core := Detach(r, w.core, id).0) else w
    case Try(params, fair) =>
      var (core, outcome) := Attempt(r, w.core, params, fair);
      w.(core := core, held := if outcome.Acquired? then w.held + [Some(outcome.permit)] else w.held)
    case Update(next, unwinds) => w.(core := AfterCall(w.core, next, unwinds))
    case Close => w
    case Resume(_) => w
    case Notify(i, unwinds) =>
      if i < |w.crews| && w.crews[i].batch != [] then
        var crew := w.crews[i];
        w.(log := w.log + [crew.batch[0]],
           crews := w.crews[i := crew.(batch := crew.batch[1..], owes := crew.owes && !unwinds)])
      else w
    case ClearPoison => w.(core := w.core.(poisoned := false))
    case Mint(permit) => w.(held := w.held + [Some(permit)])
    case DropPermit(i) =>
      if i < |w.held| && w.held[i].Some? then
        var out := r.release(w.core.state, w.held[i].value);
        w.(core := AfterCall(w.core, out.state, out.ReleaseUnwound?), held := w.held[i := None])
      else w
    case TakePermit(i) => if i < |w.held| then w.(held := w.held[i := None]) else w
    case Amend(i, permit) =>
      if i < |w.held| && w.held[i].Some? then w.(held := w.held[i := Some(permit)]) else w
  }

  /** What a step goes on to do in the same locked section. `with_queue` checks the queue when
      its closure returned, unless nobody is queued. */
  datatype Follow = Nothing | Check | CloseAll | Again(crew: nat)

  function Then<S, P, T, O>(r: Rules<S, P, T, O>, w: World<S, P, T, O>, step: Step<S, P, T>): (f: Follow)
    ensures f.Again? ==>
              f.crew < |w.crews| && w.crews[f.crew].batch == [] && w.crews[f.crew].owes && Before(r, w, step) == w
    ensures f.CloseAll? ==> r.closeable && Before(r, w, step) == w
    ensures f.Check? ==> step.Cancel? || step.Update? || step.DropPermit?
  {
    var check := if Before(r, w, step).core.len != 0 then Check else Nothing;
    match step
    case Cancel(id) => if id < |w.core.waiters| && Detach(r, w.core, id).1 then check else Nothing
    case Update(_, unwinds) => if unwinds then Nothing else check
    case DropPermit(i) =>
      if i < |w.held| && w.held[i].Some? && r.release(w.core.state, w.held[i].value).Returned? then check
      else Nothing
    case Close => if r.closeable then CloseAll else Nothing
    case Resume(i) =>
      if i < |w.crews| && w.crews[i].batch == [] && w.crews[i].owes then Again(i) else Nothing
    case _ => Nothing
  }

  function Do<S, P, T, O>(r: Rules<S, P, T, O>, w: World<S, P, T, O>, step: Step<S, P, T>): World<S, P, T, O> {
    match Then(r, w, step)
    case Nothing => Before(r, w, step)
    case Check => Begin(r, Before(r, w, step), false)
    case CloseAll => Begin(r, w, true)
    case Again(i) => Round(r, w, i)
  }

  function Exec<S, P, T, O>(r: Rules<S, P, T, O>, w: World<S, P, T, O>, steps: seq<Step<S, P, T>>): World<S, P, T, O>
    decreases |steps|
  {
    if steps == [] then w else Exec(r, Do(r, w, steps[0]), steps[1..])
  }

  /** The world after the run `steps` of a new queue. */
  function Reach<S, P, T, O>(r: Rules<S, P, T, O>, state: S, order: O, steps: seq<Step<S, P, T>>): World<S, P, T, O> {
    Exec(r, Init(state, order), steps)
  }
}
