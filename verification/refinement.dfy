/** The wait queue refines a plain semaphore: a state, a sequence of waiting requests and a closed
    flag. Batches, the length counter, the discarded list, wakers and tickets are not seen. */
module Refinement {
  import opened SemaphoreStates
  import opened QueueModel
  import opened ListFacts
  import opened Machine
  import opened Lifecycle
  import opened Closing
  import opened Stranded
  import opened Conservation

  // ----- the plain semaphore

  /** What has become of a request. No event leads to Lost, the mark of a callback that panicked. */
  datatype Fate<+P, +T> = Fresh | Waiting | Admitted(permit: T) | Failed(params: P) | Withdrawn | Lost

  datatype Plain<S, P, T> = Plain(state: S, waiting: seq<nat>, closed: bool, requests: seq<P>, fates: seq<Fate<P, T>>)

  datatype Event<+S, +P, +T> =
    | Arrive(params: P)
    | TryNow(params: P)             // a permit for nobody on record
    | TryFor(id: nat)
    | Enlist(id: nat, front: bool)
    | GrantHead
    | Withdraw(id: nat)
    | GiveBack(permit: T)
    | SetState(next: S)
    | SetClosed
    | Fail(id: nat)

  function Leave(waiting: seq<nat>, id: nat): seq<nat> {
    if waiting == [] then [] else if waiting[0] == id then waiting[1..] else [waiting[0]] + Leave(waiting[1..], id)
  }

  /** What an event does, or None where it is not allowed. */
  function Take<S, P, T, O>(r: Rules<S, P, T, O>, a: Plain<S, P, T>, e: Event<S, P, T>): Option<Plain<S, P, T>> {
    match e
    case Arrive(params) => Some(a.(requests := a.requests + [params], fates := a.fates + [Fresh]))
    case TryNow(params) =>
      var out := r.acquire(a.state, params);
      if !a.closed && out.Granted? then Some(a.(state := out.state)) else None
    case TryFor(id) =>
      if id < |a.fates| && id < |a.requests| && a.fates[id].Fresh? && !a.closed then
        var out := r.acquire(a.state, a.requests[id]);
        if out.Granted? then Some(a.(state := out.state, fates := a.fates[id := Admitted(out.permit)])) else None
      else None
    case Enlist(id, front) =>
      if id < |a.fates| && id < |a.requests| && a.fates[id].Fresh? && !a.closed
         && ((!front && a.waiting != []) || r.acquire(a.state, a.requests[id]).Refused?)
      then Some(a.(waiting := if front then [id] + a.waiting else a.waiting + [id], fates := a.fates[id := Waiting]))
      else None
    case GrantHead =>
      if a.waiting != [] && a.waiting[0] < |a.fates| && a.waiting[0] < |a.requests|
         && a.fates[a.waiting[0]].Waiting? && !a.closed then
        var out := r.acquire(a.state, a.requests[a.waiting[0]]);
        if out.Granted?
        then Some(a.(state := out.state, waiting := a.waiting[1..],
                     fates := a.fates[a.waiting[0] := Admitted(out.permit)]))
        else None
      else None
    case Withdraw(id) =>
      if id < |a.fates| then
        match a.fates[id]
        case Withdrawn => None
        case Admitted(permit) =>
          var out := r.release(a.state, permit);
          if out.Returned? then Some(a.(state := out.state, fates := a.fates[id := Withdrawn])) else None
        case _ => Some(a.(waiting := Leave(a.waiting, id), fates := a.fates[id := Withdrawn]))
      else None
    case GiveBack(permit) =>
      var out := r.release(a.state, permit);
      if out.Returned? then Some(a.(state := out.state)) else None
    case SetState(next) => Some(a.(state := next))
    case SetClosed => if r.closeable then Some(a.(closed := true)) else None
    case Fail(id) =>
      if id < |a.fates| && id < |a.requests| && a.closed && (a.fates[id].Fresh? || a.fates[id].Waiting?)
      then Some(a.(waiting := Leave(a.waiting, id), fates := a.fates[id := Failed(a.requests[id])]))
      else None
  }

  function Play<S, P, T, O>(r: Rules<S, P, T, O>, a: Plain<S, P, T>, es: seq<Event<S, P, T>>): Option<Plain<S, P, T>>
    decreases |es|
  {
    if es == [] then Some(a)
    else match Take(r, a, es[0]) case None => None case Some(b) => Play(r, b, es[1..])
  }

  lemma {:induction false} PlayConcat<S, P, T, O>(
      r: Rules<S, P, T, O>, a: Plain<S, P, T>, es: seq<Event<S, P, T>>, fs: seq<Event<S, P, T>>)
    requires Play(r, a, es).Some?
    ensures Play(r, a, es + fs) == Play(r, Play(r, a, es).value, fs)
    decreases |es|
  {
    if es == [] {
      assert es + fs == fs;
    } else {
      assert (es + fs)[1..] == es[1..] + fs;
      PlayConcat(r, Take(r, a, es[0]).value, es[1..], fs);
    }
  }

  lemma PlayOne<S, P, T, O>(r: Rules<S, P, T, O>, a: Plain<S, P, T>, e: Event<S, P, T>)
    ensures Play(r, a, [e]) == Take(r, a, e)
  {
    assert [e][1..] == [];
  }

  // ----- what it sees of the queue

  /** Claiming a result is not seen: the fate was sealed when the node was removed. */
  function FateOf<P, T>(phase: Phase<P, T>): Fate<P, T> {
    match phase
    case Initial(_) => Fresh
    case Linked => Waiting
    case RemovedOk(permit) => Admitted(permit)
    case RemovedErr(Some(params)) => Failed(params)
    case RemovedErr(None) => Lost
    case Done(Claimed(permit)) => Admitted(permit)
    case Done(Rejected(params)) => Failed(params)
    case Done(Cancelled) => Withdrawn
    case Done(Aborted) => Lost
  }

  function FatesOf<P, T>(ws: seq<Waiter<P, T>>): seq<Fate<P, T>> {
    seq(|ws|, i requires 0 <= i < |ws| => FateOf(ws[i].phase))
  }

  function RequestsOf<P, T>(ws: seq<Waiter<P, T>>): seq<P> {
    seq(|ws|, i requires 0 <= i < |ws| => ws[i].request)
  }

  function Ids<P>(list: seq<Entry<P>>): seq<nat> {
    seq(|list|, i requires 0 <= i < |list| => list[i].id)
  }

  function View<S, P, T, O>(c: Core<S, P, T, O>): Plain<S, P, T> {
    Plain(c.state, Ids(c.list), c.closed, RequestsOf(c.waiters), FatesOf(c.waiters))
  }

  lemma FatesUpdate<P, T>(ws: seq<Waiter<P, T>>, id: nat, x: Waiter<P, T>)
    requires id < |ws| && x.request == ws[id].request
    ensures FatesOf(ws[id := x]) == FatesOf(ws)[id := FateOf(x.phase)]
    ensures RequestsOf(ws[id := x]) == RequestsOf(ws)
  {
  }

  /** No callback has panicked so far. */
  ghost predicate Healthy<S, P, T, O>(r: Rules<S, P, T, O>, w: World<S, P, T, O>) {
    Safe(r, w) && OwnParams(w.core) && NoDead(w.core.list) && !w.core.poisoned
  }

  /** The listed nodes wait, once each, with their own params. */
  ghost predicate AllWait<P, T>(list: seq<Entry<P>>, ws: seq<Waiter<P, T>>) {
    && (forall id: nat :: Occurs(list, id) <= if IsLinked(ws, id) then 1 else 0)
    && NoDead(list) && OwnEntries(list, ws)
  }

  lemma TailWaits<P, T>(list: seq<Entry<P>>, ws: seq<Waiter<P, T>>, phase: Phase<P, T>)
    requires list != [] && AllWait(list, ws)
    ensures IsLinked(ws, list[0].id) && list[0].params == Some(ws[list[0].id].request)
    ensures AllWait(list[1..], ws[list[0].id := ws[list[0].id].(phase := phase, settled := true)])
    ensures Ids(list)[1..] == Ids(list[1..])
  {
    var id := list[0].id;
    assert Occurs(list, id) >= 1;
    assert IsLinked(ws, id);
    assert OwnEntry(list[0], ws);
    var out := ws[id := ws[id].(phase := phase, settled := true)];
    forall x: nat ensures Occurs(list[1..], x) <= if IsLinked(out, x) then 1 else 0 {
      assert Occurs(list, x) <= if IsLinked(ws, x) then 1 else 0;
    }
    forall k | 0 <= k < |list[1..]| ensures OwnEntry(list[1..][k], out) && list[1..][k].params.Some? {
      assert OwnEntry(list[k + 1], ws);
    }
  }

  // ----- rounds

  function Repeat<S, P, T>(n: nat): seq<Event<S, P, T>> {
    if n == 0 then [] else [GrantHead] + Repeat(n - 1)
  }

  lemma HeadGranted<S, P, T, O>(r: Rules<S, P, T, O>, s: S, list: seq<Entry<P>>, ws: seq<Waiter<P, T>>)
    requires list != [] && IsLinked(ws, list[0].id) && r.acquire(s, ws[list[0].id].request).Granted?
    ensures var id := list[0].id;
            var out := r.acquire(s, ws[id].request);
            var after := ws[id := ws[id].(phase := RemovedOk(out.permit), settled := true)];
            Take(r, Plain(s, Ids(list), false, RequestsOf(ws), FatesOf(ws)), GrantHead)
              == Some(Plain(out.state, Ids(list[1..]), false, RequestsOf(after), FatesOf(after)))
  {
    var id := list[0].id;
    FatesUpdate(ws, id, ws[id].(phase := RemovedOk(r.acquire(s, ws[id].request).permit), settled := true));
    assert Ids(list)[1..] == Ids(list[1..]);
  }

  /** A batch of grants is so many grants at the head. */
  lemma {:induction false} ServeRefines<S(!new), P(!new), T(!new), O>(
      r: Rules<S, P, T, O>, s: S, list: seq<Entry<P>>, room: nat, ws: seq<Waiter<P, T>>)
    requires GivesBack(r) && Steady(r) && AllWait(list, ws) && !Serve(r, s, list, room).unwound
    ensures var k := Serve(r, s, list, room);
            Play(r, Plain(s, Ids(list), false, RequestsOf(ws), FatesOf(ws)), Repeat(|k.removed|))
              == Some(Plain(k.state, Ids(k.kept), false, RequestsOf(ws), FatesOf(Settle(ws, k.removed))))
    decreases |list|
  {
    if list == [] || room == 0 {
    } else {
      var id := list[0].id;
      TailWaits(list, ws, ws[id].phase);
      match r.acquire(s, list[0].params.value)
      case Granted(s', permit) =>
        TailWaits<P, T>(list, ws, RemovedOk(permit));
        var out := ws[id := ws[id].(phase := RemovedOk(permit), settled := true)];
        HeadGranted(r, s, list, ws);
        ServeRefines(r, s', list[1..], room - 1, out);
        var rest := Serve(r, s', list[1..], room - 1);
        var g := Removal(list[0], RemovedOk(permit));
        assert ([g] + rest.removed)[1..] == rest.removed;
        assert Repeat<S, P, T>(|rest.removed| + 1)[1..] == Repeat<S, P, T>(|rest.removed|);
      case Refused(_, params) => assert Ids([list[0].(params := Some(params))] + list[1..]) == Ids(list);
    }
  }

  function FailAll<S, P, T>(ids: seq<nat>): seq<Event<S, P, T>> {
    if ids == [] then [] else [Fail(ids[0])] + FailAll(ids[1..])
  }

  /** A batch of closing is so many failures. */
  lemma {:induction false} CloseRefines<S, P, T, O>(
      r: Rules<S, P, T, O>, s: S, list: seq<Entry<P>>, n: nat, ws: seq<Waiter<P, T>>)
    requires AllWait(list, ws) && n <= |list|
    ensures Play(r, Plain(s, Ids(list), true, RequestsOf(ws), FatesOf(ws)), FailAll(Ids(list)[..n]))
              == Some(Plain(s, Ids(list[n..]), true, RequestsOf(ws), FatesOf(Settle(ws, Fails<P, T>(list[..n])))))
    decreases n
  {
    if n == 0 {
      assert list[0..] == list && Fails<P, T>(list[..0]) == [];
    } else {
      var id := list[0].id;
      var phase := RemovedErr(list[0].params);
      TailWaits(list, ws, phase);
      var out := ws[id := ws[id].(phase := phase, settled := true)];
      FatesUpdate(ws, id, out[id]);
      CloseRefines(r, s, list[1..], n - 1, out);
      assert Ids(list)[..n][1..] == Ids(list[1..])[..n - 1];
      assert Fails<P, T>(list[..n])[1..] == Fails<P, T>(list[1..][..n - 1]);
      assert list[n..] == list[1..][n - 1..];
      assert FailAll<S, P, T>(Ids(list)[..n])[1..] == FailAll<S, P, T>(Ids(list)[..n][1..]);
    }
  }

  /** What servicing and closing do on their own, as events. */
  function RoundEvents<S, P, T, O>(r: Rules<S, P, T, O>, w: World<S, P, T, O>, i: nat): seq<Event<S, P, T>>
    requires i < |w.crews|
  {
    var c := w.core;
    if w.crews[i].closing then [SetClosed] + FailAll(Ids(c.list)[..Min(r.capacity, |c.list|)])
    else Repeat(|CheckScan(r, c, r.capacity).removed|)
  }

  lemma RoundRefines<S(!new), P(!new), T(!new), O>(r: Rules<S, P, T, O>, w: World<S, P, T, O>, i: nat)
    requires GivesBack(r) && Steady(r) && i < |w.crews| && (w.crews[i].closing ==> r.closeable)
    requires Healthy(r, w) && !Round(r, w, i).core.poisoned
    ensures Play(r, View(w.core), RoundEvents(r, w, i)) == Some(View(Round(r, w, i).core))
  {
    var c := w.core;
    assert AllWait(c.list, c.waiters) by {
      forall id: nat ensures Occurs(c.list, id) <= if IsLinked(c.waiters, id) then 1 else 0 {
        assert Occurs(c.list, id) == if IsLinked(c.waiters, id) then 1 else 0;
      }
    }
    var d := Round(r, w, i).core;
    SettleKeepsRequests(c.waiters, CloseRemoved(c, r.capacity));
    SettleKeepsRequests(c.waiters, CheckScan(r, c, r.capacity).removed);
    if w.crews[i].closing {
      var n := Min(r.capacity, |c.list|);
      CloseRefines(r, c.state, c.list, n, c.waiters);
      var es := FailAll<S, P, T>(Ids(c.list)[..n]);
      assert ([SetClosed] + es)[1..] == es;
    } else if !Idle(r, c) {
      ServeRefines(r, c.state, c.list, r.capacity, c.waiters);
    }
  }

  lemma SettleKeepsRequests<P, T>(ws: seq<Waiter<P, T>>, rs: seq<Removal<P, T>>)
    ensures RequestsOf(Settle(ws, rs)) == RequestsOf(ws)
  {
    forall i | 0 <= i < |ws| ensures Settle(ws, rs)[i].request == ws[i].request {
      SettleAt(ws, rs, i);
    }
  }

  // ----- what users do

  function OutcomeEvents<S, P, T>(id: nat, outcome: Outcome<P, T>): seq<Event<S, P, T>> {
    match outcome
    case Acquired(_) => [TryFor(id)]
    case Closed(_) => [Fail(id)]
    case Enqueue(front, _) => [Enlist(id, front)]
    case _ => []
  }

  function BeforeEvents<S, P, T, O>(
      r: Rules<S, P, T, O>, c: Core<S, P, T, O>, held: seq<Option<T>>, step: Step<S, P, T>)
    : seq<Event<S, P, T>>
  {
    match step
    case New(params) => [Arrive(params)]
    case Poll(id, _) =>
      if id >= |c.waiters| then []
      else
        (match c.waiters[id].phase
         case Initial(params) =>
           OutcomeEvents(id, Attempt(r, DrawTicket(c, id), params, true).1)
         case Linked => if c.closed then [Fail(id)] else []
         case _ => [])
    case Cancel(id) => if id < |c.waiters| && !c.waiters[id].phase.Done? then [Withdraw(id)] else []
    case Try(params, fair) => if Attempt(r, c, params, fair).1.Acquired? then [TryNow(params)] else []
    case Update(next, _) => [SetState(next)]
    case DropPermit(i) =>
      if i < |held| && held[i].Some? then [GiveBack(held[i].value)] else []
    case _ => []
  }

  lemma {:induction false} LeaveIsWithout<P>(list: seq<Entry<P>>, id: nat)
    ensures var i := IndexOf(list, id);
            Leave(Ids(list), id) == if i < |list| then Ids(Without(list, i)) else Ids(list)
    decreases |list|
  {
    if list == [] {
    } else {
      assert Ids(list)[1..] == Ids(list[1..]);
      if list[0].id == id {
        assert Without(list, 0) == list[1..];
      } else {
        LeaveIsWithout(list[1..], id);
        var i := IndexOf(list, id);
        if i < |list| { assert Without(list, i) == [list[0]] + Without(list[1..], i - 1); }
      }
    }
  }

  /** An attempt without panic, as the plain semaphore sees it. */
  lemma AttemptMeans<S(!new), P(!new), T(!new), O>(r: Rules<S, P, T, O>, c: Core<S, P, T, O>, params: P, fair: bool)
    requires GivesBack(r) && Steady(r) && Sound(r, c) && !c.poisoned && !Attempt(r, c, params, fair).0.poisoned
    ensures var (d, outcome) := Attempt(r, c, params, fair);
            var out := r.acquire(c.state, params);
            match outcome
            case Acquired(permit) => !c.closed && out == Granted(d.state, permit)
            case Closed(back) => c.closed && back == params && d.state == c.state
            case Enqueue(front, back) =>
              && !c.closed && !c.discarded && back == params && d.state == c.state
              && ((!front && c.list != []) || out.Refused?)
            case _ => false
  {
  }

  lemma AfterDraw<S, P, T, O>(c: Core<S, P, T, O>, d: Core<S, P, T, O>, id: nat, x: Waiter<P, T>)
    requires id < |c.waiters| && d.waiters == DrawTicket(c, id).waiters && x.request == c.waiters[id].request
    ensures FatesOf(d.waiters[id := x]) == FatesOf(c.waiters)[id := FateOf(x.phase)]
    ensures RequestsOf(d.waiters[id := x]) == RequestsOf(c.waiters)
  {
    assert d.waiters[id := x] == c.waiters[id := x];
    FatesUpdate(c.waiters, id, x);
  }

  lemma JoinView<S, P, T, O>(c: Core<S, P, T, O>, id: nat, waker: nat, front: bool, params: P)
    requires id < |c.waiters|
    ensures Ids(Join(c, id, waker, front, params).list) == if front then [id] + Ids(c.list) else Ids(c.list) + [id]
  {
  }

  /** What is seen of a first poll, from what is seen before it. */
  lemma ConcludeView<S, P, T, O>(c: Core<S, P, T, O>, d: Core<S, P, T, O>, id: nat, waker: nat, outcome: Outcome<P, T>)
    requires id < |c.waiters| && d.waiters == DrawTicket(c, id).waiters && d.list == c.list && d.closed == c.closed
    requires outcome.Enqueue? ==> !d.discarded
    ensures var a, b := View(c), View(Conclude(d, id, waker, outcome).0);
            match outcome
            case Acquired(permit) => b == a.(state := d.state, fates := a.fates[id := Admitted(permit)])
            case Closed(params) => b == a.(state := d.state, fates := a.fates[id := Failed(params)])
            case Enqueue(front, _) =>
              b == a.(state := d.state, fates := a.fates[id := Waiting],
                      waiting := if front then [id] + a.waiting else a.waiting + [id])
            case _ => true
  {
    var x := d.waiters[id];
    match outcome
    case Acquired(permit) => AfterDraw(c, d, id, x.(phase := Done(Claimed(permit))));
    case Closed(params) => AfterDraw(c, d, id, x.(phase := Done(Rejected(params))));
    case Enqueue(front, params) =>
      AfterDraw(c, d, id, x.(phase := Linked, waker := waker));
      JoinView(d, id, waker, front, params);
    case _ =>
  }

  /** What the plain semaphore does for the same outcome. */
  lemma OutcomeTaken<S(!new), P(!new), T(!new), O>(
      r: Rules<S, P, T, O>, c: Core<S, P, T, O>, d: Core<S, P, T, O>, id: nat, outcome: Outcome<P, T>)
    requires Sound(r, c) && id < |c.waiters| && c.waiters[id].phase.Initial?
    requires var out := r.acquire(c.state, c.waiters[id].request);
             match outcome
             case Acquired(permit) => !c.closed && out == Granted(d.state, permit)
             case Closed(_) => c.closed && d.state == c.state
             case Enqueue(front, _) => !c.closed && d.state == c.state && ((!front && c.list != []) || out.Refused?)
             case _ => false
    ensures var a := View(c);
            Play(r, a, OutcomeEvents(id, outcome)) == Some(
              match outcome
              case Acquired(permit) => a.(state := d.state, fates := a.fates[id := Admitted(permit)])
              case Closed(_) => a.(fates := a.fates[id := Failed(c.waiters[id].request)])
              case Enqueue(front, _) =>
                a.(fates := a.fates[id := Waiting], waiting := if front then [id] + a.waiting else a.waiting + [id])
              case _ => a)
  {
    match outcome
    case Acquired(_) => PlayOne(r, View(c), TryFor(id));
    case Closed(_) =>
      NotWaiting(r, c, id);
      PlayOne(r, View(c), Fail(id));
    case Enqueue(front, _) => PlayOne(r, View(c), Enlist(id, front));
  }

  lemma NotWaiting<S, P, T, O>(r: Rules<S, P, T, O>, c: Core<S, P, T, O>, id: nat)
    requires Sound(r, c) && !IsLinked(c.waiters, id)
    ensures Leave(Ids(c.list), id) == Ids(c.list)
  {
    LeaveIsWithout(c.list, id);
    FindsLinked(c.list, c.waiters, id);
  }

  lemma FirstPollRefines<S(!new), P(!new), T(!new), O>(
      r: Rules<S, P, T, O>, w: World<S, P, T, O>, id: nat, waker: nat)
    requires GivesBack(r) && Steady(r) && Healthy(r, w)
    requires id < |w.core.waiters| && w.core.waiters[id].phase.Initial?
    requires !Attempt(r, DrawTicket(w.core, id), w.core.waiters[id].phase.params, true).0.poisoned
    ensures Play(r, View(w.core), BeforeEvents(r, w.core, w.held, Poll(id, waker)))
              == Some(View(FirstPoll(r, w.core, id, waker).0))
  {
    var c := w.core;
    var c0 := DrawTicket(c, id);
    var params := c.waiters[id].phase.params;
    var (d, outcome) := Attempt(r, c0, params, true);
    AttemptFrame(r, c0, params, true);
    DrawKeepsSound(r, c, id);
    AttemptMeans(r, c0, params, true);
    assert OwnPhase(c.waiters[id]);
    OutcomeTaken(r, c, d, id, outcome);
    ConcludeView(c, d, id, waker, outcome);
  }

  lemma PollRejectedRefines<S(!new), P(!new), T(!new), O>(
      r: Rules<S, P, T, O>, c: Core<S, P, T, O>, id: nat, waker: nat)
    requires Findable(c, id) && IsLinked(c.waiters, id) && OwnParams(c) && NoDead(c.list) && r.closeable && c.closed
    ensures Take(r, View(c), Fail(id)) == Some(View(PollLinked(r, c, id, waker).0))
  {
    var i := IndexOf(c.list, id);
    assert OwnEntry(c.list[i], c.waiters);
    LeaveIsWithout(c.list, id);
    FatesUpdate(c.waiters, id, c.waiters[id].(phase := Done(Rejected(c.list[i].params.value))));
  }

  lemma PollPendingRefines<S, P, T, O>(r: Rules<S, P, T, O>, c: Core<S, P, T, O>, id: nat, waker: nat)
    requires Findable(c, id) && IsLinked(c.waiters, id) && !c.closed
    ensures View(c) == View(PollLinked(r, c, id, waker).0)
  {
    var i := IndexOf(c.list, id);
    assert Ids(c.list[i := c.list[i].(waker := waker)]) == Ids(c.list);
    StutterUpdate(c.waiters, id, c.waiters[id].(waker := waker));
  }

  lemma PollLinkedRefines<S(!new), P(!new), T(!new), O>(
      r: Rules<S, P, T, O>, w: World<S, P, T, O>, id: nat, waker: nat)
    requires Healthy(r, w) && IsLinked(w.core.waiters, id)
    ensures Play(r, View(w.core), BeforeEvents(r, w.core, w.held, Poll(id, waker)))
              == Some(View(PollLinked(r, w.core, id, waker).0))
  {
    SoundFinds(r, w.core, id);
    if w.core.closed {
      PlayOne(r, View(w.core), Fail(id));
      PollRejectedRefines(r, w.core, id, waker);
    } else {
      PollPendingRefines(r, w.core, id, waker);
    }
  }

  lemma StutterUpdate<P, T>(ws: seq<Waiter<P, T>>, id: nat, x: Waiter<P, T>)
    requires id < |ws| && x.request == ws[id].request && FateOf(x.phase) == FateOf(ws[id].phase)
    ensures FatesOf(ws[id := x]) == FatesOf(ws) && RequestsOf(ws[id := x]) == RequestsOf(ws)
  {
  }

  lemma PollRefines<S(!new), P(!new), T(!new), O>(
      r: Rules<S, P, T, O>, w: World<S, P, T, O>, id: nat, waker: nat)
    requires GivesBack(r) && Steady(r) && Healthy(r, w)
    requires id < |w.core.waiters| && !PollCore(r, w.core, id, waker).0.poisoned
    ensures Play(r, View(w.core), BeforeEvents(r, w.core, w.held, Poll(id, waker)))
              == Some(View(PollCore(r, w.core, id, waker).0))
  {
    match w.core.waiters[id].phase
    case Initial(_) =>
      FirstPollPoison(r, w.core, id, waker);
      FirstPollRefines(r, w, id, waker);
    case Linked => PollLinkedRefines(r, w, id, waker);
    case _ => StutterUpdate(w.core.waiters, id, PollCore(r, w.core, id, waker).0.waiters[id]);
  }

  lemma CancelLinkedRefines<S, P, T, O>(r: Rules<S, P, T, O>, c: Core<S, P, T, O>, id: nat)
    requires Findable(c, id) && IsLinked(c.waiters, id)
    ensures Take(r, View(c), Withdraw(id)) == Some(View(Detach(r, c, id).0))
  {
    FatesUpdate(c.waiters, id, c.waiters[id].(phase := Done(Cancelled)));
    LeaveIsWithout(c.list, id);
  }

  lemma CancelOtherRefines<S, P, T, O>(r: Rules<S, P, T, O>, c: Core<S, P, T, O>, id: nat)
    requires Sound(r, c) && id < |c.waiters| && !c.waiters[id].phase.Linked? && !c.waiters[id].phase.Done?
    requires !Detach(r, c, id).0.poisoned
    ensures Take(r, View(c), Withdraw(id)) == Some(View(Detach(r, c, id).0))
  {
    FatesUpdate(c.waiters, id, c.waiters[id].(phase := Done(Cancelled)));
    NotWaiting(r, c, id);
  }

  lemma CancelRefines<S, P, T, O>(r: Rules<S, P, T, O>, w: World<S, P, T, O>, id: nat)
    requires Healthy(r, w) && id < |w.core.waiters| && !Detach(r, w.core, id).0.poisoned
    ensures Play(r, View(w.core), BeforeEvents(r, w.core, w.held, Cancel(id))) == Some(View(Detach(r, w.core, id).0))
  {
    PlayOne(r, View(w.core), Withdraw(id));
    if w.core.waiters[id].phase.Linked? {
      SoundFinds(r, w.core, id);
      CancelLinkedRefines(r, w.core, id);
    } else if !w.core.waiters[id].phase.Done? {
      CancelOtherRefines(r, w.core, id);
    }
  }

  // ----- steps and runs

  /** The events of a step: what the user asked for, then what servicing or closing adds. */
  function EventsOf<S, P, T, O>(r: Rules<S, P, T, O>, w: World<S, P, T, O>, step: Step<S, P, T>): seq<Event<S, P, T>> {
    BeforeEvents(r, w.core, w.held, step) +
    match Then(r, w, step)
    case Nothing => []
    case Check => var v := Before(r, w, step); RoundEvents(r, Spawn(v, false), |v.crews|)
    case CloseAll => RoundEvents(r, Spawn(w, true), |w.crews|)
    case Again(i) => RoundEvents(r, w, i)
  }

  lemma BeforeRefines<S(!new), P(!new), T(!new), O>(r: Rules<S, P, T, O>, w: World<S, P, T, O>, step: Step<S, P, T>)
    requires GivesBack(r) && Steady(r) && Healthy(r, w) && !Before(r, w, step).core.poisoned
    ensures Play(r, View(w.core), BeforeEvents(r, w.core, w.held, step)) == Some(View(Before(r, w, step).core))
  {
    match step
    case Poll(id, waker) =>
      if id < |w.core.waiters| { PollRefines(r, w, id, waker); }
    case Cancel(id) =>
      if id < |w.core.waiters| { CancelRefines(r, w, id); }
    case New(params) =>
      PlayOne(r, View(w.core), Arrive(params));
      NewView(w.core.waiters, Waiter(params, Initial(params), 0, 0, false));
    case Try(params, fair) =>
      AttemptFrame(r, w.core, params, fair);
      AttemptMeans(r, w.core, params, fair);
      PlayOne(r, View(w.core), TryNow(params));
    case Update(next, _) => PlayOne(r, View(w.core), SetState(next));
    case DropPermit(i) =>
      if i < |w.held| && w.held[i].Some? { PlayOne(r, View(w.core), GiveBack(w.held[i].value)); }
    case _ =>
  }

  lemma NewView<P, T>(ws: seq<Waiter<P, T>>, x: Waiter<P, T>)
    ensures FatesOf(ws + [x]) == FatesOf(ws) + [FateOf(x.phase)]
    ensures RequestsOf(ws + [x]) == RequestsOf(ws) + [x.request]
  {
  }

  lemma BeforeKeepsHealthy<S(!new), P(!new), T(!new), O>(
      r: Rules<S, P, T, O>, w: World<S, P, T, O>, step: Step<S, P, T>)
    requires GivesBack(r) && Healthy(r, w) && !Before(r, w, step).core.poisoned
    ensures Healthy(r, Before(r, w, step))
  {
    BeforeKeepsSafe(r, w, step);
    BeforeKeepsOwn(r, w, step);
    BeforeKeepsLive(r, w, step);
  }

  lemma StepKeepsHealthy<S(!new), P(!new), T(!new), O>(
      r: Rules<S, P, T, O>, w: World<S, P, T, O>, step: Step<S, P, T>)
    requires GivesBack(r) && Healthy(r, w) && !Do(r, w, step).core.poisoned
    ensures Healthy(r, Do(r, w, step))
  {
    StepKeepsSafe(r, w, step);
    StepKeepsOwn(r, w, step);
    StepKeepsLive(r, w, step);
  }

  /** Each step without panicking callbacks is a sequence of allowed events of the plain semaphore. */
  lemma StepRefines<S(!new), P(!new), T(!new), O>(r: Rules<S, P, T, O>, w: World<S, P, T, O>, step: Step<S, P, T>)
    requires GivesBack(r) && Steady(r) && Healthy(r, w) && !Do(r, w, step).core.poisoned
    ensures Play(r, View(w.core), EventsOf(r, w, step)) == Some(View(Do(r, w, step).core))
  {
    StaysPoisoned(r, w, step);
    BeforeRefines(r, w, step);
    BeforeKeepsHealthy(r, w, step);
    var v := Before(r, w, step);
    var es := BeforeEvents(r, w.core, w.held, step);
    match Then(r, w, step)
    case Nothing => assert es + [] == es;
    case Check =>
      RoundRefines(r, Spawn(v, false), |v.crews|);
      PlayConcat(r, View(w.core), es, RoundEvents(r, Spawn(v, false), |v.crews|));
    case CloseAll =>
      RoundRefines(r, Spawn(w, true), |w.crews|);
      PlayConcat(r, View(w.core), es, RoundEvents(r, Spawn(w, true), |w.crews|));
    case Again(i) =>
      RoundRefines(r, w, i);
      PlayConcat(r, View(w.core), es, RoundEvents(r, w, i));
  }

  function RunEvents<S, P, T, O>(
      r: Rules<S, P, T, O>, w: World<S, P, T, O>, steps: seq<Step<S, P, T>>): seq<Event<S, P, T>>
    decreases |steps|
  {
    if steps == [] then [] else EventsOf(r, w, steps[0]) + RunEvents(r, Do(r, w, steps[0]), steps[1..])
  }

  lemma {:induction false} RunRefines<S(!new), P(!new), T(!new), O>(
      r: Rules<S, P, T, O>, w: World<S, P, T, O>, steps: seq<Step<S, P, T>>)
    requires GivesBack(r) && Steady(r) && Healthy(r, w) && Unpoisoned(r, w, steps)
    ensures Play(r, View(w.core), RunEvents(r, w, steps)) == Some(View(Exec(r, w, steps).core))
    decreases |steps|
  {
    if steps == [] {
    } else {
      StepRefines(r, w, steps[0]);
      StepKeepsHealthy(r, w, steps[0]);
      RunRefines(r, Do(r, w, steps[0]), steps[1..]);
      PlayConcat(r, View(w.core), EventsOf(r, w, steps[0]), RunEvents(r, Do(r, w, steps[0]), steps[1..]));
    }
  }

  function Opening<S, P, T>(state: S): Plain<S, P, T> { Plain(state, [], false, [], []) }

  /** Whatever interleaves, a run of a new queue in which no callback panics is a run of the plain
      semaphore that ends with the same state, the same requests waiting in the same order, and
      the same fate for every request. */
  lemma QueueRefinesPlain<S(!new), P(!new), T(!new), O>(
      r: Rules<S, P, T, O>, state: S, order: O, steps: seq<Step<S, P, T>>)
    requires GivesBack(r) && Steady(r) && Unpoisoned(r, Init<S, P, T, O>(state, order), steps)
    ensures Play(r, Opening<S, P, T>(state), RunEvents(r, Init<S, P, T, O>(state, order), steps))
              == Some(View(Reach(r, state, order, steps).core))
  {
    RunRefines(r, Init<S, P, T, O>(state, order), steps);
    assert View(InitCore<S, P, T, O>(state, order)) == Opening<S, P, T>(state);
  }
}
