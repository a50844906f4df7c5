/** Where a waiter is left although the state would serve it: one run for each kind of step that
    Stranded.Strands names. All use the counting semaphore in FIFO order with batches of 32. */
module Traps {
  import opened SemaphoreStates
  import opened Orders
  import opened QueueModel
  import opened Machine
  import opened Lifecycle
  import opened Stranded
  import opened Limits

  type Request = Step<Word, Word, Word>
  type Queue = World<Word, Word, Word, FairOrder>

  function Fair(): Rules<Word, Word, Word, FairOrder> { Counter(FairFront, true) }

  /** The same, but `acquire` panics on a request for nothing. */
  function Fragile(): Rules<Word, Word, Word, FairOrder> {
    Fair().(acquire := (s: Word, n: Word) => if n == 0 then AcquireUnwound(s) else CounterAcquire(s, n))
  }

  function Start(): Queue { Init(0, Fifo) }

  /** The queue is open, its first live waiter would be granted, and nobody will check. */
  ghost predicate LeftWaiting(r: Rules<Word, Word, Word, FairOrder>, w: Queue) {
    && !w.core.closed && !w.core.poisoned && !CheckOwed(w.crews)
    && FirstLive(w.core.list).Some? && r.acquire(w.core.state, FirstLive(w.core.list).value).Granted?
  }

  lemma FairLaws(r: Rules<Word, Word, Word, FairOrder>)
    requires r == Fair() || r == Fragile()
    ensures GivesBack(r) && Steady(r) && Monotone(r)
  {
    CounterLaws(FairFront, true);
  }

  /** A run that was attended until its last step, which strands. */
  ghost predicate StrandsAtLast(
      r: Rules<Word, Word, Word, FairOrder>, past: seq<Request>, last: Request)
  {
    var w := Exec(r, Start(), past);
    Attended(r, w) && Strands(r, w, last) && LeftWaiting(r, Exec(r, Start(), past + [last]))
  }

  /** The instances of Stranded.StepAttends. */
  lemma LastStepStrands(r: Rules<Word, Word, Word, FairOrder>, past: seq<Request>, last: Request)
    requires r == Fair() || r == Fragile()
    requires var w := Exec(r, Start(), past);
             Attended(r, w) && Strands(r, w, last) && FirstLive(Do(r, w, last).core.list) != Some(0)
    ensures StrandsAtLast(r, past, last)
  {
    var w := Exec(r, Start(), past);
    FairLaws(r);
    RunKeepsSafe(r, Start(), past);
    StepAttends(r, w, last);
    ExecConcat(r, Start(), past, [last]);
    ExecOne(r, w, last);
  }

  lemma {:induction false} ExecConcat(
      r: Rules<Word, Word, Word, FairOrder>, w: Queue, a: seq<Request>, b: seq<Request>)
    ensures Exec(r, w, a + b) == Exec(r, Exec(r, w, a), b)
    decreases |a|
  {
    if a == [] {
      assert a + b == b;
    } else {
      assert (a + b)[1..] == a[1..] + b;
      ExecConcat(r, Do(r, w, a[0]), a[1..], b);
    }
  }

  lemma ExecOne(r: Rules<Word, Word, Word, FairOrder>, w: Queue, a: Request)
    ensures Exec(r, w, [a]) == Do(r, w, a)
  {
    assert [a][1..] == [];
  }

  lemma ExecTwo(r: Rules<Word, Word, Word, FairOrder>, w: Queue, a: Request, b: Request)
    ensures Exec(r, w, [a, b]) == Do(r, Do(r, w, a), b)
  {
    assert [a, b][1..] == [b] && [b][1..] == [];
    assert Exec(r, Do(r, w, a), [b]) == Do(r, Do(r, w, a), b);
  }

  /** Open, sane, first in first out. */
  predicate Usual(r: Rules<Word, Word, Word, FairOrder>, w: Queue) {
    && r.capacity == 32 && w.core.order == Fifo && r.enqueueFront(Fifo, w.core.len) == (Fifo, false)
    && !w.core.poisoned && !w.core.closed && !w.core.discarded && w.core.len == |w.core.list|
  }

  /** A request that joins the queue. */
  function Queued(w: Queue, n: Word): Queue {
    var c := w.core;
    w.(core := c.(list := c.list + [Entry(|c.waiters|, Some(n), 7, false, c.tickets)], len := c.len + 1,
                  waiters := c.waiters + [Waiter(n, Linked, 7, c.tickets, false)], tickets := c.tickets + 1))
  }

  lemma QueuesUp(r: Rules<Word, Word, Word, FairOrder>, w: Queue, n: Word)
    requires Usual(r, w)
    requires w.core.list != [] || r.acquire(w.core.state, n) == Refused(w.core.state, n)
    ensures Exec(r, w, [New(n), Poll(|w.core.waiters|, 7)]) == Queued(w, n)
  {
    var id := |w.core.waiters|;
    ExecTwo(r, w, New(n), Poll(id, 7));
    var w1 := Do(r, w, New(n));
    assert w1.core.waiters == w.core.waiters + [Waiter(n, Initial(n), 0, 0, false)];
    var (c, outcome) := Attempt(r, DrawTicket(w1.core, id), n, true);
    assert outcome == Enqueue(false, n);
    assert Do(r, w1, Poll(id, 7)).core.waiters == Queued(w, n).core.waiters;
  }

  /** A `with_state` checks the queue. */
  lemma Rechecks(r: Rules<Word, Word, Word, FairOrder>, w: Queue, next: Word)
    requires Usual(r, w) && w.core.list != []
    ensures var v := Do(r, w, Update(next, false));
            var k := Serve(r, next, w.core.list, 32);
            && v.core.list == k.kept && v.core.state == k.state && v.core.poisoned == k.unwound
            && v.core.len == w.core.len - |k.removed| && v.core.tickets == w.core.tickets
            && |v.core.waiters| == |w.core.waiters|
            && !v.core.closed && !v.core.discarded && v.core.order == Fifo && v.held == w.held
            && v.crews == w.crews
                 + [Crew(WakesOf(k.removed), !k.unwound && |k.removed| == 32 && v.core.len != 0, false, 1)]
  {
  }

  // ----- clear_poison

  /** One waiter, a closure that panics, a repair, and `clear_poison`. */
  lemma ClearPoisonStrands()
    ensures StrandsAtLast(Fair(), [New(1), Poll(0, 7)] + [Update(0, true), Update(1, false)], ClearPoison)
  {
    var r := Fair();
    var a: seq<Request>, b: seq<Request> := [New(1), Poll(0, 7)], [Update(0, true), Update(1, false)];
    ExecConcat(r, Start(), a, b);
    QueuesUp(r, Start(), 1);
    var w1 := Queued(Start(), 1);
    ExecTwo(r, w1, Update(0, true), Update(1, false));
    var w2 := Exec(r, w1, b);
    assert w2.crews == [Crew([], false, false, 1)] by {
      assert WakesOf<Word, Word>([]) == [];
    }
    assert FirstLive(w2.core.list) == Some(1);
    LastStepStrands(r, a + b, ClearPoison);
  }

  // ----- a dead waiter at the head

  /** A waiter dies in a check, the poison is cleared and the queue checked again; then a newcomer
      queues behind the dead one without trying. */
  lemma DeadHeadStrands()
    ensures StrandsAtLast(Fragile(),
              [New(1), Poll(0, 7)] + [New(0), Poll(1, 7)] + [Update(1, false), ClearPoison]
              + [Update(1, false), New(1)],
              Poll(2, 7))
  {
    var r := Fragile();
    var a: seq<Request>, b: seq<Request> := [New(1), Poll(0, 7)], [New(0), Poll(1, 7)];
    var c: seq<Request>, d: seq<Request> := [Update(1, false), ClearPoison], [Update(1, false), New(1)];
    ExecConcat(r, Start(), a + b + c, d);
    ExecConcat(r, Start(), a + b, c);
    ExecConcat(r, Start(), a, b);
    var w2 := TwoQueued(a, b);
    Dies(w2, c);
    var dead := Entry(1, None, 7, false, 1);
    NewcomerComes(Exec(r, w2, c), dead, d);
    NewcomerWaits(Exec(r, Exec(r, w2, c), d), dead);
    LastStepStrands(r, a + b + c + d, Poll(2, 7));
  }

  lemma TwoQueued(a: seq<Request>, b: seq<Request>) returns (w: Queue)
    requires a == [New(1), Poll(0, 7)] && b == [New(0), Poll(1, 7)]
    ensures w == Exec(Fragile(), Exec(Fragile(), Start(), a), b) && Usual(Fragile(), w) && w.crews == []
    ensures |w.core.waiters| == 2
    ensures w.core.list == [Entry(0, Some(1), 7, false, 0), Entry(1, Some(0), 7, false, 1)]
  {
    QueuesUp(Fragile(), Start(), 1);
    QueuesUp(Fragile(), Queued(Start(), 1), 0);
    w := Queued(Queued(Start(), 1), 0);
  }

  lemma Dies(w2: Queue, c: seq<Request>)
    requires c == [Update(1, false), ClearPoison] && Usual(Fragile(), w2) && w2.crews == [] && |w2.core.waiters| == 2
    requires w2.core.list == [Entry(0, Some(1), 7, false, 0), Entry(1, Some(0), 7, false, 1)]
    ensures var w3 := Exec(Fragile(), w2, c);
            && Usual(Fragile(), w3) && !CheckOwed(w3.crews) && |w3.core.waiters| == 2
            && w3.core.list == [Entry(1, None, 7, false, 1)]
  {
    DiesInCheck(w2.core.list[0], w2.core.list[1]);
    Rechecks(Fragile(), w2, 1);
    ExecTwo(Fragile(), w2, Update(1, false), ClearPoison);
  }

  lemma NewcomerComes(w3: Queue, dead: Entry<Word>, d: seq<Request>)
    requires Usual(Fragile(), w3) && w3.core.list == [dead] && dead.params == None
    requires |w3.core.waiters| == 2 && !CheckOwed(w3.crews) && d == [Update(1, false), New(1)]
    ensures var w5 := Exec(Fragile(), w3, d);
            && Usual(Fragile(), w5) && !CheckOwed(w5.crews) && w5.core.list == [dead] && w5.core.state == 1
            && |w5.core.waiters| == 3 && w5.core.waiters[2].phase == Initial(1)
  {
    SkipsDead(dead);
    Rechecks(Fragile(), w3, 1);
    ExecTwo(Fragile(), w3, Update(1, false), New(1));
  }

  lemma NewcomerWaits(w5: Queue, dead: Entry<Word>)
    requires Usual(Fragile(), w5) && !CheckOwed(w5.crews) && w5.core.list == [dead] && w5.core.state == 1
    requires dead.params == None && |w5.core.waiters| == 3 && w5.core.waiters[2].phase == Initial(1)
    ensures Attended(Fragile(), w5) && Strands(Fragile(), w5, Poll(2, 7))
    ensures FirstLive(Do(Fragile(), w5, Poll(2, 7)).core.list) == Some(1)
  {
    var list := Do(Fragile(), w5, Poll(2, 7)).core.list;
    assert list == [dead] + [list[1]] && list[1].params == Some(1);
    FirstLiveConcat([dead], [list[1]]);
  }

  lemma DiesInCheck(first: Entry<Word>, dying: Entry<Word>)
    requires first.params == Some(1) && dying.params == Some(0)
    ensures Serve(Fragile(), 1, [first, dying], 32)
         == Scan(0, [dying.(params := None)], [Removal(first, RemovedOk(1))], true)
  {
    var list: seq<Entry<Word>> := [first, dying];
    assert list[1..] == [dying];
    assert Serve(Fragile(), 0, [dying], 31) == Scan(0, [dying.(params := None)], [], true);
  }

  lemma SkipsDead(dead: Entry<Word>)
    requires dead.params == None
    ensures Serve(Fragile(), 1, [dead], 32) == Scan(1, [dead], [], false)
  {
    assert [dead][1..] == [];
  }

  // ----- a waker that panics between batches

  function QueueUp(n: nat): seq<Request> {
    if n == 0 then [] else QueueUp(n - 1) + [New(1), Poll(n - 1, 7)]
  }

  function Line(n: nat): seq<Entry<Word>> {
    seq(n, i requires 0 <= i < n => Entry(i, Some(1), 7, false, i))
  }

  lemma LineGrows(n: nat)
    requires n > 0
    ensures Line(n) == Line(n - 1) + [Entry(n - 1, Some(1), 7, false, n - 1)]
  {
  }

  lemma {:induction false} LinesUp(n: nat)
    ensures var w := Exec(Fair(), Start(), QueueUp(n));
            && w.crews == [] && w.log == [] && w.core.list == Line(n) && w.core.len == n
            && |w.core.waiters| == n && w.core.tickets == n && w.core.order == Fifo && w.core.state == 0
            && !w.core.poisoned && !w.core.closed && !w.core.discarded
    decreases n
  {
    if n == 0 {
    } else {
      LinesUp(n - 1);
      ExecConcat(Fair(), Start(), QueueUp(n - 1), [New(1), Poll(n - 1, 7)]);
      var w := Exec(Fair(), Start(), QueueUp(n - 1));
      QueuesUp(Fair(), w, 1);
      LineGrows(n);
    }
  }

  lemma {:induction false} ServesUnits(s: Word, list: seq<Entry<Word>>, room: nat)
    requires room <= |list| && room <= s && forall k :: 0 <= k < |list| ==> list[k].params == Some(1)
    ensures var k := Serve(Fair(), s, list, room);
            k.state == s - room && k.kept == list[room..] && |k.removed| == room && !k.unwound
    decreases room
  {
    if room == 0 {
    } else {
      ServesUnits(s - 1, list[1..], room - 1);
    }
  }

  lemma PanicEndsIt(v: Queue)
    requires |v.crews| == 1 && v.crews[0].batch != [] && v.crews[0].owes && !v.crews[0].closing
    requires !v.core.closed && !v.core.poisoned && v.core.list != []
    requires v.core.list[0].params == Some(1) && v.core.state == 1
    ensures Attended(Fair(), v) && Strands(Fair(), v, Notify(0, true))
    ensures FirstLive(Do(Fair(), v, Notify(0, true)).core.list) == Some(1)
  {
    assert CheckOwed(v.crews);
  }

  lemma FillsBatch(w: Queue)
    requires Usual(Fair(), w) && w.core.list == Line(33) && w.crews == []
    ensures var v := Do(Fair(), w, Update(33, false));
            && |v.crews| == 1 && v.crews[0].batch != [] && v.crews[0].owes && !v.crews[0].closing
            && !v.core.closed && !v.core.poisoned && v.core.list != []
            && v.core.list[0].params == Some(1) && v.core.state == 1
  {
    ServesUnits(33, Line(33), 32);
    Rechecks(Fair(), w, 33);
  }

  /** Thirty-three waiters, thirty-three permits: the first waker of the first batch panics, and
      the last waiter stays. */
  lemma WakerPanicStrands()
    ensures StrandsAtLast(Fair(), QueueUp(33) + [Update(33, false)], Notify(0, true))
  {
    var r := Fair();
    LinesUp(33);
    ExecConcat(r, Start(), QueueUp(33), [Update(33, false)]);
    var w := Exec(r, Start(), QueueUp(33));
    ExecOne(r, w, Update(33, false));
    FillsBatch(w);
    PanicEndsIt(Do(r, w, Update(33, false)));
    LastStepStrands(r, QueueUp(33) + [Update(33, false)], Notify(0, true));
  }
}
