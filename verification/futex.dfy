/** The futex mutex (flag-bearer-mutex/src/futex.rs) as a machine of one shared word and one
    program counter per thread. Each atomic access and each system call is one step. */
module Futex {

  datatype Word = UNLOCKED | LOCKED | CONTENDED

  const SPINS: nat := 4

  /** Where a thread is. `seen` is the local variable `state` of `lock_contended`. */
  datatype Pc =
    | Out                   // holds nothing, wants nothing
    | Enter                 // in lock, before compare_exchange_weak
    | FirstSpin(left: nat)  // in spin, before its next load, on the way in
    | Retry                 // before the compare_exchange after the first spin
    | Mark(seen: Word)      // at the top of the loop
    | BeforeWait            // about to call FUTEX_WAIT
    | Asleep
    | NextSpin(left: nat)   // in spin, after a wait returned
    | Holder
    | BeforeWake            // unlocked, about to call FUTEX_WAKE

  datatype Mutex = Mutex(word: Word, pcs: seq<Pc>)

  /** A scheduled action of thread `t`. `lucky` is false when compare_exchange_weak fails
      spuriously or a wait returns early; `target` is the sleeper the kernel picks. */
  datatype Act =
    | Lock(t: nat)
    | TryLock(t: nat)
    | Unlock(t: nat)
    | Go(t: nat, lucky: bool)
    | Wake(t: nat, target: nat)
    | Spurious(t: nat)

  predicate Awake(pc: Pc) { pc.Mark? || pc.BeforeWait? || pc.NextSpin? }

  predicate Requesting(pc: Pc) {
    pc.Enter? || pc.FirstSpin? || pc.Retry? || pc.Asleep? || Awake(pc)
  }

  predicate Can(m: Mutex, a: Act) {
    && a.t < |m.pcs|
    && match a
       case Lock(t) => m.pcs[t].Out?
       case TryLock(t) => m.pcs[t].Out?
       case Unlock(t) => m.pcs[t].Holder?
       case Go(t, _) => Requesting(m.pcs[t]) && !m.pcs[t].Asleep?
       case Wake(t, target) =>
         m.pcs[t].BeforeWake? && ((target < |m.pcs| && m.pcs[target].Asleep?) || NoSleeper(m.pcs))
       case Spurious(t) => m.pcs[t].Asleep?
  }

  ghost predicate Sleeps(pcs: seq<Pc>) { exists i :: 0 <= i < |pcs| && pcs[i].Asleep? }

  predicate NoSleeper(pcs: seq<Pc>) { forall i :: 0 <= i < |pcs| ==> !pcs[i].Asleep? }

  /** The word and the program counter after a running requester's next access. */
  function Advance(word: Word, pc: Pc, lucky: bool): (Word, Pc) {
    match pc
    case Enter => if word == UNLOCKED && lucky then (LOCKED, Holder) else (word, FirstSpin(SPINS))
    case FirstSpin(left) =>
      if word == LOCKED && left != 0 then (word, FirstSpin(left - 1))
      else if word == UNLOCKED then (word, Retry)
      else (word, Mark(word))
    case Retry => if word == UNLOCKED then (LOCKED, Holder) else (word, Mark(word))
    case Mark(seen) =>
      if seen == CONTENDED then (word, BeforeWait)
      else (CONTENDED, if word == UNLOCKED then Holder else BeforeWait)
    case BeforeWait => if word == CONTENDED && lucky then (word, Asleep) else (word, NextSpin(SPINS))
    case NextSpin(left) =>
      if word == LOCKED && left != 0 then (word, NextSpin(left - 1)) else (word, Mark(word))
    case _ => (word, pc)
  }

  function Next(m: Mutex, a: Act): Mutex
    requires Can(m, a)
  {
    match a
    case Lock(t) => m.(pcs := m.pcs[t := Enter])
    case TryLock(t) => if m.word == UNLOCKED then Mutex(LOCKED, m.pcs[t := Holder]) else m
    case Unlock(t) => Mutex(UNLOCKED, m.pcs[t := if m.word == CONTENDED then BeforeWake else Out])
    case Go(t, lucky) =>
      var (word, pc) := Advance(m.word, m.pcs[t], lucky);
      Mutex(word, m.pcs[t := pc])
    case Wake(t, target) =>
      var woken := if target < |m.pcs| && m.pcs[target].Asleep? then m.pcs[target := NextSpin(SPINS)] else m.pcs;
      m.(pcs := woken[t := Out])
    case Spurious(t) => m.(pcs := m.pcs[t := NextSpin(SPINS)])
  }

  predicate Runs(m: Mutex, acts: seq<Act>)
    decreases |acts|
  {
    acts == [] || (Can(m, acts[0]) && Runs(Next(m, acts[0]), acts[1..]))
  }

  function After(m: Mutex, acts: seq<Act>): Mutex
    requires Runs(m, acts)
    decreases |acts|
  {
    if acts == [] then m else After(Next(m, acts[0]), acts[1..])
  }

  function Start(threads: nat): Mutex {
    Mutex(UNLOCKED, seq(threads, _ => Out))
  }

  // ----- who writes, who gets the lock and who sleeps

  /** A thread gets the lock at exactly three places, each finding the word UNLOCKED: on the way in,
      on the one retry after the first spin, and by marking a word it last saw uncontended. Only the
      last leaves CONTENDED behind. */
  lemma AcquiresExactly(word: Word, pc: Pc, lucky: bool)
    requires Requesting(pc)
    ensures var (after, next) := Advance(word, pc, lucky);
            && (next.Holder? <==>
                  word == UNLOCKED && ((pc.Enter? && lucky) || pc.Retry? || (pc.Mark? && pc.seen != CONTENDED)))
            && (next.Holder? ==> after == if pc.Mark? then CONTENDED else LOCKED)
  {
  }

  /** A thread changes the word only by taking a free lock or by marking one that it last saw
      uncontended, and one that saw CONTENDED does not write before it has waited. */
  lemma WritesExactly(word: Word, pc: Pc, lucky: bool)
    requires Requesting(pc)
    ensures var after := Advance(word, pc, lucky).0;
            after == if pc.Mark? && pc.seen != CONTENDED then CONTENDED
                     else if Advance(word, pc, lucky).1.Holder? then LOCKED else word
  {
  }

  /** A thread falls asleep only in FUTEX_WAIT on a word that is CONTENDED, and every thread that is
      about to wait has marked the word or seen it marked. */
  lemma SleepsExactly(word: Word, pc: Pc, lucky: bool)
    requires Requesting(pc) && !pc.Asleep?
    ensures var (after, next) := Advance(word, pc, lucky);
            && (next.Asleep? <==> pc.BeforeWait? && word == CONTENDED && lucky)
            && (next.BeforeWait? <==> pc.Mark? && (pc.seen == CONTENDED || word != UNLOCKED))
  {
  }

  /** What a thread goes by is the word it has just found; before marking and after waiting it spins,
      for at most four loads that find LOCKED and one more; and it retries without marking exactly
      when the first spin finds the lock free. */
  lemma SeesExactly(word: Word, pc: Pc, lucky: bool)
    requires Requesting(pc) && !pc.Asleep?
    ensures var next := Advance(word, pc, lucky).1;
            && (next.Mark? ==> next.seen == word)
            && (pc.Enter? && !next.Holder? ==> next == FirstSpin(4))
            && (pc.BeforeWait? && !next.Asleep? ==> next == NextSpin(4))
            && (next.Retry? <==> pc.FirstSpin? && word == UNLOCKED)
  {
  }

  /** Only thread `t` acts. */
  predicate OnlyActs(acts: seq<Act>, t: nat) { forall i :: 0 <= i < |acts| ==> acts[i].t == t }

  /** Thread `t` is on the fast path, and nobody else wants anything. */
  ghost predicate Uncontended(m: Mutex, t: nat) {
    && t < |m.pcs|
    && (forall i :: 0 <= i < |m.pcs| && i != t ==> m.pcs[i].Out?)
    && match m.pcs[t]
       case Holder => m.word == LOCKED
       case Out => m.word == UNLOCKED
       case Enter => m.word == UNLOCKED
       case FirstSpin(_) => m.word == UNLOCKED
       case Retry => m.word == UNLOCKED
       case _ => false
  }

  lemma {:induction false} StaysUncontended(m: Mutex, acts: seq<Act>, t: nat)
    requires Uncontended(m, t) && Runs(m, acts) && OnlyActs(acts, t)
    ensures Uncontended(After(m, acts), t)
    decreases |acts|
  {
    if acts == [] {
    } else {
      assert acts[0].t == t;
      StaysUncontended(Next(m, acts[0]), acts[1..], t);
    }
  }

  /** A thread that is alone never marks the word, never waits and never wakes anybody, however often
      it locks and unlocks and however often a weak exchange fails. */
  lemma AloneIsCheap(threads: nat, acts: seq<Act>, t: nat)
    requires t < threads && Runs(Start(threads), acts) && OnlyActs(acts, t)
    ensures var m := After(Start(threads), acts);
            && t < |m.pcs| && m.word != CONTENDED
            && !m.pcs[t].BeforeWait? && !m.pcs[t].Asleep? && !m.pcs[t].BeforeWake?
  {
    StaysUncontended(Start(threads), acts, t);
  }

  // ----- mutual exclusion

  ghost predicate OneHolder(m: Mutex) {
    forall i, j :: 0 <= i < |m.pcs| && 0 <= j < |m.pcs| && m.pcs[i].Holder? && m.pcs[j].Holder? ==> i == j
  }

  ghost predicate FreeWhenNoHolder(m: Mutex) {
    m.word == UNLOCKED <==> forall i :: 0 <= i < |m.pcs| ==> !m.pcs[i].Holder?
  }

  /** At most one holder, and the word is UNLOCKED exactly when there is none. */
  ghost predicate Exclusive(m: Mutex) { OneHolder(m) && FreeWhenNoHolder(m) }

  /** Somebody will see to the sleepers: the word tells the next unlocker, an unlocker is about
      to wake one, or a thread is awake inside the loop of `lock_contended`. */
  ghost predicate Covered(m: Mutex) {
    Sleeps(m.pcs) ==>
      || m.word == CONTENDED
      || exists i :: 0 <= i < |m.pcs| && (m.pcs[i].BeforeWake? || Awake(m.pcs[i]))
  }

  ghost predicate Good(m: Mutex) { Exclusive(m) && Covered(m) }

  /** Only the acting thread can start or stop holding the lock; it starts when the word is free. */
  lemma HoldersAfter(m: Mutex, a: Act)
    requires Can(m, a)
    ensures var n := Next(m, a);
            && |n.pcs| == |m.pcs|
            && (forall i :: 0 <= i < |m.pcs| && i != a.t ==> n.pcs[i].Holder? == m.pcs[i].Holder?)
            && (n.pcs[a.t].Holder? ==> m.word == UNLOCKED && n.word != UNLOCKED)
            && (!n.pcs[a.t].Holder? && !a.Unlock? ==>
                  !m.pcs[a.t].Holder? && (n.word == UNLOCKED <==> m.word == UNLOCKED))
            && (a.Unlock? ==> m.pcs[a.t].Holder? && n.word == UNLOCKED)
  {
  }

  lemma NextKeepsExclusive(m: Mutex, a: Act)
    requires Exclusive(m) && Can(m, a)
    ensures Exclusive(Next(m, a))
  {
    HoldersAfter(m, a);
    var n := Next(m, a);
    if h :| 0 <= h < |m.pcs| && m.pcs[h].Holder? && h != a.t {
      assert n.pcs[h].Holder?;
    }
  }

  lemma NextKeepsCovered(m: Mutex, a: Act)
    requires Covered(m) && Can(m, a)
    ensures Covered(Next(m, a))
  {
    var n := Next(m, a);
    if Sleeps(n.pcs) && n.word != CONTENDED {
      var s :| 0 <= s < |n.pcs| && n.pcs[s].Asleep?;
      if m.pcs[s].Asleep? && m.word != CONTENDED {
        var i :| 0 <= i < |m.pcs| && (m.pcs[i].BeforeWake? || Awake(m.pcs[i]));
        if a.Wake? && i == a.t {
          assert Awake(n.pcs[a.target]);
        } else if i != a.t {
          assert n.pcs[i] == m.pcs[i];
        } else {
          assert Awake(n.pcs[i]);
        }
      } else {
        assert n.pcs[a.t].BeforeWake?;
      }
    }
  }

  /** For any number of threads and any interleaving, with spurious failures and wakes. */
  lemma {:induction false} RunKeepsGood(m: Mutex, acts: seq<Act>)
    requires Good(m) && Runs(m, acts)
    ensures Good(After(m, acts))
    decreases |acts|
  {
    if acts == [] {
    } else {
      NextKeepsExclusive(m, acts[0]);
      NextKeepsCovered(m, acts[0]);
      RunKeepsGood(Next(m, acts[0]), acts[1..]);
    }
  }

  lemma StartIsGood(threads: nat)
    ensures Good(Start(threads))
  {
  }

  /** The lost-wake state: the lock is free, somebody sleeps, every request is asleep and no
      unlocker is about to wake anyone. */
  ghost predicate Stuck(m: Mutex) {
    && m.word == UNLOCKED
    && Sleeps(m.pcs)
    && forall i :: 0 <= i < |m.pcs| ==> !m.pcs[i].BeforeWake? && !(Requesting(m.pcs[i]) && !m.pcs[i].Asleep?)
  }

  lemma NeverStuck(threads: nat, acts: seq<Act>)
    requires Runs(Start(threads), acts)
    ensures !Stuck(After(Start(threads), acts))
  {
    StartIsGood(threads);
    RunKeepsGood(Start(threads), acts);
  }

  // ----- progress

  /** How far a thread is from Out when it is scheduled while the lock is free. */
  function Rank(pc: Pc): nat {
    match pc
    case Out => 0
    case BeforeWake => 1
    case Holder => 2
    case Enter => 3
    case Retry => 3
    case Mark(seen) => if seen == CONTENDED then 6 else 3
    case FirstSpin(_) => 4
    case NextSpin(_) => 4
    case BeforeWait => 5
    case Asleep => 7
  }

  function Total(pcs: seq<Pc>): nat {
    if pcs == [] then 0 else Rank(pcs[0]) + Total(pcs[1..])
  }

  lemma {:induction false} TotalUpdate(pcs: seq<Pc>, i: nat, pc: Pc)
    requires i < |pcs|
    ensures Total(pcs[i := pc]) == Total(pcs) - Rank(pcs[i]) + Rank(pc)
    decreases |pcs|
  {
    if i == 0 {
      assert pcs[0 := pc][1..] == pcs[1..];
    } else {
      assert pcs[i := pc][1..] == pcs[1..][i - 1 := pc];
      TotalUpdate(pcs[1..], i - 1, pc);
    }
  }

  lemma {:induction false} TotalBound(pcs: seq<Pc>)
    ensures Total(pcs) <= 7 * |pcs|
    ensures Total(pcs) == 0 <==> forall i :: 0 <= i < |pcs| ==> pcs[i].Out?
    decreases |pcs|
  {
    if pcs == [] {
    } else {
      TotalBound(pcs[1..]);
      if Total(pcs) == 0 {
        assert forall i :: 0 <= i < |pcs| ==> pcs[i] == (if i == 0 then pcs[0] else pcs[1..][i - 1]);
      } else if pcs[0].Out? {
        var i :| 0 <= i < |pcs[1..]| && !pcs[1..][i].Out?;
        assert !pcs[i + 1].Out?;
      }
    }
  }

  /** An action that starts no request and is no accident. */
  predicate Willing(a: Act) { a.Unlock? || a.Wake? || (a.Go? && a.lucky) }

  predicate AllWilling(acts: seq<Act>) { forall i :: 0 <= i < |acts| ==> Willing(acts[i]) }

  lemma GoesDown(pc: Pc)
    requires Requesting(pc) && !pc.Asleep?
    ensures Rank(Advance(UNLOCKED, pc, true).1) < Rank(pc)
  {
    match pc
    case Mark(seen) =>
    case _ =>
  }

  /** While anything is outstanding some willing action brings the total down. */
  lemma SomethingToDo(m: Mutex) returns (a: Act)
    requires Good(m) && Total(m.pcs) > 0
    ensures Can(m, a) && Willing(a) && Total(Next(m, a).pcs) < Total(m.pcs)
  {
    TotalBound(m.pcs);
    if h :| 0 <= h < |m.pcs| && m.pcs[h].Holder? {
      a := Unlock(h);
      TotalUpdate(m.pcs, h, if m.word == CONTENDED then BeforeWake else Out);
    } else if n :| 0 <= n < |m.pcs| && m.pcs[n].BeforeWake? {
      if s :| 0 <= s < |m.pcs| && m.pcs[s].Asleep? {
        a := Wake(n, s);
        TotalUpdate(m.pcs, s, NextSpin(SPINS));
        TotalUpdate(m.pcs[s := NextSpin(SPINS)], n, Out);
      } else {
        a := Wake(n, n);
        TotalUpdate(m.pcs, n, Out);
      }
    } else {
      // The lock is free and nobody is about to wake a sleeper: coverage finds a thread awake.
      assert m.word == UNLOCKED;
      var i :| 0 <= i < |m.pcs| && Requesting(m.pcs[i]) && !m.pcs[i].Asleep?;
      a := Go(i, true);
      GoesDown(m.pcs[i]);
      TotalUpdate(m.pcs, i, Advance(m.word, m.pcs[i], true).1);
    }
  }

  /** From every good state there is a schedule without new requests, of at most seven actions
      a thread, after which nobody holds or wants the lock. */
  lemma {:induction false} Drains(m: Mutex) returns (acts: seq<Act>)
    requires Good(m)
    ensures Runs(m, acts) && AllWilling(acts) && |acts| <= Total(m.pcs) <= 7 * |m.pcs|
    ensures |After(m, acts).pcs| == |m.pcs|
    ensures forall i :: 0 <= i < |m.pcs| ==> After(m, acts).pcs[i].Out?
    decreases Total(m.pcs)
  {
    TotalBound(m.pcs);
    if Total(m.pcs) == 0 {
      acts := [];
    } else {
      var a := SomethingToDo(m);
      NextKeepsExclusive(m, a);
      NextKeepsCovered(m, a);
      var rest := Drains(Next(m, a));
      acts := [a] + rest;
      assert acts[1..] == rest;
    }
  }

  /** Thread `t` holds the lock at some point of the run. */
  predicate Obtains(m: Mutex, acts: seq<Act>, t: nat)
    requires Runs(m, acts)
    decreases |acts|
  {
    || (t < |m.pcs| && m.pcs[t].Holder?)
    || (acts != [] && Obtains(Next(m, acts[0]), acts[1..], t))
  }

  /** A request has no way out but through holding the lock. */
  lemma {:induction false} LeavesAsHolder(m: Mutex, acts: seq<Act>, t: nat)
    requires Runs(m, acts) && t < |m.pcs| && Requesting(m.pcs[t])
    requires t < |After(m, acts).pcs| && !Requesting(After(m, acts).pcs[t])
    ensures Obtains(m, acts, t)
    decreases |acts|
  {
    if acts == [] {
    } else {
      var n := Next(m, acts[0]);
      if Requesting(n.pcs[t]) {
        LeavesAsHolder(n, acts[1..], t);
      } else {
        assert n.pcs[t].Holder?;
        assert Obtains(n, acts[1..], t);
      }
    }
  }

  /** Progress: whatever happened before, if no request arrives and holders unlock, the
      outstanding requests can all be served, and a schedule linear in the number of threads
      does it. */
  lemma EveryRequestCanObtain(threads: nat, past: seq<Act>) returns (acts: seq<Act>)
    requires Runs(Start(threads), past)
    ensures var m := After(Start(threads), past);
            && Runs(m, acts) && AllWilling(acts) && |acts| <= 7 * |m.pcs|
            && forall t :: 0 <= t < |m.pcs| && Requesting(m.pcs[t]) ==> Obtains(m, acts, t)
  {
    var m := After(Start(threads), past);
    StartIsGood(threads);
    RunKeepsGood(Start(threads), past);
    acts := Drains(m);
    forall t | 0 <= t < |m.pcs| && Requesting(m.pcs[t]) ensures Obtains(m, acts, t) {
      LeavesAsHolder(m, acts, t);
    }
  }
}
