/** The code of the futex mutex as one thread executes it, proved to take the steps of Futex.
    What the other threads do in between is given: the word that each turn of the thread finds. */
module FutexLock {
  import opened Futex

  /** A thread inside `lock` is not scheduled while it sleeps: its next turn is a spin load. */
  function Onward(pc: Pc): Pc { if pc.Asleep? then NextSpin(SPINS) else pc }

  /** Where a thread that entered `lock` is after `n` turns. */
  function PcAt(found: nat -> Word, lucky: nat -> bool, n: nat): Pc {
    if n == 0 then Enter else Onward(Advance(found(n - 1), PcAt(found, lucky, n - 1), lucky(n - 1)).1)
  }

  /** Every turn so far was the one the machine takes, and the thread is now at `pc`. */
  ghost predicate OnCourse(found: nat -> Word, lucky: nat -> bool, left: seq<Word>, pc: Pc) {
    PcAt(found, lucky, |left|) == pc && Traced(found, lucky, left)
  }

  predicate Traced(found: nat -> Word, lucky: nat -> bool, left: seq<Word>)
    decreases |left|
  {
    left == [] ||
    (var n := |left| - 1;
     left[n] == Advance(found(n), PcAt(found, lucky, n), lucky(n)).0 && Traced(found, lucky, left[..n]))
  }

  lemma OneTurn(found: nat -> Word, lucky: nat -> bool, left: seq<Word>, pc: Pc, word: Word, next: Pc)
    requires OnCourse(found, lucky, left, pc)
    requires word == Advance(found(|left|), pc, lucky(|left|)).0
    requires next == Onward(Advance(found(|left|), pc, lucky(|left|)).1)
    ensures OnCourse(found, lucky, left + [word], next)
  {
    assert (left + [word])[..|left|] == left;
  }

  function Spinning(first: bool, spin: nat): Pc { if first then FirstSpin(spin) else NextSpin(spin) }

  function Spun(first: bool, state: Word): Pc { if first && state == UNLOCKED then Retry else Mark(state) }

  lemma SpinTurn(first: bool, spin: nat, state: Word, lucky: bool)
    ensures Advance(state, Spinning(first, spin), lucky).0 == state
    ensures Onward(Advance(state, Spinning(first, spin), lucky).1)
         == if state == LOCKED && spin != 0 then Spinning(first, spin - 1) else Spun(first, state)
  {
  }

  /** The shared word, as one thread sees it. */
  class SharedWord {
    /** The word at the k-th turn. */
    const found: nat -> Word
    /** False when the k-th turn is a weak exchange that fails without reason, or a wait that
        returns at once. */
    const lucky: nat -> bool
    /** What each turn so far left behind. */
    var left: seq<Word>
    var wakes: nat

    ghost predicate At(pc: Pc)
      reads this
    {
      OnCourse(found, lucky, left, pc)
    }

    constructor (found: nat -> Word, lucky: nat -> bool)
      ensures At(Enter) && left == [] && wakes == 0 && this.found == found && this.lucky == lucky
    {
      this.found, this.lucky := found, lucky;
      left, wakes := [], 0;
    }

    method Load() returns (word: Word)
      modifies this`left
      ensures word == found(old(|left|)) && left == old(left) + [word]
    {
      word := found(|left|);
      left := left + [word];
    }

    method CompareExchange(current: Word, next: Word, weak: bool) returns (ok: bool, word: Word)
      modifies this`left
      ensures word == found(old(|left|)) && ok == (word == current && (weak ==> lucky(old(|left|))))
      ensures left == old(left) + [if ok then next else word]
    {
      word := found(|left|);
      ok := word == current && (!weak || lucky(|left|));
      left := left + [if ok then next else word];
    }

    method Swap(next: Word) returns (word: Word)
      modifies this`left
      ensures word == found(old(|left|)) && left == old(left) + [next]
    {
      word := found(|left|);
      left := left + [next];
    }

    /** A turn without an access: the thread decides on its own variables. */
    method Look()
      modifies this`left
      ensures left == old(left) + [found(old(|left|))]
    {
      left := left + [found(|left|)];
    }

    /** FUTEX_WAIT returns: the word was not CONTENDED, or the thread slept and was woken. */
    method Wait()
      modifies this`left
      ensures left == old(left) + [found(old(|left|))]
    {
      left := left + [found(|left|)];
    }

    method Lock(limit: nat) returns (locked: bool)
      requires left == []
      modifies this`left
      ensures if locked then At(Holder) else |left| >= limit && exists seen :: At(Mark(seen))
    {
      var ok, word := CompareExchange(UNLOCKED, LOCKED, true);
      OneTurn(found, lucky, [], Enter, left[0], if ok then Holder else FirstSpin(SPINS));
      if ok { return true; }
      locked := LockContended(limit);
    }

    /** The source's loop has no bound; here it is left after `limit` turns. */
    method LockContended(limit: nat) returns (locked: bool)
      requires At(FirstSpin(SPINS))
      modifies this`left
      ensures if locked then At(Holder) else |left| >= limit && exists seen :: At(Mark(seen))
    {
      var state := Spin(true);
      if state == UNLOCKED {
        ghost var was := left;
        var ok, word := CompareExchange(UNLOCKED, LOCKED, false);
        OneTurn(found, lucky, was, Retry, left[|was|], if ok then Holder else Mark(word));
        if ok { return true; }
        state := word;
      }
      locked := false;
      while |left| < limit
        invariant At(Mark(state))
        decreases limit - |left|
      {
        locked := MarkContended(state);
        if locked { return; }
        ghost var was := left;
        Wait();
        OneTurn(found, lucky, was, BeforeWait, left[|was|], NextSpin(SPINS));
        state := Spin(false);
      }
    }

    /** Put the lock in the contended state, unless it was seen there; true when that locked it. */
    method MarkContended(state: Word) returns (locked: bool)
      requires At(Mark(state))
      modifies this`left
      ensures At(if locked then Holder else BeforeWait) && |left| > |old(left)|
    {
      locked := false;
      if state != CONTENDED {
        var word := Swap(CONTENDED);
        locked := word == UNLOCKED;
      } else {
        Look();
      }
      OneTurn(found, lucky, old(left), Mark(state), left[|old(left)|], if locked then Holder else BeforeWait);
    }

    method Spin(first: bool) returns (state: Word)
      requires At(Spinning(first, SPINS))
      modifies this`left
      ensures At(Spun(first, state))
      ensures |old(left)| < |left| <= |old(left)| + 5 && state == found(|left| - 1)
      ensures forall k: nat :: |old(left)| <= k < |left| - 1 ==> found(k) == LOCKED
      ensures state == LOCKED ==> |left| == |old(left)| + 5
    {
      var spin: nat := SPINS;
      while true
        invariant At(Spinning(first, spin))
        invariant |left| == |old(left)| + SPINS - spin
        invariant forall k: nat :: |old(left)| <= k < |left| ==> found(k) == LOCKED
        decreases spin
      {
        ghost var was := left;
        state := Load();
        ghost var next := if state == LOCKED && spin != 0 then Spinning(first, spin - 1) else Spun(first, state);
        SpinTurn(first, spin, state, lucky(|was|));
        OneTurn(found, lucky, was, Spinning(first, spin), state, next);
        if state != LOCKED || spin == 0 { return; }
        spin := spin - 1;
      }
    }

    method TryLock() returns (ok: bool)
      modifies this`left
      ensures ok == (found(old(|left|)) == UNLOCKED)
      ensures left == old(left) + [if ok then LOCKED else found(old(|left|))]
      ensures forall m: Mutex, t: nat :: Can(m, Act.TryLock(t)) && m.word == found(old(|left|)) ==>
                Next(m, Act.TryLock(t)) == Mutex(left[old(|left|)], if ok then m.pcs[t := Holder] else m.pcs)
    {
      var word;
      ok, word := CompareExchange(UNLOCKED, LOCKED, false);
    }

    /** Frees the word, and then calls FUTEX_WAKE or not: exactly where the machine's thread goes. */
    method Unlock()
      modifies this`left, this`wakes
      ensures left == old(left) + [UNLOCKED]
      ensures wakes == old(wakes) + if found(old(|left|)) == CONTENDED then 1 else 0
      ensures forall m: Mutex, t: nat :: Can(m, Act.Unlock(t)) && m.word == found(old(|left|)) ==>
                Next(m, Act.Unlock(t))
                  == Mutex(left[old(|left|)], m.pcs[t := if wakes > old(wakes) then BeforeWake else Out])
    {
      var word := Swap(UNLOCKED);
      if word == CONTENDED { wakes := wakes + 1; }
    }
  }

  function Asleeps(pcs: seq<Pc>): nat {
    if pcs == [] then 0 else (if pcs[0].Asleep? then 1 else 0) + Asleeps(pcs[1..])
  }

  lemma {:induction false} AsleepsUpdate(pcs: seq<Pc>, i: nat, pc: Pc)
    requires i < |pcs|
    ensures Asleeps(pcs[i := pc])
         == Asleeps(pcs) - (if pcs[i].Asleep? then 1 else 0) + (if pc.Asleep? then 1 else 0)
    decreases |pcs|
  {
    if i == 0 {
      assert pcs[0 := pc][1..] == pcs[1..];
    } else {
      assert pcs[i := pc][1..] == pcs[1..][i - 1 := pc];
      AsleepsUpdate(pcs[1..], i - 1, pc);
    }
  }

  lemma {:induction false} NobodyAsleep(pcs: seq<Pc>)
    ensures Asleeps(pcs) == 0 <==> NoSleeper(pcs)
    decreases |pcs|
  {
    if pcs == [] {
    } else {
      NobodyAsleep(pcs[1..]);
      assert pcs == [pcs[0]] + pcs[1..];
      if NoSleeper(pcs) {
        assert forall i :: 0 <= i < |pcs[1..]| ==> pcs[1..][i] == pcs[i + 1];
      }
    }
  }

  /** Whichever thread the kernel picks, the unlocker is out afterwards and one sleeper fewer is left. */
  lemma WakesOne(n: Mutex, t: nat, target: nat)
    requires Can(n, Wake(t, target))
    ensures var o := Next(n, Wake(t, target));
            && o.pcs[t].Out? && o.word == n.word
            && Asleeps(o.pcs) == if Asleeps(n.pcs) == 0 then 0 else Asleeps(n.pcs) - 1
  {
    NobodyAsleep(n.pcs);
    if target < |n.pcs| && n.pcs[target].Asleep? {
      AsleepsUpdate(n.pcs, target, NextSpin(SPINS));
      AsleepsUpdate(n.pcs[target := NextSpin(SPINS)], t, Out);
    } else {
      AsleepsUpdate(n.pcs, t, Out);
    }
  }

  /** An unlock of a contended word can always go on with its wake. */
  lemma UnlockThenWake(m: Mutex, t: nat) returns (target: nat)
    requires Can(m, Act.Unlock(t)) && m.word == CONTENDED
    ensures var n := Next(m, Act.Unlock(t));
            && Can(n, Wake(t, target))
            && var o := Next(n, Wake(t, target));
               && o.pcs[t].Out? && o.word == UNLOCKED
               && Asleeps(o.pcs) == if Asleeps(m.pcs) == 0 then 0 else Asleeps(m.pcs) - 1
  {
    var n := Next(m, Act.Unlock(t));
    AsleepsUpdate(m.pcs, t, BeforeWake);
    target := t;
    if i :| 0 <= i < |n.pcs| && n.pcs[i].Asleep? { target := i; }
    WakesOne(n, t, target);
  }

  // ----- the machine's threads run this code

  datatype Turn = Turn(word: Word, lucky: bool)

  /** What thread `t` finds at its turns along a run. */
  function Turns(m: Mutex, acts: seq<Act>, t: nat): seq<Turn>
    requires Runs(m, acts)
    decreases |acts|
  {
    if acts == [] then [] else
      (if acts[0].Go? && acts[0].t == t then [Turn(m.word, acts[0].lucky)] else [])
      + Turns(Next(m, acts[0]), acts[1..], t)
  }

  /** What the words at its turns make of a thread. */
  function Follow(pc: Pc, turns: seq<Turn>): Pc
    decreases |turns|
  {
    if turns == [] then pc else Follow(Onward(Advance(turns[0].word, pc, turns[0].lucky).1), turns[1..])
  }

  /** Inside `lock` a thread only takes turns; it may be woken, with or without reason. */
  predicate StaysIn(acts: seq<Act>, t: nat) {
    forall i :: 0 <= i < |acts| && acts[i].t == t ==> acts[i].Go? || acts[i].Spurious?
  }

  lemma {:induction false} ThreadFollows(m: Mutex, acts: seq<Act>, t: nat)
    requires Runs(m, acts) && StaysIn(acts, t) && t < |m.pcs|
    ensures t < |After(m, acts).pcs|
    ensures Onward(After(m, acts).pcs[t]) == Follow(Onward(m.pcs[t]), Turns(m, acts, t))
    decreases |acts|
  {
    if acts == [] {
    } else {
      var n := Next(m, acts[0]);
      ThreadFollows(n, acts[1..], t);
      if acts[0].Go? && acts[0].t == t {
        assert !m.pcs[t].Asleep?;
        var turn := Turn(m.word, acts[0].lucky);
        assert ([turn] + Turns(n, acts[1..], t))[1..] == Turns(n, acts[1..], t);
      } else {
        assert Onward(n.pcs[t]) == Onward(m.pcs[t]);
        assert [] + Turns(n, acts[1..], t) == Turns(n, acts[1..], t);
      }
    }
  }

  lemma {:induction false} FollowSnoc(pc: Pc, turns: seq<Turn>, last: Turn)
    ensures Follow(pc, turns + [last]) == Onward(Advance(last.word, Follow(pc, turns), last.lucky).1)
    decreases |turns|
  {
    if turns == [] {
      assert (turns + [last])[1..] == [];
    } else {
      assert (turns + [last])[1..] == turns[1..] + [last];
      FollowSnoc(Onward(Advance(turns[0].word, pc, turns[0].lucky).1), turns[1..], last);
    }
  }

  lemma {:induction false} PcAtIsFollow(found: nat -> Word, lucky: nat -> bool, turns: seq<Turn>)
    requires forall k: nat :: k < |turns| ==> turns[k] == Turn(found(k), lucky(k))
    ensures PcAt(found, lucky, |turns|) == Follow(Enter, turns)
    decreases |turns|
  {
    if turns == [] {
    } else {
      var n := |turns| - 1;
      assert turns == turns[..n] + [turns[n]];
      PcAtIsFollow(found, lucky, turns[..n]);
      FollowSnoc(Enter, turns[..n], turns[n]);
    }
  }

  /** In any run, a thread that entered `lock` is where the code above is after finding what that
      thread found: the code holds the lock when, and only when, the machine's thread does. */
  lemma ThreadsRunTheCode(m: Mutex, acts: seq<Act>, t: nat, found: nat -> Word, lucky: nat -> bool)
    requires Runs(m, acts) && StaysIn(acts, t) && t < |m.pcs| && m.pcs[t] == Enter
    requires forall k: nat :: k < |Turns(m, acts, t)| ==> Turns(m, acts, t)[k] == Turn(found(k), lucky(k))
    ensures t < |After(m, acts).pcs|
    ensures Onward(After(m, acts).pcs[t]) == PcAt(found, lucky, |Turns(m, acts, t)|)
  {
    ThreadFollows(m, acts, t);
    PcAtIsFollow(found, lucky, Turns(m, acts, t));
  }
}
