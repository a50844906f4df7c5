/** The wrapper of flag-bearer/src/drop_wrapper.rs: a value that is moved out of its cell either by
    `take` or by the destructor, through a raw read that nothing but these two rules makes safe. */
module DropWrappers {
  import opened SemaphoreStates

  /** What the compiler still owes the wrapper: the destructor at the end of its scope, or nothing,
      because `ManuallyDrop` has swallowed it or because it has run. */
  datatype Guard = Live | Forgotten | Dropped

  /** `moves` counts the raw reads of the cell; `ub` records that one found it moved out already. */
  datatype Wrapper<+T> = Wrapper(value: T, moves: nat, guard: Guard, ub: bool)

  function Fresh<T>(value: T): Wrapper<T> { Wrapper(value, 0, Live, false) }

  /** `ManuallyDrop::take`: a bitwise read that leaves the cell as it is. */
  function Read<T>(x: Wrapper<T>): Wrapper<T> { x.(moves := x.moves + 1, ub := x.ub || x.moves > 0) }

  /** Assigning through `deref_mut` drops the value that is there. */
  function Write<T>(x: Wrapper<T>, value: T): Wrapper<T> { x.(value := value, ub := x.ub || x.moves > 0) }

  /** `ManuallyDrop::new(self)`. */
  function Forget<T>(x: Wrapper<T>): Wrapper<T> { x.(guard := Forgotten) }

  /** The end of a scope that owns the wrapper: the destructor reads the cell and passes the value
      on. Whether what it is passed to returns or unwinds, the wrapper is gone. */
  function Leave<T>(x: Wrapper<T>): Wrapper<T> { if x.guard.Live? then Read(x).(guard := Dropped) else x }

  /** `take(self)`, to the end of its own scope. When the destructor of `s` unwinds, the cell is not
      read any more. */
  function TakeOut<T>(x: Wrapper<T>, unwinds: bool): Wrapper<T> {
    var y := Forget(x);
    Leave(if unwinds then y else Read(y))
  }

  // ----- programs

  /** What a program does with its wrappers, in any order; unwinding is leaving scopes. */
  datatype Op<+T> = Create(value: T) | Amend(i: nat, value: T) | Take(i: nat, unwinds: bool) | Exit(i: nat)

  /** Only a wrapper that was not moved or dropped can be named; leaving a scope needs no name. */
  predicate Owned<T>(m: seq<Wrapper<T>>, i: nat) { i < |m| && m[i].guard.Live? }

  function Perform<T>(m: seq<Wrapper<T>>, op: Op<T>): seq<Wrapper<T>> {
    match op
    case Create(value) => m + [Fresh(value)]
    case Amend(i, value) => if Owned(m, i) then m[i := Write(m[i], value)] else m
    case Take(i, unwinds) => if Owned(m, i) then m[i := TakeOut(m[i], unwinds)] else m
    case Exit(i) => if i < |m| then m[i := Leave(m[i])] else m
  }

  function Run<T>(m: seq<Wrapper<T>>, ops: seq<Op<T>>): seq<Wrapper<T>>
    decreases |ops|
  {
    if ops == [] then m else Run(Perform(m, ops[0]), ops[1..])
  }

  /** Along the run, the destructor of `s` unwound while `take` had wrapper `i`. */
  predicate Leaks<T>(m: seq<Wrapper<T>>, ops: seq<Op<T>>, i: nat)
    decreases |ops|
  {
    ops != [] &&
    ((ops[0].Take? && ops[0].i == i && ops[0].unwinds && Owned(m, i)) || Leaks(Perform(m, ops[0]), ops[1..], i))
  }

  ghost predicate Sane<T>(m: seq<Wrapper<T>>) {
    forall i :: 0 <= i < |m| ==> !m[i].ub && (m[i].guard.Live? ==> m[i].moves == 0)
  }

  lemma {:induction false} RunReads<T>(m: seq<Wrapper<T>>, ops: seq<Op<T>>, i: nat)
    requires Sane(m)
    ensures var n := Run(m, ops);
            && Sane(n) && |m| <= |n|
            && (i < |m| && !m[i].guard.Live? ==> n[i] == m[i] && !Leaks(m, ops, i))
            && (i < |n| && !(i < |m| && !m[i].guard.Live?) ==>
                  n[i].moves == if n[i].guard.Live? || Leaks(m, ops, i) then 0 else 1)
    decreases |ops|
  {
    if ops == [] {
    } else {
      RunReads(Perform(m, ops[0]), ops[1..], i);
      if i < |m| && !m[i].guard.Live? { assert Perform(m, ops[0])[i] == m[i]; }
    }
  }

  /** No program reads a cell that was moved out or writes to one; a cell is read exactly once when
      its guard is gone, and not before. The one exception is exact: a `take` during which the
      destructor of `s` unwinds leaks the value unread. */
  lemma ReadOnce<T>(ops: seq<Op<T>>, i: nat)
    requires i < |Run([], ops)|
    ensures var x := Run([], ops)[i];
            !x.ub && x.moves == if x.guard.Live? || Leaks([], ops, i) then 0 else 1
  {
    RunReads([], ops, i);
  }

  // ----- the wrapper as it is updated in place

  class DropWrapper<T> {
    var value: T
    ghost var moves: nat
    var guard: Guard

    ghost function Cell(): Wrapper<T>
      reads this
    {
      Wrapper(value, moves, guard, false)
    }

    ghost predicate Valid()
      reads this
    {
      guard.Live? <==> moves == 0
    }

    constructor (value: T)
      ensures Valid() && Cell() == Fresh(value)
    {
      this.value := value;
      moves, guard := 0, Live;
    }

    /** What an `unsafe` block has to know before it moves the value out. */
    method ReadCell() returns (v: T)
      requires moves == 0
      modifies this`moves
      ensures v == value && Cell() == Read(old(Cell()))
    {
      v := value;
      moves := moves + 1;
    }

    method Replace(v: T)
      requires Valid() && guard.Live?
      modifies this`value
      ensures Valid() && Cell() == Write(old(Cell()), v)
    {
      value := v;
    }

    /** The destructor runs unless it was swallowed or has run; the value it passes on, if so. */
    method LeaveScope() returns (handed: Option<T>)
      requires guard.Live? ==> moves == 0
      modifies this`moves, this`guard
      ensures Cell() == Leave(old(Cell())) && handed == if old(guard).Live? then Some(value) else None
    {
      handed := None;
      if guard.Live? {
        var v := ReadCell();
        guard, handed := Dropped, Some(v);
      }
    }

    /** Moves the value out; the destructor does not run when `take` ends. */
    method Take() returns (v: T)
      requires Valid() && guard.Live?
      modifies this`moves, this`guard
      ensures Valid() && Cell() == TakeOut(old(Cell()), false) && v == value
    {
      guard := Forgotten;
      v := ReadCell();
      var handed := LeaveScope();
      assert handed.None?;
    }
  }
}
