/** The machine and the methods agree: an activation that is left alone comes to one simple pass. */
module Solo {
  import opened SemaphoreStates
  import opened ListFacts
  import opened Machine
  import opened Lifecycle
  import opened Drain
  import opened Confluence
  import opened Servicing

  /** Only activation `i` runs, and none of its wakers panics. */
  predicate Alone<S, P, T>(steps: seq<Step<S, P, T>>, i: nat) {
    forall k :: 0 <= k < |steps| ==> steps[k] == Resume(i) || steps[k] == Notify(i, false)
  }

  /** The log once the batch is woken and, when a round is owed, all that it leads to. */
  function LogAtTheEnd<S, P, T, O>(r: Rules<S, P, T, O>, w: World<S, P, T, O>, i: nat): seq<Wake>
    requires i < |w.crews|
  {
    w.log + w.crews[i].batch + (if w.crews[i].owes then WakesOf(PassCore(r, w.core).removed) else [])
  }

  ghost predicate Finished<S, P, T, O>(
      r: Rules<S, P, T, O>, w: World<S, P, T, O>, i: nat, v: World<S, P, T, O>)
    requires i < |w.crews|
  {
    && |v.crews| == |w.crews| && v.crews[i].batch == [] && !v.crews[i].owes
    && v.core == (if w.crews[i].owes then Drained(r, w.core) else w.core)
    && v.log == LogAtTheEnd(r, w, i)
  }

  lemma NotifyAlone<S, P, T, O>(r: Rules<S, P, T, O>, w: World<S, P, T, O>, i: nat)
    requires i < |w.crews| && w.crews[i].batch != []
    ensures var v := Do(r, w, Notify(i, false));
            && v.core == w.core && |v.crews| == |w.crews|
            && v.crews[i] == w.crews[i].(batch := w.crews[i].batch[1..])
            && LogAtTheEnd(r, v, i) == LogAtTheEnd(r, w, i)
  {
    var batch := w.crews[i].batch;
    assert batch == [batch[0]] + batch[1..];
    var v := Do(r, w, Notify(i, false));
    assert v.log + v.crews[i].batch == w.log + batch;
  }

  lemma ResumeAlone<S, P, T, O>(r: Rules<S, P, T, O>, w: World<S, P, T, O>, i: nat)
    requires r.capacity >= 1 && Safe(r, w) && i < |w.crews|
    requires w.crews[i].batch == [] && w.crews[i].owes && !w.crews[i].closing
    ensures var v := Do(r, w, Resume(i));
            && v == Round(r, w, i) && Safe(r, v) && |v.crews| == |w.crews| && !v.crews[i].closing
            && |v.core.list| <= |w.core.list| && (v.crews[i].owes ==> |v.core.list| < |w.core.list|)
            && Drained(r, w.core) == (if v.crews[i].owes then Drained(r, v.core) else v.core)
            && LogAtTheEnd(r, v, i) == LogAtTheEnd(r, w, i)
  {
    var v := Do(r, w, Resume(i));
    StepKeepsSafe(r, w, Resume(i));
    CheckSplits(r, w.core, r.capacity);
    OneRound(r, w.core);
    assert v.crews[i].owes <==> FullRound(r, w.core);
    assert w.log + [] == w.log;
    AppendAssociates(w.log, v.crews[i].batch, WakesOf(PassCore(r, v.core).removed));
  }

  /** Some schedule of the activation alone finishes it, and it comes to the simple pass. */
  lemma {:induction false} FinishAlone<S, P, T, O>(r: Rules<S, P, T, O>, w: World<S, P, T, O>, i: nat)
    returns (steps: seq<Step<S, P, T>>)
    requires r.capacity >= 1 && Safe(r, w) && i < |w.crews| && !w.crews[i].closing
    ensures Alone(steps, i) && Finished(r, w, i, Exec(r, w, steps))
    decreases |w.core.list|, w.crews[i].owes, |w.crews[i].batch|
  {
    var crew := w.crews[i];
    if crew.batch != [] {
      NotifyAlone(r, w, i);
      var rest := FinishAlone(r, Do(r, w, Notify(i, false)), i);
      steps := [Notify(i, false)] + rest;
      assert steps[1..] == rest;
    } else if crew.owes {
      ResumeAlone(r, w, i);
      var rest := FinishAlone(r, Do(r, w, Resume(i)), i);
      steps := [Resume(i)] + rest;
      assert steps[1..] == rest;
    } else {
      steps := [];
      assert w.log + [] + [] == w.log;
    }
  }

  /** Every step that starts servicing (a cancel, a `with_state`, a dropped permit) can be finished
      without interference, and then it is what `SemaphoreQueue.Service` is proved to do. */
  lemma StepAloneIsPass<S, P, T, O>(r: Rules<S, P, T, O>, w: World<S, P, T, O>, step: Step<S, P, T>)
    returns (steps: seq<Step<S, P, T>>)
    requires r.capacity >= 1 && Safe(r, w) && Then(r, w, step).Check?
    ensures Alone(steps, |w.crews|)
    ensures var c := Before(r, w, step).core;
            var v := Exec(r, Do(r, w, step), steps);
            Served(r, c, w.log, v.core, v.log, PassCore(r, c).unwound)
  {
    BeforeKeepsSafe(r, w, step);
    var b := Spawn(Before(r, w, step), false);
    var i := |w.crews|;
    assert b.log == w.log && |b.crews| == i + 1;
    ResumeAlone(r, b, i);
    steps := FinishAlone(r, Do(r, w, step), i);
    assert w.log + [] == w.log;
  }
}
