/**
 * The play/pause button and slider that drive the global truncation offset.
 *
 * The click handler is asynchronous: it awaits a 100 ms timer after the
 * restart dispatch and after every step. Here the part of a click that runs
 * before the first await is `Click`, and each resumption after a timer is
 * `Tick`; the field `suspended` says that a click handler is waiting on its
 * timer.
 */
module Progress {
  import opened Common
  import opened Events

  /** The slider's `max` attribute before any image has reported its size. */
  const InitialMax: nat := 65536

  /** The play loop aims to go from 0 to the maximum in this many steps. */
  const Steps: nat := 30

  /** One step of the play loop: advance by max/30, rounded down, and never beyond max. */
  function Step(value: nat, max: nat): (r: nat)
    ensures value <= max ==> value <= r <= max
    ensures value < max && Steps <= max ==> value < r
    ensures r < max ==> r == value + max / Steps
  {
    Min(value + max / Steps, max)
  }

  /** The offsets the play loop dispatches, in order, when it steps from `value` without interruption. */
  function StepsFrom(value: nat, max: nat): (r: seq<nat>)
    requires value <= max && Steps <= max
    ensures r == [] <==> value == max
    ensures r != [] ==> r[|r| - 1] == max
    ensures forall i :: 0 <= i < |r| ==> value < r[i] <= max
    ensures forall i, j :: 0 <= i < j < |r| ==> r[i] < r[j]
    decreases max - value
  {
    if value == max then [] else [Step(value, max)] + StepsFrom(Step(value, max), max)
  }

  /** The run from `value` starts with one step and continues from there. */
  lemma StepsFromEvents(value: nat, max: nat)
    requires value < max && Steps <= max
    ensures ProgressEvents(StepsFrom(value, max))
      == [SetProgress(Step(value, max))] + ProgressEvents(StepsFrom(Step(value, max), max))
  {
    ProgressEventsCons(Step(value, max), StepsFrom(Step(value, max), max));
  }

  /** The k-th dispatched offset is `value + (k + 1) * (max / 30)`, clamped to max. */
  lemma {:induction false} StepsFromAt(value: nat, max: nat, k: nat)
    requires value <= max && Steps <= max && k < |StepsFrom(value, max)|
    ensures StepsFrom(value, max)[k] == Min(value + (k + 1) * (max / Steps), max)
    decreases k
  {
    if k > 0 {
      var s, next := max / Steps, Step(value, max);
      var rest := StepsFrom(next, max);
      assert StepsFrom(value, max) == [next] + rest;
      assert rest != [] && next < max;
      StepsFromAt(next, max, k - 1);
      MulSucc(k, s);
    }
  }

  lemma MulSucc(k: int, s: int)
    ensures (k + 1) * s == k * s + s
  {
  }

  /**
   * The number n of steps is the least one that covers the distance to max:
   * n steps of max/30 reach max, n - 1 do not.
   */
  lemma {:induction false} StepsFromCount(value: nat, max: nat)
    requires value <= max && Steps <= max
    ensures var n := |StepsFrom(value, max)|;
      (n - 1) * (max / Steps) < max - value <= n * (max / Steps)
    decreases max - value
  {
    if value < max {
      var next := Step(value, max);
      StepsFromCount(next, max);
    }
  }

  /** Multiplying by a non-negative factor keeps the order. */
  lemma MulMonotonic(a: int, b: int, s: nat)
    ensures a <= b ==> a * s <= b * s
  {
    if a <= b {
      assert b * s - a * s == (b - a) * s;
    }
  }

  /** From `(n - 1) * s < q * s + r <= n * s` with `r < s`, the count n is q, or q + 1 when r > 0. */
  lemma CeilingCount(n: int, q: nat, s: nat, r: nat)
    requires 0 < s && r < s
    requires (n - 1) * s < q * s + r <= n * s
    ensures r == 0 ==> n == q
    ensures r > 0 ==> n == q + 1
  {
    MulMonotonic(q + 1, n - 1, s);
    MulMonotonic(q, n - 1, s);
    MulMonotonic(n, q, s);
    MulMonotonic(n, q - 1, s);
    assert (q + 1) * s == q * s + s;
    assert (q - 1) * s == q * s - s;
  }

  /**
   * A run that starts at 0 takes exactly 30 steps when max is a multiple of 30
   * and 31 steps otherwise: the last step is the clamped one.
   */
  lemma RestartRunLength(max: nat)
    requires InitialMax <= max
    ensures |StepsFrom(0, max)| == if max % Steps == 0 then Steps else Steps + 1
  {
    var s := max / Steps;
    StepsFromCount(0, max);
    assert max == Steps * s + max % Steps;
    CeilingCount(|StepsFrom(0, max)|, Steps, s, max % Steps);
  }

  lemma SeqAssoc(a: seq<Event>, x: Event, b: seq<Event>)
    ensures (a + [x]) + b == a + ([x] + b)
  {
  }

  /** The largest of `m` and the reported `sizes`, folded in the order they were reported. */
  function MaxOf(m: nat, sizes: seq<nat>): (r: nat)
    ensures m <= r
    ensures forall i :: 0 <= i < |sizes| ==> sizes[i] <= r
    ensures r == m || r in sizes
    decreases |sizes|
  {
    if sizes == [] then m else Max(MaxOf(m, sizes[..|sizes| - 1]), sizes[|sizes| - 1])
  }

  /** The offsets one press of play dispatches before the loop ends on its own. */
  function PlayRun(value: nat, max: nat): (r: seq<nat>)
    requires value <= max && Steps <= max
    ensures r != [] && r[|r| - 1] == max
    ensures value == max ==> r[0] == 0
    ensures value < max ==> r[0] > value
    ensures forall i, j :: 0 <= i < j < |r| ==> r[i] < r[j]
  {
    if value == max then [0] + StepsFrom(0, max) else StepsFrom(value, max)
  }

  /** The progress bar component: a play/pause button and a slider from 0 to `max`. */
  class DataProgressBar {
    var autoProgress: bool
    var value: nat
    var max: nat
    /** A click handler is waiting on its 100 ms timer and resumes at the next `Tick`. */
    var suspended: bool
    /** Sizes reported by SET_MAX_PROGRESS events, in order. */
    ghost var sizes: seq<nat>
    /** The SET_PROGRESS events this component dispatched, in order. */
    ghost var log: seq<Event>

    ghost predicate Valid()
      reads this
    {
      && max == MaxOf(InitialMax, sizes)
      && value <= max
      && (autoProgress ==> suspended)
      && (if log == [] then value == 0 else log[|log| - 1] == SetProgress(value))
    }

    constructor ()
      ensures Valid()
      ensures value == 0 && max == InitialMax && !autoProgress
      ensures !suspended && sizes == [] && log == []
    {
      autoProgress := false;
      value := 0;
      max := InitialMax;
      suspended := false;
      sizes := [];
      log := [];
    }

    /** The SET_MAX_PROGRESS listener: the slider's maximum only ever grows. */
    method SetMax(n: nat)
      requires Valid()
      modifies this
      ensures Valid()
      ensures max == Max(old(max), n) && sizes == old(sizes) + [n]
      ensures value == old(value) && autoProgress == old(autoProgress)
      ensures suspended == old(suspended) && log == old(log)
    {
      max := Max(max, n);
      sizes := sizes + [n];
    }

    /**
     * The play/pause button, up to its first await. Pausing only clears the
     * flag. Playing at the maximum first resets to 0 and dispatches it;
     * otherwise the loop's first step runs at once.
     */
    method Click()
      requires Valid()
      requires autoProgress || !suspended
      modifies this
      ensures Valid()
      ensures max == old(max) && sizes == old(sizes)
      ensures old(autoProgress) ==>
        !autoProgress && value == old(value) && suspended == old(suspended) && log == old(log)
      ensures !old(autoProgress) && old(value) == max ==>
        autoProgress && suspended && value == 0 && log == old(log) + [SetProgress(0)]
      ensures !old(autoProgress) && old(value) < max ==>
        autoProgress && suspended && value == Step(old(value), max) && log == old(log) + [SetProgress(value)]
    {
      if autoProgress {
        autoProgress := false;
      } else {
        autoProgress := true;
        if value == max {
          value := 0;
          log := log + [SetProgress(0)];
        } else {
          value := Step(value, max);
          log := log + [SetProgress(value)];
        }
        suspended := true;
      }
    }

    /**
     * A click handler resumes after its timer: if still playing and below the
     * maximum it steps, dispatches and waits again; otherwise the loop ends
     * and the flag is cleared.
     */
    method Tick()
      requires Valid() && suspended
      modifies this
      ensures Valid()
      ensures max == old(max) && sizes == old(sizes)
      ensures old(autoProgress) && old(value) < max ==>
        autoProgress && suspended && value == Step(old(value), max) && log == old(log) + [SetProgress(value)]
      ensures !(old(autoProgress) && old(value) < max) ==>
        !autoProgress && !suspended && value == old(value) && log == old(log)
    {
      if autoProgress && value < max {
        value := Step(value, max);
        log := log + [SetProgress(value)];
      } else {
        autoProgress := false;
        suspended := false;
      }
    }

    /** The slider's input listener: the user moved the handle to `v`. */
    method SliderInput(v: nat)
      requires Valid() && v <= max
      modifies this
      ensures Valid()
      ensures value == v && !autoProgress && log == old(log) + [SetProgress(v)]
      ensures max == old(max) && sizes == old(sizes) && suspended == old(suspended)
    {
      value := v;
      autoProgress := false;
      log := log + [SetProgress(value)];
    }

    /**
     * One press of play followed by timer ticks with no other input: the loop
     * ends at the maximum, idle, having dispatched exactly `PlayRun`.
     */
    method RunUninterrupted()
      requires Valid() && !autoProgress && !suspended
      modifies this
      ensures Valid() && !autoProgress && !suspended
      ensures value == max && max == old(max) && sizes == old(sizes)
      ensures log == old(log) + ProgressEvents(PlayRun(old(value), old(max)))
    {
      ghost var start, log0 := value, log;
      ghost var planned := log0 + ProgressEvents(PlayRun(value, max));
      Click();
      ghost var rest := ProgressEvents(StepsFrom(value, max));
      if start == max {
        assert PlayRun(start, max) == [0] + StepsFrom(0, max);
        ProgressEventsCons(0, StepsFrom(0, max));
        assert planned == log0 + ([SetProgress(0)] + rest);
        assert log == log0 + [SetProgress(0)];
      } else {
        assert PlayRun(start, max) == StepsFrom(start, max);
        StepsFromEvents(start, max);
        assert planned == log0 + ([SetProgress(value)] + rest);
        assert log == log0 + [SetProgress(value)];
      }
      SeqAssoc(log0, log[|log| - 1], rest);
      while suspended
        invariant Valid() && max == old(max) && sizes == old(sizes)
        invariant suspended == autoProgress
        invariant suspended ==> log + ProgressEvents(StepsFrom(value, max)) == planned
        invariant !suspended ==> value == max && log == planned
        decreases max - value, suspended
      {
        ghost var before, logBefore := value, log;
        Tick();
        if suspended {
          StepsFromEvents(before, max);
          SeqAssoc(logBefore, SetProgress(value), ProgressEvents(StepsFrom(value, max)));
        } else {
          assert ProgressEvents(StepsFrom(value, max)) == [];
          assert log + [] == log;
        }
      }
    }
  }
}
