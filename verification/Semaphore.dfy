/** The counting semaphore that admits messages to a worker, as interleaved atomic steps of any
    number of goroutines. The counter counts holders and waiters alike; a release that finds waiters
    hands its permit over through an unbuffered channel. */
module Semaphore {
  import opened Common

  /** `acquired` counts successful acquisitions that have not been released, `waiting` the goroutines
      in the select statement of `Acquire`, `expiring` those that left it because their context
      expired and have not decremented the counter yet, `handing` the releases blocked on the channel,
      and `loaded` the values that goroutines in `TryAcquire` have read. */
  datatype State = State(
    maxPermits: nat, counter: int, acquired: nat, waiting: nat, expiring: nat, handing: nat, loaded: multiset<int>)

  datatype Step =
    | Acquire
    | Expire
    | GiveUp
    | TryLoad
    | TrySwap(seen: int)
    | Release
    | HandOver

  /** `NewSemaphore` refuses a capacity that is not positive. */
  function Init(maxPermits: nat): State {
    State(maxPermits, 0, 0, 0, 0, 0, multiset{})
  }

  predicate Enabled(s: State, step: Step) {
    match step
    case Acquire => true
    case Expire => s.waiting > 0
    case GiveUp => s.expiring > 0
    case TryLoad => true
    case TrySwap(seen) => seen in s.loaded
    case Release => s.acquired > 0
    case HandOver => s.handing > 0 && s.waiting > 0
  }

  function Apply(s: State, step: Step): State
    requires Enabled(s, step)
  {
    match step
    case Acquire =>
      if s.counter + 1 <= s.maxPermits then s.(counter := s.counter + 1, acquired := s.acquired + 1)
      else s.(counter := s.counter + 1, waiting := s.waiting + 1)
    case Expire => s.(waiting := s.waiting - 1, expiring := s.expiring + 1)
    case GiveUp => s.(expiring := s.expiring - 1, counter := s.counter - 1)
    case TryLoad => if s.counter >= s.maxPermits then s else s.(loaded := s.loaded + multiset{s.counter})
    case TrySwap(seen) =>
      var t := s.(loaded := s.loaded - multiset{seen});
      if s.counter == seen then t.(counter := seen + 1, acquired := s.acquired + 1) else t
    case Release =>
      var t := s.(acquired := s.acquired - 1, counter := s.counter - 1);
      if t.counter >= s.maxPermits then t.(handing := s.handing + 1) else t
    case HandOver => s.(handing := s.handing - 1, waiting := s.waiting - 1, acquired := s.acquired + 1)
  }

  /** The counter counts everyone who has entered and not left. */
  ghost predicate Counted(s: State) {
    && s.maxPermits > 0
    && s.counter == s.acquired + s.waiting + s.expiring
    && (forall seen :: seen in s.loaded ==> seen < s.maxPermits)
  }

  /** Permits are neither lost nor invented: those held and those being handed over make up what the
      counter claims, up to the capacity. */
  ghost predicate Balanced(s: State) {
    s.acquired + s.handing == Min(s.counter, s.maxPermits)
  }

  ghost predicate IsRun(trace: seq<State>, steps: seq<Step>) {
    && |trace| == |steps| + 1
    && trace[0].maxPermits > 0 && trace[0] == Init(trace[0].maxPermits)
    && forall i :: 0 <= i < |steps| ==> Enabled(trace[i], steps[i]) && trace[i + 1] == Apply(trace[i], steps[i])
  }

  /** Every waiter that gives up does so while the counter exceeds the capacity, that is, before a
      release has committed itself to handing its permit over. */
  ghost predicate TimelyExpiry(trace: seq<State>, steps: seq<Step>, n: nat)
    requires |trace| == |steps| + 1
  {
    forall i :: 0 <= i < n && i < |steps| && steps[i].GiveUp? ==> trace[i].counter > trace[i].maxPermits
  }

  lemma StepKeepsCounted(s: State, step: Step)
    requires Counted(s) && Enabled(s, step)
    ensures Counted(Apply(s, step))
  {
  }

  /** A waiter gives up after a release may have committed itself to handing its permit over. */
  predicate LateStep(s: State, step: Step) {
    step.GiveUp? && s.counter <= s.maxPermits
  }

  /** Permits held or being handed over beyond what the counter claims. */
  function Surplus(s: State): int {
    s.acquired + s.handing - Min(s.counter, s.maxPermits)
  }

  /** A late expiry makes one permit too many, and no other step makes or loses any. */
  lemma StepMakesSurplus(s: State, step: Step)
    requires Counted(s) && Enabled(s, step)
    ensures Surplus(Apply(s, step)) == Surplus(s) + If(LateStep(s, step))
  {
  }

  /** How many of the first `n` steps are late expiries. */
  ghost function LateSteps(trace: seq<State>, steps: seq<Step>, n: nat): nat
    requires |trace| == |steps| + 1 && n <= |steps|
  {
    if n == 0 then 0 else LateSteps(trace, steps, n - 1) + If(LateStep(trace[n - 1], steps[n - 1]))
  }

  lemma {:induction false} RunCounted(trace: seq<State>, steps: seq<Step>, i: nat)
    requires IsRun(trace, steps) && i < |trace|
    ensures Counted(trace[i]) && trace[i].maxPermits == trace[0].maxPermits
  {
    if i > 0 {
      RunCounted(trace, steps, i - 1);
      assert trace[i] == Apply(trace[i - 1], steps[i - 1]);
      StepKeepsCounted(trace[i - 1], steps[i - 1]);
    }
  }

  /** In every run the surplus is the number of late expiries so far. */
  lemma {:induction false} RunSurplus(trace: seq<State>, steps: seq<Step>, n: nat)
    requires IsRun(trace, steps) && n < |trace|
    ensures trace[n].acquired + trace[n].handing == Min(trace[n].counter, trace[n].maxPermits) + LateSteps(trace, steps, n)
    ensures trace[n].acquired <= trace[n].maxPermits + LateSteps(trace, steps, n)
  {
    if n > 0 {
      RunSurplus(trace, steps, n - 1);
      RunCounted(trace, steps, n - 1);
      assert trace[n] == Apply(trace[n - 1], steps[n - 1]);
      StepMakesSurplus(trace[n - 1], steps[n - 1]);
    }
  }

  /** The semaphore is balanced if and only if no expiry so far was late. */
  lemma {:induction false} BalancedIffTimely(trace: seq<State>, steps: seq<Step>, n: nat)
    requires IsRun(trace, steps) && n < |trace|
    ensures Balanced(trace[n]) <==> TimelyExpiry(trace, steps, n)
  {
    RunSurplus(trace, steps, n);
    LateIffUntimely(trace, steps, n);
  }

  lemma {:induction false} LateIffUntimely(trace: seq<State>, steps: seq<Step>, n: nat)
    requires |trace| == |steps| + 1 && n <= |steps|
    ensures LateSteps(trace, steps, n) == 0 <==> TimelyExpiry(trace, steps, n)
  {
    if n > 0 {
      LateIffUntimely(trace, steps, n - 1);
    }
  }

  /** In a run whose expiries are timely, holders never exceed the capacity, and every blocked
      release has a waiter of its own to hand its permit to, if only one that is about to expire. */
  lemma PermitsRespected(trace: seq<State>, steps: seq<Step>, n: nat)
    requires IsRun(trace, steps) && n < |trace| && TimelyExpiry(trace, steps, n)
    ensures trace[n].counter == trace[n].acquired + trace[n].waiting + trace[n].expiring
    ensures trace[n].acquired + trace[n].handing == Min(trace[n].counter, trace[n].maxPermits)
    ensures trace[n].acquired <= trace[n].maxPermits
    ensures trace[n].handing <= trace[n].waiting + trace[n].expiring
  {
    BalancedIffTimely(trace, steps, n);
    RunCounted(trace, steps, n);
  }

  /** A `TryAcquire` that nobody disturbs gets a permit if and only if the counter is below the capacity. A swap that comes
      too late for the value it has read changes nothing. */
  lemma TryAcquireAlone(s: State)
    requires Counted(s)
    ensures s.counter >= s.maxPermits ==> Apply(s, TryLoad) == s
    ensures s.counter < s.maxPermits ==>
              var t := Apply(s, TryLoad);
              && t == s.(loaded := s.loaded + multiset{s.counter}) && Enabled(t, TrySwap(s.counter))
              && Apply(t, TrySwap(s.counter)) == s.(counter := s.counter + 1, acquired := s.acquired + 1)
    ensures forall seen :: Enabled(s, TrySwap(seen)) && seen != s.counter ==>
              Apply(s, TrySwap(seen)) == s.(loaded := s.loaded - multiset{seen})
  {
    assert s.loaded + multiset{s.counter} - multiset{s.counter} == s.loaded;
  }

  /** An `Acquire` gets a permit at once if and only if the counter is below the capacity, and waits otherwise; a
      release that finds the counter above the capacity hands its permit to somebody who waits. */
  lemma AcquireOrWait(s: State)
    requires Counted(s)
    ensures s.counter < s.maxPermits ==> Apply(s, Acquire) == s.(counter := s.counter + 1, acquired := s.acquired + 1)
    ensures s.counter >= s.maxPermits ==> Apply(s, Acquire) == s.(counter := s.counter + 1, waiting := s.waiting + 1)
    ensures s.counter > s.maxPermits && s.acquired > 0 && s.waiting > 0 ==>
              var t := Apply(s, Release);
              Enabled(t, HandOver) && Apply(t, HandOver) == s.(counter := s.counter - 1, waiting := s.waiting - 1)
  {
  }

  /** If nobody ever waits, that is, if all acquisitions are `TryAcquire`, the bound is unconditional
      and a release never blocks. */
  lemma {:induction false} TryOnly(trace: seq<State>, steps: seq<Step>, n: nat)
    requires IsRun(trace, steps) && n < |trace|
    requires forall i :: 0 <= i < |steps| ==> !steps[i].Acquire?
    ensures trace[n].waiting == trace[n].expiring == trace[n].handing == 0
    ensures trace[n].counter == trace[n].acquired <= trace[n].maxPermits
  {
    if n > 0 {
      TryOnly(trace, steps, n - 1);
      RunCounted(trace, steps, n - 1);
      assert trace[n] == Apply(trace[n - 1], steps[n - 1]) && !steps[n - 1].Acquire?;
    }
  }

  lemma Extend(trace: seq<State>, steps: seq<Step>, step: Step) returns (more: seq<State>, steps': seq<Step>)
    requires IsRun(trace, steps) && Enabled(trace[|steps|], step)
    ensures IsRun(more, steps') && more[|steps'|] == Apply(trace[|steps|], step) && more[0] == trace[0]
  {
    more, steps' := trace + [Apply(trace[|steps|], step)], steps + [step];
  }

  /** Late expiry: capacity one, a holder releases towards a waiter whose context expires at that
      moment; afterwards two goroutines hold a permit and one release has gone to the wrong waiter. */
  lemma LateExpiryBreaksTheBound() returns (trace: seq<State>, steps: seq<Step>)
    ensures IsRun(trace, steps) && trace[0].maxPermits == 1 && trace[|steps|].acquired == 2
  {
    trace, steps := [Init(1)], [];
    trace, steps := Extend(trace, steps, Acquire);
    trace, steps := Extend(trace, steps, Acquire);
    trace, steps := Extend(trace, steps, Release);
    trace, steps := Extend(trace, steps, Expire);
    trace, steps := Extend(trace, steps, GiveUp);
    assert trace[|steps|] == State(1, 0, 0, 0, 0, 1, multiset{});
    trace, steps := Extend(trace, steps, Acquire);
    trace, steps := Extend(trace, steps, Acquire);
    trace, steps := Extend(trace, steps, HandOver);
  }
}
