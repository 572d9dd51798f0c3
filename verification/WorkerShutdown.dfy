/** Whether a worker that is shutting down gets to its end.

    `closeAll` runs when the last batch is done, behind the releases of that batch. So a worker whose batches
    are all finished has shut down only when it owes no permit and stands in no release. With blocking
    admission that depends on the producers that are still on their way, and only on how many there are. */
module WorkerShutdown {
  import opened Common
  import opened WorkerSpec
  import opened WorkerInvariant
  import opened WorkerRuns
  import opened WorkerAdmission
  import S = Semaphore

  /** The worker goroutine has come to the end of `closeAll`. */
  predicate ShutDown(p: Joint) {
    p.w.mode == Closed && p.owed == 0 && !p.blocked
  }

  // ----- the figures that decide it

  /** How many producers are where, and what the worker goroutine still has to give back. */
  datatype Figures = Figures(
    waits: nat, checked: nat, expired: nat, acquired: nat, counter: int, owed: nat, blocked: bool)
  {
    /** Releases that have not returned. */
    function Needs(): nat {
      owed + If(blocked)
    }

    /** More permits are in use, or being handed over, than there are: every release will block. */
    predicate Over(max: nat) {
      acquired + If(blocked) > max
    }

    /** Too few producers are left to take over the permits that the goroutine has to give back. Above the
        limit each release needs one. Below it only a release that blocks already does, and the next
        producer to wait is the one that comes when the counter is at the limit. */
    predicate Hopeless(max: nat) {
      if Over(max) then waits + checked < Needs()
      else
        && blocked && waits == 0
        && (checked == 0 || (if expired > 0 then counter + checked <= max else counter + checked < max + Needs()))
    }

    /** How many moves are left at most. */
    function Way(): nat {
      2 * owed + If(blocked) + checked + expired
    }

    predicate Counted() {
      counter == acquired + waits + expired && owed <= acquired
    }
  }

  function Count(p: Joint): Figures {
    Figures(NumberAt(p.callers, Waits), NumberAt(p.callers, Checked), NumberAt(p.callers, Expired),
            p.sem.acquired, p.sem.counter, p.owed, p.blocked)
  }

  predicate Hopeless(cfg: Config, p: Joint) {
    Count(p).Hopeless(cfg.maxPending)
  }

  // ----- what each action does to the figures

  datatype Shift = Stay | Enter | Leave | Quit | Take | Give

  predicate CanShift(f: Figures, m: Shift) {
    match m
    case Stay => true
    case Enter => f.checked > 0
    case Leave => f.waits > 0
    case Quit => f.expired > 0
    case Take => f.waits > 0 && f.blocked
    case Give => f.owed > 0 && f.acquired > 0 && !f.blocked
  }

  function Shifted(max: nat, f: Figures, m: Shift): Figures
    requires CanShift(f, m)
  {
    match m
    case Stay => f
    case Enter =>
      var g := f.(checked := f.checked - 1, counter := f.counter + 1);
      if g.counter <= max then g.(acquired := f.acquired + 1) else g.(waits := f.waits + 1)
    case Leave => f.(waits := f.waits - 1, expired := f.expired + 1)
    case Quit => f.(expired := f.expired - 1, counter := f.counter - 1)
    case Take => f.(waits := f.waits - 1, acquired := f.acquired + 1, blocked := false)
    case Give =>
      f.(acquired := f.acquired - 1, counter := f.counter - 1, owed := f.owed - 1, blocked := f.counter - 1 >= max)
  }

  function ShiftOf(a: Action): Shift {
    match a
    case Acquire(_) => Enter
    case Expire(_) => Leave
    case GiveUp(_) => Quit
    case TakeOver(_) => Take
    case Release => Give
    case _ => Stay
  }

  lemma HopelessShifted(max: nat, f: Figures, m: Shift)
    requires f.Counted() && CanShift(f, m) && f.Hopeless(max)
    ensures Shifted(max, f, m).Hopeless(max)
  {
  }

  /** The move that leads on: serve a release that blocks, then let the expired leave, then give back. */
  function Best(f: Figures): Shift
    requires f.Needs() > 0
  {
    if f.blocked then (if f.waits > 0 then Take else Enter)
    else if f.expired > 0 then Quit
    else Give
  }

  lemma BestLeadsOn(max: nat, f: Figures)
    requires f.Counted() && f.Needs() > 0 && !f.Hopeless(max)
    ensures CanShift(f, Best(f)) && !Shifted(max, f, Best(f)).Hopeless(max)
    ensures Shifted(max, f, Best(f)).Way() < f.Way()
  {
  }

  lemma CountedHere(cfg: Config, p: Joint)
    requires Sound(cfg, p)
    ensures Count(p).Counted()
  {
    PermitsCount(cfg, p.w);
  }

  /** A producer goes to another place. */
  lemma CountMove(p: Joint, sem: S.State, i: nat, to: Spot)
    requires i < |p.callers| && to != p.callers[i].spot
    ensures var f, g := Count(p), Count(Move(p, sem, i, to));
            && g.waits + If(p.callers[i].spot == Waits) == f.waits + If(to == Waits)
            && g.checked + If(p.callers[i].spot == Checked) == f.checked + If(to == Checked)
            && g.expired + If(p.callers[i].spot == Expired) == f.expired + If(to == Expired)
  {
    var c := p.callers[i].(spot := to);
    NumberUpdate(p.callers, i, c, Waits);
    NumberUpdate(p.callers, i, c, Checked);
    NumberUpdate(p.callers, i, c, Expired);
  }

  /** A producer leaves, with a permit or refused. */
  lemma CountLeave(cs: seq<Caller>, i: nat)
    requires i < |cs|
    ensures var rest := Without(cs, i);
            && NumberAt(rest, Waits) + If(cs[i].spot == Waits) == NumberAt(cs, Waits)
            && NumberAt(rest, Checked) + If(cs[i].spot == Checked) == NumberAt(cs, Checked)
            && NumberAt(rest, Expired) + If(cs[i].spot == Expired) == NumberAt(cs, Expired)
  {
    NumberWithout(cs, i, Waits);
    NumberWithout(cs, i, Checked);
    NumberWithout(cs, i, Expired);
  }

  lemma AcquireShifts(cfg: Config, p: Joint, i: nat)
    requires Refs(p.w) && p.sem.maxPermits == cfg.maxPending && CanAct(cfg, p, Acquire(i))
    ensures CanShift(Count(p), Enter) && Count(Act(cfg, p, Acquire(i))) == Shifted(cfg.maxPending, Count(p), Enter)
  {
    var sem := S.Apply(p.sem, S.Acquire);
    NumberPositive(p.callers, i);
    CountLeave(p.callers, i);
    CountMove(p, sem, i, Waits);
    assert Act(cfg, p, Acquire(i)) == if sem.counter <= sem.maxPermits then Grant(p, sem, i) else Move(p, sem, i, Waits);
  }

  lemma ExpireShifts(cfg: Config, p: Joint, i: nat)
    requires Refs(p.w) && CanAct(cfg, p, Expire(i))
    ensures CanShift(Count(p), Leave) && Count(Act(cfg, p, Expire(i))) == Shifted(cfg.maxPending, Count(p), Leave)
  {
    var sem := S.Apply(p.sem, S.Expire);
    NumberPositive(p.callers, i);
    CountMove(p, sem, i, Expired);
    assert Act(cfg, p, Expire(i)) == Move(p, sem, i, Expired);
  }

  lemma GiveUpShifts(cfg: Config, p: Joint, i: nat)
    requires Refs(p.w) && CanAct(cfg, p, GiveUp(i))
    ensures CanShift(Count(p), Quit) && Count(Act(cfg, p, GiveUp(i))) == Shifted(cfg.maxPending, Count(p), Quit)
  {
    var sem := S.Apply(p.sem, S.GiveUp);
    NumberPositive(p.callers, i);
    CountLeave(p.callers, i);
    assert Act(cfg, p, GiveUp(i)) == Dismiss(p, sem, i, ContextExpired);
  }

  lemma TakeOverShifts(cfg: Config, p: Joint, i: nat)
    requires Refs(p.w) && CanAct(cfg, p, TakeOver(i))
    ensures CanShift(Count(p), Take) && Count(Act(cfg, p, TakeOver(i))) == Shifted(cfg.maxPending, Count(p), Take)
  {
    var sem := S.Apply(p.sem, S.HandOver);
    NumberPositive(p.callers, i);
    CountLeave(p.callers, i);
    assert Act(cfg, p, TakeOver(i)) == Grant(p, sem, i).(blocked := false);
  }

  /** Everything else, while no new producer is let in and the worker goroutine has something to give back. */
  lemma OthersShift(cfg: Config, p: Joint, a: Action)
    requires Sound(cfg, p) && cfg.blockIfFull && CanAct(cfg, p, a) && p.w.mode != Ready && Count(p).Needs() > 0
    requires !a.Acquire? && !a.Expire? && !a.GiveUp? && !a.TakeOver?
    ensures CanShift(Count(p), ShiftOf(a)) && Count(Act(cfg, p, a)) == Shifted(cfg.maxPending, Count(p), ShiftOf(a))
  {
    match a
    case Offer(m) => assert Check(cfg, p.w.mode, m).Some?;
    case Release => ReleaseShifts(cfg, p);
    case _ => QuietShifts(cfg, p, a);
  }

  lemma ReleaseShifts(cfg: Config, p: Joint)
    requires Refs(p.w) && p.sem.maxPermits == cfg.maxPending && p.sem.handing == If(p.blocked) && CanAct(cfg, p, Release)
    ensures CanShift(Count(p), Give) && Count(Act(cfg, p, Release)) == Shifted(cfg.maxPending, Count(p), Give)
  {
    var sem := S.Apply(p.sem, S.Release);
    assert Act(cfg, p, Release) == p.(sem := sem, owed := p.owed - 1, blocked := sem.handing > p.sem.handing);
  }

  /** No producer is in `TryAcquire`, and the worker goroutine cannot begin another handler. */
  lemma QuietShifts(cfg: Config, p: Joint, a: Action)
    requires Refs(p.w) && CanAct(cfg, p, a) && cfg.blockIfFull && Count(p).Needs() > 0
    requires forall i :: 0 <= i < |p.callers| ==> Suits(cfg, p.callers[i].spot)
    requires a.Load? || a.Swap? || a.Enqueue? || a.Work? || a.Outside?
    ensures Count(Act(cfg, p, a)) == Count(p)
  {
    assert a.Enqueue? || a.Outside?;
  }

  /** The worker goroutine does not get out of its releases, so its mode stays. */
  lemma ModeStays(cfg: Config, p: Joint, a: Action)
    requires Refs(p.w) && CanAct(cfg, p, a) && Count(p).Needs() > 0
    ensures Act(cfg, p, a).w.mode == p.w.mode
  {
    if a.Outside? {
      EnvironmentFreezes(p.w, a.e);
    }
  }

  lemma ActShifts(cfg: Config, p: Joint, a: Action)
    requires Sound(cfg, p) && cfg.blockIfFull && CanAct(cfg, p, a) && p.w.mode != Ready && Count(p).Needs() > 0
    ensures CanShift(Count(p), ShiftOf(a)) && Count(Act(cfg, p, a)) == Shifted(cfg.maxPending, Count(p), ShiftOf(a))
  {
    match a
    case Acquire(i) => AcquireShifts(cfg, p, i);
    case Expire(i) => ExpireShifts(cfg, p, i);
    case GiveUp(i) => GiveUpShifts(cfg, p, i);
    case TakeOver(i) => TakeOverShifts(cfg, p, i);
    case _ => OthersShift(cfg, p, a);
  }

  // ----- no way down from a hopeless state, and a way down from every other

  lemma HopelessStays(cfg: Config, p: Joint, a: Action)
    requires Sound(cfg, p) && cfg.blockIfFull && p.w.mode != Ready && Hopeless(cfg, p) && CanAct(cfg, p, a)
    ensures var q := Act(cfg, p, a); Sound(cfg, q) && q.w.mode != Ready && Hopeless(cfg, q)
  {
    CountedHere(cfg, p);
    ActShifts(cfg, p, a);
    HopelessShifted(cfg.maxPending, Count(p), ShiftOf(a));
    ModeStays(cfg, p, a);
    ActKeepsSound(cfg, p, a);
  }

  lemma {:induction false} HopelessAfter(cfg: Config, p: Joint, acts: seq<Action>)
    requires Sound(cfg, p) && cfg.blockIfFull && p.w.mode != Ready && Hopeless(cfg, p) && After(cfg, p, acts).Some?
    ensures Count(After(cfg, p, acts).value).Needs() > 0
    decreases |acts|
  {
    if acts != [] {
      HopelessStays(cfg, p, acts[0]);
      HopelessAfter(cfg, Act(cfg, p, acts[0]), acts[1..]);
    }
  }

  /** The best move is open to somebody. */
  lemma BestAct(cfg: Config, p: Joint) returns (a: Action)
    requires Sound(cfg, p) && cfg.blockIfFull && Count(p).Needs() > 0 && CanShift(Count(p), Best(Count(p)))
    ensures ShiftOf(a) == Best(Count(p)) && CanAct(cfg, p, a)
  {
    match Best(Count(p)) {
      case Take =>
        var i := NumberWitness(p.callers, Waits);
        a := TakeOver(i);
      case Enter =>
        var i := NumberWitness(p.callers, Checked);
        a := Acquire(i);
      case Quit =>
        var i := NumberWitness(p.callers, Expired);
        a := GiveUp(i);
      case Give =>
        a := Release;
    }
    SemAllows(cfg, p, a);
  }

  lemma StepDown(cfg: Config, p: Joint) returns (a: Action)
    requires Sound(cfg, p) && cfg.blockIfFull && p.w.mode == Closed && !Hopeless(cfg, p) && Count(p).Needs() > 0
    ensures CanAct(cfg, p, a)
    ensures var q := Act(cfg, p, a);
            Sound(cfg, q) && q.w.mode == Closed && !Hopeless(cfg, q) && Count(q).Way() < Count(p).Way()
  {
    CountedHere(cfg, p);
    BestLeadsOn(cfg.maxPending, Count(p));
    a := BestAct(cfg, p);
    ActShifts(cfg, p, a);
    ModeStays(cfg, p, a);
    ActKeepsSound(cfg, p, a);
  }

  /** These actions can be made in turn, and the shutdown is over then. */
  ghost predicate Ends(cfg: Config, p: Joint, acts: seq<Action>) {
    After(cfg, p, acts).Some? && ShutDown(After(cfg, p, acts).value)
  }

  lemma EndsFirst(cfg: Config, p: Joint, a: Action, rest: seq<Action>)
    requires Refs(p.w) && CanAct(cfg, p, a) && Ends(cfg, Act(cfg, p, a), rest)
    ensures Ends(cfg, p, [a] + rest)
  {
    AfterFirst(cfg, p, a, rest);
  }

  lemma {:induction false} WayDown(cfg: Config, p: Joint) returns (acts: seq<Action>)
    requires Sound(cfg, p) && cfg.blockIfFull && p.w.mode == Closed && !Hopeless(cfg, p)
    ensures Ends(cfg, p, acts)
    decreases Count(p).Way()
  {
    if Count(p).Needs() == 0 {
      acts := [];
    } else {
      var a := StepDown(cfg, p);
      var rest := WayDown(cfg, Act(cfg, p, a));
      EndsFirst(cfg, p, a, rest);
      acts := [a] + rest;
    }
  }

  lemma ReleaseEffect(cfg: Config, p: Joint)
    requires Refs(p.w) && CanAct(cfg, p, Release)
    ensures Act(cfg, p, Release).w == p.w && Act(cfg, p, Release).owed == p.owed - 1
  {
  }

  lemma ReleaseOne(cfg: Config, p: Joint)
    requires Sound(cfg, p) && !cfg.blockIfFull && S.Surplus(p.sem) == 0 && p.owed > 0
    ensures CanAct(cfg, p, Release) && Sound(cfg, Act(cfg, p, Release)) && S.Surplus(Act(cfg, p, Release).sem) == 0
  {
    ReleaseFree(cfg, p);
    ActKeepsSound(cfg, p, Release);
    ActMakesSurplus(cfg, p, Release);
  }

  lemma ReleaseDown(cfg: Config, p: Joint)
    requires Sound(cfg, p) && !cfg.blockIfFull && S.Surplus(p.sem) == 0 && p.w.mode == Closed && p.owed > 0
    ensures CanAct(cfg, p, Release)
    ensures var q := Act(cfg, p, Release);
            Sound(cfg, q) && S.Surplus(q.sem) == 0 && q.w.mode == Closed && q.owed == p.owed - 1
  {
    ReleaseOne(cfg, p);
    ReleaseEffect(cfg, p);
  }

  predicate ReleasesOnly(acts: seq<Action>) {
    acts == [] || (acts[0] == Release && ReleasesOnly(acts[1..]))
  }

  lemma OneMoreRelease(acts: seq<Action>)
    requires ReleasesOnly(acts)
    ensures ReleasesOnly([Release] + acts)
  {
    assert ([Release] + acts)[1..] == acts;
  }

  /** Without blocking admission the worker goroutine needs nobody: its own releases take it to the end. */
  lemma {:induction false} ReleasesFinish(cfg: Config, p: Joint) returns (acts: seq<Action>)
    requires Sound(cfg, p) && !cfg.blockIfFull && S.Surplus(p.sem) == 0 && p.w.mode == Closed
    ensures Ends(cfg, p, acts) && ReleasesOnly(acts)
    decreases p.owed
  {
    if p.owed == 0 {
      ReleaseFree(cfg, p);
      acts := [];
    } else {
      ReleaseDown(cfg, p);
      var rest := ReleasesFinish(cfg, Act(cfg, p, Release));
      EndsFirst(cfg, p, Release, rest);
      OneMoreRelease(rest);
      acts := [Release] + rest;
    }
  }

  // ----- the theorem

  /** There is a way for the shutdown to come to its end. */
  ghost predicate CanShutDown(cfg: Config, p: Joint) {
    exists acts :: Ends(cfg, p, acts)
  }

  /** With all batches finished, exactly when the shutdown can still come to its end. */
  lemma ShutsDownIff(cfg: Config, p: Joint)
    requires Sound(cfg, p) && cfg.blockIfFull && p.w.mode == Closed
    ensures CanShutDown(cfg, p) <==> !Hopeless(cfg, p)
  {
    if Hopeless(cfg, p) {
      forall acts | Ends(cfg, p, acts) ensures false {
        HopelessAfter(cfg, p, acts);
      }
    } else {
      var acts := WayDown(cfg, p);
    }
  }

  /** After a late expiry a goroutine may be able to get out of the release it stands in, and still not out of all
      that it owes: here somebody waits for the first permit and nobody for the second. */
  lemma ServedAndStillHopeless()
    ensures var f := Figures(1, 0, 0, 1, 2, 1, true);
            f.Counted() && f.Hopeless(1) && CanShift(f, Take) && !Shifted(1, f, Take).blocked
  {
  }

  /** As long as no expiry was late, being hopeless is the same as being stuck. */
  lemma HopelessIsStuck(cfg: Config, p: Joint)
    requires Sound(cfg, p) && p.w.mode != Ready
    ensures Stuck(cfg, p) ==> Hopeless(cfg, p)
    ensures S.Surplus(p.sem) == 0 ==> (Hopeless(cfg, p) <==> Stuck(cfg, p))
  {
    CountedHere(cfg, p);
  }

  /** Whoever has shut down has called everybody back. */
  lemma ShutDownCallsAll(cfg: Config, trace: seq<Joint>, acts: seq<Action>, i: nat, j: nat)
    requires cfg.Supported() && JointRun(cfg, trace, acts) && i <= j < |trace|
    requires Returned(trace[i].w) && ShutDown(trace[j])
    ensures trace[j].w.closes == 1
    ensures multiset(trace[j].w.accepted) == multiset(Msgs(Made(trace[j])))
  {
    var states, steps, at := Projection(cfg, trace, acts, j);
    GracefulClose(cfg, states, steps, at[i], at[j]);
    var made := trace[j].w.callbacks;
    assert made[..|made|] == made;
  }

  /** Shutdown together with the semaphore. Once every batch that nothing else has finished has been timed
      out, all batches are finished, and what remains is to give the permits back. Without blocking admission
      the worker goroutine does so alone. With it, it can if and only if there are enough producers left. */
  lemma CloseCompletes(cfg: Config, trace: seq<Joint>, acts: seq<Action>, i: nat, j: nat)
    requires cfg.Supported() && JointRun(cfg, trace, acts) && i <= j < |trace| && Returned(trace[i].w)
    requires forall id :: id in trace[i].w.unacked && id in trace[j].w.unacked ==>
               exists k :: i <= k < j && acts[k] == Work(Handle(TickSend(id)))
    ensures trace[j].w.mode == Closed && trace[j].w.unacked == map[]
    ensures ShutDown(trace[j]) ==> multiset(trace[j].w.accepted) == multiset(Msgs(Made(trace[j])))
    ensures !cfg.blockIfFull ==> exists acts :: Ends(cfg, trace[j], acts) && ReleasesOnly(acts)
    ensures cfg.blockIfFull ==> (CanShutDown(cfg, trace[j]) <==> !Hopeless(cfg, trace[j]))
  {
    var states, steps, at := Projection(cfg, trace, acts, j);
    forall id | id in states[at[i]].unacked && id in states[at[j]].unacked
      ensures exists k :: at[i] <= k < at[j] && steps[k] == Handle(TickSend(id))
    {
      var k :| i <= k < j && acts[k] == Work(Handle(TickSend(id)));
      assert at[i] <= at[k] < at[k + 1] <= at[j] && steps[at[k]] == Handle(TickSend(id));
    }
    TimeoutsFinishClose(cfg, states, steps, at[i], at[j]);
    if ShutDown(trace[j]) {
      ShutDownCallsAll(cfg, trace, acts, i, j);
    }
    RunSound(cfg, trace, acts, j);
    if cfg.blockIfFull {
      ShutsDownIff(cfg, trace[j]);
    } else {
      RunSurplus(cfg, trace, acts, j);
      NobodyLate(cfg, trace, acts, j);
      var releases := ReleasesFinish(cfg, trace[j]);
    }
  }
}
