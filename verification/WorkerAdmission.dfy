/** The worker together with the semaphore that admits messages to it.

    Producers pass through the semaphore's atomic steps; the worker goroutine gives one permit back for
    every message it calls back. Giving back may block: then the goroutine waits in the middle of its
    handler until a waiting producer takes the permit over. A handler is one step here, followed by the
    releases it owes, and the next handler has to wait for them. */
module WorkerAdmission {
  import opened Common
  import opened WorkerSpec
  import opened WorkerInvariant
  import opened WorkerSteps
  import opened WorkerRuns
  import S = Semaphore

  /** Where a producer is in `doSendAsync`: behind the checks, in `TryAcquire` with the counter it has
      read, in the select statement of `Acquire`, or out of it because its context has expired. */
  datatype Spot = Checked | Loaded(seen: int) | Waits | Expired

  datatype Caller = Caller(m: Message, spot: Spot)

  /** `owed` counts the releases of the current handler that have not begun, `blocked` says that the
      worker goroutine stands in one of them. */
  datatype Joint = Joint(w: State, sem: S.State, callers: seq<Caller>, owed: nat, blocked: bool)

  datatype Action =
    | Offer(m: Message)
    | Acquire(i: nat)
    | Load(i: nat)
    | Swap(i: nat)
    | Expire(i: nat)
    | GiveUp(i: nat)
    | TakeOver(i: nat)
    | Enqueue(k: nat)
    | Release
    | Work(step: Step)
    | Outside(e: Environment)

  function Start(cfg: Config): Joint {
    Joint(INIT, S.Init(cfg.maxPending), [], 0, false)
  }

  /** The step of the semaphore that an action consists of, if any. */
  function SemStep(p: Joint, a: Action): Option<S.Step> {
    match a
    case Acquire(_) => Some(S.Acquire)
    case Load(_) => Some(S.TryLoad)
    case Swap(i) => if i < |p.callers| && p.callers[i].spot.Loaded? then Some(S.TrySwap(p.callers[i].spot.seen)) else None
    case Expire(_) => Some(S.Expire)
    case GiveUp(_) => Some(S.GiveUp)
    case TakeOver(_) => Some(S.HandOver)
    case Release => Some(S.Release)
    case _ => None
  }

  /** Whether the goroutine that acts is where it can. */
  predicate InPlace(cfg: Config, p: Joint, a: Action)
    requires Refs(p.w)
  {
    match a
    case Offer(m) => true
    case Acquire(i) => i < |p.callers| && p.callers[i].spot == Checked && cfg.blockIfFull
    case Load(i) => i < |p.callers| && p.callers[i].spot == Checked && !cfg.blockIfFull
    case Swap(i) => i < |p.callers| && p.callers[i].spot.Loaded?
    case Expire(i) => i < |p.callers| && p.callers[i].spot == Waits
    case GiveUp(i) => i < |p.callers| && p.callers[i].spot == Expired
    case TakeOver(i) => i < |p.callers| && p.callers[i].spot == Waits && p.blocked
    case Enqueue(k) => CanProduce(cfg, p.w, DoEnqueue(k))
    case Release => p.owed > 0 && !p.blocked
    case Work(step) => (step.Handle? || step.Shut?) && p.owed == 0 && !p.blocked && Enabled(cfg, p.w, step)
    case Outside(e) => CanHappen(cfg, p.w, e)
  }

  predicate CanAct(cfg: Config, p: Joint, a: Action)
    requires Refs(p.w)
  {
    InPlace(cfg, p, a) && (SemStep(p, a).Some? ==> S.Enabled(p.sem, SemStep(p, a).value))
  }

  function NextSem(p: Joint, a: Action): S.State
    requires SemStep(p, a).Some? ==> S.Enabled(p.sem, SemStep(p, a).value)
  {
    if SemStep(p, a).Some? then S.Apply(p.sem, SemStep(p, a).value) else p.sem
  }

  function Without(cs: seq<Caller>, i: nat): seq<Caller>
    requires i < |cs|
  {
    cs[..i] + cs[i + 1..]
  }

  /** A producer goes on to another place, or leaves with or without a permit. */
  function Move(p: Joint, sem: S.State, i: nat, spot: Spot): Joint
    requires i < |p.callers|
  {
    p.(sem := sem, callers := p.callers[i := p.callers[i].(spot := spot)])
  }

  function Grant(p: Joint, sem: S.State, i: nat): Joint
    requires i < |p.callers|
  {
    p.(sem := sem, callers := Without(p.callers, i), w := Reserve(p.w, p.callers[i].m))
  }

  function Dismiss(p: Joint, sem: S.State, i: nat, why: Refusal): Joint
    requires i < |p.callers|
  {
    p.(sem := sem, callers := Without(p.callers, i), w := Refuse(p.w, p.callers[i].m, why))
  }

  function Act(cfg: Config, p: Joint, a: Action): Joint
    requires Refs(p.w) && CanAct(cfg, p, a)
  {
    var sem := NextSem(p, a);
    match a
    case Offer(m) =>
      (match Check(cfg, p.w.mode, m)
       case Some(why) => p.(w := Refuse(p.w, m, why))
       case None => p.(callers := p.callers + [Caller(m, Checked)]))
    case Acquire(i) => if sem.counter <= sem.maxPermits then Grant(p, sem, i) else Move(p, sem, i, Waits)
    case Load(i) =>
      if p.sem.counter >= p.sem.maxPermits then Dismiss(p, sem, i, QueueFull)
      else Move(p, sem, i, Loaded(p.sem.counter))
    case Swap(i) =>
      if p.sem.counter == p.callers[i].spot.seen then Grant(p, sem, i) else Move(p, sem, i, Checked)
    case Expire(i) => Move(p, sem, i, Expired)
    case GiveUp(i) => Dismiss(p, sem, i, ContextExpired)
    case TakeOver(i) => Grant(p, sem, i).(blocked := false)
    case Enqueue(k) => p.(w := ApplyProducer(cfg, p.w, DoEnqueue(k)))
    case Release => p.(sem := sem, owed := p.owed - 1, blocked := sem.handing > p.sem.handing)
    case Work(step) =>
      var t := Apply(cfg, p.w, step);
      p.(w := t, owed := Max(0, p.w.permits - t.permits))
    case Outside(e) => p.(w := ApplyEnvironment(p.w, e))
  }

  ghost predicate JointRun(cfg: Config, trace: seq<Joint>, acts: seq<Action>) {
    && |trace| == |acts| + 1
    && trace[0] == Start(cfg)
    && forall i :: 0 <= i < |acts| ==>
         Refs(trace[i].w) && CanAct(cfg, trace[i], acts[i]) && trace[i + 1] == Act(cfg, trace[i], acts[i])
  }

  // ----- the books of the semaphore

  function SpotsOf(cs: seq<Caller>): seq<Spot> {
    seq(|cs|, i requires 0 <= i < |cs| => cs[i].spot)
  }

  function NumberAt(cs: seq<Caller>, spot: Spot): nat {
    multiset(SpotsOf(cs))[spot]
  }

  lemma NumberAppend(cs: seq<Caller>, c: Caller, spot: Spot)
    ensures NumberAt(cs + [c], spot) == NumberAt(cs, spot) + If(c.spot == spot)
  {
    assert SpotsOf(cs + [c]) == SpotsOf(cs) + [c.spot];
  }

  lemma NumberUpdate(cs: seq<Caller>, i: nat, c: Caller, spot: Spot)
    requires i < |cs|
    ensures NumberAt(cs[i := c], spot) + If(cs[i].spot == spot) == NumberAt(cs, spot) + If(c.spot == spot)
  {
    assert SpotsOf(cs[i := c]) == SpotsOf(cs)[i := c.spot];
  }

  lemma NumberWithout(cs: seq<Caller>, i: nat, spot: Spot)
    requires i < |cs|
    ensures NumberAt(Without(cs, i), spot) + If(cs[i].spot == spot) == NumberAt(cs, spot)
  {
    var all := SpotsOf(cs);
    assert SpotsOf(Without(cs, i)) == all[..i] + all[i + 1..];
    assert all == all[..i] + [all[i]] + all[i + 1..];
  }

  lemma NumberWitness(cs: seq<Caller>, spot: Spot) returns (i: nat)
    requires NumberAt(cs, spot) > 0
    ensures i < |cs| && cs[i].spot == spot
  {
    assert spot in SpotsOf(cs);
    i :| i < |SpotsOf(cs)| && SpotsOf(cs)[i] == spot;
  }

  lemma NumberPositive(cs: seq<Caller>, i: nat)
    requires i < |cs|
    ensures NumberAt(cs, cs[i].spot) > 0
  {
    assert SpotsOf(cs)[i] in multiset(SpotsOf(cs));
  }

  /** The semaphore counts the producers where they are. */
  ghost predicate Queued(sem: S.State, cs: seq<Caller>) {
    && sem.waiting == NumberAt(cs, Waits)
    && sem.expiring == NumberAt(cs, Expired)
    && (forall x :: sem.loaded[x] == NumberAt(cs, Loaded(x)))
  }

  /** Waiting and trying do not mix. */
  predicate Suits(cfg: Config, spot: Spot) {
    if cfg.blockIfFull then !spot.Loaded? else spot != Waits && spot != Expired
  }

  /** Every permit belongs to a message that has not been called back, or is about to be given back. */
  ghost predicate Linked(cfg: Config, p: Joint) {
    && p.sem.maxPermits == cfg.maxPending
    && S.Counted(p.sem)
    && p.sem.acquired == p.w.permits + p.owed
    && p.sem.handing == If(p.blocked)
    && Queued(p.sem, p.callers)
    && (forall i :: 0 <= i < |p.callers| ==> GoodMessage(cfg, p.callers[i].m))
    && (forall i :: 0 <= i < |p.callers| ==> Suits(cfg, p.callers[i].spot))
  }

  // ----- what a handler gives back

  lemma FlushIfFullGives(cfg: Config, s: State, m: Message, w: Write)
    requires Refs(s)
    ensures FlushIfFull(cfg, s, m, w).permits <= s.permits
  {
    if s.pending.Some? {
      SendFrame(cfg, s.(pending := None), s.pending.value, true, w);
    }
  }

  lemma EnlistGives(cfg: Config, s: State, m: Message, r: Ref, id: Id, w: Write)
    requires s.pending.Some? ==> s.pending.value in s.heap
    ensures Enlist(cfg, s, m, r, id, w).permits <= s.permits
  {
    var s2 := Append(if s.pending.Some? then s else NewBatch(s, r, id), m);
    SendFrame(cfg, s2.(pending := None), s2.pending.value, true, w);
  }

  lemma ReceiveGives(cfg: Config, s: State, h: Handler)
    requires Refs(s) && CanHandle(cfg, s, h) && h.RecvData?
    ensures ApplyHandler(cfg, s, h).permits <= s.permits
  {
    var m, s0 := s.dataCh[0], s.(dataCh := s.dataCh[1..]);
    FlushIfFullGives(cfg, s0, m, h.w1);
    EnlistGives(cfg, FlushIfFull(cfg, s0, m, h.w1), m, h.r, h.id, h.w2);
  }

  lemma EventGives(cfg: Config, s: State, h: Handler)
    requires Refs(s) && CanHandle(cfg, s, h) && !h.RecvData?
    ensures ApplyHandler(cfg, s, h).permits <= s.permits
  {
    match h
    case TickBatch(w) =>
      if s.pending.Some? {
        SendFrame(cfg, s.(pending := None), s.pending.value, true, w);
      }
    case TickSend(id) => BackoffFrame(cfg, s.(unacked := s.unacked - {id}), s.unacked[id]);
    case RecvDone => DoneGives(s.(doneCh := s.doneCh[1..], phase := s.phase), s.doneCh[0]);
    case RecvFailed => FailedGives(cfg, s.(failedCh := s.failedCh[1..]), s.failedCh[0]);
    case RecvRetry(w) => RetryGives(cfg, s.(retryCh := s.retryCh[1..], phase := s.phase), s.retryCh[0], true, w);
    case RecvRsp => RspGives(s.(rspCh := s.rspCh[1..]), s.rspCh[0]);
  }

  lemma DoneGives(s: State, e: DoneReq)
    ensures DoneBatch(s, e.id, e.ref, e.err).permits <= s.permits
  {
    DoneFrame(s, e.id, e.ref, e.err);
  }

  lemma FailedGives(cfg: Config, s: State, e: FailedReq)
    ensures HandleSendFailed(cfg, s, e).permits <= s.permits
  {
    if e.ref in s.heap {
      var s1 := if cfg.v3 then s.(unacked := s.unacked - {e.id}) else s;
      BackoffFrame(cfg, s1, e.ref);
      DoneFrame(s1, e.id, e.ref, WriteFailed);
    }
  }

  lemma RetryGives(cfg: Config, s: State, e: RetryReq, retryOnFail: bool, w: Write)
    requires Refs(s)
    ensures HandleRetry(cfg, s, e, retryOnFail, w).permits <= s.permits
  {
    if e.id in s.retrying && s.retrying[e.id] == e.ref {
      SendFrame(cfg, s.(retrying := s.retrying - {e.id}), e.ref, retryOnFail, w);
    }
  }

  lemma RspGives(s: State, rsp: Rsp)
    ensures HandleRsp(s, rsp).permits <= s.permits
  {
    var s0 := if rsp.code == 0 then s.(acks := s.acks + {rsp.id}) else s;
    if rsp.id in s.unacked {
      DoneFrame(s0, rsp.id, s.unacked[rsp.id], Verdict(rsp));
    } else if rsp.id in s.retrying {
      DoneFrame(s0, rsp.id, s.retrying[rsp.id], Verdict(rsp));
    }
  }

  lemma DrainGives(cfg: Config, s: State, c: Shutdown)
    requires Refs(s) && CanShut(s, c) && (c.CloseDone? || c.CloseRetry?)
    ensures ApplyShutdown(cfg, s, c).permits <= s.permits
  {
    if c.CloseDone? {
      TakeDoneEffect(cfg, s);
      DoneGives(s.(doneCh := s.doneCh[1..], phase := DrainDone(s.phase.i + 1)), s.doneCh[0]);
    } else {
      TakeRetryEffect(cfg, s, c.w);
      RetryGives(cfg, s.(retryCh := s.retryCh[1..], phase := DrainRetry(s.phase.j + 1)), s.retryCh[0], false, c.w);
    }
  }

  lemma FlushGives(cfg: Config, s: State, w: Write)
    requires Refs(s)
    ensures BatchTimeoutOnClose(cfg, s, w).permits <= s.permits
  {
    if s.pending.Some? {
      SendFrame(cfg, s.(phase := DrainDone(0)).(pending := None), s.pending.value, false, w);
    }
  }

  lemma ShutdownGives(cfg: Config, s: State, c: Shutdown)
    requires Refs(s) && CanShut(s, c) && !c.CloseDone? && !c.CloseRetry?
    ensures ApplyShutdown(cfg, s, c).permits <= s.permits
  {
    if c.CloseDataEnd? {
      FlushGives(cfg, s, c.w);
    } else if c.CloseResend? {
      SendFrame(cfg, s.(retrying := s.retrying - {c.id}), s.retrying[c.id], false, c.w);
    }
  }

  /** The worker goroutine never takes a permit. */
  lemma WorkGives(cfg: Config, s: State, step: Step)
    requires Refs(s) && Enabled(cfg, s, step) && (step.Handle? || step.Shut?)
    ensures Apply(cfg, s, step).permits <= s.permits
  {
    if step.Shut? && (step.c.CloseDone? || step.c.CloseRetry?) {
      DrainGives(cfg, s, step.c);
    } else if step.Shut? {
      ShutdownGives(cfg, s, step.c);
    } else if step.h.RecvData? {
      ReceiveGives(cfg, s, step.h);
    } else {
      EventGives(cfg, s, step.h);
    }
  }

  // ----- every action keeps the books

  /** In the semaphore one producer has gone from `from` to `to`; `Checked` is outside. */
  ghost predicate Passed(sem: S.State, t: S.State, from: Spot, to: Spot) {
    && t.waiting + If(from == Waits) == sem.waiting + If(to == Waits)
    && t.expiring + If(from == Expired) == sem.expiring + If(to == Expired)
    && (forall x :: t.loaded[x] + If(from == Loaded(x)) == sem.loaded[x] + If(to == Loaded(x)))
  }

  lemma QueuedMove(sem: S.State, t: S.State, cs: seq<Caller>, i: nat, to: Spot)
    requires i < |cs| && Queued(sem, cs) && Passed(sem, t, cs[i].spot, to)
    ensures Queued(t, cs[i := cs[i].(spot := to)])
  {
    var c := cs[i].(spot := to);
    NumberUpdate(cs, i, c, Waits);
    NumberUpdate(cs, i, c, Expired);
    forall x ensures t.loaded[x] == NumberAt(cs[i := c], Loaded(x)) {
      NumberUpdate(cs, i, c, Loaded(x));
    }
  }

  lemma QueuedLeave(sem: S.State, t: S.State, cs: seq<Caller>, i: nat)
    requires i < |cs| && Queued(sem, cs) && Passed(sem, t, cs[i].spot, Checked)
    ensures Queued(t, Without(cs, i))
  {
    NumberWithout(cs, i, Waits);
    NumberWithout(cs, i, Expired);
    forall x ensures t.loaded[x] == NumberAt(Without(cs, i), Loaded(x)) {
      NumberWithout(cs, i, Loaded(x));
    }
  }

  lemma QueuedArrive(sem: S.State, cs: seq<Caller>, m: Message)
    requires Queued(sem, cs)
    ensures Queued(sem, cs + [Caller(m, Checked)])
  {
    var c := Caller(m, Checked);
    NumberAppend(cs, c, Waits);
    NumberAppend(cs, c, Expired);
    forall x ensures sem.loaded[x] == NumberAt(cs + [c], Loaded(x)) {
      NumberAppend(cs, c, Loaded(x));
    }
  }

  /** A goroutine that is in its place is never kept from acting. */
  lemma SemAllows(cfg: Config, p: Joint, a: Action)
    requires Inv(cfg, p.w) && Refs(p.w) && Linked(cfg, p) && InPlace(cfg, p, a)
    ensures CanAct(cfg, p, a)
  {
    match a
    case Swap(i) => NumberPositive(p.callers, i);
    case Expire(i) => NumberPositive(p.callers, i);
    case GiveUp(i) => NumberPositive(p.callers, i);
    case TakeOver(i) => NumberPositive(p.callers, i);
    case Release => PermitsCount(cfg, p.w);
    case _ =>
  }

  ghost predicate Sound(cfg: Config, p: Joint) {
    Inv(cfg, p.w) && Refs(p.w) && Linked(cfg, p)
  }

  lemma MoveKeepsLinked(cfg: Config, p: Joint, sem: S.State, i: nat, to: Spot)
    requires Linked(cfg, p) && i < |p.callers| && Passed(p.sem, sem, p.callers[i].spot, to) && S.Counted(sem)
    requires sem.maxPermits == p.sem.maxPermits && sem.acquired == p.sem.acquired && sem.handing == p.sem.handing
    requires Suits(cfg, to)
    ensures Linked(cfg, Move(p, sem, i, to))
  {
    QueuedMove(p.sem, sem, p.callers, i, to);
  }

  lemma GrantKeepsLinked(cfg: Config, p: Joint, sem: S.State, i: nat, blocked: bool)
    requires Linked(cfg, p) && i < |p.callers| && Passed(p.sem, sem, p.callers[i].spot, Checked) && S.Counted(sem)
    requires sem.maxPermits == p.sem.maxPermits && sem.acquired == p.sem.acquired + 1 && sem.handing == If(blocked)
    ensures Linked(cfg, Grant(p, sem, i).(blocked := blocked))
  {
    QueuedLeave(p.sem, sem, p.callers, i);
  }

  lemma DismissKeepsLinked(cfg: Config, p: Joint, sem: S.State, i: nat, why: Refusal)
    requires Linked(cfg, p) && i < |p.callers| && Passed(p.sem, sem, p.callers[i].spot, Checked) && S.Counted(sem)
    requires sem.maxPermits == p.sem.maxPermits && sem.acquired == p.sem.acquired && sem.handing == p.sem.handing
    ensures Linked(cfg, Dismiss(p, sem, i, why))
  {
    QueuedLeave(p.sem, sem, p.callers, i);
  }

  lemma AcquireKeepsLinked(cfg: Config, p: Joint, i: nat)
    requires Refs(p.w) && Linked(cfg, p) && CanAct(cfg, p, Acquire(i))
    ensures Linked(cfg, Act(cfg, p, Acquire(i)))
  {
    var sem := S.Apply(p.sem, S.Acquire);
    if sem.counter <= sem.maxPermits {
      GrantKeepsLinked(cfg, p, sem, i, p.blocked);
    } else {
      MoveKeepsLinked(cfg, p, sem, i, Waits);
    }
  }

  lemma LeavingKeepsLinked(cfg: Config, p: Joint, a: Action)
    requires Refs(p.w) && Linked(cfg, p) && CanAct(cfg, p, a) && (a.Expire? || a.GiveUp? || a.TakeOver?)
    ensures Linked(cfg, Act(cfg, p, a))
  {
    var sem := S.Apply(p.sem, SemStep(p, a).value);
    match a
    case Expire(i) => MoveKeepsLinked(cfg, p, sem, i, Expired);
    case GiveUp(i) => DismissKeepsLinked(cfg, p, sem, i, ContextExpired);
    case TakeOver(i) => GrantKeepsLinked(cfg, p, sem, i, false);
  }

  lemma LoadKeepsLinked(cfg: Config, p: Joint, i: nat)
    requires Refs(p.w) && Linked(cfg, p) && CanAct(cfg, p, Load(i))
    ensures Linked(cfg, Act(cfg, p, Load(i)))
  {
    var sem := S.Apply(p.sem, S.TryLoad);
    if p.sem.counter >= p.sem.maxPermits {
      DismissKeepsLinked(cfg, p, sem, i, QueueFull);
    } else {
      MoveKeepsLinked(cfg, p, sem, i, Loaded(p.sem.counter));
    }
  }

  lemma SwapKeepsLinked(cfg: Config, p: Joint, i: nat)
    requires Refs(p.w) && Linked(cfg, p) && CanAct(cfg, p, Swap(i))
    ensures Linked(cfg, Act(cfg, p, Swap(i)))
  {
    var sem := S.Apply(p.sem, S.TrySwap(p.callers[i].spot.seen));
    S.StepKeepsCounted(p.sem, S.TrySwap(p.callers[i].spot.seen));
    if p.sem.counter == p.callers[i].spot.seen {
      GrantKeepsLinked(cfg, p, sem, i, p.blocked);
    } else {
      MoveKeepsLinked(cfg, p, sem, i, Checked);
    }
  }

  lemma OfferKeepsLinked(cfg: Config, p: Joint, m: Message)
    requires Refs(p.w) && Linked(cfg, p)
    ensures Linked(cfg, Act(cfg, p, Offer(m)))
  {
    QueuedArrive(p.sem, p.callers, m);
  }

  lemma ReleaseKeepsLinked(cfg: Config, p: Joint)
    requires Refs(p.w) && Linked(cfg, p) && CanAct(cfg, p, Release)
    ensures Linked(cfg, Act(cfg, p, Release))
  {
    var sem := S.Apply(p.sem, S.Release);
    assert Act(cfg, p, Release) == p.(sem := sem, owed := p.owed - 1, blocked := sem.handing > p.sem.handing);
  }

  lemma WorkKeepsLinked(cfg: Config, p: Joint, step: Step)
    requires Refs(p.w) && Linked(cfg, p) && CanAct(cfg, p, Work(step))
    ensures Linked(cfg, Act(cfg, p, Work(step)))
  {
    WorkGives(cfg, p.w, step);
    OtherWorkerLinked(cfg, p, Apply(cfg, p.w, step), p.w.permits - Apply(cfg, p.w, step).permits);
  }

  /** Only the permits of the worker matter to the semaphore. */
  lemma OtherWorkerLinked(cfg: Config, p: Joint, w: State, owed: nat)
    requires Linked(cfg, p) && w.permits + owed == p.w.permits + p.owed
    ensures Linked(cfg, p.(w := w, owed := owed))
  {
  }

  lemma EnqueueKeepsLinked(cfg: Config, p: Joint, k: nat)
    requires Refs(p.w) && Linked(cfg, p) && CanAct(cfg, p, Enqueue(k))
    ensures Linked(cfg, Act(cfg, p, Enqueue(k)))
  {
    OtherWorkerLinked(cfg, p, ApplyProducer(cfg, p.w, DoEnqueue(k)), p.owed);
  }

  lemma OutsideKeepsLinked(cfg: Config, p: Joint, e: Environment)
    requires Refs(p.w) && Linked(cfg, p) && CanAct(cfg, p, Outside(e))
    ensures Linked(cfg, Act(cfg, p, Outside(e)))
  {
    EnvironmentFreezes(p.w, e);
    OtherWorkerLinked(cfg, p, ApplyEnvironment(p.w, e), p.owed);
  }

  /** The part of an action that concerns the worker is a step of its machine, or none at all. */
  function WorkerStep(cfg: Config, p: Joint, a: Action): Option<Step>
    requires Refs(p.w) && CanAct(cfg, p, a)
  {
    match a
    case Offer(m) => (match Check(cfg, p.w.mode, m) case Some(why) => Some(Produce(DoRefuse(m, why))) case None => None)
    case Acquire(i) =>
      if NextSem(p, a).counter <= p.sem.maxPermits then Some(Produce(DoReserve(p.callers[i].m))) else None
    case Load(i) =>
      if p.sem.counter >= p.sem.maxPermits then Some(Produce(DoRefuse(p.callers[i].m, QueueFull))) else None
    case Swap(i) =>
      if p.sem.counter == p.callers[i].spot.seen then Some(Produce(DoReserve(p.callers[i].m))) else None
    case Expire(i) => None
    case GiveUp(i) => Some(Produce(DoRefuse(p.callers[i].m, ContextExpired)))
    case TakeOver(i) => Some(Produce(DoReserve(p.callers[i].m)))
    case Enqueue(k) => Some(Produce(DoEnqueue(k)))
    case Release => None
    case Work(step) => Some(step)
    case Outside(e) => Some(Happen(e))
  }

  lemma WorkerFollows(cfg: Config, p: Joint, a: Action)
    requires Refs(p.w) && Linked(cfg, p) && CanAct(cfg, p, a)
    ensures var step := WorkerStep(cfg, p, a);
            if step.None? then Act(cfg, p, a).w == p.w
            else Enabled(cfg, p.w, step.value) && Act(cfg, p, a).w == Apply(cfg, p.w, step.value)
  {
  }

  lemma LinkedKept(cfg: Config, p: Joint, a: Action)
    requires Refs(p.w) && Linked(cfg, p) && CanAct(cfg, p, a)
    ensures Linked(cfg, Act(cfg, p, a))
  {
    match a
    case Offer(m) => OfferKeepsLinked(cfg, p, m);
    case Acquire(i) => AcquireKeepsLinked(cfg, p, i);
    case Load(i) => LoadKeepsLinked(cfg, p, i);
    case Swap(i) => SwapKeepsLinked(cfg, p, i);
    case Expire(_) => LeavingKeepsLinked(cfg, p, a);
    case GiveUp(_) => LeavingKeepsLinked(cfg, p, a);
    case TakeOver(_) => LeavingKeepsLinked(cfg, p, a);
    case Release => ReleaseKeepsLinked(cfg, p);
    case Work(step) => WorkKeepsLinked(cfg, p, step);
    case Enqueue(k) => EnqueueKeepsLinked(cfg, p, k);
    case Outside(e) => OutsideKeepsLinked(cfg, p, e);
  }

  lemma ActKeepsSound(cfg: Config, p: Joint, a: Action)
    requires Sound(cfg, p) && CanAct(cfg, p, a)
    ensures Sound(cfg, Act(cfg, p, a))
  {
    WorkerFollows(cfg, p, a);
    if WorkerStep(cfg, p, a).Some? {
      StepKeepsInv(cfg, p.w, WorkerStep(cfg, p, a).value);
    }
    InvImpliesRefs(cfg, Act(cfg, p, a).w);
    LinkedKept(cfg, p, a);
  }

  lemma {:induction false} RunSound(cfg: Config, trace: seq<Joint>, acts: seq<Action>, i: nat)
    requires cfg.Supported() && JointRun(cfg, trace, acts) && i < |trace|
    ensures Sound(cfg, trace[i])
  {
    if i == 0 {
      InitInv(cfg);
    } else {
      RunSound(cfg, trace, acts, i - 1);
      assert trace[i] == Act(cfg, trace[i - 1], acts[i - 1]);
      ActKeepsSound(cfg, trace[i - 1], acts[i - 1]);
    }
  }

  // ----- who is admitted

  /** A message that passes the checks goes on to the semaphore; any other is refused for the reason that applies. */
  lemma OfferDecides(cfg: Config, p: Joint, m: Message) returns (why: Option<Refusal>)
    requires Refs(p.w)
    ensures RefusedFor(cfg, p.w.mode, m, true, why)
    ensures CanAct(cfg, p, Offer(m))
    ensures Act(cfg, p, Offer(m)) == if why.Some? then p.(w := p.w.(refused := p.w.refused + [(m, why.value)]))
                                     else p.(callers := p.callers + [Caller(m, Checked)])
  {
    CheckRefuses(cfg, p.w.mode, m);
    why := Check(cfg, p.w.mode, m);
  }

  /** The message has its permit and is about to be enqueued. */
  predicate Admitted(p: Joint, t: Joint, i: nat)
    requires i < |p.callers|
  {
    && t.callers == Without(p.callers, i) && t.sem.acquired == p.sem.acquired + 1
    && t.w == p.w.(permits := p.w.permits + 1, reserved := p.w.reserved + [p.callers[i].m])
  }

  lemma AcquireDecides(cfg: Config, p: Joint, i: nat)
    requires Refs(p.w) && CanAct(cfg, p, Acquire(i)) && p.sem.maxPermits == cfg.maxPending
    ensures var t := Act(cfg, p, Acquire(i));
            if p.sem.counter < cfg.maxPending then Admitted(p, t, i)
            else t.w == p.w && t.callers == p.callers[i := Caller(p.callers[i].m, Waits)]
  {
  }

  lemma TakeOverDecides(cfg: Config, p: Joint, i: nat)
    requires Refs(p.w) && CanAct(cfg, p, TakeOver(i))
    ensures Admitted(p, Act(cfg, p, TakeOver(i)), i) && !Act(cfg, p, TakeOver(i)).blocked
  {
  }

  /** Blocking admission: a permit at once while there are some, otherwise the producer waits; it gets one when the
      worker goroutine hands one over, and is refused when its context expires. */
  lemma BlockingDecides(cfg: Config, p: Joint, i: nat)
    requires Sound(cfg, p) && cfg.blockIfFull && i < |p.callers|
    ensures p.callers[i].spot == Checked ==>
              && CanAct(cfg, p, Acquire(i))
              && var t := Act(cfg, p, Acquire(i));
                 if p.sem.counter < cfg.maxPending then Admitted(p, t, i)
                 else t.w == p.w && t.callers == p.callers[i := Caller(p.callers[i].m, Waits)]
    ensures p.callers[i].spot == Waits && p.blocked ==>
              CanAct(cfg, p, TakeOver(i)) && Admitted(p, Act(cfg, p, TakeOver(i)), i) && !Act(cfg, p, TakeOver(i)).blocked
    ensures p.callers[i].spot == Expired ==>
              && CanAct(cfg, p, GiveUp(i))
              && var t := Act(cfg, p, GiveUp(i));
                 t.callers == Without(p.callers, i) && t.w == p.w.(refused := p.w.refused + [(p.callers[i].m, ContextExpired)])
  {
    if p.callers[i].spot == Checked {
      SemAllows(cfg, p, Acquire(i));
      AcquireDecides(cfg, p, i);
    } else if p.callers[i].spot == Waits && p.blocked {
      SemAllows(cfg, p, TakeOver(i));
      TakeOverDecides(cfg, p, i);
    } else if p.callers[i].spot == Expired {
      SemAllows(cfg, p, GiveUp(i));
    }
  }

  lemma LoadDecides(cfg: Config, p: Joint, i: nat)
    requires Refs(p.w) && CanAct(cfg, p, Load(i)) && p.sem.maxPermits == cfg.maxPending
    ensures var t := Act(cfg, p, Load(i));
            if p.sem.counter < cfg.maxPending
            then t.w == p.w && t.callers == p.callers[i := Caller(p.callers[i].m, Loaded(p.sem.counter))] && t.sem.counter == p.sem.counter
            else t.callers == Without(p.callers, i) && t.w == p.w.(refused := p.w.refused + [(p.callers[i].m, QueueFull)])
  {
  }

  lemma SwapDecides(cfg: Config, p: Joint, i: nat)
    requires Refs(p.w) && CanAct(cfg, p, Swap(i))
    ensures var t := Act(cfg, p, Swap(i));
            if p.sem.counter == p.callers[i].spot.seen then Admitted(p, t, i)
            else t.w == p.w && t.callers == p.callers[i := Caller(p.callers[i].m, Checked)]
  {
  }

  /** Admission without blocking: refused when there is no permit; otherwise admitted, unless somebody else has changed
      the counter in between, in which case it tries again. */
  lemma TryingDecides(cfg: Config, p: Joint, i: nat)
    requires Sound(cfg, p) && !cfg.blockIfFull && i < |p.callers|
    ensures p.callers[i].spot == Checked ==>
              && CanAct(cfg, p, Load(i))
              && var t := Act(cfg, p, Load(i));
                 if p.sem.counter < cfg.maxPending
                 then t.w == p.w && t.callers == p.callers[i := Caller(p.callers[i].m, Loaded(p.sem.counter))] && t.sem.counter == p.sem.counter
                 else t.callers == Without(p.callers, i) && t.w == p.w.(refused := p.w.refused + [(p.callers[i].m, QueueFull)])
    ensures p.callers[i].spot.Loaded? ==>
              && CanAct(cfg, p, Swap(i))
              && var t := Act(cfg, p, Swap(i));
                 if p.sem.counter == p.callers[i].spot.seen then Admitted(p, t, i)
                 else t.w == p.w && t.callers == p.callers[i := Caller(p.callers[i].m, Checked)]
  {
    if p.callers[i].spot == Checked {
      SemAllows(cfg, p, Load(i));
      LoadDecides(cfg, p, i);
    } else if p.callers[i].spot.Loaded? {
      SemAllows(cfg, p, Swap(i));
      SwapDecides(cfg, p, i);
    }
  }

  // ----- how many permits there are

  predicate LateAct(p: Joint, a: Action) {
    a.GiveUp? && p.sem.counter <= p.sem.maxPermits
  }

  /** How many producers have given up late so far. */
  ghost function LateActs(trace: seq<Joint>, acts: seq<Action>, n: nat): nat
    requires |trace| == |acts| + 1 && n <= |acts|
  {
    if n == 0 then 0 else LateActs(trace, acts, n - 1) + If(LateAct(trace[n - 1], acts[n - 1]))
  }

  lemma ActMakesSurplus(cfg: Config, p: Joint, a: Action)
    requires Refs(p.w) && Linked(cfg, p) && CanAct(cfg, p, a)
    ensures S.Surplus(Act(cfg, p, a).sem) == S.Surplus(p.sem) + If(LateAct(p, a))
  {
    assert Act(cfg, p, a).sem == NextSem(p, a);
    if SemStep(p, a).Some? {
      S.StepMakesSurplus(p.sem, SemStep(p, a).value);
    }
  }

  lemma RunStepSurplus(cfg: Config, trace: seq<Joint>, acts: seq<Action>, i: nat)
    requires cfg.Supported() && JointRun(cfg, trace, acts) && i < |acts|
    ensures S.Surplus(trace[i + 1].sem) == S.Surplus(trace[i].sem) + If(LateAct(trace[i], acts[i]))
  {
    RunSound(cfg, trace, acts, i);
    ActMakesSurplus(cfg, trace[i], acts[i]);
  }

  lemma {:induction false} RunSurplus(cfg: Config, trace: seq<Joint>, acts: seq<Action>, n: nat)
    requires cfg.Supported() && JointRun(cfg, trace, acts) && n < |trace|
    ensures S.Surplus(trace[n].sem) == LateActs(trace, acts, n)
  {
    if n > 0 {
      RunSurplus(cfg, trace, acts, n - 1);
      RunStepSurplus(cfg, trace, acts, n - 1);
    }
  }

  /** In every run the permits in use are the messages that have been admitted and not called back, and
      those about to be given back. They exceed the limit by at most the number of late expiries, and so do
      the messages waiting for the queue or in it, and the live batches. */
  lemma PermitsBounded(cfg: Config, trace: seq<Joint>, acts: seq<Action>, n: nat)
    requires cfg.Supported() && JointRun(cfg, trace, acts) && n < |trace|
    ensures var p := trace[n];
            && p.sem.acquired == |p.w.reserved| + |p.w.dataCh| + |PendingReqs(p.w.pending, p.w.heap)| + |InFlight(p.w)|
                                 + p.owed
            && p.sem.acquired + If(p.blocked) == Min(p.sem.counter, cfg.maxPending) + LateActs(trace, acts, n)
            && |p.w.reserved| + |p.w.dataCh| + |Live(p.w)| + If(p.w.pending.Some?) + p.owed
               <= cfg.maxPending + LateActs(trace, acts, n)
  {
    RunSound(cfg, trace, acts, n);
    RunSurplus(cfg, trace, acts, n);
    PermitsCount(cfg, trace[n].w);
  }

  /** Without blocking admission nobody waits, so nobody expires. */
  lemma {:induction false} NobodyLate(cfg: Config, trace: seq<Joint>, acts: seq<Action>, n: nat)
    requires cfg.Supported() && JointRun(cfg, trace, acts) && n < |trace| && !cfg.blockIfFull
    ensures LateActs(trace, acts, n) == 0
  {
    if n > 0 {
      NobodyLate(cfg, trace, acts, n - 1);
      RunSound(cfg, trace, acts, n - 1);
      assert CanAct(cfg, trace[n - 1], acts[n - 1]);
    }
  }

  /** Without blocking admission, or as long as no expiry is late, the limit holds: a producer with a
      permit finds room in the queue, and there are never more live batches than permits. */
  lemma QueueHasRoom(cfg: Config, trace: seq<Joint>, acts: seq<Action>, n: nat)
    requires cfg.Supported() && JointRun(cfg, trace, acts) && n < |trace|
    requires !cfg.blockIfFull || LateActs(trace, acts, n) == 0
    ensures trace[n].sem.acquired <= cfg.maxPending
    ensures |trace[n].w.reserved| + |trace[n].w.dataCh| <= cfg.maxPending
    ensures |Live(trace[n].w)| + If(trace[n].w.pending.Some?) <= cfg.maxPending
  {
    PermitsBounded(cfg, trace, acts, n);
    if !cfg.blockIfFull {
      NobodyLate(cfg, trace, acts, n);
    }
  }

  lemma NobodyHere(cfg: Config, p: Joint)
    requires Linked(cfg, p) && !cfg.blockIfFull
    ensures p.sem.waiting == p.sem.expiring == 0
  {
    if p.sem.waiting > 0 {
      var i := NumberWitness(p.callers, Waits);
    }
    if p.sem.expiring > 0 {
      var i := NumberWitness(p.callers, Expired);
    }
  }

  lemma ReleaseFree(cfg: Config, p: Joint)
    requires Sound(cfg, p) && S.Surplus(p.sem) == 0 && !cfg.blockIfFull
    ensures !p.blocked && (p.owed > 0 ==> CanAct(cfg, p, Release) && !Act(cfg, p, Release).blocked)
  {
    NobodyHere(cfg, p);
    if p.owed > 0 {
      SemAllows(cfg, p, Release);
    }
  }

  /** Without blocking admission the worker goroutine never blocks: a release that is owed can be made and
      returns at once, so the next handler can run. */
  lemma NeverBlocked(cfg: Config, trace: seq<Joint>, acts: seq<Action>, n: nat)
    requires cfg.Supported() && JointRun(cfg, trace, acts) && n < |trace| && !cfg.blockIfFull
    ensures !trace[n].blocked && Refs(trace[n].w)
    ensures trace[n].owed > 0 ==> CanAct(cfg, trace[n], Release) && !Act(cfg, trace[n], Release).blocked
  {
    RunSound(cfg, trace, acts, n);
    RunSurplus(cfg, trace, acts, n);
    NobodyLate(cfg, trace, acts, n);
    ReleaseFree(cfg, trace[n]);
  }

  // ----- when the worker goroutine is stuck

  /** The goroutine stands in a release, nobody waits for the permit, and nobody will: new producers are
      refused, and those behind the checks are too few to use up the free permits. */
  predicate Stuck(cfg: Config, p: Joint) {
    && p.blocked && p.w.mode != Ready && NumberAt(p.callers, Waits) == 0
    && (NumberAt(p.callers, Checked) == 0 || p.sem.counter + NumberAt(p.callers, Checked) <= cfg.maxPending)
  }

  /** The callbacks that have been made: each comes after its release. */
  function Made(p: Joint): seq<Callback> {
    var rest := p.owed + If(p.blocked);
    if rest <= |p.w.callbacks| then p.w.callbacks[..|p.w.callbacks| - rest] else []
  }

  /** The worker's own state and its callbacks do not change. */
  predicate Frozen(s: State, t: State) {
    && t.mode == s.mode && t.phase == s.phase && t.pending == s.pending && t.unacked == s.unacked
    && t.retrying == s.retrying && t.callbacks == s.callbacks && t.results == s.results && t.log == s.log
  }

  lemma StuckAcquire(cfg: Config, p: Joint, i: nat)
    requires Refs(p.w) && Linked(cfg, p) && CanAct(cfg, p, Acquire(i)) && Stuck(cfg, p)
    ensures var t := Act(cfg, p, Acquire(i)); Stuck(cfg, t) && Frozen(p.w, t.w) && t.owed == p.owed
  {
    NumberPositive(p.callers, i);
    NumberWithout(p.callers, i, Waits);
    NumberWithout(p.callers, i, Checked);
  }

  lemma StuckGiveUp(cfg: Config, p: Joint, i: nat)
    requires Refs(p.w) && Linked(cfg, p) && CanAct(cfg, p, GiveUp(i)) && Stuck(cfg, p)
    ensures var t := Act(cfg, p, GiveUp(i)); Stuck(cfg, t) && Frozen(p.w, t.w) && t.owed == p.owed
  {
    NumberWithout(p.callers, i, Waits);
    NumberWithout(p.callers, i, Checked);
  }

  /** Only with blocking admission can a release block. */
  lemma BlockedMeansBlocking(cfg: Config, trace: seq<Joint>, acts: seq<Action>, n: nat)
    requires cfg.Supported() && JointRun(cfg, trace, acts) && n < |trace| && trace[n].blocked
    ensures cfg.blockIfFull
  {
    if !cfg.blockIfFull {
      NeverBlocked(cfg, trace, acts, n);
    }
  }

  /** What can still happen around a stuck goroutine. */
  lemma StuckOnly(cfg: Config, p: Joint, a: Action)
    requires Refs(p.w) && Linked(cfg, p) && CanAct(cfg, p, a) && Stuck(cfg, p) && cfg.blockIfFull
    ensures a.Offer? || a.Acquire? || a.GiveUp? || a.Enqueue? || a.Outside?
  {
    if a.Expire? || a.TakeOver? {
      NumberPositive(p.callers, a.i);
    }
  }

  lemma StuckOffer(cfg: Config, p: Joint, m: Message)
    requires Refs(p.w) && Stuck(cfg, p)
    ensures var t := Act(cfg, p, Offer(m)); Stuck(cfg, t) && Frozen(p.w, t.w) && t.owed == p.owed
  {
    assert Check(cfg, p.w.mode, m).Some?;
  }

  lemma EnvironmentFreezes(s: State, e: Environment)
    ensures Frozen(s, ApplyEnvironment(s, e)) && ApplyEnvironment(s, e).permits == s.permits
  {
  }

  lemma StuckOutside(cfg: Config, p: Joint, e: Environment)
    requires Refs(p.w) && CanAct(cfg, p, Outside(e)) && Stuck(cfg, p)
    ensures var t := Act(cfg, p, Outside(e)); Stuck(cfg, t) && Frozen(p.w, t.w) && t.owed == p.owed
  {
    EnvironmentFreezes(p.w, e);
    assert Act(cfg, p, Outside(e)) == p.(w := ApplyEnvironment(p.w, e));
  }

  lemma StuckEnqueue(cfg: Config, p: Joint, k: nat)
    requires Refs(p.w) && CanAct(cfg, p, Enqueue(k)) && Stuck(cfg, p)
    ensures var t := Act(cfg, p, Enqueue(k)); Stuck(cfg, t) && Frozen(p.w, t.w) && t.owed == p.owed
  {
    assert Act(cfg, p, Enqueue(k)) == p.(w := ApplyProducer(cfg, p.w, DoEnqueue(k)));
  }

  lemma StuckStays(cfg: Config, p: Joint, a: Action)
    requires Refs(p.w) && Linked(cfg, p) && CanAct(cfg, p, a) && Stuck(cfg, p) && cfg.blockIfFull
    ensures var t := Act(cfg, p, a); Stuck(cfg, t) && Frozen(p.w, t.w) && t.owed == p.owed
  {
    StuckOnly(cfg, p, a);
    if a.Acquire? {
      StuckAcquire(cfg, p, a.i);
    } else if a.GiveUp? {
      StuckGiveUp(cfg, p, a.i);
    } else if a.Offer? {
      StuckOffer(cfg, p, a.m);
    } else if a.Enqueue? {
      StuckEnqueue(cfg, p, a.k);
    } else {
      StuckOutside(cfg, p, a.e);
    }
  }

  /** From the first state to the second the worker goroutine is stuck: nothing of its own has changed. */
  predicate Stays(cfg: Config, p: Joint, q: Joint) {
    Stuck(cfg, q) && Frozen(p.w, q.w) && q.owed == p.owed
  }

  lemma RunStuckStays(cfg: Config, trace: seq<Joint>, acts: seq<Action>, i: nat)
    requires cfg.Supported() && JointRun(cfg, trace, acts) && i < |acts| && Stuck(cfg, trace[i])
    ensures Stays(cfg, trace[i], trace[i + 1])
  {
    BlockedMeansBlocking(cfg, trace, acts, i);
    RunSound(cfg, trace, acts, i);
    StuckStays(cfg, trace[i], acts[i]);
  }

  lemma StaysOn(cfg: Config, p: Joint, q: Joint, r: Joint)
    requires Stays(cfg, p, q) && Stays(cfg, q, r)
    ensures Stays(cfg, p, r)
  {
  }

  lemma {:induction false} RunStays(cfg: Config, trace: seq<Joint>, acts: seq<Action>, i: nat, j: nat)
    requires cfg.Supported() && JointRun(cfg, trace, acts) && i <= j < |trace| && Stuck(cfg, trace[i])
    ensures Stays(cfg, trace[i], trace[j])
  {
    if i < j {
      RunStays(cfg, trace, acts, i, j - 1);
      RunStuckStays(cfg, trace, acts, j - 1);
      StaysOn(cfg, trace[i], trace[j - 1], trace[j]);
    }
  }

  lemma NothingMade(cfg: Config, p: Joint, q: Joint)
    requires Stuck(cfg, p) && Stays(cfg, p, q)
    ensures Made(q) == Made(p)
  {
  }

  /** Once stuck, the worker goroutine is stuck for the rest of the run: none of its messages is called back
      any more, whatever the others do. */
  lemma StuckForever(cfg: Config, trace: seq<Joint>, acts: seq<Action>, i: nat, j: nat)
    requires cfg.Supported() && JointRun(cfg, trace, acts) && i <= j < |trace| && Stuck(cfg, trace[i])
    ensures Stuck(cfg, trace[j]) && Frozen(trace[i].w, trace[j].w) && trace[j].owed == trace[i].owed
    ensures Made(trace[j]) == Made(trace[i])
  {
    RunStays(cfg, trace, acts, i, j);
    NothingMade(cfg, trace[i], trace[j]);
  }

  /** The state after some actions, if each of them is possible in turn. */
  ghost function After(cfg: Config, p: Joint, acts: seq<Action>): Option<Joint>
    decreases |acts|
  {
    if acts == [] then Some(p)
    else if Refs(p.w) && CanAct(cfg, p, acts[0]) then After(cfg, Act(cfg, p, acts[0]), acts[1..])
    else None
  }

  lemma AfterFirst(cfg: Config, p: Joint, a: Action, rest: seq<Action>)
    requires Refs(p.w) && CanAct(cfg, p, a)
    ensures After(cfg, p, [a] + rest) == After(cfg, Act(cfg, p, a), rest)
  {
    assert ([a] + rest)[1..] == rest;
  }

  /** How far a blocked goroutine is from somebody who waits for its permit. */
  function Distance(cfg: Config, p: Joint): nat {
    if p.sem.waiting > 0 then 0
    else 1 + 2 * Max(0, cfg.maxPending - p.sem.counter) + If(NumberAt(p.callers, Checked) == 0)
  }

  lemma Nearer(cfg: Config, p: Joint) returns (a: Action)
    requires Sound(cfg, p) && cfg.blockIfFull && p.blocked && !Stuck(cfg, p) && p.sem.waiting == 0
    ensures CanAct(cfg, p, a)
    ensures var t := Act(cfg, p, a); Sound(cfg, t) && t.blocked && !Stuck(cfg, t) && Distance(cfg, t) < Distance(cfg, p)
  {
    if NumberAt(p.callers, Checked) > 0 {
      var i := NumberWitness(p.callers, Checked);
      a := Acquire(i);
      AcquireGoesOn(cfg, p, i);
    } else {
      a := Offer(Message(0, 1, false));
      OfferGoesOn(cfg, p);
    }
    ActKeepsSound(cfg, p, a);
  }

  /** There is a way on for a goroutine that is not stuck: others can take its permit over. */
  lemma {:induction false} WayOn(cfg: Config, p: Joint) returns (acts: seq<Action>)
    requires Sound(cfg, p) && cfg.blockIfFull && p.blocked && !Stuck(cfg, p)
    ensures After(cfg, p, acts).Some? && !After(cfg, p, acts).value.blocked
    decreases Distance(cfg, p)
  {
    if p.sem.waiting > 0 {
      var i := NumberWitness(p.callers, Waits);
      SemAllows(cfg, p, TakeOver(i));
      AfterFirst(cfg, p, TakeOver(i), []);
      acts := [TakeOver(i)] + [];
    } else {
      var a := Nearer(cfg, p);
      var rest := WayOn(cfg, Act(cfg, p, a));
      AfterFirst(cfg, p, a, rest);
      acts := [a] + rest;
    }
  }

  lemma AcquireGoesOn(cfg: Config, p: Joint, i: nat)
    requires Sound(cfg, p) && cfg.blockIfFull && p.blocked && !Stuck(cfg, p) && p.sem.waiting == 0
    requires i < |p.callers| && p.callers[i].spot == Checked
    ensures CanAct(cfg, p, Acquire(i))
    ensures var t := Act(cfg, p, Acquire(i));
            && t.blocked && !Stuck(cfg, t)
            && Distance(cfg, t) < Distance(cfg, p)
  {
    NumberPositive(p.callers, i);
    NumberWithout(p.callers, i, Waits);
    NumberWithout(p.callers, i, Checked);
    NumberUpdate(p.callers, i, p.callers[i].(spot := Waits), Waits);
  }

  lemma OfferGoesOn(cfg: Config, p: Joint)
    requires Sound(cfg, p) && cfg.blockIfFull && p.blocked && p.w.mode == Ready
    ensures var a := Offer(Message(0, 1, false));
            && CanAct(cfg, p, a)
            && var t := Act(cfg, p, a);
               t.blocked && !Stuck(cfg, t) && (NumberAt(p.callers, Checked) == 0 ==> Distance(cfg, t) < Distance(cfg, p) || p.sem.waiting > 0)
  {
    NumberAppend(p.callers, Caller(Message(0, 1, false), Checked), Checked);
  }

  lemma {:induction false} StuckAfter(cfg: Config, p: Joint, acts: seq<Action>)
    requires Sound(cfg, p) && cfg.blockIfFull && Stuck(cfg, p) && After(cfg, p, acts).Some?
    ensures After(cfg, p, acts).value.blocked
    decreases |acts|
  {
    if acts != [] {
      StuckStays(cfg, p, acts[0]);
      ActKeepsSound(cfg, p, acts[0]);
      StuckAfter(cfg, Act(cfg, p, acts[0]), acts[1..]);
    }
  }

  /** Exactly when a blocked worker goroutine can ever go on. */
  lemma GoesOnIffNotStuck(cfg: Config, p: Joint)
    requires Sound(cfg, p) && cfg.blockIfFull && p.blocked
    ensures (exists acts :: After(cfg, p, acts).Some? && !After(cfg, p, acts).value.blocked) <==> !Stuck(cfg, p)
  {
    if Stuck(cfg, p) {
      forall acts | After(cfg, p, acts).Some? ensures After(cfg, p, acts).value.blocked {
        StuckAfter(cfg, p, acts);
      }
    } else {
      var acts := WayOn(cfg, p);
    }
  }

  // ----- what is proved about the worker's runs carries over

  /** `states[at[k]]` is the worker's state after `k` actions. */
  ghost predicate Tracks(trace: seq<Joint>, acts: seq<Action>, n: nat, states: seq<State>, steps: seq<Step>, at: seq<nat>) {
    && |trace| == |acts| + 1 && n < |trace| && |states| == |steps| + 1 && |at| == n + 1 && at[n] == |steps|
    && (forall k :: 0 <= k <= n ==> at[k] < |states| && states[at[k]] == trace[k].w)
    && (forall k, l :: 0 <= k <= l <= n ==> at[k] <= at[l])
    && (forall k :: 0 <= k < n && acts[k].Work? ==> at[k] < at[k + 1] && steps[at[k]] == acts[k].step)
  }

  lemma TracksStay(trace: seq<Joint>, acts: seq<Action>, n: nat, states: seq<State>, steps: seq<Step>, at: seq<nat>)
    requires Tracks(trace, acts, n, states, steps, at) && n < |acts|
    requires !acts[n].Work? && trace[n + 1].w == trace[n].w
    ensures Tracks(trace, acts, n + 1, states, steps, at + [|steps|])
  {
  }

  lemma TracksStep(trace: seq<Joint>, acts: seq<Action>, n: nat, states: seq<State>, steps: seq<Step>, at: seq<nat>, step: Step)
    requires Tracks(trace, acts, n, states, steps, at) && n < |acts|
    requires acts[n].Work? ==> step == acts[n].step
    ensures Tracks(trace, acts, n + 1, states + [trace[n + 1].w], steps + [step], at + [|steps| + 1])
  {
    var steps', at' := steps + [step], at + [|steps| + 1];
    forall k | 0 <= k < n + 1 && acts[k].Work? ensures at'[k] < at'[k + 1] && steps'[at'[k]] == acts[k].step {
      if k < n {
        assert at[k] < at[k + 1] <= at[n];
      }
    }
  }

  /** The worker's part of a run is a run of its machine. That machine enters the callbacks of a handler, and
      the closing of the worker if it is the last one, before the releases: `Made` and `WorkerShutdown.ShutDown`
      say what has really been reached. */
  lemma {:induction false} Projection(cfg: Config, trace: seq<Joint>, acts: seq<Action>, n: nat)
    returns (states: seq<State>, steps: seq<Step>, at: seq<nat>)
    requires cfg.Supported() && JointRun(cfg, trace, acts) && n < |trace|
    ensures IsRun(cfg, states, steps) && Tracks(trace, acts, n, states, steps, at)
  {
    if n == 0 {
      states, steps, at := [INIT], [], [0];
    } else {
      states, steps, at := Projection(cfg, trace, acts, n - 1);
      var step := RunWorkerStep(cfg, trace, acts, n - 1);
      if step.Some? {
        TracksStep(trace, acts, n - 1, states, steps, at, step.value);
        at := at + [|steps| + 1];
        states, steps := ExtendRun(cfg, states, steps, step.value);
      } else {
        TracksStay(trace, acts, n - 1, states, steps, at);
        at := at + [|steps|];
      }
    }
  }

  lemma RunWorkerStep(cfg: Config, trace: seq<Joint>, acts: seq<Action>, i: nat) returns (step: Option<Step>)
    requires cfg.Supported() && JointRun(cfg, trace, acts) && i < |acts|
    ensures Refs(trace[i].w)
    ensures if step.None? then trace[i + 1].w == trace[i].w && !acts[i].Work?
            else Enabled(cfg, trace[i].w, step.value) && trace[i + 1].w == Apply(cfg, trace[i].w, step.value)
    ensures acts[i].Work? ==> step == Some(acts[i].step)
  {
    RunSound(cfg, trace, acts, i);
    WorkerFollows(cfg, trace[i], acts[i]);
    step := WorkerStep(cfg, trace[i], acts[i]);
  }

  lemma ExtendRun(cfg: Config, states: seq<State>, steps: seq<Step>, step: Step)
    returns (more: seq<State>, steps': seq<Step>)
    requires IsRun(cfg, states, steps) && Refs(states[|steps|]) && Enabled(cfg, states[|steps|], step)
    ensures steps' == steps + [step] && more == states + [Apply(cfg, states[|steps|], step)]
    ensures IsRun(cfg, more, steps')
  {
    more, steps' := states + [Apply(cfg, states[|steps|], step)], steps + [step];
  }
}
