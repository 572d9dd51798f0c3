/** What a late expiry does: a producer stops waiting while the worker goroutine is handing it a permit.

    There is one permit in these runs. The limit on the permits in use is broken, and the shutdown hangs:
    while the queue is drained, and also when all batches have been finished already. */
module WorkerLateExpiry {
  import opened Common
  import opened WorkerSpec
  import opened WorkerInvariant
  import opened WorkerRuns
  import opened WorkerAdmission
  import opened WorkerShutdown
  import S = Semaphore

  predicate OnePermit(one: Config) {
    one.Supported() && one.maxPending == 1 && one.blockIfFull && one.maxMessages == 1
  }

  const HELLO: Message := Message(0, 1, false)

  lemma Go(cfg: Config, trace: seq<Joint>, acts: seq<Action>, a: Action) returns (more: seq<Joint>, acts': seq<Action>)
    requires JointRun(cfg, trace, acts) && Refs(trace[|acts|].w) && CanAct(cfg, trace[|acts|], a)
    ensures JointRun(cfg, more, acts') && more[|acts'|] == Act(cfg, trace[|acts|], a)
    ensures acts' == acts + [a] && more == trace + [Act(cfg, trace[|acts|], a)]
  {
    more, acts' := trace + [Act(cfg, trace[|acts|], a)], acts + [a];
    forall i | 0 <= i < |acts'|
      ensures Refs(more[i].w) && CanAct(cfg, more[i], acts'[i]) && more[i + 1] == Act(cfg, more[i], acts'[i])
    {
      if i < |acts| {
        assert more[i] == trace[i] && more[i + 1] == trace[i + 1] && acts'[i] == acts[i];
      }
    }
  }

  /** The semaphore with capacity one, between two calls. */
  function Sem(counter: int, acquired: nat, waiting: nat, expiring: nat, handing: nat): S.State {
    S.State(1, counter, acquired, waiting, expiring, handing, multiset{})
  }

  /** A producer comes, and gets a permit or waits. */
  lemma Arrive(one: Config, trace: seq<Joint>, acts: seq<Action>, free: bool) returns (more: seq<Joint>, acts': seq<Action>)
    requires OnePermit(one) && JointRun(one, trace, acts)
    requires var p := trace[|acts|];
             && Refs(p.w) && p.callers == [] && p.w.mode == Ready
             && p.sem.maxPermits == 1 && free == (p.sem.counter < 1)
    ensures JointRun(one, more, acts') && |acts'| > |acts|
    ensures var p, sem := trace[|acts|], S.Apply(trace[|acts|].sem, S.Acquire);
            more[|acts'|] == if free then p.(w := Reserve(p.w, HELLO), sem := sem) else p.(callers := [Caller(HELLO, Waits)], sem := sem)
  {
    more, acts' := Go(one, trace, acts, Offer(HELLO));
    assert more[|acts'|] == trace[|acts|].(callers := [Caller(HELLO, Checked)]);
    more, acts' := Go(one, more, acts', Acquire(0));
    assert Without([Caller(HELLO, Checked)], 0) == [];
    assert [Caller(HELLO, Checked)][0 := Caller(HELLO, Waits)] == [Caller(HELLO, Waits)];
  }

  /** The first message of all is received, sent and finished at once. */
  lemma FinishesAtOnce(one: Config, s: State)
    requires OnePermit(one) && !one.v3 && Refs(s) && s.dataCh == [HELLO] && s.pending == None && s.heap == map[] && s.free == {} && s.usedIds == {}
    requires s.unacked == map[] && s.retrying == map[] && s.log == map[] && (s.phase == Loop || s.phase == DrainData)
    ensures var step := Handle(RecvData(Written, 0, 0, Written));
            && Enabled(one, s, step)
            && var t := Apply(one, s, step);
               && Refs(t) && t.permits == s.permits - 1 && t.mode == s.mode && t.reserved == s.reserved && t.accepted == s.accepted
               && t.callbacks == s.callbacks + [Callback(HELLO, Ok, 0)]
  {
    var s0 := s.(dataCh := []);
    assert s.dataCh[1..] == [];
    var s1 := NewBatch(s0, 0, 0);
    var s2 := Append(s1, HELLO);
    assert s2.heap[0] == Batch(0, false, [HELLO], 1, 0, false, false);
    var s3 := s2.(pending := None);
    var s4 := CountWrite(Record(s3, 0), 0);
    assert s4.heap[0] == Batch(0, false, [HELLO], 1, 0, true, false);
    assert SendBatch(one, s3, 0, true, Written) == DoneBatch(s4, 0, 0, Ok);
    var u := s4.(unacked := s4.unacked - {0}, retrying := s4.retrying - {0});
    assert u.unacked == map[] && u.retrying == map[];
    assert DoneBatch(s4, 0, 0, Ok) == FinishBatch(u, 0, Ok);
    assert Callbacks(s4.heap[0], Ok) == [Callback(HELLO, Ok, 0)];
  }

  /** One message is on its way when a second producer starts to wait. */
  lemma SecondWaits(one: Config) returns (trace: seq<Joint>, acts: seq<Action>)
    requires OnePermit(one)
    ensures JointRun(one, trace, acts)
    ensures var p := trace[|acts|];
            && p.w == INIT.(permits := 1, dataCh := [HELLO], accepted := [HELLO])
            && p.sem == Sem(2, 1, 1, 0, 0) && p.callers == [Caller(HELLO, Waits)] && p.owed == 0 && !p.blocked
  {
    trace, acts := [Start(one)], [];
    trace, acts := Arrive(one, trace, acts, true);
    assert trace[|acts|].w == INIT.(permits := 1, reserved := [HELLO]);
    trace, acts := Go(one, trace, acts, Enqueue(0));
    assert trace[|acts|].w == INIT.(permits := 1, dataCh := [HELLO], accepted := [HELLO]);
    trace, acts := Arrive(one, trace, acts, false);
  }

  /** The message is finished; its permit is owed. */
  lemma FirstFinishes(one: Config, trace: seq<Joint>, acts: seq<Action>) returns (more: seq<Joint>, acts': seq<Action>)
    requires OnePermit(one) && !one.v3 && JointRun(one, trace, acts)
    requires var p := trace[|acts|];
             && p.w.dataCh == [HELLO] && p.w.pending == None && p.w.heap == map[] && p.w.free == {} && p.w.usedIds == {}
             && p.w.unacked == map[] && p.w.retrying == map[] && p.w.log == map[] && (p.w.phase == Loop || p.w.phase == DrainData)
             && p.owed == 0 && !p.blocked
    ensures JointRun(one, more, acts') && |acts'| > |acts|
    ensures var p, q := trace[|acts|], more[|acts'|];
            && Refs(q.w) && q.w.mode == p.w.mode && q.w.reserved == p.w.reserved && q.w.accepted == p.w.accepted
            && q.w.callbacks == p.w.callbacks + [Callback(HELLO, Ok, 0)]
            && q.sem == p.sem && q.callers == p.callers && q.owed == 1 && !q.blocked
  {
    var step := Handle(RecvData(Written, 0, 0, Written));
    FinishesAtOnce(one, trace[|acts|].w);
    more, acts' := Go(one, trace, acts, Work(step));
  }

  lemma LateExpire(one: Config, w: State)
    requires Refs(w)
    ensures var p := Joint(w, Sem(2, 1, 1, 0, 0), [Caller(HELLO, Waits)], 1, false);
            && CanAct(one, p, Expire(0))
            && Act(one, p, Expire(0)) == Joint(w, Sem(2, 1, 0, 1, 0), [Caller(HELLO, Expired)], 1, false)
  {
    assert [Caller(HELLO, Waits)][0 := Caller(HELLO, Expired)] == [Caller(HELLO, Expired)];
  }

  lemma LateRelease(one: Config, w: State)
    requires Refs(w)
    ensures var p := Joint(w, Sem(2, 1, 0, 1, 0), [Caller(HELLO, Expired)], 1, false);
            && CanAct(one, p, Release)
            && Act(one, p, Release) == Joint(w, Sem(1, 0, 0, 1, 1), [Caller(HELLO, Expired)], 0, true)
  {
  }

  lemma LateGiveUp(one: Config, w: State)
    requires Refs(w)
    ensures var p := Joint(w, Sem(1, 0, 0, 1, 1), [Caller(HELLO, Expired)], 0, true);
            && CanAct(one, p, GiveUp(0))
            && Act(one, p, GiveUp(0)) == Joint(Refuse(w, HELLO, ContextExpired), Sem(0, 0, 0, 0, 1), [], 0, true)
  {
    assert Without([Caller(HELLO, Expired)], 0) == [];
  }

  /** While the permit is handed over the waiting producer gives up. */
  lemma GivesUpLate(one: Config, trace: seq<Joint>, acts: seq<Action>) returns (more: seq<Joint>, acts': seq<Action>)
    requires OnePermit(one) && JointRun(one, trace, acts) && Refs(trace[|acts|].w)
    requires var p := trace[|acts|];
             p.sem == Sem(2, 1, 1, 0, 0) && p.callers == [Caller(HELLO, Waits)] && p.owed == 1 && !p.blocked
    ensures JointRun(one, more, acts') && |acts'| > |acts|
    ensures var w := trace[|acts|].w;
            more[|acts'|] == Joint(Refuse(w, HELLO, ContextExpired), Sem(0, 0, 0, 0, 1), [], 0, true)
  {
    var w := trace[|acts|].w;
    LateExpire(one, w);
    LateRelease(one, w);
    LateGiveUp(one, w);
    more, acts' := Go(one, trace, acts, Expire(0));
    more, acts' := Go(one, more, acts', Release);
    more, acts' := Go(one, more, acts', GiveUp(0));
  }

  /** Two more producers come; one gets the free permit, the other one takes over the one handed out. */
  lemma BothAdmitted(one: Config, trace: seq<Joint>, acts: seq<Action>) returns (more: seq<Joint>, acts': seq<Action>)
    requires OnePermit(one) && JointRun(one, trace, acts) && Refs(trace[|acts|].w) && trace[|acts|].w.mode == Ready
    requires var p := trace[|acts|];
             p == Joint(p.w, Sem(0, 0, 0, 0, 1), [], 0, true) && p.w.reserved == []
    ensures JointRun(one, more, acts') && more[|acts'|].w.reserved == [HELLO, HELLO]
  {
    var w := Reserve(trace[|acts|].w, HELLO);
    more, acts' := Arrive(one, trace, acts, true);
    assert more[|acts'|] == Joint(w, Sem(1, 1, 0, 0, 1), [], 0, true);
    more, acts' := Arrive(one, more, acts', false);
    assert more[|acts'|] == Joint(w, Sem(2, 1, 1, 0, 1), [Caller(HELLO, Waits)], 0, true);
    TakesOver(one, more[|acts'|]);
    more, acts' := Go(one, more, acts', TakeOver(0));
  }

  lemma TakesOver(one: Config, p: Joint)
    requires Refs(p.w) && p == Joint(p.w, Sem(2, 1, 1, 0, 1), [Caller(HELLO, Waits)], 0, true) && p.w.reserved == [HELLO]
    ensures CanAct(one, p, TakeOver(0)) && Act(one, p, TakeOver(0)).w.reserved == [HELLO, HELLO]
  {
  }

  /** A late expiry while the worker runs: two producers are about to enqueue where one permit is allowed. */
  lemma LateExpiryBreaksTheLimit(one: Config) returns (trace: seq<Joint>, acts: seq<Action>)
    requires OnePermit(one) && !one.v3
    ensures JointRun(one, trace, acts) && |trace[|acts|].w.reserved| == 2
  {
    trace, acts := SecondWaits(one);
    trace, acts := FirstFinishes(one, trace, acts);
    trace, acts := GivesUpLate(one, trace, acts);
    trace, acts := BothAdmitted(one, trace, acts);
  }

  /** The same during shutdown: the worker goroutine is stuck, and the accepted message is never called back. */
  lemma LateExpiryHangsShutdown(one: Config) returns (trace: seq<Joint>, acts: seq<Action>)
    requires OnePermit(one) && !one.v3
    ensures JointRun(one, trace, acts)
    ensures Stuck(one, trace[|acts|]) && trace[|acts|].w.mode == Closing
    ensures trace[|acts|].w.accepted == [HELLO] && Made(trace[|acts|]) == []
  {
    trace, acts := SecondWaits(one);
    trace, acts := Go(one, trace, acts, Work(Shut(CloseStart)));
    trace, acts := FirstFinishes(one, trace, acts);
    trace, acts := GivesUpLate(one, trace, acts);
  }

  // ----- protocol V3: the batch is timed out first

  /** The message is in a batch that has been written and not acknowledged. */
  predicate Unacked(s: State, mode: Mode, phase: Phase, hook: bool) {
    && s.mode == mode && s.phase == phase && s.left == If(hook)
    && s.heap == map[0 := Batch(0, false, [HELLO], 1, 0, true, hook)]
    && s.pending == None && s.unacked == map[0 := 0] && s.retrying == map[]
    && s.dataCh == [] && s.doneCh == [] && s.retryCh == [] && s.reserved == []
    && s.permits == 1 && s.callbacks == [] && s.accepted == [HELLO]
  }

  lemma Written3(one: Config, s: State)
    requires OnePermit(one) && one.v3 && s == INIT.(permits := 1, dataCh := [HELLO], accepted := [HELLO])
    ensures var step := Handle(RecvData(Written, 0, 0, Written));
            Refs(s) && Enabled(one, s, step) && Unacked(Apply(one, s, step), Ready, Loop, false)
  {
    assert s.dataCh[1..] == [];
    var s1 := NewBatch(s.(dataCh := []), 0, 0);
    var s2 := Append(s1, HELLO);
    assert [] + [HELLO] == [HELLO];
    assert s2.heap[0] == Batch(0, false, [HELLO], 1, 0, false, false);
    var s3 := s2.(pending := None);
    var s4 := CountWrite(Record(s3, 0), 0);
    assert s4.heap == map[0 := Batch(0, false, [HELLO], 1, 0, true, false)];
    assert SendBatch(one, s3, 0, true, Written) == s4.(unacked := s4.unacked[0 := 0]);
  }

  /** The shutdown handler finds nothing to do but to wait for the batch. */
  lemma NothingToDrain(one: Config, s: State, c: Shutdown, phase: Phase)
    requires s.mode == Closing && Unacked(s, Closing, s.phase, false)
    requires match c
             case CloseDataEnd(_) => s.phase == DrainData && phase == DrainDone(0)
             case CloseDoneEnd => s.phase == DrainDone(0) && phase == DrainRetry(0)
             case CloseRetryEnd => s.phase == DrainRetry(0) && phase == Resend
             case _ => false
    ensures Refs(s) && Enabled(one, s, Shut(c)) && Unacked(Apply(one, s, Shut(c)), Closing, phase, false)
  {
  }

  lemma HookInstalled(one: Config, s: State)
    requires Unacked(s, Closing, Resend, false)
    ensures Refs(s) && Enabled(one, s, Shut(CloseFinish)) && Unacked(Apply(one, s, Shut(CloseFinish)), Closing, Loop, true)
  {
    assert 0 in s.unacked && s.unacked[0] in s.unacked.Values;
    assert |s.unacked| == 1;
  }

  lemma TimedOut(one: Config, s: State)
    requires Unacked(s, Closing, Loop, true)
    ensures var step := Handle(TickSend(0));
            && Refs(s) && Enabled(one, s, step)
            && var t := Apply(one, s, step);
               && Refs(t) && t.mode == Closed && t.phase == Loop && t.unacked == map[] && t.permits == 0
               && t.accepted == [HELLO] && |t.callbacks| == 1
  {
    var s1 := s.(unacked := s.unacked - {0});
    assert s1.unacked == map[] && s1.retrying - {0} == map[];
    assert DoneBatch(s1, 0, 0, SendTimeout) == FinishBatch(s1.(unacked := s1.unacked - {0}, retrying := s1.retrying - {0}), 0, SendTimeout);
  }

  /** A step of the worker goroutine that gives nothing back. */
  lemma GoQuietly(one: Config, trace: seq<Joint>, acts: seq<Action>, step: Step)
    returns (more: seq<Joint>, acts': seq<Action>)
    requires JointRun(one, trace, acts) && (step.Handle? || step.Shut?)
    requires var p := trace[|acts|];
             && Refs(p.w) && p.owed == 0 && !p.blocked && Enabled(one, p.w, step)
             && Apply(one, p.w, step).permits == p.w.permits
    ensures JointRun(one, more, acts') && |acts'| == |acts| + 1
    ensures more[|acts'|] == trace[|acts|].(w := Apply(one, trace[|acts|].w, step))
  {
    more, acts' := Go(one, trace, acts, Work(step));
  }

  /** The message is written, and the shutdown handler returns while a second producer waits. */
  lemma ReturnsWhileOneWaits(one: Config) returns (trace: seq<Joint>, acts: seq<Action>)
    requires OnePermit(one) && one.v3
    ensures JointRun(one, trace, acts)
    ensures var p := trace[|acts|];
            && Unacked(p.w, Closing, Loop, true)
            && p == Joint(p.w, Sem(2, 1, 1, 0, 0), [Caller(HELLO, Waits)], 0, false)
  {
    trace, acts := SecondWaits(one);
    Written3(one, trace[|acts|].w);
    trace, acts := GoQuietly(one, trace, acts, Handle(RecvData(Written, 0, 0, Written)));
    trace, acts := GoQuietly(one, trace, acts, Shut(CloseStart));
    NothingToDrain(one, trace[|acts|].w, CloseDataEnd(Written), DrainDone(0));
    trace, acts := GoQuietly(one, trace, acts, Shut(CloseDataEnd(Written)));
    NothingToDrain(one, trace[|acts|].w, CloseDoneEnd, DrainRetry(0));
    trace, acts := GoQuietly(one, trace, acts, Shut(CloseDoneEnd));
    NothingToDrain(one, trace[|acts|].w, CloseRetryEnd, Resend);
    trace, acts := GoQuietly(one, trace, acts, Shut(CloseRetryEnd));
    HookInstalled(one, trace[|acts|].w);
    trace, acts := GoQuietly(one, trace, acts, Shut(CloseFinish));
  }

  /** The batch is timed out; its permit is owed. */
  lemma FinishedWhileOneWaits(one: Config) returns (trace: seq<Joint>, acts: seq<Action>)
    requires OnePermit(one) && one.v3
    ensures JointRun(one, trace, acts)
    ensures var p := trace[|acts|];
            && Refs(p.w) && p.w.mode == Closed && p.w.phase == Loop && p.w.unacked == map[]
            && p.w.accepted == [HELLO] && |p.w.callbacks| == 1
            && p == Joint(p.w, Sem(2, 1, 1, 0, 0), [Caller(HELLO, Waits)], 1, false)
  {
    trace, acts := ReturnsWhileOneWaits(one);
    TimedOut(one, trace[|acts|].w);
    trace, acts := Go(one, trace, acts, Work(Handle(TickSend(0))));
  }

  lemma NobodyLeft(one: Config, w: State)
    requires one.maxPending == 1 && w.mode == Closed
    ensures Hopeless(one, Joint(w, Sem(0, 0, 0, 0, 1), [], 0, true))
  {
  }

  /** The shutdown handler has returned and the last batch has been timed out, but the worker goroutine cannot
      give its permit back: the accepted message is never called back, and the shutdown never ends. */
  lemma LateExpiryHangsTheEnd(one: Config) returns (trace: seq<Joint>, acts: seq<Action>)
    requires OnePermit(one) && one.v3
    ensures JointRun(one, trace, acts)
    ensures var p := trace[|acts|];
            && Returned(p.w) && p.w.mode == Closed && p.w.unacked == map[] && p.w.accepted == [HELLO]
            && Made(p) == [] && !CanShutDown(one, p)
  {
    trace, acts := FinishedWhileOneWaits(one);
    trace, acts := GivesUpLate(one, trace, acts);
    NobodyLeft(one, trace[|acts|].w);
    RunSound(one, trace, acts, |acts|);
    ShutsDownIff(one, trace[|acts|]);
  }
}
