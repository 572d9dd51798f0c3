/** How far the shutdown handler empties the channels of completions and retries. Its loops compare a counter that
    grows with a length that shrinks, so they stop when as many events have been received as are left. */
module WorkerDrains {
  import opened Common
  import opened WorkerSpec
  import opened WorkerInvariant
  import opened WorkerSteps
  import opened WorkerRuns

  /** The goroutine stays where it is, and a worker that is not ready does not become so. */
  predicate SameStage(s: State, t: State) {
    t.phase == s.phase && (t.mode == s.mode || t.mode == Closed)
  }

  lemma DoneStage(s: State, id: Id, r: Ref, err: Err)
    ensures SameStage(s, DoneBatch(s, id, r, err))
  {
  }

  lemma BackoffStage(cfg: Config, s: State, r: Ref)
    requires r in s.heap
    ensures SameStage(s, BackoffRetry(cfg, s, r))
  {
    DoneStage(s, s.heap[r].id, r, SendTimeout);
  }

  lemma SendStage(cfg: Config, s: State, r: Ref, retryOnFail: bool, w: Write)
    requires r in s.heap
    ensures SameStage(s, SendBatch(cfg, s, r, retryOnFail, w))
  {
    var b, s0 := s.heap[r], Record(s, r);
    if b.retries > cfg.maxRetries {
      DoneStage(s0, b.id, r, SendTimeout);
    } else if !b.encoded && w.EncodeError? {
      DoneStage(s0, b.id, r, EncodeFailed);
    } else {
      WriteStage(cfg, CountWrite(s0, r), r, retryOnFail, w);
    }
  }

  lemma WriteStage(cfg: Config, s: State, r: Ref, retryOnFail: bool, w: Write)
    requires r in s.heap
    ensures SameStage(s, AfterWrite(cfg, s, r, retryOnFail, w))
  {
    DoneStage(s, s.heap[r].id, r, Ok);
    DoneStage(s, s.heap[r].id, r, WriteFailed);
    BackoffStage(cfg, s, r);
  }

  lemma FlushStage(cfg: Config, s: State, m: Message, w: Write)
    requires Refs(s)
    ensures SameStage(s, FlushIfFull(cfg, s, m, w))
  {
    if s.pending.Some? {
      SendStage(cfg, s.(pending := None), s.pending.value, true, w);
    }
  }

  lemma EnlistStage(cfg: Config, s: State, m: Message, r: Ref, id: Id, w: Write)
    requires s.pending.Some? ==> s.pending.value in s.heap
    ensures SameStage(s, Enlist(cfg, s, m, r, id, w))
  {
    var s2 := Append(if s.pending.Some? then s else NewBatch(s, r, id), m);
    SendStage(cfg, s2.(pending := None), s2.pending.value, true, w);
  }

  lemma DataStage(cfg: Config, s: State, h: Handler)
    requires Refs(s) && CanHandle(cfg, s, h) && h.RecvData?
    ensures SameStage(s, ApplyHandler(cfg, s, h))
  {
    var m, s0 := s.dataCh[0], s.(dataCh := s.dataCh[1..]);
    FlushStage(cfg, s0, m, h.w1);
    EnlistStage(cfg, FlushIfFull(cfg, s0, m, h.w1), m, h.r, h.id, h.w2);
  }

  lemma RetryStage(cfg: Config, s: State, e: RetryReq, retryOnFail: bool, w: Write)
    requires Refs(s)
    ensures SameStage(s, HandleRetry(cfg, s, e, retryOnFail, w))
  {
    if e.id in s.retrying && s.retrying[e.id] == e.ref {
      SendStage(cfg, s.(retrying := s.retrying - {e.id}), e.ref, retryOnFail, w);
    }
  }

  lemma FailedStage(cfg: Config, s: State, e: FailedReq)
    ensures SameStage(s, HandleSendFailed(cfg, s, e))
  {
    if e.ref in s.heap {
      var u := if cfg.v3 then s.(unacked := s.unacked - {e.id}) else s;
      BackoffStage(cfg, u, e.ref);
      DoneStage(u, e.id, e.ref, WriteFailed);
    }
  }

  lemma RspStage(s: State, rsp: Rsp)
    ensures SameStage(s, HandleRsp(s, rsp))
  {
    var u := if rsp.code == 0 then s.(acks := s.acks + {rsp.id}) else s;
    if rsp.id in s.unacked {
      DoneStage(u, rsp.id, s.unacked[rsp.id], Verdict(rsp));
    } else if rsp.id in s.retrying {
      DoneStage(u, rsp.id, s.retrying[rsp.id], Verdict(rsp));
    }
  }

  lemma HandlerStage(cfg: Config, s: State, h: Handler)
    requires Refs(s) && CanHandle(cfg, s, h)
    ensures SameStage(s, ApplyHandler(cfg, s, h))
  {
    match h
    case RecvData(_, _, _, _) => DataStage(cfg, s, h);
    case TickBatch(w) => if s.pending.Some? { SendStage(cfg, s.(pending := None), s.pending.value, true, w); }
    case TickSend(id) => BackoffStage(cfg, s.(unacked := s.unacked - {id}), s.unacked[id]);
    case RecvDone => DoneStage(s.(doneCh := s.doneCh[1..], phase := s.phase), s.doneCh[0].id, s.doneCh[0].ref, s.doneCh[0].err);
    case RecvFailed => FailedStage(cfg, s.(failedCh := s.failedCh[1..]), s.failedCh[0]);
    case RecvRetry(w) => RetryStage(cfg, s.(retryCh := s.retryCh[1..], phase := s.phase), s.retryCh[0], true, w);
    case RecvRsp => RspStage(s.(rspCh := s.rspCh[1..]), s.rspCh[0]);
  }

  /** The stage after a step of the shutdown handler. */
  function StageAfter(s: State, c: Shutdown): Phase
    requires CanShut(s, c)
  {
    match c
    case CloseStart => DrainData
    case CloseDataEnd(_) => DrainDone(0)
    case CloseDone => DrainDone(s.phase.i + 1)
    case CloseDoneEnd => DrainRetry(0)
    case CloseRetry(_) => DrainRetry(s.phase.j + 1)
    case CloseRetryEnd => Resend
    case CloseResend(_, _) => Resend
    case CloseFinish => Loop
  }

  lemma DrainStage(cfg: Config, s: State, c: Shutdown)
    requires Refs(s) && CanShut(s, c) && (c.CloseDone? || c.CloseRetry?)
    ensures var t := ApplyShutdown(cfg, s, c); t.phase == StageAfter(s, c) && (s.mode != Ready ==> t.mode != Ready)
  {
    if c.CloseDone? {
      TakeDoneEffect(cfg, s);
      DoneStage(s.(doneCh := s.doneCh[1..], phase := DrainDone(s.phase.i + 1)), s.doneCh[0].id, s.doneCh[0].ref, s.doneCh[0].err);
    } else {
      TakeRetryEffect(cfg, s, c.w);
      RetryStage(cfg, s.(retryCh := s.retryCh[1..], phase := DrainRetry(s.phase.j + 1)), s.retryCh[0], false, c.w);
    }
  }

  lemma ShutStage(cfg: Config, s: State, c: Shutdown)
    requires Refs(s) && CanShut(s, c)
    ensures var t := ApplyShutdown(cfg, s, c);
            t.phase == StageAfter(s, c) && (s.mode != Ready || c.CloseStart? ==> t.mode != Ready)
  {
    match c
    case CloseDataEnd(w) =>
      if s.pending.Some? {
        SendStage(cfg, s.(phase := DrainDone(0)).(pending := None), s.pending.value, false, w);
      }
    case CloseResend(id, w) => SendStage(cfg, s.(retrying := s.retrying - {id}), s.retrying[id], false, w);
    case CloseDone => DrainStage(cfg, s, c);
    case CloseRetry(_) => DrainStage(cfg, s, c);
    case _ =>
  }

  // ----- counting

  predicate Drains(step: Step, retries: bool) {
    step.Shut? && if retries then step.c.CloseRetry? else step.c.CloseDone?
  }

  /** How many completions, or retries, the shutdown handler has received so far. */
  function Drained(steps: seq<Step>, k: nat, retries: bool): nat
    requires k <= |steps|
  {
    if k == 0 then 0 else Drained(steps, k - 1, retries) + If(Drains(steps[k - 1], retries))
  }

  /** What the stage says about that. */
  predicate Tallied(mode: Mode, ph: Phase, done: nat, retry: nat) {
    && (mode == Ready || ph == DrainData ==> done == 0)
    && (mode == Ready || ph == DrainData || ph.DrainDone? ==> retry == 0)
    && (ph.DrainDone? ==> done == ph.i)
    && (ph.DrainRetry? ==> retry == ph.j)
    && (ph != Loop ==> mode != Ready)
  }

  lemma ShutTallied(s: State, c: Shutdown, mode: Mode, done: nat, retry: nat)
    requires CanShut(s, c) && Tallied(s.mode, s.phase, done, retry) && (s.mode != Ready || c.CloseStart? ==> mode != Ready)
    ensures Tallied(mode, StageAfter(s, c), done + If(Drains(Shut(c), false)), retry + If(Drains(Shut(c), true)))
  {
  }

  lemma ElsewhereTallied(cfg: Config, s: State, step: Step)
    requires Refs(s) && Enabled(cfg, s, step) && (step.Produce? || step.Happen?)
    ensures SameStage(s, Apply(cfg, s, step))
  {
    if step.Produce? {
      ProducerStage(cfg, s, step.p);
    } else {
      EnvironmentStage(s, step.e);
    }
  }

  lemma ProducerStage(cfg: Config, s: State, p: Producer)
    requires CanProduce(cfg, s, p)
    ensures SameStage(s, ApplyProducer(cfg, s, p))
  {
  }

  lemma EnvironmentStage(s: State, e: Environment)
    ensures SameStage(s, ApplyEnvironment(s, e))
  {
  }

  lemma StepTallied(cfg: Config, s: State, step: Step, done: nat, retry: nat)
    requires Refs(s) && Enabled(cfg, s, step) && Tallied(s.mode, s.phase, done, retry)
    ensures var t := Apply(cfg, s, step);
            Tallied(t.mode, t.phase, done + If(Drains(step, false)), retry + If(Drains(step, true)))
  {
    match step
    case Handle(h) => HandlerStage(cfg, s, h);
    case Shut(c) =>
      ShutStage(cfg, s, c);
      ShutTallied(s, c, ApplyShutdown(cfg, s, c).mode, done, retry);
    case _ => ElsewhereTallied(cfg, s, step);
  }

  lemma {:induction false} RunTallied(cfg: Config, trace: seq<State>, steps: seq<Step>, k: nat)
    requires cfg.Supported() && IsRun(cfg, trace, steps) && k < |trace|
    ensures Tallied(trace[k].mode, trace[k].phase, Drained(steps, k, false), Drained(steps, k, true))
  {
    if k > 0 {
      RunTallied(cfg, trace, steps, k - 1);
      StepTallied(cfg, trace[k - 1], steps[k - 1], Drained(steps, k - 1, false), Drained(steps, k - 1, true));
    }
  }

  /** When the shutdown handler goes on to the retries it has received at least as many completions as are left, and
      when it goes on to the batches themselves at least as many retries as are left. */
  lemma DrainsHalf(cfg: Config, trace: seq<State>, steps: seq<Step>, k: nat)
    requires cfg.Supported() && IsRun(cfg, trace, steps) && k < |steps|
    ensures steps[k] == Shut(CloseDoneEnd) ==> |trace[k].doneCh| <= Drained(steps, k, false)
    ensures steps[k] == Shut(CloseRetryEnd) ==> |trace[k].retryCh| <= Drained(steps, k, true)
  {
    RunTallied(cfg, trace, steps, k);
  }
}
