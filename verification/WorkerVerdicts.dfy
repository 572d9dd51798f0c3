/** What the handlers decide about a batch, in every run, and why a batch has reported what it has reported. */
module WorkerVerdicts {
  import opened Common
  import opened WorkerSpec
  import opened WorkerInvariant
  import opened WorkerSteps
  import opened WorkerRuns
  import opened WorkerOutcomes

  lemma AtStep(cfg: Config, trace: seq<State>, steps: seq<Step>, k: nat)
    requires cfg.Supported() && IsRun(cfg, trace, steps) && k < |steps|
    ensures Inv(cfg, trace[k]) && Refs(trace[k]) && Enabled(cfg, trace[k], steps[k])
    ensures trace[k + 1] == Apply(cfg, trace[k], steps[k])
  {
    RunKeepsInv(cfg, trace, steps, k);
  }

  // ----- the decisions

  /** A response decides a batch that waits for it or for its next attempt: success if and only if the code is zero.
      Each of its messages is called back with that, and no other batch is concerned. */
  lemma ResponseDecides(cfg: Config, trace: seq<State>, steps: seq<Step>, k: nat)
    requires cfg.Supported() && IsRun(cfg, trace, steps) && k < |steps| && steps[k] == Handle(RecvRsp)
    ensures var s, t := trace[k], trace[k + 1];
            && s.rspCh != []
            && var rsp := s.rspCh[0];
               if rsp.id in Live(s)
               then Comes(s, t, rsp.id, s.log[rsp.id].msgs, Reports(if rsp.code == 0 then Ok else ServerError))
               else SameBatches(s, t)
  {
    AtStep(cfg, trace, steps, k);
    RspStep(cfg, trace[k]);
  }

  /** A batch that waits too long is set aside, or has failed when its retries are used up or the worker closes. */
  lemma TimeoutDecides(cfg: Config, trace: seq<State>, steps: seq<Step>, k: nat, id: Id)
    requires cfg.Supported() && IsRun(cfg, trace, steps) && k < |steps| && steps[k] == Handle(TickSend(id))
    ensures var s, t := trace[k], trace[k + 1];
            && id in s.unacked && s.unacked[id] in s.heap && id in s.log
            && var n := s.heap[s.unacked[id]].retries;
               Comes(s, t, id, s.log[id].msgs, if s.mode == Ready && n < cfg.maxRetries then SetAside(n + 1) else Reports(SendTimeout))
  {
    AtStep(cfg, trace, steps, k);
    TimeoutStep(cfg, trace[k], id);
  }

  /** The network reports that a write has failed: the batch, if it still waits for its answer, is set aside if it may
      be, and has failed otherwise. */
  lemma FailureDecides(cfg: Config, trace: seq<State>, steps: seq<Step>, k: nat)
    requires cfg.Supported() && IsRun(cfg, trace, steps) && k < |steps| && steps[k] == Handle(RecvFailed)
    ensures var s, t := trace[k], trace[k + 1];
            && s.failedCh != []
            && var e := s.failedCh[0];
               if e.id in s.unacked
               then
                 && s.unacked[e.id] in s.heap && e.id in s.log
                 && var n := s.heap[s.unacked[e.id]].retries;
                    Comes(s, t, e.id, s.log[e.id].msgs,
                          if !e.retry || s.mode != Ready then Reports(WriteFailed)
                          else if n < cfg.maxRetries then SetAside(n + 1)
                          else Reports(SendTimeout))
               else SameBatches(s, t)
  {
    AtStep(cfg, trace, steps, k);
    FailedStep(cfg, trace[k]);
  }

  /** A completion requested by another goroutine, in the event loop or during shutdown. */
  lemma CompletionDecides(cfg: Config, trace: seq<State>, steps: seq<Step>, k: nat)
    requires cfg.Supported() && IsRun(cfg, trace, steps) && k < |steps|
    requires steps[k] == Handle(RecvDone) || steps[k] == Shut(CloseDone)
    ensures var s, t := trace[k], trace[k + 1];
            && s.doneCh != []
            && var e := s.doneCh[0];
               if e.id in Live(s) then Comes(s, t, e.id, s.log[e.id].msgs, Reports(e.err)) else SameBatches(s, t)
  {
    AtStep(cfg, trace, steps, k);
    if steps[k] == Handle(RecvDone) {
      DoneStep(cfg, trace[k], trace[k].phase);
    } else {
      DrainDoneStep(cfg, trace[k]);
    }
  }

  lemma DrainDoneStep(cfg: Config, s: State)
    requires Inv(cfg, s) && Refs(s) && CanShut(s, CloseDone)
    ensures var e, t := s.doneCh[0], ApplyShutdown(cfg, s, CloseDone);
            if e.id in Live(s) then Comes(s, t, e.id, s.log[e.id].msgs, Reports(e.err)) else SameBatches(s, t)
  {
    DoneStep(cfg, s, DrainDone(s.phase.i + 1));
    TakeDoneEffect(cfg, s);
  }

  lemma DrainRetryStep(cfg: Config, s: State, w: Write) returns (f: Fate)
    requires Inv(cfg, s) && Refs(s) && CanShut(s, CloseRetry(w))
    ensures Resent(cfg, s, ApplyShutdown(cfg, s, CloseRetry(w)), s.retryCh[0].id, false, w, f)
  {
    f := RetryStep(cfg, s, DrainRetry(s.phase.j + 1), false, w);
    TakeRetryEffect(cfg, s, w);
  }

  lemma LoopRetryStep(cfg: Config, s: State, w: Write) returns (f: Fate)
    requires Inv(cfg, s) && Refs(s) && CanHandle(cfg, s, RecvRetry(w))
    ensures Resent(cfg, s, ApplyHandler(cfg, s, RecvRetry(w)), s.retryCh[0].id, true, w, f)
  {
    f := RetryStep(cfg, s, s.phase, true, w);
  }

  lemma CloseResendStep(cfg: Config, s: State, id: Id, w: Write) returns (f: Fate)
    requires Inv(cfg, s) && Refs(s) && CanShut(s, CloseResend(id, w))
    ensures Resent(cfg, s, ApplyShutdown(cfg, s, CloseResend(id, w)), id, false, w, f)
  {
    f := ResendComes(cfg, s, id, false, w);
  }

  /** How a step retries a batch, if it does. */
  function RetryOf(s: State, step: Step): Option<(Id, Write)> {
    match step
    case Handle(RecvRetry(w)) => if s.retryCh != [] then Some((s.retryCh[0].id, w)) else None
    case Shut(CloseRetry(w)) => if s.retryCh != [] then Some((s.retryCh[0].id, w)) else None
    case Shut(CloseResend(id, w)) => Some((id, w))
    case _ => None
  }

  /** A batch that waits for its next attempt has been sent; for any other nothing has changed. */
  ghost predicate Resent(cfg: Config, s: State, t: State, id: Id, retryOnFail: bool, w: Write, f: Fate) {
    if id in s.retrying
    then
      && s.retrying[id] in s.heap && id in s.log
      && var b := s.heap[s.retrying[id]];
         Comes(s, t, id, s.log[id].msgs, f) && Sends(cfg, s.mode == Ready, b.retries, b.encoded, retryOnFail, w, f)
    else SameBatches(s, t)
  }

  /** A batch whose time for another attempt has come is sent again; a request for any other changes nothing. */
  lemma RetryDecides(cfg: Config, trace: seq<State>, steps: seq<Step>, k: nat) returns (f: Fate)
    requires cfg.Supported() && IsRun(cfg, trace, steps) && k < |steps| && RetryOf(trace[k], steps[k]).Some?
    ensures var (id, w) := RetryOf(trace[k], steps[k]).value;
            Resent(cfg, trace[k], trace[k + 1], id, steps[k].Handle?, w, f)
  {
    AtStep(cfg, trace, steps, k);
    match steps[k] {
      case Handle(RecvRetry(w)) => f := LoopRetryStep(cfg, trace[k], w);
      case Shut(CloseRetry(w)) => f := DrainRetryStep(cfg, trace[k], w);
      case Shut(CloseResend(id, w)) => f := CloseResendStep(cfg, trace[k], id, w);
    }
  }

  /** The pending batch leaves when it has waited long enough, and when the worker shuts down. */
  lemma PendingLeaves(cfg: Config, trace: seq<State>, steps: seq<Step>, k: nat, w: Write) returns (f: Fate)
    requires cfg.Supported() && IsRun(cfg, trace, steps) && k < |steps|
    requires steps[k] == Handle(TickBatch(w)) || steps[k] == Shut(CloseDataEnd(w))
    ensures var s, t := trace[k], trace[k + 1];
            if s.pending.None? then SameBatches(s, t)
            else
              && s.pending.value in s.heap
              && var b := s.heap[s.pending.value];
                 && Comes(s, t, b.id, b.reqs, f) && b.id !in s.log && t.pending == None
                 && Sends(cfg, s.mode == Ready, 0, false, steps[k].Handle?, w, f)
  {
    AtStep(cfg, trace, steps, k);
    if steps[k] == Handle(TickBatch(w)) {
      f := BatchTimeoutStep(cfg, trace[k], w);
    } else {
      f := SendOffStep(cfg, trace[k], w);
    }
  }

  /** A message that arrives joins the pending batch, or begins a new one if there is none or the datagram would become
      too long; in that case the pending batch leaves first. The batch leaves at once if the message asks for it or a
      limit is reached, and waits otherwise. */
  lemma MessageTaken(cfg: Config, trace: seq<State>, steps: seq<Step>, k: nat, w1: Write, r: Ref, id: Id, w2: Write)
    returns (first: Fate, second: Fate)
    requires cfg.Supported() && IsRun(cfg, trace, steps) && k < |steps| && steps[k] == Handle(RecvData(w1, r, id, w2))
    ensures var s, t := trace[k], trace[k + 1];
            && s.dataCh != [] && Refs(s)
            && var m, before := s.dataCh[0], PendingReqs(s.pending, s.heap);
               if Overflows(cfg, before, m)
               then
                 && s.pending.Some?
                 && var leaving := s.heap[s.pending.value].id;
                    && LeftBefore(cfg, s, t, leaving, before, w1, first) && Took(cfg, s, t, id, [m], m, w2, second)
                    && ElsewhereTwo(s, t, leaving, id)
                    && t.callbacks == s.callbacks + Answers(before, leaving, first) + AnswersIf(Leaves(cfg, [m], m), [m], id, second)
               else
                 var batch := if s.pending.Some? then s.heap[s.pending.value].id else id;
                 && Took(cfg, s, t, batch, before + [m], m, w2, second) && Elsewhere(s, t, batch)
                 && t.callbacks == s.callbacks + AnswersIf(Leaves(cfg, before + [m], m), before + [m], batch, second)
  {
    AtStep(cfg, trace, steps, k);
    var s := trace[k];
    first := Awaits(0);
    if Overflows(cfg, PendingReqs(s.pending, s.heap), s.dataCh[0]) {
      first, second := OverflowStep(cfg, s, w1, r, id, w2);
    } else {
      NoFlush(cfg, s, w1);
      second := JoinStep(cfg, s, s.(dataCh := s.dataCh[1..]), r, id, w2);
    }
  }

  lemma NoFlush(cfg: Config, s: State, w: Write)
    requires Inv(cfg, s) && Refs(s) && s.dataCh != [] && !Overflows(cfg, PendingReqs(s.pending, s.heap), s.dataCh[0])
    ensures FlushIfFull(cfg, s.(dataCh := s.dataCh[1..]), s.dataCh[0], w) == s.(dataCh := s.dataCh[1..])
  {
  }

  // ----- every step at once

  /** A batch comes to `f` in a step. */
  datatype Change = Change(id: Id, ms: seq<Message>, f: Fate)

  predicate Now(s: State, t: State, c: Change) {
    At(t, c.id, c.f) && t.log[c.id].msgs == c.ms && c.id !in s.results
  }

  predicate Still(s: State, t: State, id: Id) {
    && (id in t.results <==> id in s.results) && (id in s.results ==> t.results[id] == s.results[id])
    && (id in s.log ==> id in t.log && t.log[id] == s.log[id])
  }

  predicate Is(c: Option<Change>, id: Id) {
    c.Some? && c.value.id == id
  }

  function AnswersTo(c: Option<Change>): seq<Callback> {
    if c.Some? then Answers(c.value.ms, c.value.id, c.value.f) else []
  }

  /** At most two batches change in a step, and the callbacks of the step are theirs. */
  ghost predicate Summary(s: State, t: State, a: Option<Change>, b: Option<Change>) {
    && (a.Some? ==> Now(s, t, a.value)) && (b.Some? ==> Now(s, t, b.value) && !Is(a, b.value.id))
    && t.callbacks == s.callbacks + AnswersTo(a) + AnswersTo(b)
    && forall id :: !Is(a, id) && !Is(b, id) ==> Still(s, t, id)
  }

  lemma SummaryNone(s: State, t: State)
    requires Quiet(s, t)
    ensures Summary(s, t, None, None)
  {
  }

  lemma SummaryOne(s: State, t: State, id: Id, ms: seq<Message>, f: Fate)
    requires Comes(s, t, id, ms, f) && id !in s.results
    ensures Summary(s, t, Some(Change(id, ms, f)), None)
  {
  }

  /** Why a batch reports `err` in a step. */
  predicate Cause(cfg: Config, s: State, step: Step, id: Id, err: Err) {
    match err
    case Ok => (step == Handle(RecvRsp) && s.rspCh != [] && s.rspCh[0] == Rsp(id, 0)) || (!cfg.v3 && Tries(step, Written))
    case ServerError => step == Handle(RecvRsp) && s.rspCh != [] && s.rspCh[0].id == id && s.rspCh[0].code != 0
    case EncodeFailed => Tries(step, EncodeError)
    case WriteFailed => Fails(step) || step == Handle(RecvFailed) || step == Handle(RecvDone) || step == Shut(CloseDone)
    case SendTimeout =>
      Fails(step) || step == Handle(RecvFailed) || step == Handle(RecvDone) || step == Shut(CloseDone) || step == Handle(TickSend(id))
  }

  /** The step contains an attempt with this outcome. */
  predicate Tries(step: Step, w: Write) {
    match step
    case Handle(RecvData(w1, _, _, w2)) => w1 == w || w2 == w
    case Handle(TickBatch(w1)) => w1 == w
    case Handle(RecvRetry(w1)) => w1 == w
    case Shut(CloseDataEnd(w1)) => w1 == w
    case Shut(CloseRetry(w1)) => w1 == w
    case Shut(CloseResend(_, w1)) => w1 == w
    case _ => false
  }

  predicate Fails(step: Step) {
    Tries(step, WriteError) || Tries(step, EncodeError)
  }

  predicate Explains(cfg: Config, s: State, step: Step, c: Option<Change>) {
    c.Some? && c.value.f.Reports? ==> Cause(cfg, s, step, c.value.id, c.value.f.err)
  }

  lemma SendExplains(cfg: Config, s: State, step: Step, id: Id, ms: seq<Message>, ready: bool, n: nat, encoded: bool,
                     retryOnFail: bool, w: Write, f: Fate)
    requires Sends(cfg, ready, n, encoded, retryOnFail, w, f) && Tries(step, w)
    ensures Explains(cfg, s, step, Some(Change(id, ms, f)))
  {
  }

  lemma EventSummary(cfg: Config, s: State, h: Handler) returns (a: Option<Change>)
    requires Inv(cfg, s) && Refs(s) && CanHandle(cfg, s, h) && (h.TickSend? || h.RecvDone? || h.RecvFailed? || h.RecvRsp?)
    ensures Summary(s, ApplyHandler(cfg, s, h), a, None) && Explains(cfg, s, Handle(h), a)
  {
    match h {
      case TickSend(id) => a := TimeoutSummary(cfg, s, id);
      case RecvDone => a := DoneSummary(cfg, s);
      case RecvFailed => a := FailedSummary(cfg, s);
      case RecvRsp => a := RspSummary(cfg, s);
    }
  }

  lemma LiveOnly(cfg: Config, s: State, id: Id)
    requires Inv(cfg, s) && (id in s.unacked || id in s.retrying)
    ensures id in s.log && id !in s.results
  {
  }

  lemma TimeoutSummary(cfg: Config, s: State, id: Id) returns (a: Option<Change>)
    requires Inv(cfg, s) && Refs(s) && CanHandle(cfg, s, TickSend(id))
    ensures Summary(s, ApplyHandler(cfg, s, TickSend(id)), a, None) && Explains(cfg, s, Handle(TickSend(id)), a)
  {
    TimeoutStep(cfg, s, id);
    LiveOnly(cfg, s, id);
    var n := s.heap[s.unacked[id]].retries;
    var f := if s.mode == Ready && n < cfg.maxRetries then SetAside(n + 1) else Reports(SendTimeout);
    SummaryOne(s, ApplyHandler(cfg, s, TickSend(id)), id, s.log[id].msgs, f);
    a := Some(Change(id, s.log[id].msgs, f));
  }

  lemma EventErr(cfg: Config, s: State)
    requires Inv(cfg, s) && s.doneCh != []
    ensures s.doneCh[0].err == WriteFailed || s.doneCh[0].err == SendTimeout
  {
    Pops(s.doneCh);
  }

  lemma DoneSummary(cfg: Config, s: State) returns (a: Option<Change>)
    requires Inv(cfg, s) && Refs(s) && CanHandle(cfg, s, RecvDone)
    ensures Summary(s, ApplyHandler(cfg, s, RecvDone), a, None) && Explains(cfg, s, Handle(RecvDone), a)
  {
    var e, t := s.doneCh[0], ApplyHandler(cfg, s, RecvDone);
    DoneStep(cfg, s, s.phase);
    EventErr(cfg, s);
    if e.id in Live(s) {
      SummaryOne(s, t, e.id, s.log[e.id].msgs, Reports(e.err));
      a := Some(Change(e.id, s.log[e.id].msgs, Reports(e.err)));
    } else {
      SummaryNone(s, t);
      a := None;
    }
  }

  lemma FailedSummary(cfg: Config, s: State) returns (a: Option<Change>)
    requires Inv(cfg, s) && Refs(s) && CanHandle(cfg, s, RecvFailed)
    ensures Summary(s, ApplyHandler(cfg, s, RecvFailed), a, None) && Explains(cfg, s, Handle(RecvFailed), a)
  {
    var e, t := s.failedCh[0], ApplyHandler(cfg, s, RecvFailed);
    FailedStep(cfg, s);
    if e.id in s.unacked {
      LiveOnly(cfg, s, e.id);
      var n := s.heap[s.unacked[e.id]].retries;
      var f := if !e.retry || s.mode != Ready then Reports(WriteFailed)
               else if n < cfg.maxRetries then SetAside(n + 1)
               else Reports(SendTimeout);
      SummaryOne(s, t, e.id, s.log[e.id].msgs, f);
      a := Some(Change(e.id, s.log[e.id].msgs, f));
    } else {
      SummaryNone(s, t);
      a := None;
    }
  }

  lemma RspSummary(cfg: Config, s: State) returns (a: Option<Change>)
    requires Inv(cfg, s) && Refs(s) && CanHandle(cfg, s, RecvRsp)
    ensures Summary(s, ApplyHandler(cfg, s, RecvRsp), a, None) && Explains(cfg, s, Handle(RecvRsp), a)
  {
    var rsp, t := s.rspCh[0], ApplyHandler(cfg, s, RecvRsp);
    RspStep(cfg, s);
    if rsp.id in Live(s) {
      var f := Reports(if rsp.code == 0 then Ok else ServerError);
      SummaryOne(s, t, rsp.id, s.log[rsp.id].msgs, f);
      a := Some(Change(rsp.id, s.log[rsp.id].msgs, f));
    } else {
      SummaryNone(s, t);
      a := None;
    }
  }

  lemma ResentSummary(cfg: Config, s: State, t: State, step: Step, id: Id, retryOnFail: bool, w: Write, f: Fate)
    returns (a: Option<Change>)
    requires Inv(cfg, s) && Resent(cfg, s, t, id, retryOnFail, w, f) && Tries(step, w)
    ensures Summary(s, t, a, None) && Explains(cfg, s, step, a)
  {
    if id in s.retrying {
      LiveOnly(cfg, s, id);
      SummaryOne(s, t, id, s.log[id].msgs, f);
      var b := s.heap[s.retrying[id]];
      SendExplains(cfg, s, step, id, s.log[id].msgs, s.mode == Ready, b.retries, b.encoded, retryOnFail, w, f);
      a := Some(Change(id, s.log[id].msgs, f));
    } else {
      SummaryNone(s, t);
      a := None;
    }
  }

  lemma RetrySummary(cfg: Config, s: State, step: Step) returns (a: Option<Change>)
    requires Inv(cfg, s) && Refs(s) && Enabled(cfg, s, step) && RetryOf(s, step).Some?
    ensures Summary(s, Apply(cfg, s, step), a, None) && Explains(cfg, s, step, a)
  {
    var f: Fate;
    match step {
      case Handle(RecvRetry(w)) =>
        f := LoopRetryStep(cfg, s, w);
        a := ResentSummary(cfg, s, ApplyHandler(cfg, s, RecvRetry(w)), step, s.retryCh[0].id, true, w, f);
      case Shut(CloseRetry(w)) =>
        f := DrainRetryStep(cfg, s, w);
        a := ResentSummary(cfg, s, ApplyShutdown(cfg, s, CloseRetry(w)), step, s.retryCh[0].id, false, w, f);
      case Shut(CloseResend(id, w)) =>
        f := CloseResendStep(cfg, s, id, w);
        a := ResentSummary(cfg, s, ApplyShutdown(cfg, s, CloseResend(id, w)), step, id, false, w, f);
    }
  }

  lemma NewIdUnreported(cfg: Config, s: State, id: Id)
    requires Inv(cfg, s) && id !in s.log
    ensures id !in s.results
  {
  }

  /** The pending batch leaves. */
  lemma PendingSummary(cfg: Config, s: State, t: State, step: Step, retryOnFail: bool, w: Write, f: Fate)
    returns (a: Option<Change>)
    requires Inv(cfg, s) && Refs(s) && Tries(step, w)
    requires if s.pending.None? then SameBatches(s, t)
             else
               var b := s.heap[s.pending.value];
               Comes(s, t, b.id, b.reqs, f) && b.id !in s.log && Sends(cfg, s.mode == Ready, 0, false, retryOnFail, w, f)
    ensures Summary(s, t, a, None) && Explains(cfg, s, step, a)
  {
    if s.pending.None? {
      SummaryNone(s, t);
      a := None;
    } else {
      var b := s.heap[s.pending.value];
      NewIdUnreported(cfg, s, b.id);
      SummaryOne(s, t, b.id, b.reqs, f);
      SendExplains(cfg, s, step, b.id, b.reqs, s.mode == Ready, 0, false, retryOnFail, w, f);
      a := Some(Change(b.id, b.reqs, f));
    }
  }

  lemma TickBatchSummary(cfg: Config, s: State, w: Write) returns (a: Option<Change>)
    requires Inv(cfg, s) && Refs(s) && CanHandle(cfg, s, TickBatch(w))
    ensures Summary(s, ApplyHandler(cfg, s, TickBatch(w)), a, None) && Explains(cfg, s, Handle(TickBatch(w)), a)
  {
    var f := BatchTimeoutStep(cfg, s, w);
    a := PendingSummary(cfg, s, BatchTimeout(cfg, s, w), Handle(TickBatch(w)), true, w, f);
  }

  lemma SendOffSummary(cfg: Config, s: State, w: Write) returns (a: Option<Change>)
    requires Inv(cfg, s) && Refs(s) && CanShut(s, CloseDataEnd(w))
    ensures Summary(s, ApplyShutdown(cfg, s, CloseDataEnd(w)), a, None) && Explains(cfg, s, Shut(CloseDataEnd(w)), a)
  {
    var f := SendOffStep(cfg, s, w);
    a := PendingSummary(cfg, s, BatchTimeoutOnClose(cfg, s, w), Shut(CloseDataEnd(w)), false, w, f);
  }

  /** The message has been taken by the batch `id`. */
  lemma TookSummary(cfg: Config, s: State, t: State, step: Step, id: Id, reqs: seq<Message>, m: Message, w: Write, f: Fate)
    returns (b: Option<Change>)
    requires Took(cfg, s, t, id, reqs, m, w, f) && id !in s.results && Tries(step, w)
    ensures b == if Leaves(cfg, reqs, m) then Some(Change(id, reqs, f)) else None
    ensures (b.Some? ==> Now(s, t, b.value)) && Explains(cfg, s, step, b)
    ensures AnswersTo(b) == AnswersIf(Leaves(cfg, reqs, m), reqs, id, f)
  {
    if Leaves(cfg, reqs, m) {
      SendExplains(cfg, s, step, id, reqs, s.mode == Ready, 0, false, true, w, f);
      b := Some(Change(id, reqs, f));
    } else {
      b := None;
    }
  }

  /** A batch that waits has not been heard of. */
  lemma WaitsStill(cfg: Config, s: State, t: State, id: Id, reqs: seq<Message>)
    requires Inv(cfg, s) && Inv(cfg, t) && id !in s.log && IsPending(t, id, reqs)
    ensures Still(s, t, id)
  {
    NewIdUnreported(cfg, s, id);
    NewIdUnreported(cfg, t, id);
  }

  lemma JoinSummary(cfg: Config, s: State, t: State, step: Step, id: Id, reqs: seq<Message>, m: Message, w: Write, f: Fate)
    returns (b: Option<Change>)
    requires Inv(cfg, s) && Inv(cfg, t) && id !in s.log && Took(cfg, s, t, id, reqs, m, w, f) && Elsewhere(s, t, id) && Tries(step, w)
    requires t.callbacks == s.callbacks + AnswersIf(Leaves(cfg, reqs, m), reqs, id, f)
    ensures Summary(s, t, None, b) && Explains(cfg, s, step, b)
  {
    NewIdUnreported(cfg, s, id);
    b := TookSummary(cfg, s, t, step, id, reqs, m, w, f);
    if !Leaves(cfg, reqs, m) {
      WaitsStill(cfg, s, t, id, reqs);
    }
    forall x | !Is(b, x) ensures Still(s, t, x) {
      if x != id {
        ElsewhereStill(s, t, id, id, x);
      }
    }
    SummaryTwo(s, t, None, b);
  }

  lemma ElsewhereStill(s: State, t: State, a: Id, b: Id, x: Id)
    requires (Elsewhere(s, t, a) || ElsewhereTwo(s, t, a, b)) && x != a && x != b
    ensures Still(s, t, x)
  {
  }

  lemma SummaryTwo(s: State, t: State, a: Option<Change>, b: Option<Change>)
    requires (a.Some? ==> Now(s, t, a.value)) && (b.Some? ==> Now(s, t, b.value) && !Is(a, b.value.id))
    requires t.callbacks == s.callbacks + AnswersTo(a) + AnswersTo(b) || (a == None && t.callbacks == s.callbacks + AnswersTo(b))
    requires forall id :: !Is(a, id) && !Is(b, id) ==> Still(s, t, id)
    ensures Summary(s, t, a, b)
  {
  }

  lemma LeftSummary(cfg: Config, s: State, t: State, step: Step, id: Id, reqs: seq<Message>, w: Write, f: Fate)
    returns (a: Option<Change>)
    requires Inv(cfg, s) && Tries(step, w) && LeftBefore(cfg, s, t, id, reqs, w, f)
    ensures a == Some(Change(id, reqs, f)) && Now(s, t, a.value) && Explains(cfg, s, step, a)
  {
    NewIdUnreported(cfg, s, id);
    SendExplains(cfg, s, step, id, reqs, s.mode == Ready, 0, false, true, w, f);
    a := Some(Change(id, reqs, f));
  }

  lemma OverflowSummary(cfg: Config, s: State, t: State, step: Step, leaving: Id, before: seq<Message>, w1: Write, first: Fate,
                        id: Id, m: Message, w2: Write, second: Fate) returns (a: Option<Change>, b: Option<Change>)
    requires Inv(cfg, s) && Inv(cfg, t) && id !in s.log && id != leaving && Tries(step, w1) && Tries(step, w2)
    requires LeftBefore(cfg, s, t, leaving, before, w1, first) && Took(cfg, s, t, id, [m], m, w2, second) && ElsewhereTwo(s, t, leaving, id)
    requires t.callbacks == s.callbacks + Answers(before, leaving, first) + AnswersIf(Leaves(cfg, [m], m), [m], id, second)
    ensures Summary(s, t, a, b) && Explains(cfg, s, step, a) && Explains(cfg, s, step, b)
  {
    NewIdUnreported(cfg, s, id);
    a := LeftSummary(cfg, s, t, step, leaving, before, w1, first);
    b := TookSummary(cfg, s, t, step, id, [m], m, w2, second);
    if !Leaves(cfg, [m], m) {
      WaitsStill(cfg, s, t, id, [m]);
    }
    forall x | !Is(a, x) && !Is(b, x) ensures Still(s, t, x) {
      if x != id {
        ElsewhereStill(s, t, leaving, id, x);
      }
    }
    SummaryTwo(s, t, a, b);
  }

  lemma DataSummary(cfg: Config, s: State, w1: Write, r: Ref, id: Id, w2: Write) returns (a: Option<Change>, b: Option<Change>)
    requires Inv(cfg, s) && Refs(s) && CanHandle(cfg, s, RecvData(w1, r, id, w2))
    ensures var step := Handle(RecvData(w1, r, id, w2));
            && Summary(s, Apply(cfg, s, step), a, b) && Explains(cfg, s, step, a) && Explains(cfg, s, step, b)
  {
    RecvDataKeepsInv(cfg, s, w1, r, id, w2);
    PendingId(cfg, s, id);
    if Overflows(cfg, PendingReqs(s.pending, s.heap), s.dataCh[0]) {
      a, b := OverflowData(cfg, s, w1, r, id, w2);
    } else {
      a := None;
      b := JoinData(cfg, s, w1, r, id, w2);
    }
  }

  lemma OverflowData(cfg: Config, s: State, w1: Write, r: Ref, id: Id, w2: Write) returns (a: Option<Change>, b: Option<Change>)
    requires Inv(cfg, s) && Refs(s) && CanHandle(cfg, s, RecvData(w1, r, id, w2)) && id !in s.log
    requires Overflows(cfg, PendingReqs(s.pending, s.heap), s.dataCh[0]) && s.heap[s.pending.value].id != id
    requires Inv(cfg, ApplyHandler(cfg, s, RecvData(w1, r, id, w2)))
    ensures var step := Handle(RecvData(w1, r, id, w2));
            && Summary(s, Apply(cfg, s, step), a, b) && Explains(cfg, s, step, a) && Explains(cfg, s, step, b)
  {
    var step, p := Handle(RecvData(w1, r, id, w2)), s.heap[s.pending.value];
    var first, second := OverflowStep(cfg, s, w1, r, id, w2);
    a, b := OverflowSummary(cfg, s, ApplyHandler(cfg, s, step.h), step, p.id, p.reqs, w1, first, id, s.dataCh[0], w2, second);
  }

  lemma JoinData(cfg: Config, s: State, w1: Write, r: Ref, id: Id, w2: Write) returns (b: Option<Change>)
    requires Inv(cfg, s) && Refs(s) && CanHandle(cfg, s, RecvData(w1, r, id, w2)) && id !in s.log
    requires !Overflows(cfg, PendingReqs(s.pending, s.heap), s.dataCh[0])
    requires s.pending.Some? ==> s.heap[s.pending.value].id !in s.log
    requires Inv(cfg, ApplyHandler(cfg, s, RecvData(w1, r, id, w2)))
    ensures var step := Handle(RecvData(w1, r, id, w2)); Summary(s, Apply(cfg, s, step), None, b) && Explains(cfg, s, step, b)
  {
    var step, m, reqs := Handle(RecvData(w1, r, id, w2)), s.dataCh[0], PendingReqs(s.pending, s.heap) + [s.dataCh[0]];
    var batch := if s.pending.Some? then s.heap[s.pending.value].id else id;
    NoFlush(cfg, s, w1);
    var second := JoinStep(cfg, s, s.(dataCh := s.dataCh[1..]), r, id, w2);
    b := JoinSummary(cfg, s, ApplyHandler(cfg, s, step.h), step, batch, reqs, m, w2, second);
  }

  lemma PendingId(cfg: Config, s: State, id: Id)
    requires Inv(cfg, s) && Refs(s) && id !in s.usedIds
    ensures id !in s.log
    ensures s.pending.Some? ==> s.heap[s.pending.value].id !in s.log && s.heap[s.pending.value].id != id
  {
  }

  lemma ProducerQuiet(cfg: Config, s: State, p: Producer)
    requires CanProduce(cfg, s, p)
    ensures Quiet(s, ApplyProducer(cfg, s, p))
  {
  }

  lemma EnvironmentQuiet(s: State, e: Environment)
    ensures Quiet(s, ApplyEnvironment(s, e))
  {
  }

  lemma StageQuiet(cfg: Config, s: State, c: Shutdown)
    requires Refs(s) && CanShut(s, c) && (c.CloseStart? || c.CloseDoneEnd? || c.CloseRetryEnd? || c.CloseFinish?)
    ensures Quiet(s, ApplyShutdown(cfg, s, c))
  {
  }

  /** Producers, the other goroutines, and the stages of the shutdown handler that send nothing. */
  lemma QuietStep(cfg: Config, s: State, step: Step)
    requires Refs(s) && Enabled(cfg, s, step)
    requires step.Produce? || step.Happen? || (step.Shut? && (step.c.CloseStart? || step.c.CloseDoneEnd? || step.c.CloseRetryEnd? || step.c.CloseFinish?))
    ensures Quiet(s, Apply(cfg, s, step))
  {
    match step
    case Produce(p) => ProducerQuiet(cfg, s, p);
    case Happen(e) => EnvironmentQuiet(s, e);
    case Shut(c) => StageQuiet(cfg, s, c);
  }

  lemma DrainDoneSummary(cfg: Config, s: State) returns (a: Option<Change>)
    requires Inv(cfg, s) && Refs(s) && CanShut(s, CloseDone)
    ensures Summary(s, ApplyShutdown(cfg, s, CloseDone), a, None) && Explains(cfg, s, Shut(CloseDone), a)
  {
    var e, t := s.doneCh[0], ApplyShutdown(cfg, s, CloseDone);
    DrainDoneStep(cfg, s);
    EventErr(cfg, s);
    if e.id in Live(s) {
      SummaryOne(s, t, e.id, s.log[e.id].msgs, Reports(e.err));
      a := Some(Change(e.id, s.log[e.id].msgs, Reports(e.err)));
    } else {
      SummaryNone(s, t);
      a := None;
    }
  }

  lemma StepSummary(cfg: Config, s: State, step: Step) returns (a: Option<Change>, b: Option<Change>)
    requires Inv(cfg, s) && Refs(s) && Enabled(cfg, s, step)
    ensures Summary(s, Apply(cfg, s, step), a, b) && Explains(cfg, s, step, a) && Explains(cfg, s, step, b)
  {
    a, b := None, None;
    if RetryOf(s, step).Some? {
      a := RetrySummary(cfg, s, step);
    } else if step.Handle? && step.h.RecvData? {
      a, b := DataSummary(cfg, s, step.h.w1, step.h.r, step.h.id, step.h.w2);
    } else if step.Handle? && step.h.TickBatch? {
      a := TickBatchSummary(cfg, s, step.h.w);
    } else if step.Handle? {
      a := EventSummary(cfg, s, step.h);
    } else if step.Shut? && step.c.CloseDataEnd? {
      a := SendOffSummary(cfg, s, step.c.w);
    } else if step.Shut? && step.c.CloseDone? {
      a := DrainDoneSummary(cfg, s);
    } else {
      QuietStep(cfg, s, step);
      SummaryNone(s, Apply(cfg, s, step));
    }
  }

  // ----- why a batch has reported

  lemma SummaryResults(cfg: Config, s: State, t: State, step: Step, a: Option<Change>, b: Option<Change>, id: Id)
    requires Summary(s, t, a, b) && Explains(cfg, s, step, a) && Explains(cfg, s, step, b)
    ensures id in s.results ==> id in t.results && t.results[id] == s.results[id]
    ensures id in t.results && id !in s.results ==> Cause(cfg, s, step, id, t.results[id])
  {
    if !Is(a, id) && !Is(b, id) {
      assert Still(s, t, id);
    }
  }

  lemma StepResults(cfg: Config, trace: seq<State>, steps: seq<Step>, k: nat, id: Id)
    requires cfg.Supported() && IsRun(cfg, trace, steps) && k < |steps|
    ensures var s, t := trace[k], trace[k + 1];
            && (id in s.results ==> id in t.results && t.results[id] == s.results[id])
            && (id in t.results && id !in s.results ==> Cause(cfg, s, steps[k], id, t.results[id]))
  {
    AtStep(cfg, trace, steps, k);
    var a, b := StepSummary(cfg, trace[k], steps[k]);
    SummaryResults(cfg, trace[k], trace[k + 1], steps[k], a, b, id);
  }

  /** Whatever a batch has reported, there was a step that explains it, and the verdict has not changed since. So with V3
      a batch has succeeded only if a response with code zero was received for it, and it has been rejected by the
      server only if one with another code was. */
  lemma {:induction false} ResultHasCause(cfg: Config, trace: seq<State>, steps: seq<Step>, i: nat, id: Id) returns (k: nat)
    requires cfg.Supported() && IsRun(cfg, trace, steps) && i < |trace| && id in trace[i].results
    ensures k < i && id !in trace[k].results && Cause(cfg, trace[k], steps[k], id, trace[i].results[id])
  {
    NothingYet(cfg, trace, steps);
    StepResults(cfg, trace, steps, i - 1, id);
    k := i - 1;
    if id in trace[i - 1].results {
      k := ResultHasCause(cfg, trace, steps, i - 1, id);
    }
  }

  lemma NothingYet(cfg: Config, trace: seq<State>, steps: seq<Step>)
    requires IsRun(cfg, trace, steps)
    ensures trace[0].results == map[] && trace[0].callbacks == []
  {
  }

  // ----- each message of a batch has exactly the verdict of the batch

  /** The callbacks of one batch. */
  function Of(cs: seq<Callback>, id: Id): seq<Callback> {
    if cs == [] then []
    else
      var n := |cs| - 1;
      Of(cs[..n], id) + (if cs[n].id == id then [cs[n]] else [])
  }

  lemma {:induction false} OfConcat(a: seq<Callback>, b: seq<Callback>, id: Id)
    ensures Of(a + b, id) == Of(a, id) + Of(b, id)
  {
    if b == [] {
      assert a + [] == a;
    } else {
      var n := |b| - 1;
      OfConcat(a, b[..n], id);
      assert (a + b)[..|a + b| - 1] == a + b[..n];
    }
  }

  lemma {:induction false} OfAll(cs: seq<Callback>, x: Id, id: Id)
    requires forall i :: 0 <= i < |cs| ==> cs[i].id == x
    ensures Of(cs, id) == if x == id then cs else []
  {
    if cs != [] {
      OfAll(cs[..|cs| - 1], x, id);
    }
  }

  lemma OfAnswers(c: Option<Change>, id: Id)
    ensures Of(AnswersTo(c), id) == if Is(c, id) then AnswersTo(c) else []
  {
    if c.Some? {
      OfAll(AnswersTo(c), c.value.id, id);
    }
  }

  /** The callbacks of `id` are one for each of its messages, in order, with its verdict; none before it has reported. */
  ghost predicate Exactly(s: State, id: Id) {
    Of(s.callbacks, id) == if id in s.results && id in s.log then Answers(s.log[id].msgs, id, Reports(s.results[id])) else []
  }

  lemma SummaryExactly(s: State, t: State, a: Option<Change>, b: Option<Change>, id: Id)
    requires Summary(s, t, a, b) && Exactly(s, id) && (id in s.results ==> id in s.log)
    ensures Exactly(t, id)
  {
    OfConcat(s.callbacks + AnswersTo(a), AnswersTo(b), id);
    OfConcat(s.callbacks, AnswersTo(a), id);
    OfAnswers(a, id);
    OfAnswers(b, id);
    if !Is(a, id) && !Is(b, id) {
      assert Still(s, t, id);
    }
  }

  lemma StepExactly(cfg: Config, trace: seq<State>, steps: seq<Step>, k: nat, id: Id)
    requires cfg.Supported() && IsRun(cfg, trace, steps) && k < |steps| && Exactly(trace[k], id)
    ensures Exactly(trace[k + 1], id)
  {
    AtStep(cfg, trace, steps, k);
    var a, b := StepSummary(cfg, trace[k], steps[k]);
    if id !in trace[k].log {
      NewIdUnreported(cfg, trace[k], id);
    }
    SummaryExactly(trace[k], trace[k + 1], a, b, id);
  }

  /** In every state of every run each batch that has reported has called back each of its messages, once and in order,
      with its verdict, and no other batch has called back any. */
  lemma {:induction false} BatchAnswersExactly(cfg: Config, trace: seq<State>, steps: seq<Step>, i: nat, id: Id)
    requires cfg.Supported() && IsRun(cfg, trace, steps) && i < |trace|
    ensures Exactly(trace[i], id)
  {
    if i == 0 {
      NothingYet(cfg, trace, steps);
    } else {
      BatchAnswersExactly(cfg, trace, steps, i - 1, id);
      StepExactly(cfg, trace, steps, i - 1, id);
    }
  }

  // ----- a failed attempt is not the end

  /** In this step of the event loop the batch `id`, retried `n` times so far, is sent with the outcome `w`. */
  predicate SentIn(cfg: Config, s: State, step: Step, id: Id, n: nat, w: Write)
    requires Refs(s)
  {
    match step
    case Handle(TickBatch(v)) => v == w && n == 0 && s.pending.Some? && s.heap[s.pending.value].id == id
    case Handle(RecvRetry(v)) =>
      && v == w && s.retryCh != [] && s.retryCh[0].id == id && id in s.retrying && s.heap[s.retrying[id]].retries == n
    case Handle(RecvData(w1, r, newId, w2)) =>
      && n == 0 && s.dataCh != []
      && var m, before := s.dataCh[0], PendingReqs(s.pending, s.heap);
         if Overflows(cfg, before, m)
         then s.pending.Some? && ((s.heap[s.pending.value].id == id && w1 == w) || (id == newId && Leaves(cfg, [m], m) && w2 == w))
         else id == (if s.pending.Some? then s.heap[s.pending.value].id else newId) && Leaves(cfg, before + [m], m) && w2 == w
    case _ => false
  }

  lemma SentFate(cfg: Config, trace: seq<State>, steps: seq<Step>, k: nat, id: Id, n: nat, w: Write) returns (f: Fate, encoded: bool)
    requires cfg.Supported() && IsRun(cfg, trace, steps) && k < |steps|
    requires Refs(trace[k]) && SentIn(cfg, trace[k], steps[k], id, n, w)
    ensures At(trace[k + 1], id, f) && Sends(cfg, trace[k].mode == Ready, n, encoded, true, w, f)
  {
    encoded := false;
    match steps[k].h {
      case TickBatch(v) =>
        f := PendingLeaves(cfg, trace, steps, k, v);
      case RecvRetry(v) =>
        encoded := trace[k].heap[trace[k].retrying[id]].encoded;
        f := RetryDecides(cfg, trace, steps, k);
      case RecvData(w1, r, newId, w2) =>
        var first, second := MessageTaken(cfg, trace, steps, k, w1, r, newId, w2);
        f := if Overflows(cfg, PendingReqs(trace[k].pending, trace[k].heap), trace[k].dataCh[0])
                && trace[k].heap[trace[k].pending.value].id == id && w1 == w then first else second;
    }
  }

  /** While the worker is ready, a batch whose attempt fails is set aside for another one as long as it has retries left;
      it has not reported. */
  lemma FailedWriteIsRetried(cfg: Config, trace: seq<State>, steps: seq<Step>, k: nat, id: Id, n: nat)
    requires cfg.Supported() && IsRun(cfg, trace, steps) && k < |steps| && Refs(trace[k])
    requires SentIn(cfg, trace[k], steps[k], id, n, WriteError) && trace[k].mode == Ready && n < cfg.maxRetries
    ensures var t := trace[k + 1];
            && id in t.retrying && id !in t.unacked && id !in t.results
            && t.retrying[id] in t.heap && t.heap[t.retrying[id]].retries == n + 1
  {
    var f, encoded := SentFate(cfg, trace, steps, k, id, n, WriteError);
    RunKeepsInv(cfg, trace, steps, k + 1);
    assert f == SetAside(n + 1);
  }
}
