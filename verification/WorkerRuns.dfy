/** What holds in every run of a worker. */
module WorkerRuns {
  import opened Common
  import opened WorkerSpec
  import opened WorkerInvariant
  import opened WorkerMoves
  import opened WorkerSteps

  /** The invariant holds in every state of every run. */
  lemma {:induction false} RunKeepsInv(cfg: Config, trace: seq<State>, steps: seq<Step>, i: nat)
    requires cfg.Supported() && IsRun(cfg, trace, steps) && i < |trace|
    ensures Inv(cfg, trace[i]) && Refs(trace[i])
  {
    if i == 0 {
      InitInv(cfg);
    } else {
      RunKeepsInv(cfg, trace, steps, i - 1);
      StepKeepsInv(cfg, trace[i - 1], steps[i - 1]);
      InvImpliesRefs(cfg, trace[i]);
    }
  }

  // ----- every accepted message is in one place, and is called back once

  /** Messages of batches that have been sent and have not reported. */
  function InFlight(s: State): seq<Message> {
    Flat(s.order, s.log, Live(s))
  }

  lemma LedgerBalances(order: seq<Id>, log: Log, results: map<Id, Err>, callbacks: seq<Callback>,
                       reqs: seq<Message>, dataCh: seq<Message>, accepted: seq<Message>)
    requires results.Keys <= log.Keys
    requires Stream(order, log, reqs, [], dataCh, accepted) && Reported(order, log, results, callbacks)
    ensures accepted == Flat(order, log, log.Keys) + reqs + dataCh
    ensures multiset(accepted) == multiset(Msgs(callbacks)) + multiset(Flat(order, log, log.Keys - results.Keys))
                                  + multiset(reqs) + multiset(dataCh)
  {
    FlatSplit(order, log, results.Keys, log.Keys - results.Keys);
    assert log.Keys == results.Keys + (log.Keys - results.Keys);
    assert Flat(order, log, log.Keys) + reqs + [] + dataCh == Flat(order, log, log.Keys) + reqs + dataCh;
  }

  lemma Conservation(cfg: Config, s: State)
    requires Inv(cfg, s)
    ensures Flat(s.order, s.log, s.log.Keys) + PendingReqs(s.pending, s.heap) + s.dataCh == s.accepted
    ensures multiset(s.accepted) == multiset(Msgs(s.callbacks)) + multiset(InFlight(s))
                                    + multiset(PendingReqs(s.pending, s.heap)) + multiset(s.dataCh)
  {
    LedgerBalances(s.order, s.log, s.results, s.callbacks, PendingReqs(s.pending, s.heap), s.dataCh, s.accepted);
  }

  /** A batch that has not reported is in exactly one of the two maps, which points to an object
      carrying exactly its messages; the pending batch is in neither. */
  lemma OnePlace(cfg: Config, s: State)
    requires Inv(cfg, s)
    ensures s.unacked.Keys + s.retrying.Keys == Live(s) && s.unacked.Keys !! s.retrying.Keys
    ensures forall id :: id in Live(s) ==>
              var r := if id in s.unacked then s.unacked[id] else s.retrying[id];
              r in s.heap && s.heap[r].id == id && !s.heap[r].finished && s.heap[r].reqs == s.log[id].msgs
    ensures s.pending.Some? ==> s.pending.value in s.heap && s.heap[s.pending.value].id !in s.log.Keys
  {
    PlacesPartition(cfg.v3, s.unacked, s.retrying, s.log, s.results);
  }

  lemma PlacesPartition(v3: bool, unacked: map<Id, Ref>, retrying: map<Id, Ref>, log: Log, results: map<Id, Err>)
    requires Maps(v3, unacked, retrying, log, results, {})
    ensures unacked.Keys + retrying.Keys == log.Keys - results.Keys && unacked.Keys !! retrying.Keys
  {
  }

  /** Exactly once, over every run. */
  lemma ExactlyOnce(cfg: Config, trace: seq<State>, steps: seq<Step>, i: nat)
    requires cfg.Supported() && IsRun(cfg, trace, steps) && i < |trace|
    ensures var s := trace[i];
            && multiset(s.accepted) == multiset(Msgs(s.callbacks)) + multiset(InFlight(s))
                                       + multiset(PendingReqs(s.pending, s.heap)) + multiset(s.dataCh)
            && s.unacked.Keys + s.retrying.Keys == Live(s) && s.unacked.Keys !! s.retrying.Keys
  {
    RunKeepsInv(cfg, trace, steps, i);
    Conservation(cfg, trace[i]);
    OnePlace(cfg, trace[i]);
  }

  /** Batches leave in the order of acceptance: the batches in order of first send, then the
      pending batch, then the queue, spell out the accepted sequence. */
  lemma OrderKept(cfg: Config, trace: seq<State>, steps: seq<Step>, i: nat)
    requires cfg.Supported() && IsRun(cfg, trace, steps) && i < |trace|
    ensures var s := trace[i];
            && Flat(s.order, s.log, s.log.Keys) + PendingReqs(s.pending, s.heap) + s.dataCh == s.accepted
            && Distinct(s.order) && (forall id :: id in s.order <==> id in s.log)
            && (forall id :: id in s.log ==> GoodBatch(cfg, s.log[id].msgs))
            && Refs(s)
            && (s.pending.Some? ==>
                  var b := s.heap[s.pending.value];
                  GoodBatch(cfg, b.reqs) && b.dataSize == TotalSize(b.reqs) && |b.reqs| < cfg.maxMessages)
  {
    RunKeepsInv(cfg, trace, steps, i);
    Conservation(cfg, trace[i]);
  }

  /** Every callback reports the one verdict of the batch that carried its message; with protocol V3
      success is reported only for a batch that a response acknowledged. */
  lemma CallbacksAreHonest(cfg: Config, trace: seq<State>, steps: seq<Step>, i: nat, k: nat)
    requires cfg.Supported() && IsRun(cfg, trace, steps) && i < |trace| && k < |trace[i].callbacks|
    ensures var s := trace[i];
            var c := s.callbacks[k];
            && c.id in s.results && c.id in s.log
            && c.err == s.results[c.id] && c.msg in s.log[c.id].msgs
            && (c.err == Ok ==> Writes(s.writes, c.id) >= 1)
            && (c.err == Ok && cfg.v3 ==> c.id in s.acks)
  {
    RunKeepsInv(cfg, trace, steps, i);
    assert trace[i].callbacks[k] in trace[i].callbacks;
  }

  // ----- retries

  /** No batch is written more than `maxRetries + 1` times, whatever failures and timers report. */
  lemma RetryBound(cfg: Config, trace: seq<State>, steps: seq<Step>, i: nat)
    requires cfg.Supported() && IsRun(cfg, trace, steps) && i < |trace|
    ensures var s := trace[i];
            && Refs(s)
            && (forall id :: id in s.writes ==> s.writes[id] <= cfg.maxRetries + 1)
            && (forall id :: id in s.unacked ==>
                  Writes(s.writes, id) == s.heap[s.unacked[id]].retries + 1 <= cfg.maxRetries + 1)
            && (forall id :: id in s.retrying ==>
                  1 <= Writes(s.writes, id) == s.heap[s.retrying[id]].retries <= cfg.maxRetries)
  {
    RunKeepsInv(cfg, trace, steps, i);
    AttemptsCounted(cfg, trace[i]);
  }

  lemma AttemptsCounted(cfg: Config, s: State)
    requires Objects(s.heap, s.free, s.log, s.results, s.usedIds)
    requires Maps(cfg.v3, s.unacked, s.retrying, s.log, s.results, {})
    requires Retries(cfg, s.heap, s.log, s.results, s.retrying, s.writes, Nobody)
    requires Refs(s)
    ensures forall id :: id in s.unacked ==>
              Writes(s.writes, id) == s.heap[s.unacked[id]].retries + 1 <= cfg.maxRetries + 1
    ensures forall id :: id in s.retrying ==>
              1 <= Writes(s.writes, id) == s.heap[s.retrying[id]].retries <= cfg.maxRetries
  {
  }

  // ----- permits

  lemma {:induction false} FlatLength(order: seq<Id>, log: Log, keep: set<Id>)
    requires Distinct(order) && (forall id :: id in keep ==> id in order && id in log)
    requires forall id :: id in log ==> |log[id].msgs| >= 1
    ensures |keep| <= |Flat(order, log, keep)|
  {
    if order == [] {
      assert keep == {};
    } else {
      var n := |order| - 1;
      var rest := keep - {order[n]};
      forall id | id in rest ensures id in order[..n] {
        var i :| 0 <= i < |order| && order[i] == id;
        assert order[..n][i] == id;
      }
      FlatLength(order[..n], log, rest);
      FlatFrame(order[..n], log, log, rest, keep);
      OneLess(keep, order[n]);
    }
  }

  lemma OneLess(keep: set<Id>, id: Id)
    ensures |keep - {id}| == if id in keep then |keep| - 1 else |keep|
  {
    assert keep == if id in keep then keep - {id} + {id} else keep - {id};
  }

  /** Permits in use are the messages on their way, and the producers about to enqueue one; every live
      batch, queued message and such producer needs one. `WorkerAdmission` says when they are bounded. */
  lemma PermitsCount(cfg: Config, s: State)
    requires Inv(cfg, s)
    ensures s.permits == |s.reserved| + |s.dataCh| + |PendingReqs(s.pending, s.heap)| + |InFlight(s)|
    ensures |Live(s)| + If(s.pending.Some?) + |s.dataCh| + |s.reserved| <= s.permits
  {
    Conservation(cfg, s);
    MultisetSizes(s.accepted, Msgs(s.callbacks), InFlight(s), PendingReqs(s.pending, s.heap), s.dataCh);
    FlatLength(s.order, s.log, Live(s));
  }

  lemma MultisetSizes(all: seq<Message>, a: seq<Message>, b: seq<Message>, c: seq<Message>, d: seq<Message>)
    requires multiset(all) == multiset(a) + multiset(b) + multiset(c) + multiset(d)
    ensures |all| == |a| + |b| + |c| + |d|
  {
    assert |multiset(all)| == |multiset(a)| + |multiset(b)| + |multiset(c)| + |multiset(d)|;
  }

  // ----- late events

  /** A queued retry, completion or failure whose batch has reported, or whose object has been
      recycled, changes nothing; neither does a late response, apart from being seen. */
  lemma StaleEventsAreHarmless(cfg: Config, s: State, id: Id, r: Ref, err: Err, retry: bool, w: Write, code: int)
    requires Inv(cfg, s) && Refs(s) && Names(s.log, id, r)
    requires id in s.results || s.heap[r].id != id || s.heap[r].finished
    ensures DoneBatch(s, id, r, err) == s
    ensures cfg.v3 ==> HandleSendFailed(cfg, s, FailedReq(id, r, retry)) == s
    ensures HandleRetry(cfg, s, RetryReq(id, r), retry, w) == s
    ensures var t := HandleRsp(s, Rsp(id, code)); t == s.(acks := t.acks)
  {
    DoneEffect(cfg, s, Nobody, [], id, r, err);
  }

  /** An object in the pool is in none of the worker's maps. */
  lemma RecycledObjectsUnreferenced(cfg: Config, s: State, r: Ref)
    requires Inv(cfg, s) && r in s.free
    ensures !Owned(s, r)
  {
  }

  // ----- shutdown

  /** The shutdown handler has returned. */
  predicate Returned(s: State) {
    s.mode != Ready && s.phase == Loop
  }

  /** What no step after that undoes. */
  ghost predicate Descends(s: State, t: State) {
    && Returned(t)
    && Within(t.unacked, s.unacked)
    && t.accepted == s.accepted
    && (s.mode == Closed ==> t.mode == Closed)
  }

  lemma FinishDescends(s: State, r: Ref, err: Err)
    requires Returned(s) && r in s.heap
    ensures Descends(s, FinishBatch(s, r, err))
  {
  }

  lemma DoneDescends(s: State, id: Id, r: Ref, err: Err)
    requires Returned(s)
    ensures Descends(s, DoneBatch(s, id, r, err))
  {
    if r in s.heap {
      FinishDescends(s.(unacked := s.unacked - {id}, retrying := s.retrying - {id}), r, err);
      assert DoneBatch(s, id, r, err) == s || DoneBatch(s, id, r, err) == s.(unacked := s.unacked - {id})
          || DoneBatch(s, id, r, err) == FinishBatch(s.(unacked := s.unacked - {id}, retrying := s.retrying - {id}), r, err);
    }
  }

  lemma BackoffDescends(cfg: Config, s: State, r: Ref)
    requires Returned(s) && r in s.heap
    ensures Descends(s, BackoffRetry(cfg, s, r))
  {
    DoneDescends(s, s.heap[r].id, r, SendTimeout);
  }

  /** Neither a batch timer nor a retry timer finds anything to do. */
  lemma TimersIdle(cfg: Config, s: State, h: Handler)
    requires Inv(cfg, s) && Refs(s) && Returned(s) && CanHandle(cfg, s, h) && (h.TickBatch? || h.RecvRetry?)
    ensures ApplyHandler(cfg, s, h) == if h.TickBatch? then s else s.(retryCh := s.retryCh[1..])
  {
    assert s.pending.None? && s.retrying == map[];
  }

  lemma HandlerDescends(cfg: Config, s: State, h: Handler)
    requires Inv(cfg, s) && Refs(s) && Returned(s) && CanHandle(cfg, s, h)
    ensures Descends(s, ApplyHandler(cfg, s, h))
  {
    match h
    case TickBatch(w) => TimersIdle(cfg, s, h);
    case TickSend(id) => BackoffDescends(cfg, s.(unacked := s.unacked - {id}), s.unacked[id]);
    case RecvDone =>
      DoneDescends(s.(doneCh := s.doneCh[1..], phase := s.phase), s.doneCh[0].id, s.doneCh[0].ref, s.doneCh[0].err);
    case RecvFailed => FailedDescends(cfg, s.(failedCh := s.failedCh[1..]), s.failedCh[0]);
    case RecvRetry(w) => TimersIdle(cfg, s, h);
    case RecvRsp => RspDescends(s.(rspCh := s.rspCh[1..]), s.rspCh[0]);
  }

  lemma FailedDescends(cfg: Config, s: State, e: FailedReq)
    requires Returned(s)
    ensures Descends(s, HandleSendFailed(cfg, s, e))
  {
    if e.ref in s.heap {
      DoneDescends(s.(unacked := s.unacked - {e.id}), e.id, e.ref, WriteFailed);
      DoneDescends(s, e.id, e.ref, WriteFailed);
    }
  }

  lemma RspDescends(s: State, rsp: Rsp)
    requires Returned(s)
    ensures Descends(s, HandleRsp(s, rsp))
  {
    var t := if rsp.code == 0 then s.(acks := s.acks + {rsp.id}) else s;
    if rsp.id in s.unacked {
      DoneDescends(t, rsp.id, s.unacked[rsp.id], Verdict(rsp));
    } else if rsp.id in s.retrying {
      DoneDescends(t, rsp.id, s.retrying[rsp.id], Verdict(rsp));
    }
  }

  lemma StepDescends(cfg: Config, s: State, step: Step)
    requires Inv(cfg, s) && Refs(s) && Returned(s) && Enabled(cfg, s, step)
    ensures Descends(s, Apply(cfg, s, step))
  {
    match step
    case Produce(p) => ProducerDescends(cfg, s, p);
    case Handle(h) => HandlerDescends(cfg, s, h);
    case Shut(c) => assert false;
    case Happen(e) => EnvironmentDescends(s, e);
  }

  lemma ProducerDescends(cfg: Config, s: State, p: Producer)
    requires Returned(s) && CanProduce(cfg, s, p)
    ensures Descends(s, ApplyProducer(cfg, s, p))
  {
  }

  lemma EnvironmentDescends(s: State, e: Environment)
    requires Returned(s)
    ensures Descends(s, ApplyEnvironment(s, e))
  {
  }

  lemma DescendsFurther(s: State, t: State, u: State)
    requires Descends(s, t) && Descends(t, u)
    ensures Descends(s, u)
  {
  }

  lemma RunStepDescends(cfg: Config, trace: seq<State>, steps: seq<Step>, i: nat)
    requires cfg.Supported() && IsRun(cfg, trace, steps) && i < |steps| && Returned(trace[i])
    ensures Descends(trace[i], trace[i + 1])
  {
    RunKeepsInv(cfg, trace, steps, i);
    StepDescends(cfg, trace[i], steps[i]);
  }

  lemma {:induction false} RunDescends(cfg: Config, trace: seq<State>, steps: seq<Step>, i: nat, j: nat)
    requires cfg.Supported() && IsRun(cfg, trace, steps) && i <= j < |trace| && Returned(trace[i])
    ensures Descends(trace[i], trace[j])
  {
    if i < j {
      RunDescends(cfg, trace, steps, i, j - 1);
      RunStepDescends(cfg, trace, steps, j - 1);
      DescendsFurther(trace[i], trace[j - 1], trace[j]);
    }
  }

  /** What the invariant says once the handler has returned. */
  ghost predicate WindingDown(s: State) {
    && s.pending.None? && s.dataCh == [] && s.retrying == map[]
    && (s.mode == Closing ==> s.closes == 0 && s.left == |s.unacked| > 0)
    && (s.mode == Closed ==> s.closes == 1 && s.unacked == map[])
  }

  /** From the return of the shutdown handler on, no batch enters any of the three maps, `left` counts
      the unacknowledged batches, and the resources are released once: when the last of them has
      reported, at which point every accepted message has been called back. This holds whatever the
      drain loops have left in the channels. */
  lemma GracefulClose(cfg: Config, trace: seq<State>, steps: seq<Step>, i: nat, j: nat)
    requires cfg.Supported() && IsRun(cfg, trace, steps) && i <= j < |trace| && Returned(trace[i])
    ensures Descends(trace[i], trace[j]) && WindingDown(trace[j])
    ensures trace[j].mode == Closed ==> multiset(trace[j].accepted) == multiset(Msgs(trace[j].callbacks))
  {
    RunDescends(cfg, trace, steps, i, j);
    RunKeepsInv(cfg, trace, steps, j);
    Conservation(cfg, trace[j]);
    if trace[j].mode == Closed {
      OnePlace(cfg, trace[j]);
      FlatNothing(trace[j].order, trace[j].log);
    }
  }

  lemma {:induction false} FlatNothing(order: seq<Id>, log: Log)
    ensures Flat(order, log, {}) == []
  {
    if order != [] {
      FlatNothing(order[..|order| - 1], log);
    }
  }

  /** Resources are released at most once in every run. */
  lemma ClosesOnce(cfg: Config, trace: seq<State>, steps: seq<Step>, i: nat)
    requires cfg.Supported() && IsRun(cfg, trace, steps) && i < |trace|
    ensures trace[i].closes == (if trace[i].mode == Closed then 1 else 0)
  {
    RunKeepsInv(cfg, trace, steps, i);
  }

  lemma TimeoutEffect(cfg: Config, s: State, id: Id)
    requires Refs(s) && id in s.unacked && id !in s.retrying && s.mode == Closing && s.left == |s.unacked|
    requires var b := s.heap[s.unacked[id]]; b.id == id && !b.finished && b.hook
    ensures var t := SendTimeoutOne(cfg, s, id);
            && t.unacked == s.unacked - {id} && t.retrying == s.retrying && t.phase == s.phase
            && t.results == s.results[id := SendTimeout]
            && t.mode == (if |s.unacked| == 1 then Closed else Closing)
  {
    LeaveCount(s.unacked, id);
    var u := s.(unacked := s.unacked - {id});
    assert u.unacked - {id} == u.unacked && u.retrying - {id} == u.retrying;
  }

  /** While closing, each send timeout completes one batch, and the last of them closes the worker. */
  lemma TimeoutFinishesOne(cfg: Config, s: State, id: Id)
    requires Inv(cfg, s) && Refs(s) && Waiting(s.mode, s.phase) && id in s.unacked
    ensures var t := SendTimeoutOne(cfg, s, id);
            && Inv(cfg, t) && t.phase == s.phase
            && t.unacked == s.unacked - {id}
            && t.results == s.results[id := SendTimeout]
            && t.mode == (if |s.unacked| == 1 then Closed else Closing)
  {
    TickSendKeepsInv(cfg, s, id);
    TimeoutEffect(cfg, s, id);
  }

  /** A batch that is timed out after the handler has returned does not come back. */
  lemma TimedOutForGood(cfg: Config, trace: seq<State>, steps: seq<Step>, i: nat, k: nat, j: nat, id: Id)
    requires cfg.Supported() && IsRun(cfg, trace, steps) && i <= k < j < |trace| && Returned(trace[i])
    requires steps[k] == Handle(TickSend(id))
    ensures id !in trace[j].unacked
  {
    RunKeepsInv(cfg, trace, steps, k);
    RunDescends(cfg, trace, steps, i, k);
    assert Enabled(cfg, trace[k], steps[k]) && trace[k + 1] == Apply(cfg, trace[k], steps[k]);
    TimeoutFinishesOne(cfg, trace[k], id);
    RunDescends(cfg, trace, steps, k + 1, j);
  }

  /** Shutdown does not depend on the server: whatever else happens in between, once every batch that
      nothing else has finished has been timed out, the worker is closed and every accepted message has
      its callback. That the goroutine gets so far is the matter of `WorkerAdmission`. */
  lemma TimeoutsFinishClose(cfg: Config, trace: seq<State>, steps: seq<Step>, i: nat, j: nat)
    requires cfg.Supported() && IsRun(cfg, trace, steps) && i <= j < |trace| && Returned(trace[i])
    requires forall id :: id in trace[i].unacked && id in trace[j].unacked ==>
               exists k :: i <= k < j && steps[k] == Handle(TickSend(id))
    ensures trace[j].mode == Closed && trace[j].closes == 1 && trace[j].unacked == map[]
    ensures multiset(trace[j].accepted) == multiset(Msgs(trace[j].callbacks))
  {
    GracefulClose(cfg, trace, steps, i, j);
    forall id | id in trace[j].unacked ensures false {
      assert id in trace[i].unacked;
      var k :| i <= k < j && steps[k] == Handle(TickSend(id));
      TimedOutForGood(cfg, trace, steps, i, k, j, id);
    }
    assert trace[j].unacked == map[];
  }
}
