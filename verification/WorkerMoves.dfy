/** The few ways in which a batch changes place. Every handler is a composition of these moves,
    and each of them keeps the invariant. */
module WorkerMoves {
  import opened Common
  import opened WorkerSpec
  import opened WorkerInvariant

  /** The state after a live batch reports `err`. */
  function Finished(s: State, id: Id, err: Err): State
    requires id in s.log && s.log[id].ref in s.heap
  {
    FinishBatch(s.(unacked := s.unacked - {id}, retrying := s.retrying - {id}), s.log[id].ref, err)
  }

  lemma FinishedObjects(s: State, id: Id, err: Err)
    requires Objects(s.heap, s.free, s.log, s.results, s.usedIds)
    requires id in s.log && id !in s.results
    ensures var t := Finished(s, id, err);
            Objects(t.heap, t.free, t.log, t.results, t.usedIds)
  {
  }

  lemma FinishedPending(cfg: Config, s: State, id: Id, err: Err)
    requires Objects(s.heap, s.free, s.log, s.results, s.usedIds)
    requires Pending(cfg, s.pending, s.heap, s.free, s.log, s.usedIds)
    requires id in s.log && id !in s.results
    ensures var t := Finished(s, id, err);
            && Pending(cfg, t.pending, t.heap, t.free, t.log, t.usedIds)
            && PendingReqs(t.pending, t.heap) == PendingReqs(s.pending, s.heap)
  {
  }

  lemma FinishedMaps(v3: bool, unacked: map<Id, Ref>, retrying: map<Id, Ref>, log: Log, results: map<Id, Err>,
                     lim: Limbo, id: Id, err: Err)
    requires Maps(v3, unacked, retrying, log, results, Held(lim))
    requires id in log && id !in results && (lim.Nobody? || lim.id == id)
    ensures Maps(v3, unacked - {id}, retrying - {id}, log, results[id := err], {})
  {
  }

  lemma FinishedReported(order: seq<Id>, log: Log, results: map<Id, Err>, callbacks: seq<Callback>,
                         b: Batch, err: Err)
    requires Ordered(order, log) && Reported(order, log, results, callbacks)
    requires b.id in log && b.id !in results && b.reqs == log[b.id].msgs
    ensures Reported(order, log, results[b.id := err], callbacks + Callbacks(b, err))
  {
    FlatInsert(order, log, results.Keys, b.id);
    assert results[b.id := err].Keys == results.Keys + {b.id};
    MsgsConcat(callbacks, Callbacks(b, err));
    MsgsOfBatch(b, err);
  }

  lemma FinishedRetries(cfg: Config, s: State, lim: Limbo, id: Id, err: Err)
    requires Objects(s.heap, s.free, s.log, s.results, s.usedIds)
    requires Retries(cfg, s.heap, s.log, s.results, s.retrying, s.writes, lim)
    requires id in s.log && id !in s.results && (lim.Nobody? || lim.id == id)
    ensures var t := Finished(s, id, err);
            Retries(cfg, t.heap, t.log, t.results, t.retrying, t.writes, Nobody)
  {
  }

  /** In the waiting stage every live batch is either unacknowledged or in hand. */
  lemma FinishedCount(v3: bool, unacked: map<Id, Ref>, log: Log, results: map<Id, Err>, lim: Limbo, id: Id)
    requires Maps(v3, unacked, map[], log, results, Held(lim))
    requires id in log && id !in results && (lim.Nobody? || lim.id == id)
    ensures |unacked - {id}| + 1 == |unacked| + |Held(lim)|
  {
    if lim.Nobody? {
      LeaveCount(unacked, id);
    } else {
      assert unacked - {id} == unacked;
    }
  }

  lemma FinishedHooks(s: State, id: Id, err: Err)
    requires Objects(s.heap, s.free, s.log, s.results, s.usedIds)
    requires Hooks(s.heap, s.log, s.results, Waiting(s.mode, s.phase))
    requires id in s.log && id !in s.results
    ensures var t := Finished(s, id, err);
            Hooks(t.heap, t.log, t.results, Waiting(s.mode, s.phase))
  {
  }

  lemma FinishedCloses(cfg: Config, s: State, lim: Limbo, id: Id, err: Err)
    requires Objects(s.heap, s.free, s.log, s.results, s.usedIds)
    requires Maps(cfg.v3, s.unacked, s.retrying, s.log, s.results, Held(lim))
    requires Stages(s.mode, s.phase, s.closes, s.dataCh, s.pending, s.unacked, s.retrying)
    requires Countdown(s.mode, s.phase, s.left, s.unacked, Held(lim))
    requires Hooks(s.heap, s.log, s.results, Waiting(s.mode, s.phase))
    requires id in s.log && id !in s.results && (lim.Nobody? || lim.id == id)
    ensures var t := Finished(s, id, err);
            && Stages(t.mode, t.phase, t.closes, t.dataCh, t.pending, t.unacked, t.retrying)
            && Countdown(t.mode, t.phase, t.left, t.unacked, {})
            && Hooks(t.heap, t.log, t.results, Waiting(t.mode, t.phase))
  {
    FinishedHooks(s, id, err);
    if Waiting(s.mode, s.phase) {
      FinishedCount(cfg.v3, s.unacked, s.log, s.results, lim, id);
      if s.left == 1 {
        assert s.unacked - {id} == map[];
        FinishedMaps(cfg.v3, s.unacked, s.retrying, s.log, s.results, lim, id, err);
      }
    }
  }

  lemma FinishedHonest(v3: bool, log: Log, results: map<Id, Err>, callbacks: seq<Callback>, writes: map<Id, nat>,
                       acks: set<Id>, b: Batch, err: Err)
    requires Honest(v3, log, results, callbacks, writes, acks)
    requires b.id in log && b.id !in results && b.reqs == log[b.id].msgs
    requires err == Ok ==> Writes(writes, b.id) >= 1 && (v3 ==> b.id in acks)
    ensures Honest(v3, log, results[b.id := err], callbacks + Callbacks(b, err), writes, acks)
  {
  }

  lemma FinishedKeepsCore(cfg: Config, s: State, lim: Limbo, hand: seq<Message>, id: Id, err: Err)
    requires Core(cfg, s, lim, hand) && id in Live(s) && (lim.Nobody? || lim.id == id)
    requires err == Ok ==> Writes(s.writes, id) >= 1 && (cfg.v3 ==> id in s.acks)
    ensures Core(cfg, Finished(s, id, err), Nobody, hand)
  {
    FinishedObjects(s, id, err);
    FinishedPending(cfg, s, id, err);
    FinishedMaps(cfg.v3, s.unacked, s.retrying, s.log, s.results, lim, id, err);
    FinishedReported(s.order, s.log, s.results, s.callbacks, s.heap[s.log[id].ref], err);
    FinishedRetries(cfg, s, lim, id, err);
    FinishedCloses(cfg, s, lim, id, err);
    FinishedHonest(cfg.v3, s.log, s.results, s.callbacks, s.writes, s.acks, s.heap[s.log[id].ref], err);
  }

  // ----- leaving a map

  /** The invariant, part by part. */
  lemma Composed(cfg: Config, t: State, lim: Limbo, hand: seq<Message>)
    requires Objects(t.heap, t.free, t.log, t.results, t.usedIds)
    requires Pending(cfg, t.pending, t.heap, t.free, t.log, t.usedIds)
    requires Maps(cfg.v3, t.unacked, t.retrying, t.log, t.results, Held(lim))
    requires Ordered(t.order, t.log)
    requires Stream(t.order, t.log, PendingReqs(t.pending, t.heap), hand, t.dataCh, t.accepted)
    requires Reported(t.order, t.log, t.results, t.callbacks)
    requires Permits(t.permits, t.callbacks, t.reserved, t.accepted)
    requires Retries(cfg, t.heap, t.log, t.results, t.retrying, t.writes, lim)
    requires Sizes(cfg, t.log, t.dataCh, t.reserved, hand)
    requires Events(t.log, t.doneCh, t.failedCh, t.retryCh)
    requires Stages(t.mode, t.phase, t.closes, t.dataCh, t.pending, t.unacked, t.retrying)
    requires Countdown(t.mode, t.phase, t.left, t.unacked, Held(lim))
    requires Hooks(t.heap, t.log, t.results, Waiting(t.mode, t.phase))
    requires Honest(cfg.v3, t.log, t.results, t.callbacks, t.writes, t.acks)
    ensures Core(cfg, t, lim, hand)
  {
  }

  lemma LeaveUnacked(cfg: Config, s: State, hand: seq<Message>, id: Id)
    requires Core(cfg, s, Nobody, hand) && id in s.unacked
    ensures Core(cfg, s.(unacked := s.unacked - {id}), Holding(id, true), hand)
  {
    var t := s.(unacked := s.unacked - {id});
    LeaveCount(s.unacked, id);
    LeaveUnackedMaps(cfg.v3, s.unacked, s.retrying, s.log, s.results, id);
    LeaveUnackedRetries(cfg, s, id);
  }

  lemma LeaveCount(m: map<Id, Ref>, id: Id)
    requires id in m
    ensures |m| == |m - {id}| + 1
  {
    assert (m - {id}).Keys == m.Keys - {id};
    assert m.Keys == (m - {id}).Keys + {id};
  }

  lemma EnterCount(m: map<Id, Ref>, id: Id, r: Ref)
    requires id !in m
    ensures |m[id := r]| == |m| + 1
  {
    assert m[id := r].Keys == m.Keys + {id};
  }

  lemma LeaveUnackedMaps(v3: bool, unacked: map<Id, Ref>, retrying: map<Id, Ref>, log: Log,
                         results: map<Id, Err>, id: Id)
    requires Maps(v3, unacked, retrying, log, results, {}) && id in unacked
    ensures Maps(v3, unacked - {id}, retrying, log, results, {id})
  {
  }

  lemma LeaveUnackedRetries(cfg: Config, s: State, id: Id)
    requires Maps(cfg.v3, s.unacked, s.retrying, s.log, s.results, {}) && id in s.unacked
    requires Retries(cfg, s.heap, s.log, s.results, s.retrying, s.writes, Nobody)
    ensures Retries(cfg, s.heap, s.log, s.results, s.retrying, s.writes, Holding(id, true))
  {
  }

  lemma LeaveRetrying(cfg: Config, s: State, hand: seq<Message>, id: Id)
    requires Core(cfg, s, Nobody, hand) && id in s.retrying
    ensures Core(cfg, s.(retrying := s.retrying - {id}), Holding(id, false), hand)
  {
    LeaveRetryingMaps(cfg.v3, s.unacked, s.retrying, s.log, s.results, id);
    LeaveRetryingRetries(cfg, s, id);
    Composed(cfg, s.(retrying := s.retrying - {id}), Holding(id, false), hand);
  }

  lemma LeaveRetryingMaps(v3: bool, unacked: map<Id, Ref>, retrying: map<Id, Ref>, log: Log,
                          results: map<Id, Err>, id: Id)
    requires Maps(v3, unacked, retrying, log, results, {}) && id in retrying
    ensures Maps(v3, unacked, retrying - {id}, log, results, {id})
  {
  }

  lemma LeaveRetryingRetries(cfg: Config, s: State, id: Id)
    requires Maps(cfg.v3, s.unacked, s.retrying, s.log, s.results, {}) && id in s.retrying
    requires Retries(cfg, s.heap, s.log, s.results, s.retrying, s.writes, Nobody)
    ensures Retries(cfg, s.heap, s.log, s.results, s.retrying - {id}, s.writes, Holding(id, false))
  {
  }

  // ----- a write, and where the batch goes after it

  lemma CountWriteKeepsCore(cfg: Config, s: State, hand: seq<Message>, id: Id)
    requires Core(cfg, s, Holding(id, false), hand)
    ensures Core(cfg, CountWrite(s, s.log[id].ref), Holding(id, true), hand)
  {
    var t := CountWrite(s, s.log[id].ref);
    assert t == s.(heap := t.heap, writes := t.writes);
    CountWriteObjects(cfg, s, id);
    CountWriteRetries(cfg, s, id);
    CountWriteHonest(cfg, s, id);
  }

  lemma CountWriteObjects(cfg: Config, s: State, id: Id)
    requires id in s.log && s.log[id].ref in s.heap && id !in s.results
    requires Objects(s.heap, s.free, s.log, s.results, s.usedIds)
    requires Pending(cfg, s.pending, s.heap, s.free, s.log, s.usedIds)
    requires Hooks(s.heap, s.log, s.results, Waiting(s.mode, s.phase))
    ensures var t := CountWrite(s, s.log[id].ref);
            && Objects(t.heap, t.free, t.log, t.results, t.usedIds)
            && Pending(cfg, t.pending, t.heap, t.free, t.log, t.usedIds)
            && PendingReqs(t.pending, t.heap) == PendingReqs(s.pending, s.heap)
            && Hooks(t.heap, t.log, t.results, Waiting(t.mode, t.phase))
  {
  }

  lemma CountWriteRetries(cfg: Config, s: State, id: Id)
    requires Objects(s.heap, s.free, s.log, s.results, s.usedIds)
    requires Maps(cfg.v3, s.unacked, s.retrying, s.log, s.results, {id})
    requires Retries(cfg, s.heap, s.log, s.results, s.retrying, s.writes, Holding(id, false))
    ensures var t := CountWrite(s, s.log[id].ref);
            Retries(cfg, t.heap, t.log, t.results, t.retrying, t.writes, Holding(id, true))
  {
  }

  lemma CountWriteHonest(cfg: Config, s: State, id: Id)
    requires id in s.log && s.log[id].ref in s.heap && s.heap[s.log[id].ref].id == id
    requires Honest(cfg.v3, s.log, s.results, s.callbacks, s.writes, s.acks)
    ensures var t := CountWrite(s, s.log[id].ref);
            Honest(cfg.v3, t.log, t.results, t.callbacks, t.writes, t.acks)
  {
  }

  lemma EnterUnacked(cfg: Config, s: State, hand: seq<Message>, id: Id)
    requires Core(cfg, s, Holding(id, true), hand) && cfg.v3
    ensures Core(cfg, s.(unacked := s.unacked[id := s.log[id].ref]), Nobody, hand)
  {
    var t := s.(unacked := s.unacked[id := s.log[id].ref]);
    EnterCount(s.unacked, id, s.log[id].ref);
    EnterUnackedMaps(s.unacked, s.retrying, s.log, s.results, id);
    EnterUnackedRetries(cfg, s, id);
  }

  lemma EnterUnackedMaps(unacked: map<Id, Ref>, retrying: map<Id, Ref>, log: Log, results: map<Id, Err>, id: Id)
    requires Maps(true, unacked, retrying, log, results, {id})
    ensures Maps(true, unacked[id := log[id].ref], retrying, log, results, {})
  {
  }

  lemma EnterUnackedRetries(cfg: Config, s: State, id: Id)
    requires Maps(cfg.v3, s.unacked, s.retrying, s.log, s.results, {id})
    requires Retries(cfg, s.heap, s.log, s.results, s.retrying, s.writes, Holding(id, true))
    ensures Retries(cfg, s.heap, s.log, s.results, s.retrying, s.writes, Nobody)
  {
  }

  /** The state after a batch has been put aside for another attempt. */
  function PutAside(s: State, id: Id): State
    requires id in s.log && s.log[id].ref in s.heap
  {
    var r := s.log[id].ref;
    s.(heap := s.heap[r := s.heap[r].(retries := s.heap[r].retries + 1)], retrying := s.retrying[id := r])
  }

  lemma EnterRetrying(cfg: Config, s: State, hand: seq<Message>, id: Id)
    requires Core(cfg, s, Holding(id, true), hand) && s.mode == Ready
    requires s.heap[s.log[id].ref].retries < cfg.maxRetries
    ensures Core(cfg, PutAside(s, id), Nobody, hand)
  {
    var t := PutAside(s, id);
    assert t == s.(heap := t.heap, retrying := t.retrying);
    EnterRetryingObjects(cfg, s, id);
    EnterRetryingMaps(cfg.v3, s, id);
    EnterRetryingRetries(cfg, s, id);
  }

  lemma EnterRetryingObjects(cfg: Config, s: State, id: Id)
    requires id in s.log && s.log[id].ref in s.heap && id !in s.results
    requires Objects(s.heap, s.free, s.log, s.results, s.usedIds)
    requires Pending(cfg, s.pending, s.heap, s.free, s.log, s.usedIds)
    requires Hooks(s.heap, s.log, s.results, Waiting(s.mode, s.phase))
    ensures var t := PutAside(s, id);
            && Objects(t.heap, t.free, t.log, t.results, t.usedIds)
            && Pending(cfg, t.pending, t.heap, t.free, t.log, t.usedIds)
            && PendingReqs(t.pending, t.heap) == PendingReqs(s.pending, s.heap)
            && Hooks(t.heap, t.log, t.results, Waiting(t.mode, t.phase))
  {
  }

  lemma EnterRetryingMaps(v3: bool, s: State, id: Id)
    requires id in s.log && s.log[id].ref in s.heap && s.mode == Ready
    requires Maps(v3, s.unacked, s.retrying, s.log, s.results, {id})
    requires Stages(s.mode, s.phase, s.closes, s.dataCh, s.pending, s.unacked, s.retrying)
    ensures var t := PutAside(s, id);
            && Maps(v3, t.unacked, t.retrying, t.log, t.results, {})
            && Stages(t.mode, t.phase, t.closes, t.dataCh, t.pending, t.unacked, t.retrying)
  {
  }

  lemma EnterRetryingRetries(cfg: Config, s: State, id: Id)
    requires id in s.log && s.log[id].ref in s.heap && id !in s.results
    requires Objects(s.heap, s.free, s.log, s.results, s.usedIds)
    requires Retries(cfg, s.heap, s.log, s.results, s.retrying, s.writes, Holding(id, true))
    requires s.heap[s.log[id].ref].retries < cfg.maxRetries
    requires id !in s.retrying
    ensures var t := PutAside(s, id);
            Retries(cfg, t.heap, t.log, t.results, t.retrying, t.writes, Nobody)
  {
  }

  // ----- the first send of the pending batch

  /** The stage of the shutdown handler after the pending batch has left. */
  predicate NextPhase(s: State, ph: Phase) {
    ph == s.phase || (s.phase == DrainData && s.dataCh == [] && ph == DrainDone(0))
  }

  /** The state after the pending batch has entered the history, `ph` being the next stage. */
  function Launched(s: State, ph: Phase): State
    requires s.pending.Some? && s.pending.value in s.heap
  {
    var b := s.heap[s.pending.value];
    s.(pending := None, phase := ph, order := s.order + [b.id], log := s.log[b.id := Entry(s.pending.value, b.reqs)])
  }

  lemma FirstSend(cfg: Config, s: State, hand: seq<Message>, ph: Phase)
    requires Core(cfg, s, Nobody, hand) && s.pending.Some? && NextPhase(s, ph)
    ensures Core(cfg, Launched(s, ph), Holding(s.heap[s.pending.value].id, false), hand)
  {
    FirstSendStages(s, ph);
    FirstSendObjects(cfg, s, ph);
    FirstSendStream(cfg, s, hand, ph);
    FirstSendRetries(cfg, s, ph);
    FirstSendRest(cfg, s, hand, ph);
    Composed(cfg, Launched(s, ph), Holding(s.heap[s.pending.value].id, false), hand);
  }

  lemma FirstSendStages(s: State, ph: Phase)
    requires Stages(s.mode, s.phase, s.closes, s.dataCh, s.pending, s.unacked, s.retrying)
    requires s.pending.Some? && s.pending.value in s.heap && NextPhase(s, ph)
    ensures var t := Launched(s, ph);
            && !Waiting(s.mode, s.phase) && !Waiting(t.mode, t.phase)
            && Stages(t.mode, t.phase, t.closes, t.dataCh, t.pending, t.unacked, t.retrying)
            && Countdown(t.mode, t.phase, t.left, t.unacked, {s.heap[s.pending.value].id})
  {
  }

  lemma FirstSendObjects(cfg: Config, s: State, ph: Phase)
    requires Objects(s.heap, s.free, s.log, s.results, s.usedIds)
    requires Pending(cfg, s.pending, s.heap, s.free, s.log, s.usedIds) && s.pending.Some?
    requires Maps(cfg.v3, s.unacked, s.retrying, s.log, s.results, {})
    requires Hooks(s.heap, s.log, s.results, false)
    ensures var t := Launched(s, ph);
            && Objects(t.heap, t.free, t.log, t.results, t.usedIds)
            && Maps(cfg.v3, t.unacked, t.retrying, t.log, t.results, {s.heap[s.pending.value].id})
            && Hooks(t.heap, t.log, t.results, false)
  {
  }

  lemma LaunchedStream(order: seq<Id>, log: Log, hand: seq<Message>, dataCh: seq<Message>,
                       accepted: seq<Message>, id: Id, e: Entry)
    requires Ordered(order, log) && id !in log
    requires Stream(order, log, e.msgs, hand, dataCh, accepted)
    ensures Ordered(order + [id], log[id := e])
    ensures Stream(order + [id], log[id := e], [], hand, dataCh, accepted)
  {
    assert id !in order;
    FlatAppend(order, log, log.Keys, id, e);
    assert log[id := e].Keys == log.Keys + {id};
    assert Flat(order, log, log.Keys) + e.msgs + [] == Flat(order, log, log.Keys) + e.msgs;
  }

  lemma LaunchedReported(order: seq<Id>, log: Log, results: map<Id, Err>, callbacks: seq<Callback>, id: Id, e: Entry)
    requires Ordered(order, log) && id !in log && results.Keys <= log.Keys
    requires Reported(order, log, results, callbacks)
    ensures Reported(order + [id], log[id := e], results, callbacks)
  {
    assert id !in order;
    FlatAppend(order, log, results.Keys, id, e);
  }

  lemma FirstSendStream(cfg: Config, s: State, hand: seq<Message>, ph: Phase)
    requires Pending(cfg, s.pending, s.heap, s.free, s.log, s.usedIds) && s.pending.Some?
    requires s.results.Keys <= s.log.Keys
    requires Ordered(s.order, s.log)
    requires Stream(s.order, s.log, PendingReqs(s.pending, s.heap), hand, s.dataCh, s.accepted)
    requires Reported(s.order, s.log, s.results, s.callbacks)
    ensures var t := Launched(s, ph);
            && Ordered(t.order, t.log)
            && Stream(t.order, t.log, PendingReqs(t.pending, t.heap), hand, t.dataCh, t.accepted)
            && Reported(t.order, t.log, t.results, t.callbacks)
  {
    var b := s.heap[s.pending.value];
    var e := Entry(s.pending.value, b.reqs);
    LaunchedStream(s.order, s.log, hand, s.dataCh, s.accepted, b.id, e);
    LaunchedReported(s.order, s.log, s.results, s.callbacks, b.id, e);
  }

  lemma FirstSendRetries(cfg: Config, s: State, ph: Phase)
    requires Pending(cfg, s.pending, s.heap, s.free, s.log, s.usedIds) && s.pending.Some?
    requires Maps(cfg.v3, s.unacked, s.retrying, s.log, s.results, {})
    requires Retries(cfg, s.heap, s.log, s.results, s.retrying, s.writes, Nobody)
    ensures var t := Launched(s, ph);
            Retries(cfg, t.heap, t.log, t.results, t.retrying, t.writes, Holding(s.heap[s.pending.value].id, false))
  {
  }

  lemma FirstSendRest(cfg: Config, s: State, hand: seq<Message>, ph: Phase)
    requires Pending(cfg, s.pending, s.heap, s.free, s.log, s.usedIds) && s.pending.Some?
    requires Sizes(cfg, s.log, s.dataCh, s.reserved, hand)
    requires Events(s.log, s.doneCh, s.failedCh, s.retryCh)
    requires Honest(cfg.v3, s.log, s.results, s.callbacks, s.writes, s.acks)
    ensures var t := Launched(s, ph);
            && Sizes(cfg, t.log, t.dataCh, t.reserved, hand)
            && Events(t.log, t.doneCh, t.failedCh, t.retryCh)
            && Honest(cfg.v3, t.log, t.results, t.callbacks, t.writes, t.acks)
  {
  }

  // ----- compositions

  /** Whoever asks for a batch to be completed, and however late: a batch that has already reported
      is left alone, whatever its object carries now; any other reports here, once. */
  lemma DoneEffect(cfg: Config, s: State, lim: Limbo, hand: seq<Message>, id: Id, r: Ref, err: Err)
    requires Core(cfg, s, lim, hand) && Names(s.log, id, r)
    ensures id in s.results ==> DoneBatch(s, id, r, err) == s
    ensures id !in s.results ==> DoneBatch(s, id, r, err) == Finished(s, id, err)
  {
    if id in s.results {
      DoneTwice(s, id, r, err);
    } else {
      DoneOnce(s, id, r, err);
    }
  }

  lemma DoneTwice(s: State, id: Id, r: Ref, err: Err)
    requires Names(s.log, id, r) && id in s.results && id !in s.unacked && id !in s.retrying && r in s.heap
    requires s.heap[r].id == id ==> s.heap[r].finished
    ensures DoneBatch(s, id, r, err) == s
  {
    assert s.unacked - {id} == s.unacked;
    assert s.retrying - {id} == s.retrying;
  }

  lemma DoneOnce(s: State, id: Id, r: Ref, err: Err)
    requires Names(s.log, id, r) && r in s.heap && s.heap[r].id == id && !s.heap[r].finished
    requires (id in s.unacked ==> s.unacked[id] == r) && (id in s.retrying ==> s.retrying[id] == r)
    ensures DoneBatch(s, id, r, err) == Finished(s, id, err)
  {
  }

  lemma DoneKeepsCore(cfg: Config, s: State, lim: Limbo, hand: seq<Message>, id: Id, r: Ref, err: Err)
    requires Core(cfg, s, lim, hand) && Names(s.log, id, r) && (lim.Nobody? || lim.id == id)
    requires err == Ok ==> Writes(s.writes, id) >= 1 && (cfg.v3 ==> id in s.acks)
    ensures Core(cfg, DoneBatch(s, id, r, err), Nobody, hand)
  {
    DoneEffect(cfg, s, lim, hand, id, r, err);
    if id !in s.results {
      FinishedKeepsCore(cfg, s, lim, hand, id, err);
    }
  }

  lemma BackoffEffect(cfg: Config, s: State, id: Id)
    requires id in s.log && s.log[id].ref in s.heap && s.heap[s.log[id].ref].id == id && id !in s.retrying
    ensures BackoffRetry(cfg, s, s.log[id].ref) ==
            if s.heap[s.log[id].ref].retries < cfg.maxRetries && s.mode == Ready
            then PutAside(s, id) else DoneBatch(s, id, s.log[id].ref, SendTimeout)
  {
  }

  lemma BackoffKeepsCore(cfg: Config, s: State, hand: seq<Message>, id: Id)
    requires Core(cfg, s, Holding(id, true), hand)
    ensures Core(cfg, BackoffRetry(cfg, s, s.log[id].ref), Nobody, hand)
  {
    BackoffEffect(cfg, s, id);
    if s.heap[s.log[id].ref].retries < cfg.maxRetries && s.mode == Ready {
      EnterRetrying(cfg, s, hand, id);
    } else {
      DoneKeepsCore(cfg, s, Holding(id, true), hand, id, s.log[id].ref, SendTimeout);
    }
  }

  lemma AfterWriteKeepsCore(cfg: Config, s: State, hand: seq<Message>, id: Id, retryOnFail: bool, w: Write)
    requires Core(cfg, s, Holding(id, true), hand)
    ensures Core(cfg, AfterWrite(cfg, s, s.log[id].ref, retryOnFail, w), Nobody, hand)
  {
    if w.Written? && cfg.v3 {
      EnterUnacked(cfg, s, hand, id);
    } else if !w.Written? && s.mode == Ready && retryOnFail {
      BackoffKeepsCore(cfg, s, hand, id);
    } else {
      DoneKeepsCore(cfg, s, Holding(id, true), hand, id, s.log[id].ref, if w.Written? then Ok else WriteFailed);
    }
  }

  lemma SendEffect(cfg: Config, s: State, id: Id, retryOnFail: bool, w: Write)
    requires id in s.log && s.log[id].ref in s.heap && s.heap[s.log[id].ref].id == id
    requires s.heap[s.log[id].ref].retries <= cfg.maxRetries
    ensures SendBatch(cfg, s, s.log[id].ref, retryOnFail, w) ==
            if !s.heap[s.log[id].ref].encoded && w.EncodeError?
            then DoneBatch(s, id, s.log[id].ref, EncodeFailed)
            else AfterWrite(cfg, CountWrite(s, s.log[id].ref), s.log[id].ref, retryOnFail, w)
  {
  }

  lemma SendKeepsCore(cfg: Config, s: State, hand: seq<Message>, id: Id, retryOnFail: bool, w: Write)
    requires Core(cfg, s, Holding(id, false), hand)
    ensures Core(cfg, SendBatch(cfg, s, s.log[id].ref, retryOnFail, w), Nobody, hand)
  {
    var r := s.log[id].ref;
    SendEffect(cfg, s, id, retryOnFail, w);
    if !s.heap[r].encoded && w.EncodeError? {
      DoneKeepsCore(cfg, s, Holding(id, false), hand, id, r, EncodeFailed);
    } else {
      CountWriteKeepsCore(cfg, s, hand, id);
      AfterWriteKeepsCore(cfg, CountWrite(s, r), hand, id, retryOnFail, w);
    }
  }

  lemma LaunchEffect(cfg: Config, s: State, ph: Phase, retryOnFail: bool, w: Write)
    requires s.pending.Some? && s.pending.value in s.heap && s.heap[s.pending.value].id !in s.log
    ensures SendBatch(cfg, s.(pending := None, phase := ph), s.pending.value, retryOnFail, w) ==
            SendBatch(cfg, Launched(s, ph), s.pending.value, retryOnFail, w)
  {
    var p := s.pending.value;
    var t := Launched(s, ph);
    assert Record(s.(pending := None, phase := ph), p) == t == Record(t, p);
  }

  lemma SendPendingKeepsCore(cfg: Config, s: State, hand: seq<Message>, ph: Phase, retryOnFail: bool, w: Write)
    requires Core(cfg, s, Nobody, hand) && s.pending.Some? && NextPhase(s, ph)
    ensures Core(cfg, SendBatch(cfg, s.(pending := None, phase := ph), s.pending.value, retryOnFail, w), Nobody, hand)
  {
    FirstSend(cfg, s, hand, ph);
    LaunchEffect(cfg, s, ph, retryOnFail, w);
    SendKeepsCore(cfg, Launched(s, ph), hand, s.heap[s.pending.value].id, retryOnFail, w);
  }
}
