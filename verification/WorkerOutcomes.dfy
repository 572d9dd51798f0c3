/** What becomes of a batch, step by step: where each handler puts it, what it reports, and why. The cases are
    those of the source, said of the fields before and after the step. */
module WorkerOutcomes {
  import opened Common
  import opened WorkerSpec
  import opened WorkerInvariant
  import opened WorkerMoves
  import opened WorkerSteps
  import opened WorkerRuns

  /** Where a batch is: it waits for its answer, it waits for its next attempt, or it has reported. `n` is the
      number of retries so far. */
  datatype Fate = Awaits(n: nat) | SetAside(n: nat) | Reports(err: Err)

  predicate At(t: State, id: Id, f: Fate) {
    && id in t.log
    && match f
       case Awaits(n) => id in t.unacked && id !in t.retrying && id !in t.results && Tried(t, id, n)
       case SetAside(n) => id in t.retrying && id !in t.unacked && id !in t.results && Tried(t, id, n)
       case Reports(err) => id in t.results && t.results[id] == err && id !in t.unacked && id !in t.retrying
  }

  predicate Tried(t: State, id: Id, n: nat)
    requires id in t.log
  {
    t.log[id].ref in t.heap && t.heap[t.log[id].ref].retries == n
  }

  /** One callback for each message of a batch, in order. */
  function Answers(ms: seq<Message>, id: Id, f: Fate): seq<Callback> {
    if f.Reports? then seq(|ms|, i requires 0 <= i < |ms| => Callback(ms[i], f.err, id)) else []
  }

  /** Every other batch is where it was, and its object is as it was. */
  ghost predicate Elsewhere(s: State, t: State, id: Id) {
    && (forall x :: x != id ==> (x in t.unacked <==> x in s.unacked) && (x in t.retrying <==> x in s.retrying))
    && (forall x :: x != id ==> (x in t.results <==> x in s.results) && (x in s.results ==> t.results[x] == s.results[x]))
    && (forall x :: x != id ==> (x in t.log <==> x in s.log) && (x in s.log ==> t.log[x] == s.log[x]))
    && (forall x :: x != id && x in s.log && x !in s.results ==>
          s.log[x].ref in s.heap && s.log[x].ref in t.heap && t.heap[s.log[x].ref] == s.heap[s.log[x].ref])
  }

  /** In this step the batch `id` with the messages `ms` has come to `f`, and nothing else has happened to any batch. */
  ghost predicate Comes(s: State, t: State, id: Id, ms: seq<Message>, f: Fate) {
    && At(t, id, f) && Elsewhere(s, t, id)
    && t.log[id].msgs == ms && (id in s.log ==> t.log[id] == s.log[id])
    && t.callbacks == s.callbacks + Answers(ms, id, f)
  }

  /** Nothing has happened to any batch. */
  predicate Quiet(s: State, t: State) {
    && t.unacked == s.unacked && t.retrying == s.retrying && t.results == s.results
    && t.log == s.log && t.callbacks == s.callbacks
  }

  // ----- the moves

  lemma FinishedFields(s: State, id: Id, err: Err)
    requires id in s.log && s.log[id].ref in s.heap
    requires var b := s.heap[s.log[id].ref]; !b.finished && b.id == id && b.reqs == s.log[id].msgs
    ensures var t, r := Finished(s, id, err), s.log[id].ref;
            && t.unacked == s.unacked - {id} && t.retrying == s.retrying - {id} && t.log == s.log
            && t.results == s.results[id := err] && t.heap == s.heap[r := t.heap[r]] && t.writes == s.writes
            && t.callbacks == s.callbacks + Answers(s.log[id].msgs, id, Reports(err))
  {
    var b := s.heap[s.log[id].ref];
    assert Callbacks(b, err) == Answers(s.log[id].msgs, id, Reports(err));
  }

  /** Two live batches have different objects. */
  lemma OwnObjects(heap: Heap, free: set<Ref>, log: Log, results: map<Id, Err>, usedIds: set<Id>, id: Id)
    requires Objects(heap, free, log, results, usedIds) && id in log && id !in results
    ensures log[id].ref in heap && heap[log[id].ref].id == id && !heap[log[id].ref].finished
    ensures heap[log[id].ref].reqs == log[id].msgs
    ensures forall x :: x in log && x !in results ==> log[x].ref in heap && (x != id ==> log[x].ref != log[id].ref)
  {
  }

  lemma FinishedComes(s: State, id: Id, err: Err)
    requires Objects(s.heap, s.free, s.log, s.results, s.usedIds) && id in s.log && id !in s.results
    ensures Comes(s, Finished(s, id, err), id, s.log[id].msgs, Reports(err))
  {
    OwnObjects(s.heap, s.free, s.log, s.results, s.usedIds, id);
    FinishedFields(s, id, err);
  }

  lemma AsideComes(s: State, id: Id)
    requires Objects(s.heap, s.free, s.log, s.results, s.usedIds) && id in s.log && id !in s.results && id !in s.unacked
    ensures Comes(s, PutAside(s, id), id, s.log[id].msgs, SetAside(s.heap[s.log[id].ref].retries + 1))
  {
    OwnObjects(s.heap, s.free, s.log, s.results, s.usedIds, id);
  }

  lemma WrittenComes(s: State, id: Id)
    requires Objects(s.heap, s.free, s.log, s.results, s.usedIds) && id in s.log && id !in s.results && id !in s.retrying
    ensures Comes(s, s.(unacked := s.unacked[id := s.log[id].ref]), id, s.log[id].msgs, Awaits(s.heap[s.log[id].ref].retries))
  {
    OwnObjects(s.heap, s.free, s.log, s.results, s.usedIds, id);
  }

  // ----- an attempt to send

  /** What an attempt comes to, `n` being the retries before it, and `encoded` whether the batch has been encoded for
      an earlier one. */
  predicate Sends(cfg: Config, ready: bool, n: nat, encoded: bool, retryOnFail: bool, w: Write, f: Fate) {
    && (w.Written? ==> f == if cfg.v3 then Awaits(n) else Reports(Ok))
    && (w.EncodeError? && !encoded ==> f == Reports(EncodeFailed))
    && (w.WriteError? || (w.EncodeError? && encoded) ==>
          && (ready && retryOnFail && n < cfg.maxRetries ==> f == SetAside(n + 1))
          && (ready && retryOnFail && n >= cfg.maxRetries ==> f == Reports(SendTimeout))
          && (!ready || !retryOnFail ==> f == Reports(WriteFailed)))
  }

  lemma DoneComes(cfg: Config, s: State, lim: Limbo, hand: seq<Message>, id: Id, r: Ref, err: Err)
    requires Core(cfg, s, lim, hand) && Names(s.log, id, r) && id !in s.results
    ensures Comes(s, DoneBatch(s, id, r, err), id, s.log[id].msgs, Reports(err))
  {
    DoneEffect(cfg, s, lim, hand, id, r, err);
    FinishedComes(s, id, err);
  }

  lemma BackoffComes(cfg: Config, s: State, hand: seq<Message>, id: Id) returns (f: Fate)
    requires Core(cfg, s, Holding(id, true), hand)
    ensures Comes(s, BackoffRetry(cfg, s, s.log[id].ref), id, s.log[id].msgs, f)
    ensures var n := s.heap[s.log[id].ref].retries;
            f == if s.mode == Ready && n < cfg.maxRetries then SetAside(n + 1) else Reports(SendTimeout)
  {
    var n := s.heap[s.log[id].ref].retries;
    BackoffEffect(cfg, s, id);
    if s.mode == Ready && n < cfg.maxRetries {
      AsideComes(s, id);
      f := SetAside(n + 1);
    } else {
      DoneComes(cfg, s, Holding(id, true), hand, id, s.log[id].ref, SendTimeout);
      f := Reports(SendTimeout);
    }
  }

  lemma AfterWriteComes(cfg: Config, s: State, hand: seq<Message>, id: Id, retryOnFail: bool, w: Write) returns (f: Fate)
    requires Core(cfg, s, Holding(id, true), hand)
    ensures Comes(s, AfterWrite(cfg, s, s.log[id].ref, retryOnFail, w), id, s.log[id].msgs, f)
    ensures Sends(cfg, s.mode == Ready, s.heap[s.log[id].ref].retries, true, retryOnFail, w, f)
  {
    if w.Written? && cfg.v3 {
      WrittenComes(s, id);
      f := Awaits(s.heap[s.log[id].ref].retries);
    } else if !w.Written? && s.mode == Ready && retryOnFail {
      f := BackoffComes(cfg, s, hand, id);
    } else {
      f := Reports(if w.Written? then Ok else WriteFailed);
      DoneComes(cfg, s, Holding(id, true), hand, id, s.log[id].ref, f.err);
    }
  }

  /** A state that differs from another one only in what concerns `id`. */
  ghost predicate Prepares(s: State, u: State, id: Id) {
    Elsewhere(s, u, id) && u.callbacks == s.callbacks && (id in s.log ==> id in u.log && u.log[id] == s.log[id])
  }

  lemma ComesFrom(s: State, u: State, t: State, id: Id, ms: seq<Message>, f: Fate)
    requires Prepares(s, u, id) && Comes(u, t, id, ms, f)
    ensures Comes(s, t, id, ms, f)
  {
  }

  lemma CountWriteLeads(s: State, id: Id)
    requires Objects(s.heap, s.free, s.log, s.results, s.usedIds) && id in s.log && id !in s.results
    ensures Prepares(s, CountWrite(s, s.log[id].ref), id)
  {
    OwnObjects(s.heap, s.free, s.log, s.results, s.usedIds, id);
  }

  lemma SendComes(cfg: Config, s: State, hand: seq<Message>, id: Id, retryOnFail: bool, w: Write) returns (f: Fate)
    requires Core(cfg, s, Holding(id, false), hand)
    ensures Comes(s, SendBatch(cfg, s, s.log[id].ref, retryOnFail, w), id, s.log[id].msgs, f)
    ensures var b := s.heap[s.log[id].ref]; Sends(cfg, s.mode == Ready, b.retries, b.encoded, retryOnFail, w, f)
  {
    var r := s.log[id].ref;
    SendEffect(cfg, s, id, retryOnFail, w);
    if !s.heap[r].encoded && w.EncodeError? {
      DoneComes(cfg, s, Holding(id, false), hand, id, r, EncodeFailed);
      f := Reports(EncodeFailed);
    } else {
      f := WriteComes(cfg, s, hand, id, retryOnFail, w);
    }
  }

  lemma WriteComes(cfg: Config, s: State, hand: seq<Message>, id: Id, retryOnFail: bool, w: Write) returns (f: Fate)
    requires Core(cfg, s, Holding(id, false), hand)
    ensures var r := s.log[id].ref; Comes(s, AfterWrite(cfg, CountWrite(s, r), r, retryOnFail, w), id, s.log[id].msgs, f)
    ensures Sends(cfg, s.mode == Ready, s.heap[s.log[id].ref].retries, true, retryOnFail, w, f)
  {
    var u := CountWrite(s, s.log[id].ref);
    CountWriteKeepsCore(cfg, s, hand, id);
    f := AfterWriteComes(cfg, u, hand, id, retryOnFail, w);
    CountWriteLeads(s, id);
    ComesFrom(s, u, AfterWrite(cfg, u, s.log[id].ref, retryOnFail, w), id, s.log[id].msgs, f);
  }

  // ----- the steps

  /** The same batches in the same places. */
  predicate SameBatches(s: State, u: State) {
    Quiet(s, u) && u.heap == s.heap
  }

  lemma SamePrepares(cfg: Config, s: State, u: State, id: Id)
    requires Objects(s.heap, s.free, s.log, s.results, s.usedIds) && SameBatches(s, u)
    ensures Prepares(s, u, id)
  {
  }

  /** The state in which a response has been seen. */
  function Seen(s: State, rsp: Rsp): State {
    if rsp.code == 0 then s.(acks := s.acks + {rsp.id}) else s
  }

  lemma RspEffect(cfg: Config, s: State, rsp: Rsp)
    requires Maps(cfg.v3, s.unacked, s.retrying, s.log, s.results, {})
    ensures rsp.id !in Live(s) ==> HandleRsp(s, rsp) == Seen(s, rsp)
    ensures rsp.id in Live(s) ==>
              HandleRsp(s, rsp) == DoneBatch(Seen(s, rsp), rsp.id, s.log[rsp.id].ref, if rsp.code == 0 then Ok else ServerError)
  {
    PlacesPartition(cfg.v3, s.unacked, s.retrying, s.log, s.results);
  }

  lemma SeenKeepsInv(cfg: Config, s: State, rsp: Rsp)
    requires Inv(cfg, s)
    ensures Inv(cfg, Seen(s, rsp))
  {
    if rsp.code == 0 {
      AckKeepsInv(cfg, s, rsp.id);
      assert Seen(s, rsp) == s.(acks := s.acks + {rsp.id});
    }
  }

  lemma SeenSameBatches(s: State, rsp: Rsp)
    ensures SameBatches(s, Seen(s, rsp))
  {
  }

  lemma RspComes(cfg: Config, s: State, rsp: Rsp)
    requires Inv(cfg, s)
    ensures if rsp.id in Live(s)
            then Comes(s, HandleRsp(s, rsp), rsp.id, s.log[rsp.id].msgs, Reports(if rsp.code == 0 then Ok else ServerError))
            else SameBatches(s, HandleRsp(s, rsp))
  {
    var u, err := Seen(s, rsp), if rsp.code == 0 then Ok else ServerError;
    RspEffect(cfg, s, rsp);
    SeenKeepsInv(cfg, s, rsp);
    SeenSameBatches(s, rsp);
    if rsp.id in Live(s) {
      DoneComes(cfg, u, Nobody, [], rsp.id, s.log[rsp.id].ref, err);
      SamePrepares(cfg, s, u, rsp.id);
      ComesFrom(s, u, HandleRsp(s, rsp), rsp.id, s.log[rsp.id].msgs, Reports(err));
    }
  }

  /** Taking an event out of a channel concerns no batch. */
  lemma Unqueued(cfg: Config, s: State, u: State, t: State, id: Id, ms: seq<Message>, f: Fate)
    requires Objects(s.heap, s.free, s.log, s.results, s.usedIds) && SameBatches(s, u) && Comes(u, t, id, ms, f)
    ensures Comes(s, t, id, ms, f)
  {
    SamePrepares(cfg, s, u, id);
    ComesFrom(s, u, t, id, ms, f);
  }

  lemma RspStep(cfg: Config, s: State)
    requires Inv(cfg, s) && Refs(s) && CanHandle(cfg, s, RecvRsp)
    ensures var rsp, t := s.rspCh[0], ApplyHandler(cfg, s, RecvRsp);
            if rsp.id in Live(s)
            then Comes(s, t, rsp.id, s.log[rsp.id].msgs, Reports(if rsp.code == 0 then Ok else ServerError))
            else SameBatches(s, t)
  {
    var rsp, u := s.rspCh[0], s.(rspCh := s.rspCh[1..]);
    Rechannel(cfg, s, s.doneCh, s.failedCh, s.retryCh, s.rspCh[1..], s.phase);
    RspComes(cfg, u, rsp);
    if rsp.id in Live(s) {
      Unqueued(cfg, s, u, HandleRsp(u, rsp), rsp.id, s.log[rsp.id].msgs, Reports(if rsp.code == 0 then Ok else ServerError));
    }
  }

  lemma TimeoutStep(cfg: Config, s: State, id: Id)
    requires Inv(cfg, s) && Refs(s) && CanHandle(cfg, s, TickSend(id))
    ensures var t, n := ApplyHandler(cfg, s, TickSend(id)), s.heap[s.unacked[id]].retries;
            && id in s.log
            && Comes(s, t, id, s.log[id].msgs, if s.mode == Ready && n < cfg.maxRetries then SetAside(n + 1) else Reports(SendTimeout))
  {
    var u := s.(unacked := s.unacked - {id});
    LeaveUnacked(cfg, s, [], id);
    var f := BackoffComes(cfg, u, [], id);
    LeaveLeads(s, id);
    ComesFrom(s, u, BackoffRetry(cfg, u, s.unacked[id]), id, s.log[id].msgs, f);
  }

  lemma FailedComes(cfg: Config, s: State, e: FailedReq)
    requires Inv(cfg, s) && Refs(s) && cfg.v3 && Names(s.log, e.id, e.ref)
    ensures if e.id in s.unacked
            then
              var n := s.heap[s.unacked[e.id]].retries;
              Comes(s, HandleSendFailed(cfg, s, e), e.id, s.log[e.id].msgs,
                    if !e.retry || s.mode != Ready then Reports(WriteFailed)
                    else if n < cfg.maxRetries then SetAside(n + 1)
                    else Reports(SendTimeout))
            else HandleSendFailed(cfg, s, e) == s
  {
    if e.id in s.unacked {
      var u := s.(unacked := s.unacked - {e.id});
      OwnObjects(s.heap, s.free, s.log, s.results, s.usedIds, e.id);
      LeaveUnacked(cfg, s, [], e.id);
      LeaveLeads(s, e.id);
      var f: Fate;
      if e.retry && s.mode == Ready {
        f := BackoffComes(cfg, u, [], e.id);
      } else {
        f := Reports(WriteFailed);
        DoneComes(cfg, u, Holding(e.id, true), [], e.id, e.ref, WriteFailed);
      }
      ComesFrom(s, u, HandleSendFailed(cfg, s, e), e.id, s.log[e.id].msgs, f);
    }
  }

  lemma LeaveLeads(s: State, id: Id)
    requires Objects(s.heap, s.free, s.log, s.results, s.usedIds)
    ensures Prepares(s, s.(unacked := s.unacked - {id}), id) && Prepares(s, s.(retrying := s.retrying - {id}), id)
  {
  }

  lemma FailedStep(cfg: Config, s: State)
    requires Inv(cfg, s) && Refs(s) && CanHandle(cfg, s, RecvFailed)
    ensures var e, t := s.failedCh[0], ApplyHandler(cfg, s, RecvFailed);
            if e.id in s.unacked
            then
              var n := s.heap[s.unacked[e.id]].retries;
              && e.id in s.log
              && Comes(s, t, e.id, s.log[e.id].msgs,
                       if !e.retry || s.mode != Ready then Reports(WriteFailed)
                       else if n < cfg.maxRetries then SetAside(n + 1)
                       else Reports(SendTimeout))
            else SameBatches(s, t)
  {
    var e, u := s.failedCh[0], s.(failedCh := s.failedCh[1..]);
    Pops(s.failedCh);
    Rechannel(cfg, s, s.doneCh, s.failedCh[1..], s.retryCh, s.rspCh, s.phase);
    FailedComes(cfg, u, e);
    if e.id in s.unacked {
      var n := s.heap[s.unacked[e.id]].retries;
      Unqueued(cfg, s, u, HandleSendFailed(cfg, u, e), e.id, s.log[e.id].msgs,
               if !e.retry || s.mode != Ready then Reports(WriteFailed)
               else if n < cfg.maxRetries then SetAside(n + 1)
               else Reports(SendTimeout));
    }
  }

  /** A completion request, received in the event loop or by the shutdown handler. */
  lemma DoneStep(cfg: Config, s: State, ph: Phase)
    requires Inv(cfg, s) && s.doneCh != [] && (ph == s.phase || (PastData(s.phase) && PastData(ph)))
    ensures var e, t := s.doneCh[0], TakeDone(s, ph);
            if e.id in Live(s) then Comes(s, t, e.id, s.log[e.id].msgs, Reports(e.err)) else SameBatches(s, t)
  {
    var e, u := s.doneCh[0], s.(doneCh := s.doneCh[1..], phase := ph);
    Pops(s.doneCh);
    Rechannel(cfg, s, s.doneCh[1..], s.failedCh, s.retryCh, s.rspCh, ph);
    if e.id in Live(s) {
      DoneComes(cfg, u, Nobody, [], e.id, e.ref, e.err);
      Unqueued(cfg, s, u, TakeDone(s, ph), e.id, s.log[e.id].msgs, Reports(e.err));
    } else {
      DoneEffect(cfg, u, Nobody, [], e.id, e.ref, e.err);
    }
  }

  lemma ResendComes(cfg: Config, s: State, id: Id, retryOnFail: bool, w: Write) returns (f: Fate)
    requires Inv(cfg, s) && Refs(s) && id in s.retrying
    ensures id in s.log
    ensures var t := SendBatch(cfg, s.(retrying := s.retrying - {id}), s.retrying[id], retryOnFail, w);
            Comes(s, t, id, s.log[id].msgs, f)
    ensures var b := s.heap[s.retrying[id]]; Sends(cfg, s.mode == Ready, b.retries, b.encoded, retryOnFail, w, f)
  {
    var u := s.(retrying := s.retrying - {id});
    LeaveRetrying(cfg, s, [], id);
    LeaveLeads(s, id);
    f := SendComes(cfg, u, [], id, retryOnFail, w);
    ComesFrom(s, u, SendBatch(cfg, u, s.retrying[id], retryOnFail, w), id, s.log[id].msgs, f);
  }

  /** A retry request, received in the event loop or by the shutdown handler. */
  lemma RetryStep(cfg: Config, s: State, ph: Phase, retryOnFail: bool, w: Write) returns (f: Fate)
    requires Inv(cfg, s) && Refs(s) && s.retryCh != [] && (ph == s.phase || (PastData(s.phase) && PastData(ph)))
    ensures var e, t := s.retryCh[0], TakeRetry(cfg, s, ph, retryOnFail, w);
            if e.id in s.retrying
            then
              var b := s.heap[s.retrying[e.id]];
              && e.id in s.log && Comes(s, t, e.id, s.log[e.id].msgs, f)
              && Sends(cfg, s.mode == Ready, b.retries, b.encoded, retryOnFail, w, f)
            else SameBatches(s, t)
  {
    var e, u := s.retryCh[0], s.(retryCh := s.retryCh[1..], phase := ph);
    Pops(s.retryCh);
    Rechannel(cfg, s, s.doneCh, s.failedCh, s.retryCh[1..], s.rspCh, ph);
    f := RetryComes(cfg, u, e, retryOnFail, w);
    if e.id in s.retrying {
      Unqueued(cfg, s, u, HandleRetry(cfg, u, e, retryOnFail, w), e.id, s.log[e.id].msgs, f);
    }
  }

  lemma RetryComes(cfg: Config, s: State, e: RetryReq, retryOnFail: bool, w: Write) returns (f: Fate)
    requires Inv(cfg, s) && Refs(s) && Names(s.log, e.id, e.ref)
    ensures var t := HandleRetry(cfg, s, e, retryOnFail, w);
            if e.id in s.retrying
            then
              var b := s.heap[s.retrying[e.id]];
              Comes(s, t, e.id, s.log[e.id].msgs, f) && Sends(cfg, s.mode == Ready, b.retries, b.encoded, retryOnFail, w, f)
            else t == s
  {
    f := Awaits(0);
    if e.id in s.retrying {
      f := ResendComes(cfg, s, e.id, retryOnFail, w);
    }
  }

  /** The pending batch leaves. */
  lemma LaunchComes(cfg: Config, s: State, hand: seq<Message>, ph: Phase, retryOnFail: bool, w: Write) returns (f: Fate)
    requires Core(cfg, s, Nobody, hand) && s.pending.Some? && NextPhase(s, ph)
    ensures var b := s.heap[s.pending.value];
            var t := SendBatch(cfg, s.(pending := None, phase := ph), s.pending.value, retryOnFail, w);
            && Comes(s, t, b.id, b.reqs, f) && b.id !in s.log && t.pending == None
            && Sends(cfg, s.mode == Ready, 0, false, retryOnFail, w, f)
  {
    var b, u := s.heap[s.pending.value], Launched(s, ph);
    FirstSend(cfg, s, hand, ph);
    LaunchEffect(cfg, s, ph, retryOnFail, w);
    f := SendComes(cfg, u, hand, b.id, retryOnFail, w);
    LaunchedLeads(cfg, s, ph);
    ComesFrom(s, u, SendBatch(cfg, u, s.pending.value, retryOnFail, w), b.id, b.reqs, f);
  }

  lemma LaunchedLeads(cfg: Config, s: State, ph: Phase)
    requires Objects(s.heap, s.free, s.log, s.results, s.usedIds)
    requires s.pending.Some? && s.pending.value in s.heap && s.heap[s.pending.value].id !in s.log
    ensures Prepares(s, Launched(s, ph), s.heap[s.pending.value].id)
  {
  }

  // ----- a message arrives

  /** The message would make the pending datagram too long. */
  predicate Overflows(cfg: Config, reqs: seq<Message>, m: Message) {
    cfg.udp && reqs != [] && m.size + TotalSize(reqs) > (if cfg.v3 then MAX_UDP_REQ_SIZE_V3 else MAX_UDP_REQ_SIZE_V1)
  }

  /** The batch does not wait for another message after `m`. */
  predicate Leaves(cfg: Config, reqs: seq<Message>, m: Message) {
    m.flush || |reqs| >= cfg.maxMessages || TotalSize(reqs) >= cfg.maxSize
  }

  lemma FlushComes(cfg: Config, s: State, m: Message, w: Write) returns (f: Fate)
    requires Core(cfg, s, Nobody, [m]) && Refs(s)
    ensures var t := FlushIfFull(cfg, s, m, w);
            if Overflows(cfg, PendingReqs(s.pending, s.heap), m)
            then
              var b := s.heap[s.pending.value];
              && Comes(s, t, b.id, b.reqs, f) && b.id !in s.log && t.pending == None
              && Sends(cfg, s.mode == Ready, 0, false, true, w, f)
            else t == s
  {
    f := Awaits(0);
    if Overflows(cfg, PendingReqs(s.pending, s.heap), m) {
      f := LaunchComes(cfg, s, [m], s.phase, true, w);
      assert s.(pending := None, phase := s.phase) == s.(pending := None);
    }
  }

  /** An object of no sent batch changes. */
  lemma ObjectLeads(s: State, u: State, r: Ref, id: Id)
    requires Objects(s.heap, s.free, s.log, s.results, s.usedIds) && Quiet(s, u)
    requires r in u.heap && u.heap == s.heap[r := u.heap[r]]
    requires forall x :: x in s.log && x !in s.results ==> s.log[x].ref != r
    ensures Prepares(s, u, id)
  {
  }

  lemma AppendLeads(cfg: Config, s: State, m: Message)
    requires Objects(s.heap, s.free, s.log, s.results, s.usedIds)
    requires Pending(cfg, s.pending, s.heap, s.free, s.log, s.usedIds) && s.pending.Some?
    ensures Prepares(s, Append(s, m), s.heap[s.pending.value].id)
  {
    ObjectLeads(s, Append(s, m), s.pending.value, s.heap[s.pending.value].id);
  }

  lemma StartLeads(s: State, m: Message, r: Ref, id: Id)
    requires Objects(s.heap, s.free, s.log, s.results, s.usedIds) && CanAlloc(s, r) && id !in s.usedIds
    ensures Prepares(s, Append(NewBatch(s, r, id), m), id)
  {
    ObjectTaken(s.heap, s.free, s.log, s.results, s.usedIds, r, Singleton(id, m));
    StartEffect(s, m, r, id);
    ObjectLeads(s, Append(NewBatch(s, r, id), m), r, id);
  }

  /** The batch that takes the message. */
  lemma Taken(cfg: Config, s: State, m: Message, r: Ref, id: Id) returns (u: State, batch: Id)
    requires cfg.Supported() && Core(cfg, s, Nobody, [m]) && Room(cfg, s) && GoodMessage(cfg, m)
    requires s.pending.Some? && cfg.udp ==> m.size + s.heap[s.pending.value].dataSize <= cfg.UdpLimit()
    requires CanAlloc(s, r) && id !in s.usedIds && (s.mode == Ready || s.phase == DrainData)
    ensures u == Joined(s, m, r, id)
    ensures Core(cfg, u, Nobody, []) && u.pending.Some? && u.mode == s.mode && u.dataCh == s.dataCh && Prepares(s, u, batch)
    ensures batch == u.heap[u.pending.value].id == if s.pending.Some? then s.heap[s.pending.value].id else id
    ensures u.heap[u.pending.value].reqs == PendingReqs(s.pending, s.heap) + [m]
  {
    u := Joined(s, m, r, id);
    if s.pending.Some? {
      AppendKeepsCore(cfg, s, m);
      AppendLeads(cfg, s, m);
      batch := s.heap[s.pending.value].id;
    } else {
      StartKeepsCore(cfg, s, m, r, id);
      StartLeads(s, m, r, id);
      batch := id;
    }
  }

  lemma EnlistComes(cfg: Config, s: State, m: Message, r: Ref, id: Id, w: Write) returns (batch: Id, f: Fate)
    requires cfg.Supported() && Core(cfg, s, Nobody, [m]) && Room(cfg, s) && GoodMessage(cfg, m)
    requires s.pending.Some? && cfg.udp ==> m.size + s.heap[s.pending.value].dataSize <= cfg.UdpLimit()
    requires CanAlloc(s, r) && id !in s.usedIds && (s.mode == Ready || s.phase == DrainData)
    ensures batch == if s.pending.Some? then s.heap[s.pending.value].id else id
    ensures var t, reqs := Enlist(cfg, s, m, r, id, w), PendingReqs(s.pending, s.heap) + [m];
            if Leaves(cfg, reqs, m)
            then Comes(s, t, batch, reqs, f) && t.pending == None && Sends(cfg, s.mode == Ready, 0, false, true, w, f)
            else Prepares(s, t, batch) && IsPending(t, batch, reqs)
  {
    var u;
    u, batch := Taken(cfg, s, m, r, id);
    f := DispatchComes(cfg, u, m, w);
    if Leaves(cfg, PendingReqs(s.pending, s.heap) + [m], m) {
      ComesFrom(s, u, Dispatched(cfg, u, m, w), batch, PendingReqs(s.pending, s.heap) + [m], f);
    }
    EnlistEffect(cfg, s, m, r, id, w);
  }

  /** The second half of taking a message. */
  function Dispatched(cfg: Config, u: State, m: Message, w: Write): State
    requires u.pending.Some? && u.pending.value in u.heap
  {
    if KeepWaiting(cfg, u.heap[u.pending.value], m) then u
    else SendBatch(cfg, u.(pending := None), u.pending.value, true, w)
  }

  /** The first half. */
  function Joined(s: State, m: Message, r: Ref, id: Id): (u: State)
    requires s.pending.Some? ==> s.pending.value in s.heap
    ensures u.pending.Some? && u.pending.value in u.heap
  {
    Append(if s.pending.Some? then s else NewBatch(s, r, id), m)
  }

  lemma EnlistEffect(cfg: Config, s: State, m: Message, r: Ref, id: Id, w: Write)
    requires s.pending.Some? ==> s.pending.value in s.heap
    ensures Enlist(cfg, s, m, r, id, w) == Dispatched(cfg, Joined(s, m, r, id), m, w)
  {
  }

  lemma DispatchComes(cfg: Config, u: State, m: Message, w: Write) returns (f: Fate)
    requires Core(cfg, u, Nobody, []) && u.pending.Some?
    ensures var b, t := u.heap[u.pending.value], Dispatched(cfg, u, m, w);
            if Leaves(cfg, b.reqs, m)
            then Comes(u, t, b.id, b.reqs, f) && t.pending == None && Sends(cfg, u.mode == Ready, 0, false, true, w, f)
            else t == u && IsPending(t, b.id, b.reqs)
  {
    f := Awaits(0);
    if Leaves(cfg, u.heap[u.pending.value].reqs, m) {
      f := LaunchComes(cfg, u, [], u.phase, true, w);
      assert u.(pending := None, phase := u.phase) == u.(pending := None);
    }
  }

  /** The pending batch, which nobody has tried to send. */
  predicate IsPending(t: State, id: Id, reqs: seq<Message>) {
    && t.pending.Some? && t.pending.value in t.heap && id !in t.log
    && t.heap[t.pending.value].id == id && t.heap[t.pending.value].reqs == reqs
  }

  /** Two batches may be concerned when a message arrives: one that leaves before it, and the one that takes it. */
  ghost predicate ElsewhereTwo(s: State, t: State, a: Id, b: Id) {
    && (forall x :: x != a && x != b ==> (x in t.unacked <==> x in s.unacked) && (x in t.retrying <==> x in s.retrying))
    && (forall x :: x != a && x != b ==> (x in t.results <==> x in s.results) && (x in s.results ==> t.results[x] == s.results[x]))
    && (forall x :: x != a && x != b ==> (x in t.log <==> x in s.log) && (x in s.log ==> t.log[x] == s.log[x]))
  }

  lemma ElsewhereOne(s: State, t: State, a: Id, b: Id)
    requires Elsewhere(s, t, b)
    ensures ElsewhereTwo(s, t, a, b)
  {
  }

  lemma ElsewhereBoth(s: State, u: State, t: State, a: Id, b: Id)
    requires Elsewhere(s, u, a) && Elsewhere(u, t, b)
    ensures ElsewhereTwo(s, t, a, b)
  {
  }

  lemma AtStays(u: State, t: State, a: Id, b: Id, f: Fate)
    requires At(u, a, f) && Elsewhere(u, t, b) && a != b
    ensures At(t, a, f) && t.log[a] == u.log[a]
  {
  }

  /** What has become of the pending batch that had to leave before `m`. */
  ghost predicate LeftBefore(cfg: Config, s: State, t: State, id: Id, reqs: seq<Message>, w: Write, f: Fate) {
    At(t, id, f) && t.log[id].msgs == reqs && id !in s.log && Sends(cfg, s.mode == Ready, 0, false, true, w, f)
  }

  /** What has become of the batch that took `m`. */
  ghost predicate Took(cfg: Config, s: State, t: State, id: Id, reqs: seq<Message>, m: Message, w: Write, f: Fate) {
    if Leaves(cfg, reqs, m)
    then t.pending == None && At(t, id, f) && t.log[id].msgs == reqs && Sends(cfg, s.mode == Ready, 0, false, true, w, f)
    else IsPending(t, id, reqs)
  }

  function AnswersIf(b: bool, ms: seq<Message>, id: Id, f: Fate): seq<Callback> {
    if b then Answers(ms, id, f) else []
  }

  /** The message joins the pending batch, or is the first of a new one. */
  lemma JoinStep(cfg: Config, s: State, u: State, r: Ref, id: Id, w: Write) returns (f: Fate)
    requires Inv(cfg, s) && Refs(s) && s.dataCh != [] && (s.phase == Loop || s.phase == DrainData)
    requires u == s.(dataCh := s.dataCh[1..]) && !Overflows(cfg, PendingReqs(s.pending, s.heap), s.dataCh[0])
    requires CanAlloc(u, r) && id !in s.usedIds
    ensures var m, reqs := s.dataCh[0], PendingReqs(s.pending, s.heap) + [s.dataCh[0]];
            var t, batch := Enlist(cfg, u, m, r, id, w), if s.pending.Some? then s.heap[s.pending.value].id else id;
            && Took(cfg, s, t, batch, reqs, m, w, f) && Elsewhere(s, t, batch)
            && t.callbacks == s.callbacks + AnswersIf(Leaves(cfg, reqs, m), reqs, batch, f)
  {
    var m := s.dataCh[0];
    PopData(cfg, s);
    var batch;
    batch, f := EnlistComes(cfg, u, m, r, id, w);
    Arrives(cfg, s, u, Enlist(cfg, u, m, r, id, w), batch, PendingReqs(s.pending, s.heap) + [m], m, w, f);
  }

  lemma Arrives(cfg: Config, s: State, u: State, t: State, id: Id, reqs: seq<Message>, m: Message, w: Write, f: Fate)
    requires Objects(s.heap, s.free, s.log, s.results, s.usedIds) && SameBatches(s, u) && u.mode == s.mode
    requires if Leaves(cfg, reqs, m)
             then Comes(u, t, id, reqs, f) && t.pending == None && Sends(cfg, u.mode == Ready, 0, false, true, w, f)
             else Prepares(u, t, id) && IsPending(t, id, reqs)
    ensures Took(cfg, s, t, id, reqs, m, w, f) && Elsewhere(s, t, id)
    ensures t.callbacks == s.callbacks + AnswersIf(Leaves(cfg, reqs, m), reqs, id, f)
  {
    SamePrepares(cfg, s, u, id);
    if Leaves(cfg, reqs, m) {
      ComesFrom(s, u, t, id, reqs, f);
    } else {
      PreparesOn(s, u, t, id);
    }
  }

  lemma PreparesOn(s: State, u: State, t: State, id: Id)
    requires Prepares(s, u, id) && Prepares(u, t, id)
    ensures Prepares(s, t, id)
  {
  }

  lemma FlushStep(cfg: Config, s: State, w: Write) returns (f: Fate)
    requires Inv(cfg, s) && Refs(s) && s.dataCh != [] && (s.phase == Loop || s.phase == DrainData)
    requires Overflows(cfg, PendingReqs(s.pending, s.heap), s.dataCh[0])
    ensures var b, u := s.heap[s.pending.value], FlushIfFull(cfg, s.(dataCh := s.dataCh[1..]), s.dataCh[0], w);
            && Comes(s, u, b.id, b.reqs, f) && b.id !in s.log && b.id in s.usedIds
            && Sends(cfg, s.mode == Ready, 0, false, true, w, f)
            && Core(cfg, u, Nobody, [s.dataCh[0]]) && u.pending == None && u.mode == s.mode && u.phase == s.phase
            && u.usedIds == s.usedIds && GoodMessage(cfg, s.dataCh[0]) && (s.mode == Ready || s.phase == DrainData)
  {
    var m, b, v := s.dataCh[0], s.heap[s.pending.value], s.(dataCh := s.dataCh[1..]);
    PopData(cfg, s);
    FlushKeepsCore(cfg, v, m, w);
    f := FlushComes(cfg, v, m, w);
    Unqueued(cfg, s, v, FlushIfFull(cfg, v, m, w), b.id, b.reqs, f);
  }

  lemma StartComes(cfg: Config, u: State, m: Message, r: Ref, id: Id, w: Write) returns (f: Fate)
    requires cfg.Supported() && Core(cfg, u, Nobody, [m]) && u.pending == None && GoodMessage(cfg, m)
    requires CanAlloc(u, r) && id !in u.usedIds && (u.mode == Ready || u.phase == DrainData)
    ensures var t := Enlist(cfg, u, m, r, id, w);
            if Leaves(cfg, [m], m)
            then Comes(u, t, id, [m], f) && t.pending == None && Sends(cfg, u.mode == Ready, 0, false, true, w, f)
            else Prepares(u, t, id) && IsPending(t, id, [m])
  {
    var batch;
    batch, f := EnlistComes(cfg, u, m, r, id, w);
    assert [] + [m] == [m];
  }

  /** One batch has left, and then another one has taken the message. */
  lemma Both(cfg: Config, s: State, u: State, t: State, a: Id, before: seq<Message>, first: Fate,
             id: Id, reqs: seq<Message>, m: Message, w: Write, second: Fate)
    requires Comes(s, u, a, before, first) && a != id && u.mode == s.mode
    requires if Leaves(cfg, reqs, m)
             then Comes(u, t, id, reqs, second) && t.pending == None && Sends(cfg, u.mode == Ready, 0, false, true, w, second)
             else Prepares(u, t, id) && IsPending(t, id, reqs)
    ensures At(t, a, first) && t.log[a].msgs == before && ElsewhereTwo(s, t, a, id)
    ensures Took(cfg, s, t, id, reqs, m, w, second)
    ensures t.callbacks == s.callbacks + Answers(before, a, first) + AnswersIf(Leaves(cfg, reqs, m), reqs, id, second)
  {
    AtStays(u, t, a, id, first);
    ElsewhereBoth(s, u, t, a, id);
  }

  /** The pending batch leaves, and the message is the first of a new one. */
  lemma OverflowStep(cfg: Config, s: State, w1: Write, r: Ref, id: Id, w2: Write) returns (first: Fate, second: Fate)
    requires Inv(cfg, s) && Refs(s) && s.dataCh != [] && (s.phase == Loop || s.phase == DrainData)
    requires Overflows(cfg, PendingReqs(s.pending, s.heap), s.dataCh[0])
    requires CanAlloc(FlushIfFull(cfg, s.(dataCh := s.dataCh[1..]), s.dataCh[0], w1), r) && id !in s.usedIds
    ensures var m, b, u := s.dataCh[0], s.heap[s.pending.value], FlushIfFull(cfg, s.(dataCh := s.dataCh[1..]), s.dataCh[0], w1);
            var t := Enlist(cfg, u, m, r, id, w2);
            && LeftBefore(cfg, s, t, b.id, b.reqs, w1, first) && Took(cfg, s, t, id, [m], m, w2, second)
            && ElsewhereTwo(s, t, b.id, id)
            && t.callbacks == s.callbacks + Answers(b.reqs, b.id, first) + AnswersIf(Leaves(cfg, [m], m), [m], id, second)
  {
    var m, b, u := s.dataCh[0], s.heap[s.pending.value], FlushIfFull(cfg, s.(dataCh := s.dataCh[1..]), s.dataCh[0], w1);
    first := FlushStep(cfg, s, w1);
    second := ThenStart(cfg, s, u, b.id, b.reqs, first, m, r, id, w2);
  }

  lemma ThenStart(cfg: Config, s: State, u: State, a: Id, before: seq<Message>, first: Fate, m: Message, r: Ref, id: Id, w: Write)
    returns (second: Fate)
    requires cfg.Supported() && Core(cfg, u, Nobody, [m]) && u.pending == None && GoodMessage(cfg, m)
    requires CanAlloc(u, r) && id !in u.usedIds && (u.mode == Ready || u.phase == DrainData)
    requires Comes(s, u, a, before, first) && a != id && u.mode == s.mode
    ensures var t := Enlist(cfg, u, m, r, id, w);
            && At(t, a, first) && t.log[a].msgs == before && ElsewhereTwo(s, t, a, id)
            && Took(cfg, s, t, id, [m], m, w, second)
            && t.callbacks == s.callbacks + Answers(before, a, first) + AnswersIf(Leaves(cfg, [m], m), [m], id, second)
  {
    second := StartComes(cfg, u, m, r, id, w);
    Both(cfg, s, u, Enlist(cfg, u, m, r, id, w), a, before, first, id, [m], m, w, second);
  }

  /** The pending batch has waited long enough, or the shutdown handler sends it off. */
  lemma BatchTimeoutStep(cfg: Config, s: State, w: Write) returns (f: Fate)
    requires Inv(cfg, s) && Refs(s)
    ensures var t := BatchTimeout(cfg, s, w);
            if s.pending.None? then t == s
            else
              var b := s.heap[s.pending.value];
              && Comes(s, t, b.id, b.reqs, f) && b.id !in s.log && t.pending == None
              && Sends(cfg, s.mode == Ready, 0, false, true, w, f)
  {
    f := Awaits(0);
    if s.pending.Some? {
      f := LaunchComes(cfg, s, [], s.phase, true, w);
      assert s.(pending := None, phase := s.phase) == s.(pending := None);
    }
  }

  lemma SendOffStep(cfg: Config, s: State, w: Write) returns (f: Fate)
    requires Inv(cfg, s) && Refs(s) && s.phase == DrainData && s.dataCh == []
    ensures var t := BatchTimeoutOnClose(cfg, s, w);
            if s.pending.None? then SameBatches(s, t) && t.phase == DrainDone(0)
            else
              var b := s.heap[s.pending.value];
              && Comes(s, t, b.id, b.reqs, f) && b.id !in s.log && t.pending == None && t.phase == DrainDone(0)
              && Sends(cfg, false, 0, false, false, w, f)
  {
    f := Awaits(0);
    if s.pending.Some? {
      f := LaunchComes(cfg, s, [], DrainDone(0), false, w);
      var t := s.(phase := DrainDone(0)).(pending := None);
      assert s.(pending := None, phase := DrainDone(0)) == t;
      SendFrame(cfg, t, s.pending.value, false, w);
    }
  }
}
