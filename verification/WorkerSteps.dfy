/** Every step of the worker's state machine keeps the invariant. */
module WorkerSteps {
  import opened Common
  import opened WorkerSpec
  import opened WorkerInvariant
  import opened WorkerMoves

  // ----- what completing and sending leave alone

  /** Everything but the objects, the maps, and what a completion reports; permits are only given back. */
  predicate SameSurroundings(s: State, t: State) {
    && t.permits <= s.permits
    && t == s.(heap := t.heap, free := t.free, unacked := t.unacked, retrying := t.retrying, left := t.left,
               mode := t.mode, closes := t.closes, permits := t.permits, callbacks := t.callbacks,
               order := t.order, log := t.log, writes := t.writes, results := t.results)
  }

  predicate Within(m: map<Id, Ref>, n: map<Id, Ref>) {
    forall id :: id in m ==> id in n
  }

  lemma FinishFrame(s: State, r: Ref, err: Err)
    requires r in s.heap
    ensures var t := FinishBatch(s, r, err);
            && SameSurroundings(s, t) && t.unacked == s.unacked && t.retrying == s.retrying
            && (!s.heap[r].hook ==> t.mode == s.mode)
  {
  }

  lemma DoneFrame(s: State, id: Id, r: Ref, err: Err)
    ensures var t := DoneBatch(s, id, r, err);
            && SameSurroundings(s, t)
            && (r in s.heap && !s.heap[r].hook ==> t.mode == s.mode)
            && Within(t.unacked, s.unacked) && Within(t.retrying, s.retrying)
  {
    if r in s.heap {
      FinishFrame(s.(unacked := s.unacked - {id}, retrying := s.retrying - {id}), r, err);
    }
  }

  lemma BackoffFrame(cfg: Config, s: State, r: Ref)
    requires r in s.heap
    ensures var t := BackoffRetry(cfg, s, r);
            && SameSurroundings(s, t)
            && (!s.heap[r].hook ==> t.mode == s.mode)
            && Within(t.unacked, s.unacked)
            && (s.mode != Ready ==> Within(t.retrying, s.retrying))
  {
    DoneFrame(s, s.heap[r].id, r, SendTimeout);
  }

  lemma AfterWriteFrame(cfg: Config, s: State, r: Ref, retryOnFail: bool, w: Write)
    requires r in s.heap
    ensures var t := AfterWrite(cfg, s, r, retryOnFail, w);
            && SameSurroundings(s, t)
            && (!s.heap[r].hook ==> t.mode == s.mode)
            && (s.mode != Ready ==> Within(t.retrying, s.retrying))
  {
    BackoffFrame(cfg, s, r);
    DoneFrame(s, s.heap[r].id, r, Ok);
    DoneFrame(s, s.heap[r].id, r, WriteFailed);
  }

  lemma SendFrame(cfg: Config, s: State, r: Ref, retryOnFail: bool, w: Write)
    requires r in s.heap
    ensures var t := SendBatch(cfg, s, r, retryOnFail, w);
            && SameSurroundings(s, t)
            && (!s.heap[r].hook ==> t.mode == s.mode)
            && (s.mode != Ready ==> Within(t.retrying, s.retrying))
  {
    var b, s0 := s.heap[r], Record(s, r);
    assert SameSurroundings(s, s0) && s0.retrying == s.retrying && s0.mode == s.mode && s0.heap == s.heap;
    if b.retries > cfg.maxRetries {
      DoneFrame(s0, b.id, r, SendTimeout);
    } else if !b.encoded && w.EncodeError? {
      DoneFrame(s0, b.id, r, EncodeFailed);
    } else {
      WriteFrame(cfg, s0, r, retryOnFail, w);
    }
  }

  lemma WriteFrame(cfg: Config, s: State, r: Ref, retryOnFail: bool, w: Write)
    requires r in s.heap
    ensures var t := AfterWrite(cfg, CountWrite(s, r), r, retryOnFail, w);
            && SameSurroundings(s, t)
            && (!s.heap[r].hook ==> t.mode == s.mode)
            && (s.mode != Ready ==> Within(t.retrying, s.retrying))
  {
    AfterWriteFrame(cfg, CountWrite(s, r), r, retryOnFail, w);
  }

  // ----- taking a message into the pending batch

  lemma FlushKeepsCore(cfg: Config, s: State, m: Message, w: Write)
    requires Core(cfg, s, Nobody, [m]) && Refs(s)
    ensures var t := FlushIfFull(cfg, s, m, w);
            && Core(cfg, t, Nobody, [m])
            && t.phase == s.phase && t.failedCh == s.failedCh && t.usedIds == s.usedIds && t.dataCh == s.dataCh
            && t.mode == s.mode
            && (t.pending.Some? ==>
                 && t == s
                 && (cfg.udp ==> m.size + t.heap[t.pending.value].dataSize <= cfg.UdpLimit()))
  {
    if s.pending.Some? && cfg.udp && m.size + s.heap[s.pending.value].dataSize > cfg.UdpLimit() {
      SendPendingKeepsCore(cfg, s, [m], s.phase, true, w);
      assert s.(pending := None, phase := s.phase) == s.(pending := None);
      SendFrame(cfg, s.(pending := None), s.pending.value, true, w);
    }
  }

  /** The pending batch may take this message. */
  ghost predicate Fits(cfg: Config, b: Batch, m: Message) {
    && GoodMessage(cfg, m) && GoodMessages(cfg, b.reqs)
    && |b.reqs| < cfg.maxMessages
    && b.dataSize == TotalSize(b.reqs)
    && (cfg.udp && |b.reqs| >= 1 ==> m.size + b.dataSize <= cfg.UdpLimit())
  }

  lemma FitsMakesGoodBatch(cfg: Config, b: Batch, m: Message)
    requires Fits(cfg, b, m)
    ensures TotalSize(b.reqs + [m]) == b.dataSize + m.size
    ensures GoodBatch(cfg, b.reqs + [m])
  {
    assert (b.reqs + [m])[..|b.reqs|] == b.reqs;
  }

  lemma AppendKeepsCore(cfg: Config, s: State, m: Message)
    requires Core(cfg, s, Nobody, [m]) && s.pending.Some? && Fits(cfg, s.heap[s.pending.value], m)
    ensures Core(cfg, Append(s, m), Nobody, [])
  {
    AppendPlaces(cfg, s, m);
    AppendStream(s, m);
  }

  lemma AppendPlaces(cfg: Config, s: State, m: Message)
    requires Objects(s.heap, s.free, s.log, s.results, s.usedIds)
    requires Pending(cfg, s.pending, s.heap, s.free, s.log, s.usedIds) && s.pending.Some?
    requires Hooks(s.heap, s.log, s.results, Waiting(s.mode, s.phase))
    requires Retries(cfg, s.heap, s.log, s.results, s.retrying, s.writes, Nobody)
    requires Fits(cfg, s.heap[s.pending.value], m)
    ensures var t := Append(s, m);
            && Objects(t.heap, t.free, t.log, t.results, t.usedIds)
            && Pending(cfg, t.pending, t.heap, t.free, t.log, t.usedIds)
            && Hooks(t.heap, t.log, t.results, Waiting(t.mode, t.phase))
            && Retries(cfg, t.heap, t.log, t.results, t.retrying, t.writes, Nobody)
  {
    FitsMakesGoodBatch(cfg, s.heap[s.pending.value], m);
    PendingHeap(cfg, s, s.pending.value, Append(s, m).heap);
  }

  lemma AppendStream(s: State, m: Message)
    requires s.pending.Some? && s.pending.value in s.heap
    requires Stream(s.order, s.log, PendingReqs(s.pending, s.heap), [m], s.dataCh, s.accepted)
    ensures var t := Append(s, m);
            Stream(t.order, t.log, PendingReqs(t.pending, t.heap), [], t.dataCh, t.accepted)
  {
    StreamTakes(s.order, s.log, s.heap[s.pending.value].reqs, m, s.dataCh, s.accepted);
  }

  lemma StreamTakes(order: seq<Id>, log: Log, reqs: seq<Message>, m: Message, dataCh: seq<Message>, accepted: seq<Message>)
    requires Stream(order, log, reqs, [m], dataCh, accepted)
    ensures Stream(order, log, reqs + [m], [], dataCh, accepted)
  {
    assert Flat(order, log, log.Keys) + (reqs + [m]) + [] == Flat(order, log, log.Keys) + reqs + [m];
  }

  /** Changing an object that no sent batch uses. */
  lemma PendingHeap(cfg: Config, s: State, p: Ref, heap: Heap)
    requires Objects(s.heap, s.free, s.log, s.results, s.usedIds)
    requires Hooks(s.heap, s.log, s.results, Waiting(s.mode, s.phase))
    requires Retries(cfg, s.heap, s.log, s.results, s.retrying, s.writes, Nobody)
    requires p !in s.free && (p in s.heap ==> s.heap[p].id !in s.log)
    requires p in heap && heap == s.heap[p := heap[p]] && heap[p].id !in s.log
    ensures Objects(heap, s.free, s.log, s.results, s.usedIds)
    ensures Hooks(heap, s.log, s.results, Waiting(s.mode, s.phase))
    ensures Retries(cfg, heap, s.log, s.results, s.retrying, s.writes, Nobody)
  {
  }

  lemma StartKeepsCore(cfg: Config, s: State, m: Message, r: Ref, id: Id)
    requires cfg.Supported() && Core(cfg, s, Nobody, [m]) && s.pending.None? && GoodMessage(cfg, m)
    requires CanAlloc(s, r) && id !in s.usedIds && (s.mode == Ready || s.phase == DrainData)
    ensures Core(cfg, Append(NewBatch(s, r, id), m), Nobody, [])
  {
    StartPlaces(cfg, s, m, r, id);
    StartStream(s, m, r, id);
    StartStages(s, m, r, id);
  }

  lemma StartPlaces(cfg: Config, s: State, m: Message, r: Ref, id: Id)
    requires Objects(s.heap, s.free, s.log, s.results, s.usedIds)
    requires Hooks(s.heap, s.log, s.results, Waiting(s.mode, s.phase))
    requires Retries(cfg, s.heap, s.log, s.results, s.retrying, s.writes, Nobody)
    requires cfg.Supported() && GoodMessage(cfg, m) && CanAlloc(s, r) && id !in s.usedIds
    ensures var t := Append(NewBatch(s, r, id), m);
            && Objects(t.heap, t.free, t.log, t.results, t.usedIds)
            && Pending(cfg, t.pending, t.heap, t.free, t.log, t.usedIds)
            && Hooks(t.heap, t.log, t.results, Waiting(t.mode, t.phase))
            && Retries(cfg, t.heap, t.log, t.results, t.retrying, t.writes, Nobody)
  {
    StartEffect(s, m, r, id);
    TakeObject(cfg, s, r, Singleton(id, m));
    FitsMakesGoodBatch(cfg, Batch(id, false, [], 0, 0, false, false), m);
    assert [] + [m] == [m];
  }

  function Singleton(id: Id, m: Message): Batch {
    Batch(id, false, [m], m.size, 0, false, false)
  }

  lemma StartEffect(s: State, m: Message, r: Ref, id: Id)
    ensures Append(NewBatch(s, r, id), m) ==
            s.(heap := s.heap[r := Singleton(id, m)], free := s.free - {r}, pending := Some(r),
               usedIds := s.usedIds + {id})
  {
    assert [] + [m] == [m];
    assert Append(NewBatch(s, r, id), m).heap == s.heap[r := Singleton(id, m)];
  }

  /** What an object carries that no live batch uses. */
  lemma OtherObject(cfg: Config, heap: Heap, log: Log, results: map<Id, Err>, retrying: map<Id, Ref>,
                    writes: map<Id, nat>, waiting: bool, r: Ref, b: Batch)
    requires Hooks(heap, log, results, waiting) && Retries(cfg, heap, log, results, retrying, writes, Nobody)
    requires forall id :: id in log && id !in results ==> log[id].ref != r
    ensures Hooks(heap[r := b], log, results, waiting)
    ensures Retries(cfg, heap[r := b], log, results, retrying, writes, Nobody)
  {
  }

  lemma ObjectTaken(heap: Heap, free: set<Ref>, log: Log, results: map<Id, Err>, usedIds: set<Id>, r: Ref, b: Batch)
    requires Objects(heap, free, log, results, usedIds) && (r in free || r !in heap) && b.id !in usedIds
    ensures Objects(heap[r := b], free - {r}, log, results, usedIds + {b.id})
    ensures forall id :: id in log && id !in results ==> log[id].ref != r
  {
  }

  /** An object leaves the pool under a new id: no sent batch uses it. */
  lemma TakeObject(cfg: Config, s: State, r: Ref, b: Batch)
    requires Objects(s.heap, s.free, s.log, s.results, s.usedIds)
    requires Hooks(s.heap, s.log, s.results, Waiting(s.mode, s.phase))
    requires Retries(cfg, s.heap, s.log, s.results, s.retrying, s.writes, Nobody)
    requires CanAlloc(s, r) && b.id !in s.usedIds
    ensures Objects(s.heap[r := b], s.free - {r}, s.log, s.results, s.usedIds + {b.id})
    ensures Hooks(s.heap[r := b], s.log, s.results, Waiting(s.mode, s.phase))
    ensures Retries(cfg, s.heap[r := b], s.log, s.results, s.retrying, s.writes, Nobody)
  {
    ObjectTaken(s.heap, s.free, s.log, s.results, s.usedIds, r, b);
    OtherObject(cfg, s.heap, s.log, s.results, s.retrying, s.writes, Waiting(s.mode, s.phase), r, b);
  }

  lemma StartStream(s: State, m: Message, r: Ref, id: Id)
    requires s.pending.None?
    requires Stream(s.order, s.log, PendingReqs(s.pending, s.heap), [m], s.dataCh, s.accepted)
    ensures var t := Append(NewBatch(s, r, id), m);
            Stream(t.order, t.log, PendingReqs(t.pending, t.heap), [], t.dataCh, t.accepted)
  {
    StreamTakes(s.order, s.log, [], m, s.dataCh, s.accepted);
    assert PendingReqs(Append(NewBatch(s, r, id), m).pending, Append(NewBatch(s, r, id), m).heap) == [] + [m];
  }

  lemma StartStages(s: State, m: Message, r: Ref, id: Id)
    requires Stages(s.mode, s.phase, s.closes, s.dataCh, s.pending, s.unacked, s.retrying)
    requires s.mode == Ready || s.phase == DrainData
    ensures var t := Append(NewBatch(s, r, id), m);
            Stages(t.mode, t.phase, t.closes, t.dataCh, t.pending, t.unacked, t.retrying)
  {
  }

  /** A full batch leaves at once. */
  lemma DispatchKeepsInv(cfg: Config, s: State, m: Message, w: Write)
    requires cfg.Supported() && Core(cfg, s, Nobody, []) && (cfg.udp ==> s.failedCh == []) && s.pending.Some?
    ensures var p := s.pending.value;
            Inv(cfg, if KeepWaiting(cfg, s.heap[p], m) then s else SendBatch(cfg, s.(pending := None), p, true, w))
  {
    var p := s.pending.value;
    if !KeepWaiting(cfg, s.heap[p], m) {
      SendPendingKeepsCore(cfg, s, [], s.phase, true, w);
      assert s.(pending := None, phase := s.phase) == s.(pending := None);
      SendFrame(cfg, s.(pending := None), p, true, w);
    }
  }

  lemma EnlistKeepsInv(cfg: Config, s: State, m: Message, r: Ref, id: Id, w: Write)
    requires cfg.Supported() && Core(cfg, s, Nobody, [m]) && Room(cfg, s) && (cfg.udp ==> s.failedCh == [])
    requires GoodMessage(cfg, m)
    requires s.pending.Some? && cfg.udp ==> m.size + s.heap[s.pending.value].dataSize <= cfg.UdpLimit()
    requires CanAlloc(s, r) && id !in s.usedIds && (s.mode == Ready || s.phase == DrainData)
    ensures Inv(cfg, Enlist(cfg, s, m, r, id, w))
  {
    var s1 := if s.pending.Some? then s else NewBatch(s, r, id);
    var s2 := Append(s1, m);
    if s.pending.Some? {
      AppendKeepsCore(cfg, s, m);
    } else {
      StartKeepsCore(cfg, s, m, r, id);
    }
    DispatchKeepsInv(cfg, s2, m, w);
  }

  // ----- one lemma per step

  lemma InvImpliesRefs(cfg: Config, s: State)
    requires Inv(cfg, s)
    ensures Refs(s)
  {
  }

  lemma InitInv(cfg: Config)
    requires cfg.Supported()
    ensures Inv(cfg, INIT)
  {
  }

  lemma ReserveKeepsInv(cfg: Config, s: State, m: Message)
    requires Inv(cfg, s) && GoodMessage(cfg, m)
    ensures Inv(cfg, Reserve(s, m))
  {
    assert GoodMessages(cfg, s.reserved + [m]);
  }

  lemma EnqueueKeepsInv(cfg: Config, s: State, k: nat)
    requires Inv(cfg, s) && CanProduce(cfg, s, DoEnqueue(k))
    ensures Inv(cfg, ApplyProducer(cfg, s, DoEnqueue(k)))
  {
    StreamGrows(s.order, s.log, PendingReqs(s.pending, s.heap), s.dataCh, s.accepted, s.reserved[k]);
    EnqueueSizes(cfg, s.log, s.dataCh, s.reserved, k);
  }

  lemma StreamGrows(order: seq<Id>, log: Log, reqs: seq<Message>, dataCh: seq<Message>, accepted: seq<Message>, m: Message)
    requires Stream(order, log, reqs, [], dataCh, accepted)
    ensures Stream(order, log, reqs, [], dataCh + [m], accepted + [m])
  {
    assert Flat(order, log, log.Keys) + reqs + [] + (dataCh + [m]) ==
           Flat(order, log, log.Keys) + reqs + [] + dataCh + [m];
  }

  lemma EnqueueSizes(cfg: Config, log: Log, dataCh: seq<Message>, reserved: seq<Message>, k: nat)
    requires Sizes(cfg, log, dataCh, reserved, []) && k < |reserved|
    ensures Sizes(cfg, log, dataCh + [reserved[k]], reserved[..k] + reserved[k + 1..], [])
  {
    var rest := reserved[..k] + reserved[k + 1..];
    forall i | 0 <= i < |rest| ensures GoodMessage(cfg, rest[i]) {
      assert rest[i] == reserved[if i < k then i else i + 1];
    }
  }

  lemma RecvDataKeepsInv(cfg: Config, s: State, w1: Write, r: Ref, id: Id, w2: Write)
    requires Inv(cfg, s) && Refs(s) && CanHandle(cfg, s, RecvData(w1, r, id, w2))
    ensures Inv(cfg, ApplyHandler(cfg, s, RecvData(w1, r, id, w2)))
  {
    var m := s.dataCh[0];
    var s0 := s.(dataCh := s.dataCh[1..]);
    PopData(cfg, s);
    FlushKeepsCore(cfg, s0, m, w1);
    EnlistKeepsInv(cfg, FlushIfFull(cfg, s0, m, w1), m, r, id, w2);
  }

  lemma PopData(cfg: Config, s: State)
    requires Inv(cfg, s) && s.dataCh != [] && (s.phase == Loop || s.phase == DrainData)
    ensures Core(cfg, s.(dataCh := s.dataCh[1..]), Nobody, [s.dataCh[0]])
    ensures GoodMessage(cfg, s.dataCh[0]) && (s.mode == Ready || s.phase == DrainData)
  {
    var t := s.(dataCh := s.dataCh[1..]);
    assert s.dataCh == [s.dataCh[0]] + t.dataCh;
    StreamPops(s.order, s.log, PendingReqs(s.pending, s.heap), s.dataCh, s.accepted);
    SizesPop(cfg, s.log, s.dataCh, s.reserved);
  }

  lemma SizesPop(cfg: Config, log: Log, dataCh: seq<Message>, reserved: seq<Message>)
    requires Sizes(cfg, log, dataCh, reserved, []) && dataCh != []
    ensures Sizes(cfg, log, dataCh[1..], reserved, [dataCh[0]]) && GoodMessage(cfg, dataCh[0])
  {
  }

  lemma StreamPops(order: seq<Id>, log: Log, reqs: seq<Message>, dataCh: seq<Message>, accepted: seq<Message>)
    requires Stream(order, log, reqs, [], dataCh, accepted) && dataCh != []
    ensures Stream(order, log, reqs, [dataCh[0]], dataCh[1..], accepted)
  {
    assert dataCh == [dataCh[0]] + dataCh[1..];
    assert Flat(order, log, log.Keys) + reqs + [] + dataCh ==
           Flat(order, log, log.Keys) + reqs + [dataCh[0]] + dataCh[1..];
  }

  lemma TickBatchKeepsInv(cfg: Config, s: State, w: Write)
    requires Inv(cfg, s) && Refs(s)
    ensures Inv(cfg, BatchTimeout(cfg, s, w))
  {
    if s.pending.Some? {
      SendPendingKeepsCore(cfg, s, [], s.phase, true, w);
      assert s.(pending := None, phase := s.phase) == s.(pending := None);
      SendFrame(cfg, s.(pending := None), s.pending.value, true, w);
    }
  }

  lemma TickSendKeepsInv(cfg: Config, s: State, id: Id)
    requires Inv(cfg, s) && Refs(s) && id in s.unacked
    ensures Inv(cfg, SendTimeoutOne(cfg, s, id))
  {
    var t := s.(unacked := s.unacked - {id});
    LeaveUnacked(cfg, s, [], id);
    BackoffKeepsCore(cfg, t, [], id);
    BackoffFrame(cfg, t, s.unacked[id]);
    BackoffKeepsRoom(cfg, t, id, s.unacked[id]);
  }

  lemma DoneKeepsInv(cfg: Config, s: State, id: Id, r: Ref, err: Err)
    requires Inv(cfg, s) && Names(s.log, id, r)
    requires err == Ok ==> Writes(s.writes, id) >= 1 && (cfg.v3 ==> id in s.acks)
    ensures Inv(cfg, DoneBatch(s, id, r, err))
  {
    DoneKeepsCore(cfg, s, Nobody, [], id, r, err);
    DoneFrame(s, id, r, err);
    DoneKeepsRoom(cfg, s, id, r, err);
  }

  lemma DoneKeepsRoom(cfg: Config, s: State, id: Id, r: Ref, err: Err)
    requires Room(cfg, s) && Pending(cfg, s.pending, s.heap, s.free, s.log, s.usedIds) && id in s.log
    ensures Room(cfg, DoneBatch(s, id, r, err))
  {
  }

  lemma BackoffKeepsRoom(cfg: Config, s: State, id: Id, r: Ref)
    requires Room(cfg, s) && Pending(cfg, s.pending, s.heap, s.free, s.log, s.usedIds)
    requires id in s.log && r in s.heap && s.heap[r].id == id
    ensures Room(cfg, BackoffRetry(cfg, s, r))
  {
    DoneKeepsRoom(cfg, s, id, r, SendTimeout);
  }

  /** Stages of the shutdown handler that follow the draining of the data channel. */
  predicate PastData(ph: Phase) {
    ph.DrainDone? || ph.DrainRetry? || ph.Resend?
  }

  /** Channels may hold any events that name sent batches. */
  lemma Rechannel(cfg: Config, s: State, done: seq<DoneReq>, failed: seq<FailedReq>, retry: seq<RetryReq>,
                  rsp: seq<Rsp>, ph: Phase)
    requires Inv(cfg, s) && Events(s.log, done, failed, retry) && (cfg.udp ==> failed == [])
    requires ph == s.phase || (PastData(s.phase) && PastData(ph))
    ensures Inv(cfg, s.(doneCh := done, failedCh := failed, retryCh := retry, rspCh := rsp, phase := ph))
  {
  }

  lemma NextStage(cfg: Config, s: State, ph: Phase)
    requires Inv(cfg, s) && PastData(s.phase) && PastData(ph)
    ensures Inv(cfg, s.(phase := ph))
  {
  }

  lemma Pops<T>(q: seq<T>)
    requires q != []
    ensures q[0] in q && forall e :: e in q[1..] ==> e in q
  {
  }

  lemma RecvDoneKeepsInv(cfg: Config, s: State, ph: Phase)
    requires Inv(cfg, s) && s.doneCh != [] && (ph == s.phase || (PastData(s.phase) && PastData(ph)))
    ensures Inv(cfg, TakeDone(s, ph))
  {
    Pops(s.doneCh);
    Rechannel(cfg, s, s.doneCh[1..], s.failedCh, s.retryCh, s.rspCh, ph);
    DoneKeepsInv(cfg, s.(doneCh := s.doneCh[1..], phase := ph), s.doneCh[0].id, s.doneCh[0].ref, s.doneCh[0].err);
  }

  lemma FailedKeepsInv(cfg: Config, s: State, e: FailedReq)
    requires Inv(cfg, s) && Names(s.log, e.id, e.ref) && cfg.v3
    ensures Inv(cfg, HandleSendFailed(cfg, s, e))
  {
    if e.id in s.unacked && s.unacked[e.id] == e.ref && s.heap[e.ref].id == e.id {
      var t := s.(unacked := s.unacked - {e.id});
      LeaveUnacked(cfg, s, [], e.id);
      if e.retry && s.mode == Ready {
        BackoffKeepsCore(cfg, t, [], e.id);
        BackoffFrame(cfg, t, e.ref);
        BackoffKeepsRoom(cfg, t, e.id, e.ref);
      } else {
        DoneKeepsCore(cfg, t, Holding(e.id, true), [], e.id, e.ref, WriteFailed);
        DoneFrame(t, e.id, e.ref, WriteFailed);
        DoneKeepsRoom(cfg, t, e.id, e.ref, WriteFailed);
      }
    }
  }

  lemma RecvFailedKeepsInv(cfg: Config, s: State)
    requires Inv(cfg, s) && s.failedCh != []
    ensures Inv(cfg, HandleSendFailed(cfg, s.(failedCh := s.failedCh[1..]), s.failedCh[0]))
  {
    Pops(s.failedCh);
    Rechannel(cfg, s, s.doneCh, s.failedCh[1..], s.retryCh, s.rspCh, s.phase);
    FailedKeepsInv(cfg, s.(failedCh := s.failedCh[1..]), s.failedCh[0]);
  }

  lemma RetryKeepsInv(cfg: Config, s: State, e: RetryReq, retryOnFail: bool, w: Write)
    requires Inv(cfg, s) && Refs(s) && Names(s.log, e.id, e.ref)
    ensures Inv(cfg, HandleRetry(cfg, s, e, retryOnFail, w))
  {
    if e.id in s.retrying {
      var t := s.(retrying := s.retrying - {e.id});
      LeaveRetrying(cfg, s, [], e.id);
      SendKeepsCore(cfg, t, [], e.id, retryOnFail, w);
      SendFrame(cfg, t, e.ref, retryOnFail, w);
      SendKeepsRoom(cfg, t, e.id, e.ref, retryOnFail, w);
    }
  }

  lemma SendKeepsRoom(cfg: Config, s: State, id: Id, r: Ref, retryOnFail: bool, w: Write)
    requires Room(cfg, s) && Pending(cfg, s.pending, s.heap, s.free, s.log, s.usedIds)
    requires id in s.log && r in s.heap && s.heap[r].id == id
    ensures Room(cfg, SendBatch(cfg, s, r, retryOnFail, w))
  {
    var t := CountWrite(s, r);
    DoneKeepsRoom(cfg, s, id, r, SendTimeout);
    DoneKeepsRoom(cfg, s, id, r, EncodeFailed);
    DoneKeepsRoom(cfg, t, id, r, Ok);
    DoneKeepsRoom(cfg, t, id, r, WriteFailed);
    BackoffKeepsRoom(cfg, t, id, r);
  }

  lemma RecvRetryKeepsInv(cfg: Config, s: State, ph: Phase, retryOnFail: bool, w: Write)
    requires Inv(cfg, s) && Refs(s) && s.retryCh != [] && (ph == s.phase || (PastData(s.phase) && PastData(ph)))
    ensures Inv(cfg, TakeRetry(cfg, s, ph, retryOnFail, w))
  {
    Pops(s.retryCh);
    Rechannel(cfg, s, s.doneCh, s.failedCh, s.retryCh[1..], s.rspCh, ph);
    RetryKeepsInv(cfg, s.(retryCh := s.retryCh[1..], phase := ph), s.retryCh[0], retryOnFail, w);
  }

  lemma AckKeepsInv(cfg: Config, s: State, id: Id)
    requires Inv(cfg, s)
    ensures Inv(cfg, s.(acks := s.acks + {id}))
  {
  }

  lemma LiveWasWritten(cfg: Config, s: State, id: Id)
    requires Objects(s.heap, s.free, s.log, s.results, s.usedIds)
    requires Retries(cfg, s.heap, s.log, s.results, s.retrying, s.writes, Nobody)
    requires id in s.log && id !in s.results
    ensures Writes(s.writes, id) >= 1
  {
  }

  lemma RspKeepsInv(cfg: Config, s: State, rsp: Rsp)
    requires Inv(cfg, s)
    ensures Inv(cfg, HandleRsp(s, rsp))
  {
    var t := if rsp.code == 0 then s.(acks := s.acks + {rsp.id}) else s;
    AckKeepsInv(cfg, s, rsp.id);
    if rsp.id in s.unacked || rsp.id in s.retrying {
      LiveWasWritten(cfg, s, rsp.id);
    }
    if rsp.id in s.unacked {
      DoneKeepsInv(cfg, t, rsp.id, s.unacked[rsp.id], Verdict(rsp));
    } else if rsp.id in s.retrying {
      DoneKeepsInv(cfg, t, rsp.id, s.retrying[rsp.id], Verdict(rsp));
    }
  }

  // ----- shutdown

  lemma CloseStartKeepsInv(cfg: Config, s: State)
    requires Inv(cfg, s) && s.phase == Loop && s.mode == Ready
    ensures Inv(cfg, s.(mode := Closing, phase := DrainData))
  {
  }

  lemma CloseDataEndKeepsInv(cfg: Config, s: State, w: Write)
    requires Inv(cfg, s) && Refs(s) && s.phase == DrainData && s.dataCh == []
    ensures Inv(cfg, BatchTimeoutOnClose(cfg, s, w))
  {
    if s.pending.Some? {
      SendPendingKeepsCore(cfg, s, [], DrainDone(0), false, w);
      var t := s.(phase := DrainDone(0)).(pending := None);
      assert s.(pending := None, phase := DrainDone(0)) == t;
      SendFrame(cfg, t, s.pending.value, false, w);
    }
  }

  lemma CloseResendKeepsInv(cfg: Config, s: State, id: Id, w: Write)
    requires Inv(cfg, s) && Refs(s) && id in s.retrying
    ensures Inv(cfg, SendBatch(cfg, s.(retrying := s.retrying - {id}), s.retrying[id], false, w))
  {
    RetryKeepsInv(cfg, s, RetryReq(id, s.retrying[id]), false, w);
  }

  lemma CloseFinishKeepsInv(cfg: Config, s: State)
    requires Inv(cfg, s) && s.phase == Resend && s.retrying == map[]
    ensures Inv(cfg, FinishClose(s))
  {
    if |s.unacked| == 0 {
      CloseNow(cfg, s);
    } else {
      CloseLater(cfg, s);
    }
  }

  lemma CloseNow(cfg: Config, s: State)
    requires Inv(cfg, s) && s.phase == Resend && s.retrying == map[] && |s.unacked| == 0
    ensures Inv(cfg, s.(left := 0, phase := Loop, mode := Closed, closes := s.closes + 1))
  {
    assert s.unacked == map[];
    NothingLive(cfg, s);
  }

  lemma CloseLater(cfg: Config, s: State)
    requires Inv(cfg, s) && s.phase == Resend && s.retrying == map[] && |s.unacked| != 0
    ensures Inv(cfg, s.(left := |s.unacked|, phase := Loop, heap := InstallHooks(s.heap, s.unacked.Values)))
  {
    HooksInstalled(cfg, s);
  }

  lemma NothingLive(cfg: Config, s: State)
    requires Maps(cfg.v3, s.unacked, s.retrying, s.log, s.results, {}) && s.retrying == map[] && s.unacked == map[]
    ensures Hooks(s.heap, s.log, s.results, false)
  {
  }

  lemma HooksInstalled(cfg: Config, s: State)
    requires Objects(s.heap, s.free, s.log, s.results, s.usedIds)
    requires Maps(cfg.v3, s.unacked, s.retrying, s.log, s.results, {}) && s.retrying == map[]
    requires Retries(cfg, s.heap, s.log, s.results, s.retrying, s.writes, Nobody)
    ensures var heap := InstallHooks(s.heap, s.unacked.Values);
            && Objects(heap, s.free, s.log, s.results, s.usedIds)
            && Retries(cfg, heap, s.log, s.results, s.retrying, s.writes, Nobody)
            && Hooks(heap, s.log, s.results, true)
  {
    forall id | id in s.log && id !in s.results ensures s.log[id].ref in s.unacked.Values {
      assert id in s.unacked;
    }
  }

  // ----- the environment

  lemma ReturnObject(cfg: Config, s: State, r: Ref, b: Batch)
    requires Objects(s.heap, s.free, s.log, s.results, s.usedIds)
    requires Maps(cfg.v3, s.unacked, s.retrying, s.log, s.results, {})
    requires Hooks(s.heap, s.log, s.results, Waiting(s.mode, s.phase))
    requires Retries(cfg, s.heap, s.log, s.results, s.retrying, s.writes, Nobody)
    requires r in s.heap && !Owned(s, r) && b.id == s.heap[r].id && b.finished
    ensures Objects(s.heap[r := b], s.free + {r}, s.log, s.results, s.usedIds)
    ensures Hooks(s.heap[r := b], s.log, s.results, Waiting(s.mode, s.phase))
    ensures Retries(cfg, s.heap[r := b], s.log, s.results, s.retrying, s.writes, Nobody)
  {
    forall id | id in s.log && id !in s.results ensures s.log[id].ref != r {
      assert id in s.unacked || id in s.retrying;
    }
    OtherObject(cfg, s.heap, s.log, s.results, s.retrying, s.writes, Waiting(s.mode, s.phase), r, b);
  }

  lemma ProducerKeepsInv(cfg: Config, s: State, p: Producer)
    requires Inv(cfg, s) && CanProduce(cfg, s, p)
    ensures Inv(cfg, ApplyProducer(cfg, s, p))
  {
    match p
    case DoRefuse(m, why) =>
    case DoReserve(m) => ReserveKeepsInv(cfg, s, m);
    case DoEnqueue(k) => EnqueueKeepsInv(cfg, s, k);
  }

  lemma ReceiveKeepsInv(cfg: Config, s: State, h: Handler)
    requires Inv(cfg, s) && Refs(s) && CanHandle(cfg, s, h)
    requires h.RecvDone? || h.RecvFailed? || h.RecvRetry? || h.RecvRsp?
    ensures Inv(cfg, ApplyHandler(cfg, s, h))
  {
    if h.RecvDone? {
      RecvDoneKeepsInv(cfg, s, s.phase);
    } else if h.RecvFailed? {
      RecvFailedKeepsInv(cfg, s);
    } else if h.RecvRetry? {
      RecvRetryKeepsInv(cfg, s, s.phase, true, h.w);
    } else {
      Rechannel(cfg, s, s.doneCh, s.failedCh, s.retryCh, s.rspCh[1..], s.phase);
      RspKeepsInv(cfg, s.(rspCh := s.rspCh[1..]), s.rspCh[0]);
    }
  }

  lemma HandlerKeepsInv(cfg: Config, s: State, h: Handler)
    requires Inv(cfg, s) && Refs(s) && CanHandle(cfg, s, h)
    ensures Inv(cfg, ApplyHandler(cfg, s, h))
  {
    match h
    case RecvData(w1, r, id, w2) => RecvDataKeepsInv(cfg, s, w1, r, id, w2);
    case TickBatch(w) => TickBatchKeepsInv(cfg, s, w);
    case TickSend(id) => TickSendKeepsInv(cfg, s, id);
    case _ => ReceiveKeepsInv(cfg, s, h);
  }

  lemma DrainKeepsInv(cfg: Config, s: State, c: Shutdown)
    requires Inv(cfg, s) && Refs(s) && CanShut(s, c)
    requires c.CloseDone? || c.CloseDoneEnd? || c.CloseRetry? || c.CloseRetryEnd?
    ensures Inv(cfg, ApplyShutdown(cfg, s, c))
  {
    match c
    case CloseDone => TakeDoneKeepsInv(cfg, s); TakeDoneEffect(cfg, s);
    case CloseDoneEnd => NextStage(cfg, s, DrainRetry(0));
    case CloseRetry(w) => TakeRetryKeepsInv(cfg, s, w); TakeRetryEffect(cfg, s, w);
    case CloseRetryEnd => NextStage(cfg, s, Resend);
  }

  lemma TakeDoneKeepsInv(cfg: Config, s: State)
    requires Inv(cfg, s) && CanShut(s, CloseDone)
    ensures Inv(cfg, TakeDone(s, DrainDone(s.phase.i + 1)))
  {
    RecvDoneKeepsInv(cfg, s, DrainDone(s.phase.i + 1));
  }

  lemma TakeDoneEffect(cfg: Config, s: State)
    requires Refs(s) && CanShut(s, CloseDone)
    ensures ApplyShutdown(cfg, s, CloseDone) == TakeDone(s, DrainDone(s.phase.i + 1))
  {
  }

  lemma TakeRetryKeepsInv(cfg: Config, s: State, w: Write)
    requires Inv(cfg, s) && Refs(s) && CanShut(s, CloseRetry(w))
    ensures Inv(cfg, TakeRetry(cfg, s, DrainRetry(s.phase.j + 1), false, w))
  {
    RecvRetryKeepsInv(cfg, s, DrainRetry(s.phase.j + 1), false, w);
  }

  lemma TakeRetryEffect(cfg: Config, s: State, w: Write)
    requires Refs(s) && CanShut(s, CloseRetry(w))
    ensures ApplyShutdown(cfg, s, CloseRetry(w)) == TakeRetry(cfg, s, DrainRetry(s.phase.j + 1), false, w)
  {
  }

  lemma ShutdownKeepsInv(cfg: Config, s: State, c: Shutdown)
    requires Inv(cfg, s) && Refs(s) && CanShut(s, c)
    ensures Inv(cfg, ApplyShutdown(cfg, s, c))
  {
    match c
    case CloseStart => CloseStartKeepsInv(cfg, s);
    case CloseDataEnd(w) => CloseDataEndKeepsInv(cfg, s, w);
    case CloseResend(id, w) => CloseResendKeepsInv(cfg, s, id, w);
    case CloseFinish => CloseFinishKeepsInv(cfg, s);
    case _ => DrainKeepsInv(cfg, s, c);
  }

  lemma PushKeepsEvents(cfg: Config, s: State, e: Environment)
    requires CanHappen(cfg, s, e) && Events(s.log, s.doneCh, s.failedCh, s.retryCh)
    requires e.PushDone? || e.PushFailed? || e.PushRetry? || e.PushRsp?
    ensures var t := ApplyEnvironment(s, e);
            && Events(s.log, t.doneCh, t.failedCh, t.retryCh)
            && t == s.(doneCh := t.doneCh, failedCh := t.failedCh, retryCh := t.retryCh, rspCh := t.rspCh, phase := s.phase)
            && (cfg.udp ==> t.failedCh == s.failedCh)
  {
  }

  lemma PushKeepsInv(cfg: Config, s: State, e: Environment)
    requires Inv(cfg, s) && CanHappen(cfg, s, e)
    requires e.PushDone? || e.PushFailed? || e.PushRetry? || e.PushRsp?
    ensures Inv(cfg, ApplyEnvironment(s, e))
  {
    var t := ApplyEnvironment(s, e);
    PushKeepsEvents(cfg, s, e);
    Rechannel(cfg, s, t.doneCh, t.failedCh, t.retryCh, t.rspCh, s.phase);
  }

  lemma ForeignTakeKeepsInv(cfg: Config, s: State, r: Ref, id: Id)
    requires Inv(cfg, s) && CanHappen(cfg, s, ForeignTake(r, id))
    ensures Inv(cfg, ApplyEnvironment(s, ForeignTake(r, id)))
  {
    var t := ApplyEnvironment(s, ForeignTake(r, id));
    assert t == s.(heap := t.heap, free := t.free, usedIds := t.usedIds);
    TakeObject(cfg, s, r, Batch(id, false, [], 0, 0, false, false));
    Composed(cfg, t, Nobody, []);
  }

  lemma ForeignReturnKeepsInv(cfg: Config, s: State, r: Ref, b: Batch)
    requires Inv(cfg, s) && CanHappen(cfg, s, ForeignReturn(r, b))
    ensures Inv(cfg, ApplyEnvironment(s, ForeignReturn(r, b)))
  {
    ReturnObject(cfg, s, r, b);
  }

  lemma EnvironmentKeepsInv(cfg: Config, s: State, e: Environment)
    requires Inv(cfg, s) && CanHappen(cfg, s, e)
    ensures Inv(cfg, ApplyEnvironment(s, e))
  {
    match e
    case ForeignTake(r, id) => ForeignTakeKeepsInv(cfg, s, r, id);
    case ForeignReturn(r, b) => ForeignReturnKeepsInv(cfg, s, r, b);
    case _ => PushKeepsInv(cfg, s, e);
  }

  /** Every step keeps the invariant. */
  lemma StepKeepsInv(cfg: Config, s: State, step: Step)
    requires Inv(cfg, s) && Refs(s) && Enabled(cfg, s, step)
    ensures Inv(cfg, Apply(cfg, s, step))
  {
    match step
    case Produce(p) => ProducerKeepsInv(cfg, s, p);
    case Handle(h) => HandlerKeepsInv(cfg, s, h);
    case Shut(c) => ShutdownKeepsInv(cfg, s, c);
    case Happen(e) => EnvironmentKeepsInv(cfg, s, e);
  }
}
