/** The batch lifecycle of one worker goroutine, as a state machine whose steps are the
    handlers of its event loop, the stages of its shutdown handler, and the goroutines that
    feed its channels.

    A batch object is an entry of an explicit store, and a reference to it is a key of that store.
    Objects are recycled, so a queued event may name an object that meanwhile carries another
    batch; the store keeps exactly what that race is about. */
module WorkerSpec {
  import opened Common

  type Ref = nat
  type Id = nat

  /** What a completed batch reports to the callbacks of its messages. */
  datatype Err = Ok | SendTimeout | WriteFailed | ServerError | EncodeFailed

  /** Why a message is refused before it reaches the queue. */
  datatype Refusal = BadLog | ProducerClosed | LogTooLong | QueueFull | ContextExpired

  const MAX_TCP_REQ_SIZE_V1 := 512 * 1024
  const MAX_UDP_REQ_SIZE_V3 := 64512

  /** Options after validation. `!v3` is protocol V1, `!udp` is TCP. */
  datatype Config = Config(
    v3: bool, udp: bool, maxRetries: nat, maxMessages: nat, maxSize: nat,
    maxPending: nat, blockIfFull: bool)
  {
    /** V1 over TCP completes its batches outside the event loop and is not covered. */
    predicate Supported() {
      (v3 || udp) && maxRetries >= 1 && maxMessages >= 1 && maxSize >= 1 && maxPending >= 1
    }

    function UdpLimit(): nat {
      if v3 then MAX_UDP_REQ_SIZE_V3 else MAX_UDP_REQ_SIZE_V1
    }

    function MessageLimit(): nat {
      if udp then MAX_UDP_REQ_SIZE_V1 else MAX_TCP_REQ_SIZE_V1
    }
  }

  datatype Message = Message(key: nat, size: nat, flush: bool)

  datatype Batch = Batch(
    id: Id, finished: bool, reqs: seq<Message>, dataSize: nat, retries: nat, encoded: bool, hook: bool)

  datatype Callback = Callback(msg: Message, err: Err, id: Id)

  datatype DoneReq = DoneReq(id: Id, ref: Ref, err: Err)
  datatype FailedReq = FailedReq(id: Id, ref: Ref, retry: bool)
  datatype RetryReq = RetryReq(id: Id, ref: Ref)
  datatype Rsp = Rsp(id: Id, code: int)

  datatype Mode = Ready | Closing | Closed

  /** Where the worker goroutine is: in its event loop, or at a stage of the shutdown handler. */
  datatype Phase = Loop | DrainData | DrainDone(i: nat) | DrainRetry(j: nat) | Resend

  /** How one write attempt ends for the worker goroutine. */
  datatype Write = EncodeError | WriteError | Written

  /** A batch that has been handed to `SendBatch` at least once. */
  datatype Entry = Entry(ref: Ref, msgs: seq<Message>)

  datatype State = State(
    // objects
    heap: map<Ref, Batch>, free: set<Ref>,
    // the three places of a live batch
    pending: Option<Ref>, unacked: map<Id, Ref>, retrying: map<Id, Ref>,
    // channels
    dataCh: seq<Message>, doneCh: seq<DoneReq>, failedCh: seq<FailedReq>,
    retryCh: seq<RetryReq>, rspCh: seq<Rsp>,
    // shutdown
    mode: Mode, phase: Phase, left: int, closes: nat,
    // admission: permits that have not been given back, messages about to be enqueued
    permits: int, reserved: seq<Message>,
    // history
    accepted: seq<Message>, refused: seq<(Message, Refusal)>, callbacks: seq<Callback>,
    usedIds: set<Id>, order: seq<Id>, log: map<Id, Entry>, writes: map<Id, nat>,
    results: map<Id, Err>, acks: set<Id>)

  const INIT := State(
    map[], {}, None, map[], map[], [], [], [], [], [],
    Ready, Loop, 0, 0, 0, [], [], [], [], {}, [], map[], map[], map[], {})

  /** Every reference held by the worker's maps points to an object. */
  predicate Refs(s: State) {
    && (s.pending.Some? ==> s.pending.value in s.heap)
    && (forall id :: id in s.unacked ==> s.unacked[id] in s.heap)
    && (forall id :: id in s.retrying ==> s.retrying[id] in s.heap)
  }

  // ----- completing a batch

  function Callbacks(b: Batch, err: Err): seq<Callback> {
    seq(|b.reqs|, i requires 0 <= i < |b.reqs| => Callback(b.reqs[i], err, b.id))
  }

  /** `batchReq.done`: at most once per incarnation of the object, then back to the pool. */
  function FinishBatch(s: State, r: Ref, err: Err): State
    requires r in s.heap
  {
    var b := s.heap[r];
    if b.finished then s
    else
      var left := if b.hook then s.left - 1 else s.left;
      var last := b.hook && left <= 0;
      s.(heap := s.heap[r := b.(finished := true, reqs := [], encoded := false, hook := false)],
         free := s.free + {r},
         callbacks := s.callbacks + Callbacks(b, err),
         permits := s.permits - |b.reqs|,
         results := s.results[b.id := err],
         left := left,
         mode := if last then Closed else s.mode,
         closes := if last then s.closes + 1 else s.closes)
  }

  /** `worker.doneBatch`. */
  function DoneBatch(s: State, id: Id, r: Ref, err: Err): (t: State)
    ensures t.pending == s.pending
  {
    if r !in s.heap || s.heap[r].id != id then s
    else if id in s.unacked && s.unacked[id] != r then s
    else
      var s1 := s.(unacked := s.unacked - {id});
      if id in s1.retrying && s1.retrying[id] != r then s1
      else FinishBatch(s1.(retrying := s1.retrying - {id}), r, err)
  }

  // ----- sending a batch

  /** `worker.backoffRetry`. */
  function BackoffRetry(cfg: Config, s: State, r: Ref): (t: State)
    requires r in s.heap
    ensures t.pending == s.pending
  {
    var b := s.heap[r];
    if b.id in s.retrying then s
    else if b.retries >= cfg.maxRetries then DoneBatch(s, b.id, r, SendTimeout)
    else if s.mode != Ready then DoneBatch(s, b.id, r, SendTimeout)
    else s.(heap := s.heap[r := b.(retries := b.retries + 1)], retrying := s.retrying[b.id := r])
  }

  /** Enters a batch into the history the first time it is handed to `SendBatch`. */
  function Record(s: State, r: Ref): (t: State)
    requires r in s.heap
    ensures t.pending == s.pending
  {
    var b := s.heap[r];
    if b.id in s.log then s
    else s.(order := s.order + [b.id], log := s.log[b.id := Entry(r, b.reqs)])
  }

  function CountWrite(s: State, r: Ref): (t: State)
    requires r in s.heap
    ensures t.pending == s.pending
  {
    var b := s.heap[r];
    s.(heap := s.heap[r := b.(encoded := true)],
       writes := s.writes[b.id := (if b.id in s.writes then s.writes[b.id] else 0) + 1])
  }

  /** The outcome of an asynchronous write, as the worker goroutine sees it. */
  function AfterWrite(cfg: Config, s: State, r: Ref, retryOnFail: bool, w: Write): (t: State)
    requires r in s.heap
    ensures t.pending == s.pending
  {
    var id := s.heap[r].id;
    if w.Written? then
      if cfg.v3 then s.(unacked := s.unacked[id := r]) else DoneBatch(s, id, r, Ok)
    else if s.mode == Ready && retryOnFail then BackoffRetry(cfg, s, r)
    else DoneBatch(s, id, r, WriteFailed)
  }

  /** `worker.sendBatch`: `w` says how this attempt ends. */
  function SendBatch(cfg: Config, s: State, r: Ref, retryOnFail: bool, w: Write): (t: State)
    requires r in s.heap
    ensures t.pending == s.pending
  {
    var b := s.heap[r];
    var s0 := Record(s, r);
    if b.retries > cfg.maxRetries then DoneBatch(s0, b.id, r, SendTimeout)
    else if !b.encoded && w.EncodeError? then DoneBatch(s0, b.id, r, EncodeFailed)
    else AfterWrite(cfg, CountWrite(s0, r), r, retryOnFail, w)
  }

  // ----- the handlers of the event loop

  /** `handleSendData`, first part: a datagram that would grow too large leaves first. */
  function FlushIfFull(cfg: Config, s: State, m: Message, w: Write): (t: State)
    requires Refs(s)
    ensures t.pending.Some? ==> t.pending.value in t.heap
  {
    if s.pending.Some? && cfg.udp && m.size + s.heap[s.pending.value].dataSize > cfg.UdpLimit()
    then SendBatch(cfg, s.(pending := None), s.pending.value, true, w)
    else s
  }

  /** `batchPool.Get` may return any recycled object or a new one. */
  predicate CanAlloc(s: State, r: Ref) {
    r in s.free || r !in s.heap
  }

  function NewBatch(s: State, r: Ref, id: Id): State {
    s.(heap := s.heap[r := Batch(id, false, [], 0, 0, false, false)],
       free := s.free - {r}, pending := Some(r), usedIds := s.usedIds + {id})
  }

  /** `batchReq.append` on the pending batch. */
  function Append(s: State, m: Message): State
    requires s.pending.Some? && s.pending.value in s.heap
  {
    var b := s.heap[s.pending.value];
    s.(heap := s.heap[s.pending.value := b.(reqs := b.reqs + [m], dataSize := b.dataSize + m.size)])
  }

  predicate KeepWaiting(cfg: Config, b: Batch, m: Message) {
    !m.flush && |b.reqs| < cfg.maxMessages && b.dataSize < cfg.maxSize
  }

  /** `handleSendData`, after `FlushIfFull`. */
  function Enlist(cfg: Config, s: State, m: Message, r: Ref, id: Id, w: Write): State
    requires s.pending.Some? ==> s.pending.value in s.heap
  {
    var s1 := if s.pending.Some? then s else NewBatch(s, r, id);
    var s2 := Append(s1, m);
    var p := s2.pending.value;
    if KeepWaiting(cfg, s2.heap[p], m) then s2
    else SendBatch(cfg, s2.(pending := None), p, true, w)
  }

  function BatchTimeout(cfg: Config, s: State, w: Write): State
    requires Refs(s)
  {
    if s.pending.Some? then SendBatch(cfg, s.(pending := None), s.pending.value, true, w) else s
  }

  /** One iteration of `handleSendTimeout`, for an entry that has waited too long. */
  function SendTimeoutOne(cfg: Config, s: State, id: Id): State
    requires Refs(s) && id in s.unacked
  {
    BackoffRetry(cfg, s.(unacked := s.unacked - {id}), s.unacked[id])
  }

  function HandleSendFailed(cfg: Config, s: State, e: FailedReq): State {
    if e.ref !in s.heap || s.heap[e.ref].id != e.id then s
    else if cfg.v3 && (e.id !in s.unacked || s.unacked[e.id] != e.ref) then s
    else
      var s1 := if cfg.v3 then s.(unacked := s.unacked - {e.id}) else s;
      if e.retry && s1.mode == Ready then BackoffRetry(cfg, s1, e.ref)
      else DoneBatch(s1, e.id, e.ref, WriteFailed)
  }

  function HandleRetry(cfg: Config, s: State, e: RetryReq, retryOnFail: bool, w: Write): State
    requires Refs(s)
  {
    if e.id !in s.retrying || s.retrying[e.id] != e.ref then s
    else SendBatch(cfg, s.(retrying := s.retrying - {e.id}), e.ref, retryOnFail, w)
  }

  function Verdict(rsp: Rsp): Err {
    if rsp.code == 0 then Ok else ServerError
  }

  function HandleRsp(s: State, rsp: Rsp): State {
    var s0 := if rsp.code == 0 then s.(acks := s.acks + {rsp.id}) else s;
    if rsp.id in s.unacked then DoneBatch(s0, rsp.id, s.unacked[rsp.id], Verdict(rsp))
    else if rsp.id in s.retrying then DoneBatch(s0, rsp.id, s.retrying[rsp.id], Verdict(rsp))
    else s0
  }

  /** A completion request is received, `ph` being the stage afterwards. */
  function TakeDone(s: State, ph: Phase): State
    requires s.doneCh != []
  {
    var e := s.doneCh[0];
    DoneBatch(s.(doneCh := s.doneCh[1..], phase := ph), e.id, e.ref, e.err)
  }

  /** A retry request is received, `ph` being the stage afterwards. */
  function TakeRetry(cfg: Config, s: State, ph: Phase, retryOnFail: bool, w: Write): State
    requires Refs(s) && s.retryCh != []
  {
    HandleRetry(cfg, s.(retryCh := s.retryCh[1..], phase := ph), s.retryCh[0], retryOnFail, w)
  }

  // ----- the stages of `handleClose`

  function InstallHooks(heap: map<Ref, Batch>, refs: set<Ref>): map<Ref, Batch> {
    map r | r in heap :: if r in refs then heap[r].(hook := true) else heap[r]
  }

  /** Last stage: count what is still unacknowledged, and close now if that is nothing. */
  function FinishClose(s: State): State {
    if |s.unacked| == 0 then s.(left := 0, phase := Loop, mode := Closed, closes := s.closes + 1)
    else s.(left := |s.unacked|, phase := Loop, heap := InstallHooks(s.heap, s.unacked.Values))
  }

  // ----- admission

  /** The checks of `doSendAsync` that come before the semaphore, in order. */
  function Check(cfg: Config, mode: Mode, m: Message): Option<Refusal> {
    if m.size == 0 then Some(BadLog)
    else if mode != Ready then Some(ProducerClosed)
    else if m.size > cfg.MessageLimit() then Some(LogTooLong)
    else None
  }

  /** Why a message is refused, or that it is not. */
  predicate RefusedFor(cfg: Config, mode: Mode, m: Message, granted: bool, why: Option<Refusal>) {
    var open := m.size > 0 && mode == Ready;
    var fits := open && m.size <= if cfg.udp then MAX_UDP_REQ_SIZE_V1 else MAX_TCP_REQ_SIZE_V1;
    && (why == Some(BadLog) <==> m.size == 0)
    && (why == Some(ProducerClosed) <==> m.size > 0 && mode != Ready)
    && (why == Some(LogTooLong) <==> open && !fits)
    && (why == Some(ContextExpired) <==> fits && !granted && cfg.blockIfFull)
    && (why == Some(QueueFull) <==> fits && !granted && !cfg.blockIfFull)
    && (why == None <==> fits && granted)
  }

  lemma CheckRefuses(cfg: Config, mode: Mode, m: Message)
    ensures RefusedFor(cfg, mode, m, true, Check(cfg, mode, m))
  {
  }

  function Refuse(s: State, m: Message, why: Refusal): State {
    s.(refused := s.refused + [(m, why)])
  }

  /** The semaphore has granted a permit. */
  function Reserve(s: State, m: Message): State {
    s.(permits := s.permits + 1, reserved := s.reserved + [m])
  }

  // ----- the transition system

  /** A permit may be granted or refused at any time: `WorkerAdmission` adds the semaphore. While the shutdown
      handler empties the queue, another goroutine is about to close it, so messages may still arrive. */
  datatype Producer =
    | DoRefuse(m: Message, why: Refusal)
    | DoReserve(m: Message)
    | DoEnqueue(k: nat)

  datatype Handler =
    | RecvData(w1: Write, r: Ref, id: Id, w2: Write)
    | TickBatch(w: Write)
    | TickSend(id: Id)
    | RecvDone
    | RecvFailed
    | RecvRetry(w: Write)
    | RecvRsp

  datatype Shutdown =
    | CloseStart
    | CloseDataEnd(w: Write)
    | CloseDone
    | CloseDoneEnd
    | CloseRetry(w: Write)
    | CloseRetryEnd
    | CloseResend(id: Id, w: Write)
    | CloseFinish

  /** Timers, write callbacks and responses; other workers using the shared object pool. */
  datatype Environment =
    | PushDone(done: DoneReq)
    | PushFailed(failed: FailedReq)
    | PushRetry(retry: RetryReq)
    | PushRsp(rsp: Rsp)
    | ForeignTake(r: Ref, id: Id)
    | ForeignReturn(r: Ref, b: Batch)

  datatype Step = Produce(p: Producer) | Handle(h: Handler) | Shut(c: Shutdown) | Happen(e: Environment)

  /** An asynchronous event names a batch as it was when it was handed to `SendBatch`. */
  predicate Names(log: map<Id, Entry>, id: Id, r: Ref) {
    id in log && log[id].ref == r
  }

  predicate CanHandle(cfg: Config, s: State, h: Handler)
    requires Refs(s)
  {
    && (s.phase == Loop || (s.phase == DrainData && h.RecvData?))
    && match h
       case RecvData(w1, r, id, w2) =>
         && s.dataCh != []
         && CanAlloc(FlushIfFull(cfg, s.(dataCh := s.dataCh[1..]), s.dataCh[0], w1), r) && id !in s.usedIds
       case TickBatch(w) => true
       case TickSend(id) => id in s.unacked
       case RecvDone => s.doneCh != []
       case RecvFailed => s.failedCh != []
       case RecvRetry(w) => s.retryCh != []
       case RecvRsp => s.rspCh != []
  }

  function ApplyHandler(cfg: Config, s: State, h: Handler): State
    requires Refs(s) && CanHandle(cfg, s, h)
  {
    match h
    case RecvData(w1, r, id, w2) =>
      Enlist(cfg, FlushIfFull(cfg, s.(dataCh := s.dataCh[1..]), s.dataCh[0], w1), s.dataCh[0], r, id, w2)
    case TickBatch(w) => BatchTimeout(cfg, s, w)
    case TickSend(id) => SendTimeoutOne(cfg, s, id)
    case RecvDone => TakeDone(s, s.phase)
    case RecvFailed => HandleSendFailed(cfg, s.(failedCh := s.failedCh[1..]), s.failedCh[0])
    case RecvRetry(w) => TakeRetry(cfg, s, s.phase, true, w)
    case RecvRsp => HandleRsp(s.(rspCh := s.rspCh[1..]), s.rspCh[0])
  }

  predicate CanShut(s: State, c: Shutdown) {
    match c
    case CloseStart => s.phase == Loop && s.mode == Ready
    case CloseDataEnd(w) => s.phase == DrainData && s.dataCh == []
    case CloseDone => s.phase.DrainDone? && s.phase.i < |s.doneCh|
    case CloseDoneEnd => s.phase.DrainDone? && s.phase.i >= |s.doneCh|
    case CloseRetry(w) => s.phase.DrainRetry? && s.phase.j < |s.retryCh|
    case CloseRetryEnd => s.phase.DrainRetry? && s.phase.j >= |s.retryCh|
    case CloseResend(id, w) => s.phase == Resend && id in s.retrying
    case CloseFinish => s.phase == Resend && s.retrying == map[]
  }

  function ApplyShutdown(cfg: Config, s: State, c: Shutdown): State
    requires Refs(s) && CanShut(s, c)
  {
    match c
    case CloseStart => s.(mode := Closing, phase := DrainData)
    case CloseDataEnd(w) => BatchTimeoutOnClose(cfg, s, w)
    case CloseDone => TakeDone(s, DrainDone(s.phase.i + 1))
    case CloseDoneEnd => s.(phase := DrainRetry(0))
    case CloseRetry(w) => TakeRetry(cfg, s, DrainRetry(s.phase.j + 1), false, w)
    case CloseRetryEnd => s.(phase := Resend)
    case CloseResend(id, w) =>
      SendBatch(cfg, s.(retrying := s.retrying - {id}), s.retrying[id], false, w)
    case CloseFinish => FinishClose(s)
  }

  /** Objects that this worker is using. */
  predicate Owned(s: State, r: Ref) {
    s.pending == Some(r) || r in s.unacked.Values || r in s.retrying.Values
  }

  predicate CanHappen(cfg: Config, s: State, e: Environment) {
    match e
    case PushDone(d) => Names(s.log, d.id, d.ref) && (d.err == WriteFailed || d.err == SendTimeout)
    case PushFailed(f) => Names(s.log, f.id, f.ref) && !cfg.udp
    case PushRetry(r) => Names(s.log, r.id, r.ref)
    case PushRsp(rsp) => true
    case ForeignTake(r, id) => CanAlloc(s, r) && id !in s.usedIds
    case ForeignReturn(r, b) =>
      r in s.heap && r !in s.free && !Owned(s, r) && b.id == s.heap[r].id && b.finished
  }

  function ApplyEnvironment(s: State, e: Environment): State {
    match e
    case PushDone(d) => s.(doneCh := s.doneCh + [d])
    case PushFailed(f) => s.(failedCh := s.failedCh + [f])
    case PushRetry(r) => s.(retryCh := s.retryCh + [r])
    case PushRsp(rsp) => s.(rspCh := s.rspCh + [rsp])
    case ForeignTake(r, id) =>
      s.(heap := s.heap[r := Batch(id, false, [], 0, 0, false, false)],
         free := s.free - {r}, usedIds := s.usedIds + {id})
    case ForeignReturn(r, b) => s.(heap := s.heap[r := b], free := s.free + {r})
  }

  predicate CanProduce(cfg: Config, s: State, p: Producer) {
    match p
    case DoRefuse(m, why) => true
    case DoReserve(m) => 0 < m.size <= cfg.MessageLimit()
    case DoEnqueue(k) => (s.mode == Ready || s.phase == DrainData) && k < |s.reserved|
  }

  function ApplyProducer(cfg: Config, s: State, p: Producer): State
    requires CanProduce(cfg, s, p)
  {
    match p
    case DoRefuse(m, why) => Refuse(s, m, why)
    case DoReserve(m) => Reserve(s, m)
    case DoEnqueue(k) =>
      s.(reserved := s.reserved[..k] + s.reserved[k + 1..],
         dataCh := s.dataCh + [s.reserved[k]], accepted := s.accepted + [s.reserved[k]])
  }

  predicate Enabled(cfg: Config, s: State, step: Step)
    requires Refs(s)
  {
    match step
    case Produce(p) => CanProduce(cfg, s, p)
    case Handle(h) => CanHandle(cfg, s, h)
    case Shut(c) => CanShut(s, c)
    case Happen(e) => CanHappen(cfg, s, e)
  }

  function Apply(cfg: Config, s: State, step: Step): State
    requires Refs(s) && Enabled(cfg, s, step)
  {
    match step
    case Produce(p) => ApplyProducer(cfg, s, p)
    case Handle(h) => ApplyHandler(cfg, s, h)
    case Shut(c) => ApplyShutdown(cfg, s, c)
    case Happen(e) => ApplyEnvironment(s, e)
  }

  /** Second stage of `handleClose`: the pending batch leaves without a retry. */
  function BatchTimeoutOnClose(cfg: Config, s: State, w: Write): State
    requires Refs(s)
  {
    var s1 := s.(phase := DrainDone(0));
    if s.pending.Some? then SendBatch(cfg, s1.(pending := None), s.pending.value, false, w) else s1
  }

  /** A run: `trace[i + 1]` follows from `trace[i]` by `steps[i]`. */
  ghost predicate IsRun(cfg: Config, trace: seq<State>, steps: seq<Step>) {
    && |trace| == |steps| + 1
    && trace[0] == INIT
    && forall i :: 0 <= i < |steps| ==>
         Refs(trace[i]) && Enabled(cfg, trace[i], steps[i]) && trace[i + 1] == Apply(cfg, trace[i], steps[i])
  }
}
