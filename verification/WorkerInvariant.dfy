/** The invariant of the worker's state machine, one predicate per concern, and the sequence
    arithmetic behind its ledger of messages. */
module WorkerInvariant {
  import opened Common
  import opened WorkerSpec

  /** Inside a handler one batch may have left all maps; `written` tells whether its current
      attempt has been counted. */
  datatype Limbo = Nobody | Holding(id: Id, written: bool)

  function Held(lim: Limbo): set<Id> {
    if lim.Nobody? then {} else {lim.id}
  }

  /** Batches that were handed to `SendBatch` and have not reported yet. */
  function Live(s: State): set<Id> {
    s.log.Keys - s.results.Keys
  }

  function PendingReqs(p: Option<Ref>, heap: map<Ref, Batch>): seq<Message> {
    if p.Some? && p.value in heap then heap[p.value].reqs else []
  }

  function Writes(writes: map<Id, nat>, id: Id): nat {
    if id in writes then writes[id] else 0
  }

  /** The messages of the batches in `keep`, in order of first send. */
  function Flat(order: seq<Id>, log: map<Id, Entry>, keep: set<Id>): seq<Message> {
    if order == [] then []
    else
      var id := order[|order| - 1];
      Flat(order[..|order| - 1], log, keep) + (if id in keep && id in log then log[id].msgs else [])
  }

  function Msgs(cs: seq<Callback>): seq<Message> {
    seq(|cs|, i requires 0 <= i < |cs| => cs[i].msg)
  }

  function TotalSize(ms: seq<Message>): nat {
    if ms == [] then 0 else TotalSize(ms[..|ms| - 1]) + ms[|ms| - 1].size
  }

  predicate GoodMessage(cfg: Config, m: Message) {
    0 < m.size <= cfg.MessageLimit()
  }

  predicate GoodMessages(cfg: Config, ms: seq<Message>) {
    forall i :: 0 <= i < |ms| ==> GoodMessage(cfg, ms[i])
  }

  /** What may leave as one request. */
  predicate GoodBatch(cfg: Config, ms: seq<Message>) {
    && 1 <= |ms| <= cfg.maxMessages && GoodMessages(cfg, ms)
    && (cfg.udp && !cfg.v3 ==> TotalSize(ms) <= MAX_UDP_REQ_SIZE_V1)
    && (cfg.udp && cfg.v3 && |ms| >= 2 ==> TotalSize(ms) <= MAX_UDP_REQ_SIZE_V3)
  }

  // ----- the concerns

  type Heap = map<Ref, Batch>
  type Log = map<Id, Entry>

  ghost predicate Objects(heap: Heap, free: set<Ref>, log: Log, results: map<Id, Err>, usedIds: set<Id>) {
    && (forall id :: id in log ==> log[id].ref in heap)
    && (forall id :: id in log && id in results && heap[log[id].ref].id == id ==> heap[log[id].ref].finished)
    && (forall id :: id in log && id !in results ==>
          var r := log[id].ref;
          heap[r].id == id && !heap[r].finished && heap[r].reqs == log[id].msgs && r !in free)
    && (forall r :: r in free ==> r in heap && heap[r].finished)
    && log.Keys <= usedIds
  }

  ghost predicate Pending(cfg: Config, p: Option<Ref>, heap: Heap, free: set<Ref>, log: Log, usedIds: set<Id>) {
    p.Some? ==>
      && p.value in heap
      && p.value !in free
      && var b := heap[p.value];
         && !b.finished && b.id !in log && b.id in usedIds
         && b.retries == 0 && !b.hook && !b.encoded
         && b.dataSize == TotalSize(b.reqs)
         && GoodBatch(cfg, b.reqs)
  }

  ghost predicate Maps(v3: bool, unacked: map<Id, Ref>, retrying: map<Id, Ref>, log: Log,
                       results: map<Id, Err>, held: set<Id>)
  {
    && results.Keys <= log.Keys
    && (forall id :: id in unacked ==> id in log && id !in results && id !in retrying && id !in held)
    && (forall id :: id in retrying ==> id in log && id !in results && id !in held)
    && (forall id :: id in held ==> id in log && id !in results)
    && (forall id :: id in log && id !in results ==> id in unacked || id in retrying || id in held)
    && (forall id :: id in unacked ==> unacked[id] == log[id].ref)
    && (forall id :: id in retrying ==> retrying[id] == log[id].ref)
    && (!v3 ==> unacked == map[])
  }

  ghost predicate Ordered(order: seq<Id>, log: Log) {
    && Distinct(order)
    && (forall id :: id in order <==> id in log)
  }

  /** Nothing is lost, duplicated or reordered between acceptance and the first send. */
  ghost predicate Stream(order: seq<Id>, log: Log, pending: seq<Message>, hand: seq<Message>,
                         dataCh: seq<Message>, accepted: seq<Message>)
  {
    Flat(order, log, log.Keys) + pending + hand + dataCh == accepted
  }

  /** The callbacks made so far are those of the batches that have reported. */
  ghost predicate Reported(order: seq<Id>, log: Log, results: map<Id, Err>, callbacks: seq<Callback>) {
    multiset(Msgs(callbacks)) == multiset(Flat(order, log, results.Keys))
  }

  ghost predicate Permits(permits: int, callbacks: seq<Callback>, reserved: seq<Message>, accepted: seq<Message>) {
    permits + |callbacks| == |reserved| + |accepted|
  }

  /** A batch that waits for its next attempt has been written once per retry so far; one whose
      attempt is under way has been written once more. */
  ghost predicate Retries(cfg: Config, heap: Heap, log: Log, results: map<Id, Err>,
                          retrying: map<Id, Ref>, writes: map<Id, nat>, lim: Limbo)
  {
    && (forall id :: id in writes ==> id in log && writes[id] <= cfg.maxRetries + 1)
    && (forall id :: id in log && id !in results && log[id].ref in heap ==>
          var retries := heap[log[id].ref].retries;
          && retries <= cfg.maxRetries
          && Writes(writes, id) == retries + (if id in retrying || lim == Holding(id, false) then 0 else 1)
          && (id in retrying ==> retries >= 1))
  }

  ghost predicate Sizes(cfg: Config, log: Log, dataCh: seq<Message>, reserved: seq<Message>, hand: seq<Message>) {
    && (forall id :: id in log ==> GoodBatch(cfg, log[id].msgs))
    && GoodMessages(cfg, dataCh) && GoodMessages(cfg, reserved) && GoodMessages(cfg, hand)
  }

  ghost predicate Events(log: Log, doneCh: seq<DoneReq>, failedCh: seq<FailedReq>, retryCh: seq<RetryReq>) {
    && (forall e :: e in doneCh ==> Names(log, e.id, e.ref) && (e.err == WriteFailed || e.err == SendTimeout))
    && (forall e :: e in failedCh ==> Names(log, e.id, e.ref))
    && (forall e :: e in retryCh ==> Names(log, e.id, e.ref))
  }

  /** The shutdown handler has counted the unacknowledged batches and waits for them. */
  predicate Waiting(mode: Mode, phase: Phase) {
    mode == Closing && phase == Loop
  }

  ghost predicate Stages(mode: Mode, phase: Phase, closes: nat, dataCh: seq<Message>, pending: Option<Ref>,
                         unacked: map<Id, Ref>, retrying: map<Id, Ref>)
  {
    && (phase != Loop ==> mode == Closing)
    && closes == (if mode == Closed then 1 else 0)
    && (mode != Ready && phase != DrainData ==> dataCh == [] && pending.None?)
    && (mode != Ready && phase == Loop ==> retrying == map[])
    && (mode == Closed ==> unacked == map[])
  }

  ghost predicate Countdown(mode: Mode, phase: Phase, left: int, unacked: map<Id, Ref>, held: set<Id>) {
    && (Waiting(mode, phase) ==> left == |unacked| + |held| > 0)
    && (mode == Closed ==> held == {})
  }

  ghost predicate Hooks(heap: Heap, log: Log, results: map<Id, Err>, waiting: bool) {
    forall id :: id in log && id !in results && log[id].ref in heap ==> heap[log[id].ref].hook == waiting
  }

  ghost predicate Honest(v3: bool, log: Log, results: map<Id, Err>, callbacks: seq<Callback>,
                         writes: map<Id, nat>, acks: set<Id>)
  {
    && (forall c :: c in callbacks ==>
          c.id in results && c.err == results[c.id] && c.id in log && c.msg in log[c.id].msgs)
    && (forall id :: id in results && results[id] == Ok ==>
          Writes(writes, id) >= 1 && (v3 ==> id in acks))
  }

  ghost predicate Core(cfg: Config, s: State, lim: Limbo, hand: seq<Message>) {
    && Objects(s.heap, s.free, s.log, s.results, s.usedIds)
    && Pending(cfg, s.pending, s.heap, s.free, s.log, s.usedIds)
    && Maps(cfg.v3, s.unacked, s.retrying, s.log, s.results, Held(lim))
    && Ordered(s.order, s.log)
    && Stream(s.order, s.log, PendingReqs(s.pending, s.heap), hand, s.dataCh, s.accepted)
    && Reported(s.order, s.log, s.results, s.callbacks)
    && Permits(s.permits, s.callbacks, s.reserved, s.accepted)
    && Retries(cfg, s.heap, s.log, s.results, s.retrying, s.writes, lim)
    && Sizes(cfg, s.log, s.dataCh, s.reserved, hand)
    && Events(s.log, s.doneCh, s.failedCh, s.retryCh)
    && Stages(s.mode, s.phase, s.closes, s.dataCh, s.pending, s.unacked, s.retrying)
    && Countdown(s.mode, s.phase, s.left, s.unacked, Held(lim))
    && Hooks(s.heap, s.log, s.results, Waiting(s.mode, s.phase))
    && Honest(cfg.v3, s.log, s.results, s.callbacks, s.writes, s.acks)
  }

  /** A batch stays pending only while it has room for another message. */
  ghost predicate Room(cfg: Config, s: State) {
    s.pending.Some? && s.pending.value in s.heap ==> |s.heap[s.pending.value].reqs| < cfg.maxMessages
  }

  /** The invariant between handlers. */
  ghost predicate Inv(cfg: Config, s: State) {
    cfg.Supported() && Core(cfg, s, Nobody, []) && Room(cfg, s) && (cfg.udp ==> s.failedCh == [])
  }

  // ----- ledger arithmetic

  lemma {:induction false} FlatFrame(order: seq<Id>, log: map<Id, Entry>, log': map<Id, Entry>,
                                     keep: set<Id>, keep': set<Id>)
    requires forall id :: id in order ==> (id in keep <==> id in keep') && (id in log <==> id in log')
    requires forall id :: id in order && id in log ==> log[id].msgs == log'[id].msgs
    ensures Flat(order, log, keep) == Flat(order, log', keep')
  {
    if order != [] {
      FlatFrame(order[..|order| - 1], log, log', keep, keep');
    }
  }

  lemma FlatAppend(order: seq<Id>, log: map<Id, Entry>, keep: set<Id>, id: Id, e: Entry)
    requires id !in order && id !in keep && id !in log
    ensures Flat(order + [id], log[id := e], keep + {id}) == Flat(order, log, keep) + e.msgs
    ensures Flat(order + [id], log[id := e], keep) == Flat(order, log, keep)
  {
    assert (order + [id])[..|order|] == order;
    FlatFrame(order, log, log[id := e], keep, keep + {id});
    FlatFrame(order, log, log[id := e], keep, keep);
  }

  lemma {:induction false} FlatInsert(order: seq<Id>, log: map<Id, Entry>, keep: set<Id>, id: Id)
    requires Distinct(order) && id in order && id in log && id !in keep
    ensures multiset(Flat(order, log, keep + {id})) == multiset(Flat(order, log, keep)) + multiset(log[id].msgs)
  {
    var n := |order| - 1;
    if order[n] == id {
      assert id !in order[..n];
      FlatFrame(order[..n], log, log, keep, keep + {id});
      assert Flat(order, log, keep) == Flat(order[..n], log, keep);
      assert Flat(order, log, keep + {id}) == Flat(order[..n], log, keep) + log[id].msgs;
    } else {
      assert id in order[..n];
      FlatInsert(order[..n], log, keep, id);
      var last := if order[n] in keep && order[n] in log then log[order[n]].msgs else [];
      assert Flat(order, log, keep) == Flat(order[..n], log, keep) + last;
      assert Flat(order, log, keep + {id}) == Flat(order[..n], log, keep + {id}) + last;
    }
  }

  lemma {:induction false} FlatSplit(order: seq<Id>, log: map<Id, Entry>, a: set<Id>, b: set<Id>)
    requires a !! b
    ensures multiset(Flat(order, log, a + b)) == multiset(Flat(order, log, a)) + multiset(Flat(order, log, b))
  {
    if order != [] {
      FlatSplit(order[..|order| - 1], log, a, b);
    }
  }

  lemma MsgsConcat(a: seq<Callback>, b: seq<Callback>)
    ensures Msgs(a + b) == Msgs(a) + Msgs(b)
  {
  }

  lemma MsgsOfBatch(b: Batch, err: Err)
    ensures Msgs(Callbacks(b, err)) == b.reqs
  {
  }
}
