/** The worker as it is written: an object whose handlers update its maps, its batch objects and its
    channels step by step. Each method is proved against the function of `WorkerSpec` that describes
    its effect, and the event loop against runs of the state machine. What a write, a timer or
    another goroutine does is chosen arbitrarily. */
module WorkerLoop {
  import opened Common
  import opened WorkerSpec
  import opened WorkerInvariant
  import opened WorkerMoves
  import opened WorkerSteps
  import opened WorkerRuns

  /** The state after `steps`, if each of them is enabled in turn. */
  ghost function Exec(cfg: Config, s: State, steps: seq<Step>): Option<State> {
    if steps == [] then Some(s)
    else
      var n := |steps| - 1;
      match Exec(cfg, s, steps[..n])
      case None => None
      case Some(t) => if Refs(t) && Enabled(cfg, t, steps[n]) then Some(Apply(cfg, t, steps[n])) else None
  }

  /** Some steps of the state machine lead from `s` to `t`. */
  ghost predicate Leads(cfg: Config, s: State, t: State) {
    exists steps :: Exec(cfg, s, steps) == Some(t)
  }

  lemma LeadsNowhere(cfg: Config, s: State)
    ensures Leads(cfg, s, s)
  {
    assert Exec(cfg, s, []) == Some(s);
  }

  lemma LeadsStep(cfg: Config, s: State, t: State, step: Step)
    requires Leads(cfg, s, t) && Refs(t) && Enabled(cfg, t, step)
    ensures Leads(cfg, s, Apply(cfg, t, step))
  {
    var steps :| Exec(cfg, s, steps) == Some(t);
    ExecStep(cfg, s, steps, t, step);
  }

  lemma ExecStep(cfg: Config, s: State, steps: seq<Step>, t: State, step: Step)
    requires Exec(cfg, s, steps) == Some(t) && Refs(t) && Enabled(cfg, t, step)
    ensures Exec(cfg, s, steps + [step]) == Some(Apply(cfg, t, step))
  {
    var more := steps + [step];
    assert more[..|more| - 1] == steps && more[|more| - 1] == step;
  }

  /** One step of the shutdown handler. */
  lemma LeadsShut(cfg: Config, s: State, c: Shutdown, t: State)
    requires Refs(s) && CanShut(s, c) && ApplyShutdown(cfg, s, c) == t
    ensures Leads(cfg, s, t)
  {
    LeadsNowhere(cfg, s);
    LeadsStep(cfg, s, s, Shut(c));
  }

  lemma {:induction false} ExecConcat(cfg: Config, s: State, a: seq<Step>, t: State, b: seq<Step>)
    requires Exec(cfg, s, a) == Some(t)
    ensures Exec(cfg, s, a + b) == Exec(cfg, t, b)
  {
    if b == [] {
      assert a + b == a;
    } else {
      var n := |b| - 1;
      ExecConcat(cfg, s, a, t, b[..n]);
      assert (a + b)[..|a + b| - 1] == a + b[..n];
    }
  }

  lemma LeadsOn(cfg: Config, s: State, t: State, u: State)
    requires Leads(cfg, s, t) && Leads(cfg, t, u)
    ensures Leads(cfg, s, u)
  {
    var a :| Exec(cfg, s, a) == Some(t);
    var b :| Exec(cfg, t, b) == Some(u);
    ExecConcat(cfg, s, a, t, b);
  }

  lemma ReachedMore(cfg: Config, s: State, t: State, u: State)
    requires Leads(cfg, INIT, t) && Leads(cfg, s, t) && Leads(cfg, t, u)
    ensures Leads(cfg, INIT, u) && Leads(cfg, s, u)
  {
    LeadsOn(cfg, INIT, t, u);
    LeadsOn(cfg, s, t, u);
  }

  /** The last step of an execution. */
  lemma ExecLast(cfg: Config, s: State, steps: seq<Step>, t: State) returns (u: State)
    requires steps != [] && Exec(cfg, s, steps) == Some(t)
    ensures Exec(cfg, s, steps[..|steps| - 1]) == Some(u)
    ensures Refs(u) && Enabled(cfg, u, steps[|steps| - 1]) && t == Apply(cfg, u, steps[|steps| - 1])
  {
    u := Exec(cfg, s, steps[..|steps| - 1]).value;
  }

  lemma RunExtends(cfg: Config, trace: seq<State>, steps: seq<Step>, step: Step, t: State)
    requires IsRun(cfg, trace, steps) && Refs(trace[|steps|]) && Enabled(cfg, trace[|steps|], step)
    requires t == Apply(cfg, trace[|steps|], step)
    ensures IsRun(cfg, trace + [t], steps + [step])
  {
  }

  lemma {:induction false} ExecIsRun(cfg: Config, steps: seq<Step>, t: State) returns (trace: seq<State>)
    requires Exec(cfg, INIT, steps) == Some(t)
    ensures IsRun(cfg, trace, steps) && trace[|steps|] == t
  {
    if steps == [] {
      trace := [INIT];
    } else {
      var n := |steps| - 1;
      var u := ExecLast(cfg, INIT, steps, t);
      var before := ExecIsRun(cfg, steps[..n], u);
      RunExtends(cfg, before, steps[..n], steps[n], t);
      assert steps[..n] + [steps[n]] == steps;
      trace := before + [t];
    }
  }

  /** The states of the object are the states of the runs that `WorkerRuns` speaks about. */
  lemma ReachedIsRun(cfg: Config, t: State) returns (trace: seq<State>, steps: seq<Step>)
    requires Leads(cfg, INIT, t)
    ensures IsRun(cfg, trace, steps) && trace[|steps|] == t
  {
    steps :| Exec(cfg, INIT, steps) == Some(t);
    trace := ExecIsRun(cfg, steps, t);
  }

  lemma ReachedRefs(cfg: Config, t: State)
    requires cfg.Supported() && Leads(cfg, INIT, t)
    ensures Refs(t)
  {
    var trace, steps := ReachedIsRun(cfg, t);
    RunKeepsInv(cfg, trace, steps, |steps|);
  }

  // ----- deleting the pending entry before or after sending makes no difference

  lemma FinishIgnoresPending(s: State, p: Option<Ref>, r: Ref, err: Err)
    requires r in s.heap
    ensures FinishBatch(s.(pending := p), r, err) == FinishBatch(s, r, err).(pending := p)
  {
    if !s.heap[r].finished {
      ReportIgnoresPending(s, p, r, err, s.heap[r].hook, s.heap[r].hook && s.left - 1 <= 0);
    }
  }

  lemma ReportIgnoresPending(s: State, p: Option<Ref>, r: Ref, err: Err, hook: bool, last: bool)
    requires r in s.heap && !s.heap[r].finished && hook == s.heap[r].hook && last == (hook && s.left - 1 <= 0)
    ensures FinishBatch(s.(pending := p), r, err) == FinishBatch(s, r, err).(pending := p)
  {
    var b := s.heap[r];
    var t := s.(heap := s.heap[r := b.(finished := true, reqs := [], encoded := false, hook := false)],
                free := s.free + {r}, callbacks := s.callbacks + Callbacks(b, err), permits := s.permits - |b.reqs|,
                results := s.results[b.id := err], left := if hook then s.left - 1 else s.left,
                mode := if last then Closed else s.mode, closes := if last then s.closes + 1 else s.closes);
    assert FinishBatch(s, r, err) == t;
    assert FinishBatch(s.(pending := p), r, err) == t.(pending := p);
  }

  lemma DoneIgnoresPending(s: State, p: Option<Ref>, id: Id, r: Ref, err: Err)
    ensures DoneBatch(s.(pending := p), id, r, err) == DoneBatch(s, id, r, err).(pending := p)
  {
    if r in s.heap {
      var s1 := s.(unacked := s.unacked - {id}).(retrying := s.retrying - {id});
      FinishIgnoresPending(s1, p, r, err);
      assert s.(pending := p).(unacked := s.unacked - {id}).(retrying := s.retrying - {id}) == s1.(pending := p);
    }
  }

  lemma BackoffIgnoresPending(cfg: Config, s: State, p: Option<Ref>, r: Ref)
    requires r in s.heap
    ensures BackoffRetry(cfg, s.(pending := p), r) == BackoffRetry(cfg, s, r).(pending := p)
  {
    DoneIgnoresPending(s, p, s.heap[r].id, r, SendTimeout);
  }

  lemma AfterWriteIgnoresPending(cfg: Config, s: State, p: Option<Ref>, r: Ref, retryOnFail: bool, w: Write)
    requires r in s.heap
    ensures AfterWrite(cfg, s.(pending := p), r, retryOnFail, w) == AfterWrite(cfg, s, r, retryOnFail, w).(pending := p)
  {
    BackoffIgnoresPending(cfg, s, p, r);
    DoneIgnoresPending(s, p, s.heap[r].id, r, Ok);
    DoneIgnoresPending(s, p, s.heap[r].id, r, WriteFailed);
  }

  lemma SendIgnoresPending(cfg: Config, s: State, p: Option<Ref>, r: Ref, retryOnFail: bool, w: Write)
    requires r in s.heap
    ensures SendBatch(cfg, s.(pending := p), r, retryOnFail, w) == SendBatch(cfg, s, r, retryOnFail, w).(pending := p)
  {
    var b, s0 := s.heap[r], Record(s, r);
    RecordIgnoresPending(s, p, r);
    if b.retries > cfg.maxRetries {
      DoneIgnoresPending(s0, p, b.id, r, SendTimeout);
    } else if !b.encoded && w.EncodeError? {
      DoneIgnoresPending(s0, p, b.id, r, EncodeFailed);
    } else {
      WriteIgnoresPending(cfg, s0, p, r, retryOnFail, w);
    }
  }

  lemma RecordIgnoresPending(s: State, p: Option<Ref>, r: Ref)
    requires r in s.heap
    ensures WorkerSpec.Record(s.(pending := p), r) == WorkerSpec.Record(s, r).(pending := p)
  {
  }

  lemma WriteIgnoresPending(cfg: Config, s: State, p: Option<Ref>, r: Ref, retryOnFail: bool, w: Write)
    requires r in s.heap
    ensures AfterWrite(cfg, CountWrite(s.(pending := p), r), r, retryOnFail, w) ==
            AfterWrite(cfg, CountWrite(s, r), r, retryOnFail, w).(pending := p)
  {
    assert CountWrite(s.(pending := p), r) == CountWrite(s, r).(pending := p);
    AfterWriteIgnoresPending(cfg, CountWrite(s, r), p, r, retryOnFail, w);
  }

  lemma SendTimeoutDrops(cfg: Config, s: State, id: Id)
    requires Refs(s) && id in s.unacked && s.phase == Loop && cfg.Supported() && Leads(cfg, INIT, s)
    ensures var t := SendTimeoutOne(cfg, s, id);
            && t.phase == Loop && t.unacked.Keys == s.unacked.Keys - {id}
            && (id in t.retrying || id in t.results)
            && forall x :: x in s.retrying || x in s.results ==> x in t.retrying || x in t.results
  {
    var trace, steps := ReachedIsRun(cfg, s);
    RunKeepsInv(cfg, trace, steps, |steps|);
    BackoffFrame(cfg, s.(unacked := s.unacked - {id}), s.unacked[id]);
    BackoffDrops(cfg, s.(unacked := s.unacked - {id}), id, s.unacked[id]);
  }

  lemma BackoffDrops(cfg: Config, s: State, id: Id, r: Ref)
    requires r in s.heap && s.heap[r].id == id && !s.heap[r].finished && id !in s.unacked && id !in s.retrying
    ensures var t := BackoffRetry(cfg, s, r);
            && t.unacked == s.unacked
            && (id in t.retrying || id in t.results)
            && forall x :: x in s.retrying || x in s.results ==> x in t.retrying || x in t.results
  {
    assert s.unacked - {id} == s.unacked;
    assert s.retrying - {id} == s.retrying;
  }

  /** What the shutdown handler relies on while it runs. */
  lemma ReachedStage(cfg: Config, t: State)
    requires cfg.Supported() && Leads(cfg, INIT, t)
    ensures Refs(t)
    ensures t.phase != Loop ==> t.mode == Closing
    ensures PastData(t.phase) ==> t.dataCh == [] && t.pending.None?
  {
    var trace, steps := ReachedIsRun(cfg, t);
    RunKeepsInv(cfg, trace, steps, |steps|);
  }

  lemma ResendShrinks(cfg: Config, s: State, id: Id, w: Write)
    requires id in s.retrying && s.retrying[id] in s.heap && s.mode != Ready
    ensures var t := SendBatch(cfg, s.(retrying := s.retrying - {id}), s.retrying[id], false, w);
            |t.retrying| < |s.retrying| && t.phase == s.phase
  {
    var u := s.(retrying := s.retrying - {id});
    SendFrame(cfg, u, s.retrying[id], false, w);
    LeaveCount(s.retrying, id);
    var t := SendBatch(cfg, u, s.retrying[id], false, w);
    assert t.retrying.Keys <= u.retrying.Keys;
    SubsetSize(t.retrying.Keys, u.retrying.Keys);
  }

  lemma {:induction false} SubsetSize(a: set<Id>, b: set<Id>)
    requires a <= b
    ensures |a| <= |b|
  {
    if a != {} {
      var x :| x in a;
      SubsetSize(a - {x}, b - {x});
    }
  }

  lemma {:induction false} Unused(s: set<nat>) returns (n: nat)
    ensures forall x :: x in s ==> x < n
  {
    if s == {} {
      n := 0;
    } else {
      var x :| x in s;
      var m := Unused(s - {x});
      n := if x < m then m else x + 1;
      forall y | y in s ensures y < n {
        assert y == x || y in s - {x};
      }
    }
  }

  class Worker {
    const cfg: Config

    var heap: map<Ref, Batch>
    var free: set<Ref>
    var pending: Option<Ref>
    var unacked: map<Id, Ref>
    var retrying: map<Id, Ref>
    var dataCh: seq<Message>
    var doneCh: seq<DoneReq>
    var failedCh: seq<FailedReq>
    var retryCh: seq<RetryReq>
    var rspCh: seq<Rsp>
    var mode: Mode
    var left: int
    var permits: int
    var reserved: seq<Message>
    var callbacks: seq<Callback>
    var refused: seq<(Message, Refusal)>
    var usedIds: set<Id>

    // where the goroutine is, and what has happened so far; nothing below decides on these except
    // which events other goroutines may still send
    var phase: Phase
    var closes: nat
    var accepted: seq<Message>
    var order: seq<Id>
    var log: map<Id, Entry>
    var writes: map<Id, nat>
    var results: map<Id, Err>
    var acks: set<Id>

    function View(): State
      reads this
    {
      State(heap, free, pending, unacked, retrying, dataCh, doneCh, failedCh, retryCh, rspCh,
            mode, phase, left, closes, permits, reserved, accepted, refused, callbacks,
            usedIds, order, log, writes, results, acks)
    }

    constructor (cfg: Config)
      ensures this.cfg == cfg && View() == INIT
    {
      this.cfg := cfg;
      heap, free, pending, unacked, retrying := map[], {}, None, map[], map[];
      dataCh, doneCh, failedCh, retryCh, rspCh := [], [], [], [], [];
      mode, left, permits, reserved, callbacks, refused, usedIds := Ready, 0, 0, [], [], [], {};
      phase, closes, accepted, order, log, writes, results, acks := Loop, 0, [], [], map[], map[], map[], {};
    }

    // ----- completing a batch

    /** Each message of the batch gives back its permit and gets its callback. */
    method CallBack(b: Batch, err: Err)
      modifies `callbacks, `permits
      ensures callbacks == old(callbacks) + Callbacks(b, err)
      ensures permits == old(permits) - |b.reqs|
    {
      var i := 0;
      while i < |b.reqs|
        invariant 0 <= i <= |b.reqs|
        invariant callbacks == old(callbacks) + Callbacks(b, err)[..i]
        invariant permits == old(permits) - i
      {
        permits := permits - 1;
        callbacks := callbacks + [Callback(b.reqs[i], err, b.id)];
        i := i + 1;
      }
      assert Callbacks(b, err)[..i] == Callbacks(b, err);
    }

    /** `batchReq.done`. */
    method FinishBatch(r: Ref, err: Err)
      requires r in heap
      modifies `heap, `free, `callbacks, `permits, `left, `mode, `results, `closes
      ensures View() == WorkerSpec.FinishBatch(old(View()), r, err)
    {
      var b := heap[r];
      if !b.finished {
        Report(r, err);
      }
    }

    method Report(r: Ref, err: Err)
      requires r in heap && !heap[r].finished
      modifies `heap, `free, `callbacks, `permits, `left, `mode, `results, `closes
      ensures View() == WorkerSpec.FinishBatch(old(View()), r, err)
    {
      var b := heap[r];
      heap := heap[r := b.(finished := true, reqs := [], encoded := false, hook := false)];
      Tell(b, err);
      free, results := free + {r}, results[b.id := err];
    }

    method Tell(b: Batch, err: Err)
      modifies `callbacks, `permits, `left, `mode, `closes
      ensures callbacks == old(callbacks) + Callbacks(b, err) && permits == old(permits) - |b.reqs|
      ensures left == (if b.hook then old(left) - 1 else old(left))
      ensures mode == (if b.hook && left <= 0 then Closed else old(mode))
      ensures closes == (if b.hook && left <= 0 then old(closes) + 1 else old(closes))
    {
      CallBack(b, err);
      RunHook(b.hook);
    }

    /** The hook that the shutdown handler installs on the batches it waits for. */
    method RunHook(installed: bool)
      modifies `left, `mode, `closes
      ensures left == (if installed then old(left) - 1 else old(left))
      ensures mode == (if installed && left <= 0 then Closed else old(mode))
      ensures closes == (if installed && left <= 0 then old(closes) + 1 else old(closes))
    {
      if installed {
        left := left - 1;
        if left <= 0 {
          CloseAll();
        }
      }
    }

    /** The release of all resources. */
    method CloseAll()
      modifies `mode, `closes
      ensures mode == Closed && closes == old(closes) + 1
    {
      mode := Closed;
      closes := closes + 1;
    }

    method DoneBatch(id: Id, r: Ref, err: Err)
      modifies `unacked, `retrying, `heap, `free, `callbacks, `permits, `left, `mode, `results, `closes
      ensures View() == WorkerSpec.DoneBatch(old(View()), id, r, err)
    {
      if r in heap && heap[r].id == id && (id !in unacked || unacked[id] == r) {
        unacked := unacked - {id};
        DoneRetrying(id, r, err);
      }
    }

    method DoneRetrying(id: Id, r: Ref, err: Err)
      requires r in heap
      modifies `retrying, `heap, `free, `callbacks, `permits, `left, `mode, `results, `closes
      ensures var s := old(View());
              View() == if id in s.retrying && s.retrying[id] != r then s
                        else WorkerSpec.FinishBatch(s.(retrying := s.retrying - {id}), r, err)
    {
      if id !in retrying || retrying[id] == r {
        retrying := retrying - {id};
        FinishBatch(r, err);
      }
    }

    // ----- sending a batch

    method BackoffRetry(r: Ref)
      requires r in heap
      modifies `unacked, `retrying, `heap, `free, `callbacks, `permits, `left, `mode, `results, `closes
      ensures View() == WorkerSpec.BackoffRetry(cfg, old(View()), r)
    {
      var id := heap[r].id;
      if id in retrying {
        return;
      }
      if heap[r].retries >= cfg.maxRetries {
        DoneBatch(id, r, SendTimeout);
        return;
      }
      if mode != Ready {
        DoneBatch(id, r, SendTimeout);
        return;
      }
      heap := heap[r := heap[r].(retries := heap[r].retries + 1)];
      retrying := retrying[id := r];
    }

    method Record(r: Ref)
      requires r in heap
      modifies `order, `log
      ensures View() == WorkerSpec.Record(old(View()), r)
    {
      var b := heap[r];
      if b.id !in log {
        order, log := order + [b.id], log[b.id := Entry(r, b.reqs)];
      }
    }

    method AfterWrite(r: Ref, retryOnFail: bool, w: Write)
      requires r in heap
      modifies `unacked, `retrying, `heap, `free, `callbacks, `permits, `left, `mode, `results, `closes
      ensures View() == WorkerSpec.AfterWrite(cfg, old(View()), r, retryOnFail, w)
    {
      var id := heap[r].id;
      if !w.Written? {
        if mode == Ready && retryOnFail {
          BackoffRetry(r);
        } else {
          DoneBatch(id, r, WriteFailed);
        }
        return;
      }
      if !cfg.v3 {
        DoneBatch(id, r, Ok);
      } else {
        unacked := unacked[id := r];
      }
    }

    method SendBatch(r: Ref, retryOnFail: bool) returns (ghost w: Write)
      requires r in heap
      modifies `unacked, `retrying, `heap, `free, `callbacks, `permits, `left, `mode, `results, `closes,
               `order, `log, `writes
      ensures View() == WorkerSpec.SendBatch(cfg, old(View()), r, retryOnFail, w)
    {
      var b := heap[r];
      var outcome: Write := *;
      w := outcome;
      Record(r);
      if b.retries > cfg.maxRetries {
        DoneBatch(b.id, r, SendTimeout);
        return;
      }
      if !b.encoded && outcome.EncodeError? {
        DoneBatch(b.id, r, EncodeFailed);
        return;
      }
      ghost var s0 := View();
      heap := heap[r := b.(encoded := true)];
      writes := writes[b.id := (if b.id in writes then writes[b.id] else 0) + 1];
      assert View() == CountWrite(s0, r);
      AfterWrite(r, retryOnFail, outcome);
    }

    // ----- handlers

    /** Sends the pending batch and forgets it. */
    method SendPending(retryOnFail: bool) returns (ghost w: Write)
      requires pending.Some? && pending.value in heap
      modifies `unacked, `retrying, `heap, `free, `callbacks, `permits, `left, `mode, `results, `closes,
               `order, `log, `writes, `pending
      ensures View() == WorkerSpec.SendBatch(cfg, old(View()).(pending := None), old(pending.value), retryOnFail, w)
    {
      ghost var before := View();
      w := SendBatch(pending.value, retryOnFail);
      SendIgnoresPending(cfg, before, None, before.pending.value, retryOnFail, w);
      pending := None;
    }

    /** `batchPool.Get`. */
    method PickObject() returns (r: Ref)
      ensures CanAlloc(View(), r)
    {
      ghost var bound := Unused(heap.Keys);
      assert bound !in heap;
      r :| r in free || r !in heap;
    }

    /** `buildBatchID`. */
    method PickId() returns (id: Id)
      ensures id !in usedIds
    {
      ghost var bound := Unused(usedIds);
      assert bound !in usedIds;
      id :| id !in usedIds;
    }

    /** The object leaves the pool as an empty batch with a new id. */
    method TakeObject(r: Ref, id: Id)
      modifies `heap, `free, `usedIds
      ensures heap == old(heap)[r := Batch(id, false, [], 0, 0, false, false)]
      ensures free == old(free) - {r} && usedIds == old(usedIds) + {id}
    {
      heap := heap[r := Batch(id, false, [], 0, 0, false, false)];
      free := free - {r};
      usedIds := usedIds + {id};
    }

    method NewBatch(r: Ref, id: Id)
      modifies `heap, `free, `pending, `usedIds
      ensures View() == WorkerSpec.NewBatch(old(View()), r, id)
    {
      TakeObject(r, id);
      pending := Some(r);
    }

    method FlushIfFull(m: Message) returns (ghost w: Write)
      requires Refs(View())
      modifies `unacked, `retrying, `heap, `free, `callbacks, `permits, `left, `mode, `results, `closes,
               `order, `log, `writes, `pending
      ensures View() == WorkerSpec.FlushIfFull(cfg, old(View()), m, w)
    {
      w := Written;
      if pending.Some? && cfg.udp && m.size + heap[pending.value].dataSize > cfg.UdpLimit() {
        w := SendPending(true);
      }
    }

    method Append(m: Message)
      requires pending.Some? && pending.value in heap
      modifies `heap
      ensures View() == WorkerSpec.Append(old(View()), m)
    {
      var b := heap[pending.value];
      heap := heap[pending.value := b.(reqs := b.reqs + [m], dataSize := b.dataSize + m.size)];
    }

    /** `handleSendData`. */
    method HandleSendData(m: Message) returns (ghost w1: Write, r: Ref, id: Id, ghost w2: Write)
      requires Refs(View())
      modifies `unacked, `retrying, `heap, `free, `callbacks, `permits, `left, `mode, `results, `closes,
               `order, `log, `writes, `pending, `usedIds
      ensures CanAlloc(WorkerSpec.FlushIfFull(cfg, old(View()), m, w1), r) && id !in old(usedIds)
      ensures View() == Enlist(cfg, WorkerSpec.FlushIfFull(cfg, old(View()), m, w1), m, r, id, w2)
    {
      w1 := FlushIfFull(m);
      w2 := Written;
      r := PickObject();
      id := PickId();
      if pending.None? {
        NewBatch(r, id);
      }
      Append(m);
      if !KeepWaiting(cfg, heap[pending.value], m) {
        w2 := SendPending(true);
      }
    }

    /** `handleBatchTimeout`; `aged` tells whether the pending batch has waited long enough. */
    method HandleBatchTimeout(aged: bool) returns (ghost w: Write)
      requires Refs(View())
      modifies `unacked, `retrying, `heap, `free, `callbacks, `permits, `left, `mode, `results, `closes,
               `order, `log, `writes, `pending
      ensures View() == if aged then BatchTimeout(cfg, old(View()), w) else old(View())
    {
      w := Written;
      if pending.Some? && aged {
        w := SendPending(true);
      }
    }

    /** One iteration of `handleSendTimeout`. */
    method SendTimeoutOne(id: Id)
      requires cfg.Supported() && Leads(cfg, INIT, View()) && phase == Loop && id in unacked
      modifies `unacked, `retrying, `heap, `free, `callbacks, `permits, `left, `mode, `results, `closes
      ensures Refs(old(View())) && View() == WorkerSpec.SendTimeoutOne(cfg, old(View()), id)
      ensures Leads(cfg, old(View()), View()) && phase == Loop
      ensures unacked.Keys == old(unacked.Keys) - {id} && (id in retrying || id in results)
      ensures forall x :: x in old(retrying) || x in old(results) ==> x in retrying || x in results
    {
      ghost var before := View();
      ReachedRefs(cfg, before);
      var r := unacked[id];
      unacked := unacked - {id};
      BackoffRetry(r);
      LeadsNowhere(cfg, before);
      LeadsStep(cfg, before, before, Handle(TickSend(id)));
      SendTimeoutDrops(cfg, before, id);
    }

    /** One more late batch, after some others. */
    method TimeOutNext(id: Id, ghost start: State)
      requires cfg.Supported() && Leads(cfg, INIT, start) && Leads(cfg, start, View()) && phase == Loop && id in unacked
      modifies `unacked, `retrying, `heap, `free, `callbacks, `permits, `left, `mode, `results, `closes
      ensures Leads(cfg, start, View()) && phase == Loop
      ensures (forall x :: x in unacked <==> x in old(unacked) && x != id) && (id in retrying || id in results)
      ensures forall x :: x in old(retrying) || x in old(results) ==> x in retrying || x in results
    {
      LeadsOn(cfg, INIT, start, View());
      SendTimeoutOne(id);
      LeadsOn(cfg, start, old(View()), View());
    }

    /** `handleSendTimeout`: visits the entries in any order; `late` are those that have waited too
        long. Exactly these leave, to be retried or reported. */
    method HandleSendTimeout(late: set<Id>)
      requires cfg.Supported() && Leads(cfg, INIT, View()) && phase == Loop
      modifies `unacked, `retrying, `heap, `free, `callbacks, `permits, `left, `mode, `results, `closes
      ensures Leads(cfg, old(View()), View()) && phase == Loop
      ensures forall id :: id in unacked <==> id in old(unacked) && id !in late
      ensures forall id :: id in late && id in old(unacked) ==> id in retrying || id in results
    {
      LeadsNowhere(cfg, View());
      var keys, done: set<Id> := unacked.Keys, {};
      while done < keys
        invariant Leads(cfg, old(View()), View()) && phase == Loop && done <= keys
        invariant forall id :: id in unacked <==> id in keys && (id !in late || id !in done)
        invariant forall id :: id in late && id in done ==> id in retrying || id in results
        decreases keys - done
      {
        var id :| id in keys && id !in done;
        if id in late {
          TimeOutNext(id, old(View()));
        }
        done := done + {id};
      }
    }

    method HandleSendFailed(e: FailedReq)
      modifies `unacked, `retrying, `heap, `free, `callbacks, `permits, `left, `mode, `results, `closes
      ensures View() == WorkerSpec.HandleSendFailed(cfg, old(View()), e)
    {
      if e.ref !in heap || heap[e.ref].id != e.id {
        return;
      }
      if cfg.v3 {
        if e.id !in unacked || unacked[e.id] != e.ref {
          return;
        }
        unacked := unacked - {e.id};
      }
      if e.retry && mode == Ready {
        BackoffRetry(e.ref);
      } else {
        DoneBatch(e.id, e.ref, WriteFailed);
      }
    }

    method HandleRetry(e: RetryReq, retryOnFail: bool) returns (ghost w: Write)
      requires Refs(View())
      modifies `unacked, `retrying, `heap, `free, `callbacks, `permits, `left, `mode, `results, `closes,
               `order, `log, `writes
      ensures View() == WorkerSpec.HandleRetry(cfg, old(View()), e, retryOnFail, w)
    {
      w := Written;
      if e.id in retrying && retrying[e.id] == e.ref {
        retrying := retrying - {e.id};
        w := SendBatch(e.ref, retryOnFail);
      }
    }

    method HandleRsp(rsp: Rsp)
      modifies `unacked, `retrying, `heap, `free, `callbacks, `permits, `left, `mode, `results, `closes, `acks
      ensures View() == WorkerSpec.HandleRsp(old(View()), rsp)
    {
      if rsp.code == 0 {
        acks := acks + {rsp.id};
      }
      if rsp.id in unacked {
        DoneBatch(rsp.id, unacked[rsp.id], if rsp.code == 0 then Ok else ServerError);
      } else if rsp.id in retrying {
        DoneBatch(rsp.id, retrying[rsp.id], if rsp.code == 0 then Ok else ServerError);
      }
    }

    // ----- producers

    /** The checks of `doSendAsync`, in order; `granted` is what the semaphore says. */
    method Admits(m: Message, granted: bool) returns (why: Option<Refusal>)
      ensures RefusedFor(cfg, mode, m, granted, why)
    {
      if m.size == 0 {
        return Some(BadLog);
      }
      if mode != Ready {
        return Some(ProducerClosed);
      }
      if m.size > MAX_UDP_REQ_SIZE_V1 && cfg.udp {
        return Some(LogTooLong);
      }
      if m.size > MAX_TCP_REQ_SIZE_V1 && !cfg.udp {
        return Some(LogTooLong);
      }
      if !granted {
        return Some(if cfg.blockIfFull then ContextExpired else QueueFull);
      }
      why := None;
    }

    /** `doSendAsync` up to the permit. */
    method Reserve(m: Message, granted: bool) returns (why: Option<Refusal>)
      modifies `permits, `reserved, `refused
      ensures RefusedFor(cfg, mode, m, granted, why)
      ensures View() == if why.Some? then Refuse(old(View()), m, why.value) else WorkerSpec.Reserve(old(View()), m)
      ensures why.None? ==> |reserved| > 0
    {
      why := Admits(m, granted);
      if why.Some? {
        refused := refused + [(m, why.value)];
      } else {
        permits := permits + 1;
        reserved := reserved + [m];
      }
    }

    /** `doSendAsync` after the permit; the queue has room, see `WorkerAdmission.QueueHasRoom`. */
    method Enqueue(k: nat)
      requires CanProduce(cfg, View(), DoEnqueue(k))
      modifies `reserved, `dataCh, `accepted
      ensures View() == ApplyProducer(cfg, old(View()), DoEnqueue(k))
      ensures |dataCh| == |old(dataCh)| + 1 && |reserved| == |old(reserved)| - 1
    {
      var m := reserved[k];
      reserved := reserved[..k] + reserved[k + 1..];
      dataCh := dataCh + [m];
      accepted := accepted + [m];
    }

    // ----- other goroutines

    method Happen(e: Environment)
      requires CanHappen(cfg, View(), e)
      modifies `heap, `free, `usedIds, `doneCh, `failedCh, `retryCh, `rspCh
      ensures View() == ApplyEnvironment(old(View()), e)
    {
      match e
      case ForeignTake(r, id) => TakeObject(r, id);
      case ForeignReturn(r, b) =>
        heap := heap[r := b];
        free := free + {r};
      case _ => Push(e);
    }

    /** A timer, a write callback or the response decoder sends to one of the worker's channels. */
    method Push(e: Environment)
      requires e.PushDone? || e.PushFailed? || e.PushRetry? || e.PushRsp?
      modifies `doneCh, `failedCh, `retryCh, `rspCh
      ensures View() == ApplyEnvironment(old(View()), e)
    {
      match e
      case PushDone(d) => doneCh := doneCh + [d];
      case PushFailed(f) => failedCh := failedCh + [f];
      case PushRetry(r) => retryCh := retryCh + [r];
      case PushRsp(rsp) => rspCh := rspCh + [rsp];
    }

    /** Any of `budget` further events may occur here; `rest` of them are left. */
    method Interfere(budget: nat) returns (rest: nat)
      requires cfg.Supported() && Leads(cfg, INIT, View())
      modifies `heap, `free, `usedIds, `doneCh, `failedCh, `retryCh, `rspCh
      ensures rest <= budget
      ensures |doneCh| + rest <= |old(doneCh)| + budget && |retryCh| + rest <= |old(retryCh)| + budget
      ensures Leads(cfg, old(View()), View())
    {
      LeadsNowhere(cfg, View());
      rest := budget;
      var more: bool := *;
      while rest > 0 && more
        invariant rest <= budget
        invariant |doneCh| + rest <= |old(doneCh)| + budget && |retryCh| + rest <= |old(retryCh)| + budget
        invariant Leads(cfg, old(View()), View())
        decreases rest
      {
        var e: Environment := *;
        if CanHappen(cfg, View(), e) {
          ghost var before := View();
          LeadsOn(cfg, INIT, old(View()), before);
          ReachedRefs(cfg, before);
          Happen(e);
          LeadsStep(cfg, old(View()), before, WorkerSpec.Happen(e));
        }
        rest := rest - 1;
        more := *;
      }
    }

    // ----- shutdown

    /** First loop of `handleClose`: the queue is closed, so it only empties. */
    method DrainDataCh(budget: nat) returns (rest: nat)
      requires cfg.Supported() && Leads(cfg, INIT, View()) && phase == DrainData
      modifies this
      ensures Leads(cfg, old(View()), View()) && phase == DrainData && dataCh == []
    {
      LeadsNowhere(cfg, View());
      rest := budget;
      while dataCh != []
        invariant Leads(cfg, INIT, View()) && Leads(cfg, old(View()), View()) && phase == DrainData
        decreases |dataCh| + |reserved|
      {
        ghost var before := View();
        rest := DrainDataOne(rest);
        ReachedMore(cfg, old(View()), before, View());
      }
    }

    method DrainDataOne(budget: nat) returns (rest: nat)
      requires cfg.Supported() && Leads(cfg, INIT, View()) && phase == DrainData && dataCh != []
      modifies this
      ensures Leads(cfg, old(View()), View()) && phase == DrainData
      ensures |dataCh| + |reserved| < |old(dataCh)| + |old(reserved)|
    {
      ghost var s0 := View();
      RecvData();
      ghost var s1 := View();
      LeadsOn(cfg, INIT, s0, s1);
      rest := Interfere(budget);
      ghost var s2 := View();
      ReachedMore(cfg, s0, s1, s2);
      Latecomer();
      LeadsOn(cfg, s0, s2, View());
    }

    /** A producer with a permit may still get its message into the queue. */
    method Latecomer()
      requires cfg.Supported() && Leads(cfg, INIT, View()) && phase == DrainData
      modifies `reserved, `dataCh, `accepted
      ensures Leads(cfg, old(View()), View()) && |dataCh| + |reserved| == |old(dataCh)| + |old(reserved)|
    {
      ghost var s := View();
      LeadsNowhere(cfg, s);
      var k: nat := *;
      if k < |reserved| {
        ReachedRefs(cfg, s);
        Enqueue(k);
        LeadsStep(cfg, s, s, Produce(DoEnqueue(k)));
      }
    }

    /** Receives a message and handles it. */
    method RecvData()
      requires cfg.Supported() && Leads(cfg, INIT, View()) && (phase == DrainData || phase == Loop) && dataCh != []
      modifies `unacked, `retrying, `heap, `free, `callbacks, `permits, `left, `mode, `results, `closes,
               `order, `log, `writes, `pending, `usedIds, `dataCh
      ensures Leads(cfg, old(View()), View()) && dataCh == old(dataCh)[1..]
    {
      ghost var before := View();
      ReachedRefs(cfg, before);
      var m := dataCh[0];
      dataCh := dataCh[1..];
      ghost var w1, w2;
      var r, id;
      w1, r, id, w2 := HandleSendData(m);
      LeadsNowhere(cfg, before);
      LeadsStep(cfg, before, before, Handle(WorkerSpec.RecvData(w1, r, id, w2)));
    }

    /** The pending batch is sent once more, without a retry. */
    method FlushOnClose()
      requires cfg.Supported() && Leads(cfg, INIT, View()) && phase == DrainData && dataCh == []
      modifies `unacked, `retrying, `heap, `free, `callbacks, `permits, `left, `mode, `results, `closes,
               `order, `log, `writes, `pending, `phase
      ensures Leads(cfg, old(View()), View()) && phase == DrainDone(0)
    {
      ghost var before := View();
      ReachedRefs(cfg, before);
      ghost var w := Written;
      phase := DrainDone(0);
      if pending.Some? {
        w := SendPending(false);
      }
      LeadsNowhere(cfg, before);
      LeadsStep(cfg, before, before, Shut(CloseDataEnd(w)));
    }

    /** A completion request is received. */
    method TakeDoneEvent(ph: Phase)
      requires doneCh != []
      modifies `unacked, `retrying, `heap, `free, `callbacks, `permits, `left, `mode, `results, `closes,
               `doneCh, `phase
      ensures View() == TakeDone(old(View()), ph) && doneCh == old(doneCh[1..]) && phase == ph
    {
      var d := doneCh[0];
      doneCh, phase := doneCh[1..], ph;
      DoneBatch(d.id, d.ref, d.err);
    }

    method DrainDoneOne(i: nat)
      requires cfg.Supported() && Leads(cfg, INIT, View()) && phase == DrainDone(i) && i < |doneCh|
      modifies `unacked, `retrying, `heap, `free, `callbacks, `permits, `left, `mode, `results, `closes,
               `doneCh, `phase
      ensures Leads(cfg, old(View()), View()) && phase == DrainDone(i + 1) && |doneCh| < |old(doneCh)|
    {
      ghost var before := View();
      ReachedRefs(cfg, before);
      TakeDoneEvent(DrainDone(i + 1));
      TakeDoneEffect(cfg, before);
      LeadsShut(cfg, before, CloseDone, View());
    }

    /** Second loop: the length is read again in every iteration, so events may stay behind. */
    method DrainDoneCh(budget: nat) returns (rest: nat)
      requires cfg.Supported() && Leads(cfg, INIT, View()) && phase == DrainDone(0)
      modifies this
      ensures Leads(cfg, old(View()), View()) && phase == DrainRetry(0)
    {
      LeadsNowhere(cfg, View());
      rest := budget;
      var i := 0;
      while i < |doneCh|
        invariant Leads(cfg, INIT, View()) && Leads(cfg, old(View()), View()) && phase == DrainDone(i)
        decreases |doneCh| + rest - i
      {
        ghost var before := View();
        DrainDoneOne(i);
        ReachedMore(cfg, old(View()), before, View());
        ghost var mid := View();
        rest := Interfere(rest);
        ReachedMore(cfg, old(View()), mid, View());
        i := i + 1;
      }
      ReachedRefs(cfg, View());
      LeadsStep(cfg, old(View()), View(), Shut(CloseDoneEnd));
      phase := DrainRetry(0);
    }

    method DrainRetryOne(i: nat)
      requires cfg.Supported() && Leads(cfg, INIT, View()) && phase == DrainRetry(i) && i < |retryCh|
      modifies `unacked, `retrying, `heap, `free, `callbacks, `permits, `left, `mode, `results, `closes,
               `order, `log, `writes, `retryCh, `phase
      ensures Leads(cfg, old(View()), View()) && phase == DrainRetry(i + 1) && |retryCh| < |old(retryCh)|
    {
      ghost var before := View();
      ReachedRefs(cfg, before);
      var e := retryCh[0];
      retryCh, phase := retryCh[1..], DrainRetry(i + 1);
      ghost var w := HandleRetry(e, false);
      TakeRetryEffect(cfg, before, w);
      LeadsShut(cfg, before, CloseRetry(w), View());
    }

    /** Third loop, like the second. */
    method DrainRetryCh(budget: nat) returns (rest: nat)
      requires cfg.Supported() && Leads(cfg, INIT, View()) && phase == DrainRetry(0)
      modifies this
      ensures Leads(cfg, old(View()), View()) && phase == Resend
    {
      LeadsNowhere(cfg, View());
      rest := budget;
      var i := 0;
      while i < |retryCh|
        invariant Leads(cfg, INIT, View()) && Leads(cfg, old(View()), View()) && phase == DrainRetry(i)
        decreases |retryCh| + rest - i
      {
        ghost var before := View();
        DrainRetryOne(i);
        ReachedMore(cfg, old(View()), before, View());
        ghost var mid := View();
        rest := Interfere(rest);
        ReachedMore(cfg, old(View()), mid, View());
        i := i + 1;
      }
      ReachedRefs(cfg, View());
      LeadsStep(cfg, old(View()), View(), Shut(CloseRetryEnd));
      phase := Resend;
    }

    method ResendOne(id: Id)
      requires cfg.Supported() && Leads(cfg, INIT, View()) && phase == Resend && id in retrying
      modifies `unacked, `retrying, `heap, `free, `callbacks, `permits, `left, `mode, `results, `closes,
               `order, `log, `writes
      ensures Leads(cfg, old(View()), View()) && |retrying| < |old(retrying)|
    {
      ghost var before := View();
      ReachedStage(cfg, before);
      var r := retrying[id];
      retrying := retrying - {id};
      ghost var w := SendBatch(r, false);
      ResendShrinks(cfg, before, id, w);
      LeadsNowhere(cfg, before);
      LeadsStep(cfg, before, before, Shut(CloseResend(id, w)));
    }

    /** Fourth loop: what waits for a retry is sent at once, for the last time. */
    method ResendRetrying(budget: nat) returns (rest: nat)
      requires cfg.Supported() && Leads(cfg, INIT, View()) && phase == Resend
      modifies this
      ensures Leads(cfg, old(View()), View()) && phase == Resend && retrying == map[]
    {
      LeadsNowhere(cfg, View());
      rest := budget;
      while retrying.Keys != {}
        invariant Leads(cfg, INIT, View()) && Leads(cfg, old(View()), View()) && phase == Resend
        decreases |retrying|
      {
        ghost var before := View();
        var id :| id in retrying.Keys;
        ResendOne(id);
        ReachedMore(cfg, old(View()), before, View());
        ghost var mid := View();
        rest := Interfere(rest);
        ReachedMore(cfg, old(View()), mid, View());
      }
    }

    method InstallHooks()
      requires Refs(View())
      modifies `heap
      ensures heap == WorkerSpec.InstallHooks(old(heap), unacked.Values)
    {
      var todo := unacked.Keys;
      ghost var hooked: set<Ref> := {};
      while todo != {}
        invariant todo <= unacked.Keys
        invariant forall id :: id in unacked && id !in todo ==> unacked[id] in hooked
        invariant hooked <= unacked.Values
        invariant heap == WorkerSpec.InstallHooks(old(heap), hooked)
        decreases |todo|
      {
        var id :| id in todo;
        var r := unacked[id];
        heap := heap[r := heap[r].(hook := true)];
        hooked := hooked + {r};
        todo := todo - {id};
      }
      assert hooked == unacked.Values;
    }

    /** Last part of `handleClose`: count what is left, and close at once if that is nothing. */
    method CountLeft()
      requires Refs(View())
      modifies `left, `mode, `closes, `heap, `phase
      ensures View() == WorkerSpec.FinishClose(old(View()))
    {
      if |unacked| <= 0 {
        StopNow();
      } else {
        WaitForRest();
      }
    }

    method StopNow()
      requires |unacked| == 0
      modifies `left, `mode, `closes, `phase
      ensures View() == WorkerSpec.FinishClose(old(View()))
    {
      CloseAll();
      left := 0;
      phase := Loop;
    }

    method WaitForRest()
      requires Refs(View()) && |unacked| != 0
      modifies `left, `heap, `phase
      ensures View() == WorkerSpec.FinishClose(old(View()))
    {
      left := |unacked|;
      phase := Loop;
      InstallHooks();
    }

    method FinishClose()
      requires cfg.Supported() && Leads(cfg, INIT, View()) && phase == Resend && retrying == map[]
      modifies `left, `mode, `closes, `heap, `phase
      ensures Leads(cfg, old(View()), View()) && Returned(View())
    {
      ghost var before := View();
      ReachedStage(cfg, before);
      CountLeft();
      LeadsNowhere(cfg, before);
      LeadsStep(cfg, before, before, Shut(CloseFinish));
    }

    /** `handleClose`, with up to `budget` events from other goroutines in between. */
    method HandleClose(budget: nat)
      requires cfg.Supported() && Leads(cfg, INIT, View()) && phase == Loop
      modifies this
      ensures Leads(cfg, old(View()), View())
      ensures if old(mode) == Ready then Returned(View()) else View() == old(View())
    {
      ghost var s0 := View();
      LeadsNowhere(cfg, s0);
      if mode != Ready {
        return;
      }
      ReachedRefs(cfg, s0);
      LeadsStep(cfg, s0, s0, Shut(CloseStart));
      mode, phase := Closing, DrainData;
      ghost var s1 := View();
      ReachedMore(cfg, s0, s0, s1);
      var rest := DrainDataCh(budget);
      ghost var s2 := View();
      ReachedMore(cfg, s0, s1, s2);
      FlushOnClose();
      ghost var s3 := View();
      ReachedMore(cfg, s0, s2, s3);
      rest := DrainDoneCh(rest);
      ghost var s4 := View();
      ReachedMore(cfg, s0, s3, s4);
      rest := DrainRetryCh(rest);
      ghost var s5 := View();
      ReachedMore(cfg, s0, s4, s5);
      rest := ResendRetrying(rest);
      ghost var s6 := View();
      ReachedMore(cfg, s0, s5, s6);
      FinishClose();
      LeadsOn(cfg, s0, s6, View());
    }

    // ----- the event loop

    method RecvDone()
      requires cfg.Supported() && Leads(cfg, INIT, View()) && phase == Loop && doneCh != []
      modifies `unacked, `retrying, `heap, `free, `callbacks, `permits, `left, `mode, `results, `closes,
               `doneCh, `phase
      ensures Leads(cfg, old(View()), View()) && phase == Loop
    {
      ghost var before := View();
      ReachedRefs(cfg, before);
      TakeDoneEvent(phase);
      LeadsNowhere(cfg, before);
      LeadsStep(cfg, before, before, Handle(WorkerSpec.RecvDone));
    }

    method RecvFailed()
      requires cfg.Supported() && Leads(cfg, INIT, View()) && phase == Loop && failedCh != []
      modifies `unacked, `retrying, `heap, `free, `callbacks, `permits, `left, `mode, `results, `closes, `failedCh
      ensures Leads(cfg, old(View()), View())
    {
      ghost var before := View();
      ReachedRefs(cfg, before);
      var e := failedCh[0];
      failedCh := failedCh[1..];
      HandleSendFailed(e);
      LeadsNowhere(cfg, before);
      LeadsStep(cfg, before, before, Handle(WorkerSpec.RecvFailed));
    }

    method RecvRetry()
      requires cfg.Supported() && Leads(cfg, INIT, View()) && phase == Loop && retryCh != []
      modifies `unacked, `retrying, `heap, `free, `callbacks, `permits, `left, `mode, `results, `closes,
               `order, `log, `writes, `retryCh
      ensures Leads(cfg, old(View()), View())
    {
      ghost var before := View();
      ReachedRefs(cfg, before);
      var e := retryCh[0];
      retryCh := retryCh[1..];
      ghost var w := HandleRetry(e, true);
      assert View() == TakeRetry(cfg, before, before.phase, true, w);
      LeadsNowhere(cfg, before);
      LeadsStep(cfg, before, before, Handle(WorkerSpec.RecvRetry(w)));
    }

    method RecvRsp()
      requires cfg.Supported() && Leads(cfg, INIT, View()) && phase == Loop && rspCh != []
      modifies `unacked, `retrying, `heap, `free, `callbacks, `permits, `left, `mode, `results, `closes, `acks, `rspCh
      ensures Leads(cfg, old(View()), View())
    {
      ghost var before := View();
      ReachedRefs(cfg, before);
      var rsp := rspCh[0];
      rspCh := rspCh[1..];
      HandleRsp(rsp);
      LeadsNowhere(cfg, before);
      LeadsStep(cfg, before, before, Handle(WorkerSpec.RecvRsp));
    }

    method TickBatch(aged: bool)
      requires cfg.Supported() && Leads(cfg, INIT, View()) && phase == Loop
      modifies `unacked, `retrying, `heap, `free, `callbacks, `permits, `left, `mode, `results, `closes,
               `order, `log, `writes, `pending
      ensures Leads(cfg, old(View()), View())
    {
      ghost var before := View();
      ReachedRefs(cfg, before);
      ghost var w := HandleBatchTimeout(aged);
      LeadsNowhere(cfg, before);
      LeadsStep(cfg, before, before, Handle(WorkerSpec.TickBatch(w)));
    }

    /** A producer offers a message, and enqueues it if it gets a permit. */
    method Offer(m: Message, granted: bool)
      requires cfg.Supported() && Leads(cfg, INIT, View())
      modifies `permits, `reserved, `refused, `dataCh, `accepted
      ensures Leads(cfg, old(View()), View())
    {
      ghost var s0 := View();
      ReachedRefs(cfg, s0);
      LeadsNowhere(cfg, s0);
      var why := Reserve(m, granted);
      ghost var s1 := View();
      if why.Some? {
        LeadsStep(cfg, s0, s0, Produce(DoRefuse(m, why.value)));
      } else {
        LeadsStep(cfg, s0, s0, Produce(DoReserve(m)));
        ReachedMore(cfg, s0, s0, s1);
        ReachedRefs(cfg, s1);
        Enqueue(|reserved| - 1);
        LeadsStep(cfg, s0, s1, Produce(DoEnqueue(|s1.reserved| - 1)));
      }
    }

    /** One turn of the select statement; what is ready is chosen arbitrarily. */
    method Turn()
      requires cfg.Supported() && Leads(cfg, INIT, View()) && phase == Loop
      modifies this
      ensures Leads(cfg, old(View()), View()) && phase == Loop
    {
      LeadsNowhere(cfg, View());
      var flag: bool, ids: set<Id>, m: Message, n: nat := *, *, *, *;
      if {
        case true => Receive();
        case true => TickBatch(flag);
        case true => HandleSendTimeout(ids);
        case true => HandleClose(n);
        case true => Offer(m, flag);
        case true => n := Interfere(n);
      }
    }

    /** An event from one of the channels, if there is any. */
    method Receive()
      requires cfg.Supported() && Leads(cfg, INIT, View()) && phase == Loop
      modifies this
      ensures Leads(cfg, old(View()), View()) && phase == Loop
    {
      if {
        case dataCh != [] => RecvData();
        case true => ReceiveEvent();
      }
    }

    method ReceiveEvent()
      requires cfg.Supported() && Leads(cfg, INIT, View()) && phase == Loop
      modifies this
      ensures Leads(cfg, old(View()), View()) && phase == Loop
    {
      LeadsNowhere(cfg, View());
      if {
        case doneCh != [] => RecvDone();
        case failedCh != [] => RecvFailed();
        case retryCh != [] => RecvRetry();
        case rspCh != [] => RecvRsp();
        case true =>
      }
    }

    /** The goroutine's loop: whatever it meets in whatever order is a run of the state machine. */
    method Run(turns: nat)
      requires cfg.Supported() && View() == INIT
      modifies this
      ensures Leads(cfg, INIT, View())
    {
      LeadsNowhere(cfg, INIT);
      var n := 0;
      while n < turns
        invariant Leads(cfg, INIT, View()) && phase == Loop
      {
        ghost var before := View();
        Turn();
        LeadsOn(cfg, INIT, before, View());
        n := n + 1;
      }
    }
  }
}
