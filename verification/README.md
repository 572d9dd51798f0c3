# A verified model of the TGLog client

The TGLog client accepts log messages, gathers them into batches, sends the batches over pooled
connections, and calls each message's sender back once. This project models its difficult parts in
Dafny and proves what they keep over whole runs.

* **Worker** (`WorkerSpec`, `WorkerInvariant`, `WorkerMoves`, `WorkerSteps`, `WorkerRuns`, `WorkerOutcomes`,
  `WorkerVerdicts`, `WorkerDrains`, `WorkerAdmission`, `WorkerShutdown`, `WorkerLateExpiry`, `WorkerDatagrams`, `WorkerLoop`).
  A worker owns three places for batches, recycles batch objects, and receives messages, responses,
  failures, retries, timeouts and the close command through channels. `WorkerSpec` is the state
  machine, one step per event; channels and the shared object pool are part of the state. Anything
  the network, a timer or another goroutine may do is a step that may happen at any time, including
  late and repeated events for batches that have finished. `WorkerInvariant` is the invariant, one
  predicate per concern; `WorkerMoves` and `WorkerSteps` prove that every step keeps it;
  `WorkerRuns` draws the conclusions for all runs. `WorkerOutcomes` and `WorkerVerdicts` say, in terms of maps, retries,
  results and callbacks only, what each event makes of the batch it concerns and that no other batch is
  concerned; `WorkerDrains` says what the drain loops of the shutdown leave behind. In `WorkerSpec` a permit may be granted at any time;
  `WorkerAdmission` puts the worker and the semaphore together, step by step, and says how many permits
  there are and when a release blocks the worker. `WorkerShutdown` says when a shutdown gets to its end, and
  `WorkerLateExpiry` shows runs in which it does not. `WorkerDatagrams` says what a batch becomes on the wire.
  `WorkerLoop` is the worker as an object whose
  methods update its fields as the source does, proved against the state machine.
* **Connection pool** (`PoolState`, `PoolTarget`, `ConnPool`). One goroutine owns the books; callers,
  the event loop and dial goroutines talk to it through a queue, some of them through an admission
  gate. `ConnPool` is the pool as an object. `Valid` says that the redundant books agree, that every
  connection and every reply token is in one place, and how the gate, the queue and closing relate.
  What a running handler has taken out of the queue is passed along as a `Hand`. A reply stays in the mail
  until its caller takes it or leaves. The methods are atomic steps, and `Run` interleaves them arbitrarily.
* **Semaphore**. The counter and the hand-off as interleaved atomic steps.
* **Framer**, **Codec**, **Text**, **Routing**. Length-field framing and the receive loop, the V3 frame
  format with padding, encryption and compression, the V1 text format, and the way a response finds
  its worker.

## How to read the model

* A write is an encoding error, an immediate error, or a success that may later be reported failed.
  A dial is a new connection, an error, or nothing. Timers may fire at any step. Random ids are
  unused ones. Messages are a key, a size and a flush mark.
* Compression, encryption of whole blocks, serialising and signing are parameters with their inverse
  laws; the flag bits of the frame format are different bits.
* The worker is modelled for protocol V3, and for protocol V1 over UDP, with options as validation
  leaves them (at least one retry, one message, one pending message).
* An address read from a connection is its dial-time endpoint, or nothing once the event loop has
  released the connection. A holder gives a connection back at most once per hand-out.

## Where the code differs from what one would expect

* A semaphore waiter that gives up after a release has committed itself to a hand-off makes one permit too
  many: `Semaphore.RunSurplus`, `BalancedIffTimely` and `LateExpiryBreaksTheBound`.
* So with `BlockIfQueueIsFull` a worker can exceed MaxPendingMessages, by one for each late expiry:
  `WorkerAdmission.PermitsBounded` and `WorkerLateExpiry.LateExpiryBreaksTheLimit`.
* With `BlockIfQueueIsFull` a release can also block the worker goroutine for good, since a closing worker
  lets no new producer wait: `WorkerAdmission.GoesOnIffNotStuck`, `StuckForever` and
  `WorkerLateExpiry.LateExpiryHangsShutdown`. `closeAll` comes behind the releases of the last batch, so
  shutdown may hang even when all batches are finished: `WorkerShutdown.ShutsDownIff` and
  `WorkerLateExpiry.LateExpiryHangsTheEnd`. Without that option none of this happens:
  `WorkerAdmission.QueueHasRoom`, `NeverBlocked` and `WorkerShutdown.CloseCompletes`.
* The pool leaks connections in two ways when it is closed: a dial goroutine may queue its result when nobody
  reads the queue any more, and a caller may leave while a connection is in its reply.
  `ConnPool.LeakedExactly` says that there is no other way, `LateResultLeaks` and `LostReplyLeaks` show runs.
* The pool's books may count a dead connection: one whose closing was reported before its dial result was
  handled, one that came back unreadable, and one that came back after closing had begun.
  `ConnPool.CountedDead` says that there are no others, `UnreadableStaysCounted`, `ReportedEarlyIsCounted` and
  `ReturnedLateStaysCounted` show runs.
* The size limit of V1 datagrams is checked on payloads, but encoding may add newlines:
  `WorkerDatagrams.DatagramFits` and `Text.DatagramTooLong`.
* `DecodeV3Rsp` does not skip a header section, so a plain body is recovered only from frames without
  one: `Codec.PlainDecodeIffNoHeader`.
* The drain loops of the worker's shutdown re-read the length of the channel they drain, so up to half of the
  events may stay behind: `WorkerDrains.DrainsHalf`. `WorkerRuns.GracefulClose` holds all the same.
* The comment on `drainCmdChOnClose` says that dial results are not queued after closing. They may be,
  because the select may take either branch. The branch of
  `drainCmdChOnClose` for Put and the dropping branch of `enqueue` are never taken.

## Model

| member | source | states |
|---|---|---|
| WorkerRuns.RunKeepsInv | tglog/worker.go:186-258 | the invariant (objects, maps, order, ledger, permits against messages, retries, sizes, events, shutdown) holds in every state of every run, for every interleaving of producers, timers, callbacks, responses and shutdown |
| WorkerRuns.ExactlyOnce | tglog/worker.go:342-760 | in every state of every run the accepted messages are the disjoint union of those called back, those in flight, those pending and those queued; sent and unfinished batches are in exactly one of unacked and retrying |
| WorkerRuns.Conservation | tglog/worker.go:342-408 | the same ledger from the invariant alone, with the order of acceptance |
| WorkerRuns.OnePlace | tglog/request.go:82-156 | a live batch is in exactly one map, which points to an unfinished object that carries exactly its messages; the pending batch is in neither |
| WorkerRuns.OrderKept | tglog/worker.go:342-408 | batches in order of first send, then the pending batch, then the queue, spell out the accepted sequence; every batch keeps its bounds on messages and bytes; the `dataSize` of the pending batch, which those bounds rest on, is the sum of its sizes |
| WorkerRuns.CallbacksAreHonest | tglog/request.go:54-80 | every callback reports the single verdict of the batch that carried its message; with V3, success only for a batch that a response acknowledged (the other direction: `WorkerVerdicts.ResponseDecides`) |
| WorkerRuns.RetryBound | tglog/worker.go:548-611 | an unacked batch has been written retries + 1 times, a retrying one retries times, and no batch more than MaxRetries + 1 times, whatever stale failures and close-time resends there are |
| WorkerRuns.PermitsCount | tglog/worker.go:301-313 | permits not given back are the accepted, unfinished messages plus the producers about to enqueue; every live batch, queued message and such producer needs one |
| WorkerRuns.StaleEventsAreHarmless | tglog/worker.go:524-546 | a retry, completion, failure or response for a batch that has finished, or whose object carries another id by now, changes nothing |
| WorkerRuns.RecycledObjectsUnreferenced | tglog/request.go:121-156 | no object in the recycling pool is referenced by pending, unacked or retrying |
| WorkerRuns.GracefulClose | tglog/worker.go:779-877 | after `handleClose` has returned, no batch ever enters pending, unacked or retrying again, `left` equals the size of unacked, and when the worker is closed every accepted message has been called back, even with events left in the channels |
| WorkerRuns.ClosesOnce | tglog/worker.go:828-877 | `closeAll` runs exactly once when the worker is closed, and not before |
| WorkerRuns.TimeoutFinishesOne | tglog/worker.go:665-677 | while closing, the handler of a send timeout finishes the batch and counts it down; the last one closes |
| WorkerRuns.TimeoutsFinishClose | tglog/worker.go:665-677 | in any run, whatever is interleaved, once every batch that nothing else has finished since the shutdown handler returned has been timed out, the worker is closed, once, and every accepted message has its callback |
| WorkerVerdicts.ResponseDecides | tglog/worker.go:729-760 | in every run, a response for a batch that waits for it or for a retry takes the batch out of both maps; its result, and the callback of each of its messages, is success if the code is 0 and a server error otherwise; a response for any other batch, and all other batches, change nothing |
| WorkerVerdicts.TimeoutDecides | tglog/worker.go:665-677 | in every run, a batch that waits too long is set aside with one retry more if the worker is ready and it has retries left, and reports a send timeout to each message otherwise |
| WorkerVerdicts.FailureDecides | tglog/worker.go:524-546 | in every run, a reported write failure of a batch that waits for its response sets it aside with one retry more if it may be retried, the worker is ready and it has retries left; otherwise each message gets the write error, or the timeout when retries are used up |
| WorkerVerdicts.CompletionDecides | tglog/worker.go:613-637 | in every run, a completion requested by another goroutine gives a live batch its error, and changes nothing for any other |
| WorkerVerdicts.RetryDecides | tglog/worker.go:640-653 | in every run, a batch whose retry is due is sent again, in the loop or during shutdown; what becomes of it is a table over retries, mode, encoding and outcome of the write; a retry for a batch that does not wait changes nothing |
| WorkerVerdicts.PendingLeaves | tglog/worker.go:655-663 | in every run, a batch timeout or the shutdown sends the pending batch off, with the same table, and leaves nothing pending |
| WorkerVerdicts.MessageTaken | tglog/worker.go:342-408 | in every run, an arriving message is added behind the pending batch, or to a new one if there is none or the datagram would grow too long, and then the pending batch leaves first; the batch leaves in the same step if and only if the message asks for it or a limit on messages or bytes is reached, and is pending otherwise |
| WorkerVerdicts.FailedWriteIsRetried | tglog/worker.go:410-522 | in every run, when a ready worker sends a batch, the write fails at once and retries are left, the batch is in retrying with one retry more, and neither unacked nor reported |
| WorkerVerdicts.ResultHasCause | tglog/worker.go:410-760 | whatever a batch has reported, there was an earlier step that explains it: a server error only by a response with a non-zero code, with V3 success only by a response with code 0, an encoding error only by a failed encoding, and a write error or a timeout only by a failed attempt, a reported failure, a completion or, for a timeout, a send timeout |
| WorkerVerdicts.BatchAnswersExactly | tglog/request.go:121-138 | in every state of every run the callbacks of a batch that has reported are exactly its messages, once each and in order, with its verdict, and a batch that has not reported has none |
| WorkerDrains.DrainsHalf | tglog/worker.go:808-817 | a drain loop of the shutdown handler ends only when it has received at least as many events as it leaves behind |
| WorkerAdmission.OfferDecides | tglog/worker.go:273-292 | a message goes on to the semaphore if and only if it is not empty, the worker is ready and it is within the size limit; otherwise it is refused for the first of these reasons that applies |
| WorkerAdmission.BlockingDecides | tglog/worker.go:295-300 | blocking admission in every sound state: a producer gets a permit at once if and only if the counter is below the limit and waits otherwise; a waiting one takes over the permit of a blocked release; an expired one is refused |
| WorkerAdmission.TryingDecides | tglog/worker.go:301-307 | admission without blocking: refused if and only if the counter has reached the limit; otherwise the permit is taken if the counter has not changed in between, and the producer tries again if it has |
| WorkerAdmission.RunSound | tglog/worker.go:260-313 | in every run of worker and semaphore together, the semaphore counts the producers where they are, and its acquired permits are those of the messages not called back plus those about to be given back |
| WorkerAdmission.PermitsBounded | tglog/worker.go:301-313 | in every run, acquired permits, and with them queued messages, producers about to enqueue and live batches, exceed MaxPendingMessages by at most the number of late expiries so far; the exact equation with the counter |
| WorkerAdmission.QueueHasRoom | tglog/worker.go:301-313 | without blocking admission, or as long as no expiry was late, the limit holds: a producer with a permit finds room in the queue, and live batches never exceed MaxPendingMessages |
| WorkerAdmission.NeverBlocked | tglog/request.go:54-61 | without blocking admission giving a permit back never blocks the worker goroutine |
| WorkerAdmission.GoesOnIffNotStuck | syncx/semaphore.go:110-116 | a worker goroutine blocked in a release can ever go on if and only if somebody waits, or can still come to wait: the worker is ready, or enough producers are behind its checks to use up the free permits |
| WorkerAdmission.StuckForever | syncx/semaphore.go:110-116 | once that condition fails the goroutine is stuck for the rest of the run, and no further message is called back, whatever the others do |
| WorkerAdmission.Projection | tglog/worker.go:186-258 | the worker's part of such a run is a run of its own state machine, state by state, so the theorems on its runs carry over; that machine enters the callbacks of a handler, and the closing of the worker, with the handler, before its releases, so what has really been reached is told by `Made` and `ShutDown` |
| WorkerShutdown.CloseCompletes | tglog/worker.go:779-877 | shutdown together with the semaphore: when the remaining batches have been timed out, all batches are finished and the permits of the last handler are left to give back; without blocking admission the releases of the worker goroutine alone take it to the end of `closeAll`; with blocking admission it can get there if and only if enough producers are left; at the end every accepted message has been called back |
| WorkerShutdown.ShutsDownIff | tglog/request.go:121-138 | with blocking admission and all batches finished, some continuation reaches the end of `closeAll`, which comes behind the releases, if and only if there are enough producers: above the limit, one waiting or on its way for each release; below it, none if no release blocks, else one that waits or enough on their way to bring the counter to the limit |
| WorkerShutdown.HopelessIsStuck | syncx/semaphore.go:78-116 | as long as no expiry was late, that condition is the one for getting out of the release in which the goroutine stands; afterwards it is stronger |
| WorkerShutdown.ShutDownCallsAll | tglog/request.go:121-138 | a worker that has got to the end of `closeAll` has closed once and has called every accepted message back |
| WorkerLateExpiry.LateExpiryBreaksTheLimit | tglog/worker.go:295-313 | for every such configuration with one permit, a run with blocking admission in which two producers are about to enqueue |
| WorkerLateExpiry.LateExpiryHangsShutdown | tglog/worker.go:779-877 | a run with blocking admission in which the worker goroutine is stuck while the queue is drained and the accepted message is never called back |
| WorkerLateExpiry.LateExpiryHangsTheEnd | tglog/request.go:121-138 | with V3, a run in which the shutdown handler has returned and the last batch has been timed out, but the release of its message blocks: whatever happens, the accepted message is never called back and the shutdown never ends |
| WorkerSteps.StepKeepsInv | tglog/worker.go:186-258 | every step of the state machine keeps the invariant |
| WorkerSteps.RecvDataKeepsInv | tglog/worker.go:342-408 | receiving a message: flushing a full batch, opening a new one and sending at the limits keeps it |
| WorkerSteps.FailedKeepsInv | tglog/worker.go:524-546 | so does a failed send |
| WorkerSteps.RetryKeepsInv | tglog/worker.go:640-653 | so does a retry timer |
| WorkerSteps.RspKeepsInv | tglog/worker.go:729-760 | so does a response, also one for a batch that waits for a retry; what it leads to is `WorkerVerdicts.ResponseDecides` |
| WorkerSteps.ShutdownKeepsInv | tglog/worker.go:779-877 | so does every stage of `handleClose` |
| WorkerMoves.SendKeepsCore | tglog/worker.go:410-522 | sending a batch whose id is in nobody's map keeps the invariant for encoding errors, write errors and writes; when each outcome leads where is `WorkerVerdicts.RetryDecides` and `FailedWriteIsRetried` |
| WorkerMoves.BackoffKeepsCore | tglog/worker.go:548-611 | putting a batch aside for a retry, or finishing it when retries are used up or the worker is closing, keeps it |
| WorkerMoves.DoneKeepsCore | tglog/worker.go:613-634 | finishing a batch keeps it |
| WorkerLoop.ReachedIsRun | tglog/worker.go:186-258 | whatever state the worker object reaches is the last state of a run of the state machine, so the theorems on runs are about the object |
| WorkerLoop.Worker.Run | tglog/worker.go:186-258 | any number of turns of the event loop, with arbitrary events between them, is a run of the state machine |
| WorkerLoop.Worker.Reserve | tglog/worker.go:273-311 | the caller gets exactly the error that applies: empty message, closed worker, too long, expired context or full queue; without one the permit is taken and the message is about to be enqueued |
| WorkerLoop.Worker.HandleSendTimeout | tglog/worker.go:665-677 | the late batches, and only those, leave unacked; each then waits for a retry or has reported |
| WorkerLoop.Worker.CallBack | tglog/request.go:121-156 | the loop over a batch's requests calls each back once, in order, with the batch's verdict, and gives up its permit |
| WorkerLoop.Worker.HandleClose | tglog/worker.go:779-877 | the whole shutdown handler, with other goroutines interfering between its steps and its drain loops leaving events behind, is a run of the state machine |
| WorkerLoop.Worker.DrainDoneCh | tglog/worker.go:808-811 | the drain loop that re-reads the length ends, however many events arrive or stay behind |
| WorkerLoop.Worker.ResendRetrying | tglog/worker.go:819-823 | every batch that waits for a retry is sent at once, and none is left waiting |
| Routing.IndexComesBack | tglog/request.go:260-280 | the worker index is recovered from a batch id, whatever follows the colon |
| Routing.ResponsesReturn | tglog/client.go:563-571 | a response to a worker's own batch is routed to that worker, and no two workers make the same id |
| Routing.AtoiInvertsItoa | tglog/worker.go:133 | an index survives being written as text and read back, within the 64-bit range |
| ConnPool.ConnPool.Run | connpool/connpool.go:386-470 | in every interleaving of callers, event loop, dial goroutines, timers and the pool goroutine, everything `Valid` says holds; a finished pool stays finished, and what it has leaked stays leaked |
| ConnPool.ConnPool.HandleNext | connpool/connpool.go:444-470 | every command keeps `Valid`; the pool ends exactly with the close command |
| ConnPool.ConnPool.New | connpool/connpool.go:119-183 | no pool without endpoints; otherwise a valid pool with the defaults for the share and the size |
| ConnPool.ConnPool.constructor | connpool/connpool.go:143-174 | the empty pool is valid |
| ConnPool.ConnPool.InitConns | connpool/connpool.go:648-680 | the initial dials, partly failing, leave valid books and only allowed idle connections; it fails only when nothing was dialled |
| ConnPool.ConnPool.Dec | connpool/connpool.go:863-881 | a counted connection leaves the books once; doing it again, with or without an address, changes nothing; counters agree with the table and none is zero |
| ConnPool.ConnPool.Inc | connpool/connpool.go:852-861 | a connection enters the books once |
| PoolState.CountsDec | connpool/connpool.go:863-881 | lowering a counter keeps the agreement between counters and table, without zero entries |
| PoolState.CountsInc | connpool/connpool.go:852-861 | so does raising it |
| ConnPool.ConnPool.HandleConnClosed | connpool/connpool.go:600-606 | a reported connection is neither counted nor idle afterwards, others stay; an error marks its endpoint if it is a known one and not the only one; a repeated report changes nothing |
| ConnPool.ConnPool.CloseCounted | connpool/connpool.go:883-892 | the count falls at once and the connection is closing; it is in no place any more |
| ConnPool.ConnPool.Lend | connpool/connpool.go:523-531 | a connection is given out only to an allowed endpoint and only if it has not been given out already; the token is used up, and the reply waits for its caller |
| ConnPool.ConnPool.HandleGet | connpool/connpool.go:517-539 | a Get is answered exactly once or handed to exactly one dial to a reachable endpoint; a closed pool fails it; an open one serves it from an idle connection if a usable one is there |
| ConnPool.ConnPool.HandleOpenGet | connpool/connpool.go:523-539 | a Get gets an idle connection if and only if a usable one is there; otherwise it waits for one dial to a reachable endpoint, or fails because there is none |
| ConnPool.ConnPool.RetryGet | connpool/connpool.go:770-776 | a Get whose dial led to a deleted endpoint fails if no endpoint is left to dial or the pool is closed, and is served like a new one otherwise |
| ConnPool.ConnPool.PopUsable | connpool/connpool.go:523-531 | the first usable idle connection is taken and all before it are closed; none is skipped |
| ConnPool.ConnPool.GetEndpoint | connpool/connpool.go:682-699 | round robin: it fails exactly when all endpoints are marked, and passes over marked ones only |
| ConnPool.ConnPool.MarkUnavailable | connpool/connpool.go:950-962 | an endpoint of the pool is marked unless it is the only one; the marks stay within the endpoints |
| ConnPool.ConnPool.HandleDialResult | connpool/connpool.go:541-594 | the pending dial is settled, every concern is kept in each of the cases, and the waiting Get is answered or handed to another dial; without a connection, or in a closed pool, the idle connections stay, and what arrived is closed |
| ConnPool.ConnPool.HandleNoConn | connpool/connpool.go:548-572 | the connection, if there is one, is closed, which is only when the pool is closed, and the Get fails; a failed dial of an open pool marks its endpoint, if there is another one |
| ConnPool.ConnPool.HandleConnectedFor | connpool/connpool.go:574-592 | the waiting Get gets the new connection, whose endpoint is available again; if the endpoint was deleted the connection is closed and the Get starts again |
| ConnPool.ConnPool.HandleConnectedIdle | connpool/connpool.go:574-594 | a new connection that nobody waits for is added to the idle ones exactly if its endpoint is allowed and there is room, and is closed otherwise |
| ConnPool.ConnPool.StartDial | connpool/connpool.go:720-768 | one more pending dial with its token, or an answered token when the pool is closed |
| ConnPool.ConnPool.DialDone | connpool/connpool.go:756-758 | a dial goroutine queues its result: token, connection and pending dial move together |
| ConnPool.ConnPool.DialAbandoned | connpool/connpool.go:738-766 | a dial goroutine of a closed pool closes its connection, if it has one, and answers its token, if it has one, with an error |
| ConnPool.ConnPool.PutConn | connpool/connpool.go:778-823 | a returned connection becomes idle exactly when it is readable, allowed, unbroken, young enough and there is room; otherwise it is closed and leaves the books, except an unreadable one, which stays in them; a broken one marks its endpoint, and an expired one is dialled again |
| ConnPool.ConnPool.HandleUpdate | connpool/connpool.go:608-646 | the endpoints are replaced, idle connections to others or of unknown endpoint are closed and no other; with additions or deletions every reachable endpoint has or gets a connection; without, nothing is dialled |
| ConnPool.ConnPool.RemoveDeleted | connpool/connpool.go:922-934 | exactly the idle connections with a readable, allowed endpoint remain; the others are closed |
| ConnPool.ConnPool.CleanExpired | connpool/connpool.go:1006-1020 | exactly the unexpired idle connections remain, and an open pool dials one for each that left |
| ConnPool.ConnPool.Recover | connpool/connpool.go:1043-1059 | exactly the marked endpoints that are due and not being dialled get one dial; it tells whether there was one, and changes nothing if not |
| ConnPool.ConnPool.ConnCount | connpool/connpool.go:1061-1067 | the sum of the counters is the number of counted connections |
| ConnPool.ConnPool.Expected | connpool/connpool.go:1083-1134 | the target as inequalities: with fewer connections than the share for everybody it is the share of the smaller of connections and average, otherwise the larger of the initial share and the share of the average, and at least 1 |
| PoolTarget.TargetIsTarget | connpool/connpool.go:1083-1134 | the computed target satisfies those inequalities |
| PoolTarget.OneTarget | connpool/connpool.go:1083-1134 | and they leave no other number |
| PoolTarget.TargetBounds | connpool/connpool.go:1083-1134 | the target is at least 1, and either 1 or within max(current, required) over the available endpoints; it exceeds the initial share only when endpoints are missing |
| PoolTarget.TargetSteady | connpool/connpool.go:1083-1134 | with all endpoints available and the required number of connections the target is the initial share |
| ConnPool.ConnPool.Rebalance | connpool/connpool.go:1136-1186 | every reachable endpoint has count + pending of at least the target, new dials are exactly the shortfall and only to reachable endpoints, no counter falls below the target or is deleted, the excess is gone as far as idle connections allow, and a steady pool is unchanged |
| ConnPool.ConnPool.RemoveEndpointConn | connpool/connpool.go:1188-1202 | at most `count` idle readable connections to the endpoint are closed and no other; fewer only when no readable one is left, also when reported ones are among them; the counter falls accordingly |
| ConnPool.ConnPool.SteadyTarget | connpool/connpool.go:1083-1134 | in a steady pool, with each endpoint holding its share, the computed target is the share |
| ConnPool.ConnPool.Put | connpool/connpool.go:235-247 | before closing the connection enters the gate, afterwards it is closed; it is not lost |
| ConnPool.ConnPool.TakeReply | connpool/connpool.go:227-229 | a caller takes its reply, once, and then holds the connection in it |
| ConnPool.ConnPool.Leave | connpool/connpool.go:230-232 | a caller that sees the pool closed leaves without its reply; a connection in it belongs to nobody |
| ConnPool.ConnPool.OnConnClosed | connpool/connpool.go:288-300 | a close event enters the gate with the address read at that moment, or is dropped by a closed pool |
| ConnPool.ConnPool.Admit | connpool/connpool.go:354-384 | an admitted operation always reaches the queue: the pool goroutine has not ended, so the dropping branch is never taken |
| ConnPool.ConnPool.BeginClose | connpool/connpool.go:303-311 | closing shuts the gate, once |
| ConnPool.ConnPool.SendClose | connpool/connpool.go:311-322 | the close command is queued after everything that was admitted |
| ConnPool.ConnPool.HandleClose | connpool/connpool.go:458-467 | afterwards idle, gate and queue are empty |
| ConnPool.ConnPool.Drain | connpool/connpool.go:478-515 | every queued caller is answered and every late connection closed; there is no Put among the commands |
| ConnPool.ConnPool.AnsweredOnce | connpool/connpool.go:213-233 | in every reachable state no reply token has been answered twice, so the pool goroutine never blocks on a reply channel |
| ConnPool.ConnPool.NotLost | connpool/connpool.go:213-233 | a Get that has not been answered is in the queue or with a dial |
| ConnPool.ConnPool.IdleApart | connpool/connpool.go:816-823 | idle connections are distinct, fit the size, and none of them has been given out or is about to be closed |
| ConnPool.ConnPool.LeakedExactly | connpool/connpool.go:720-768 | a connection ever dialled is closed, closing, reported closed, idle, held, in a reply that its caller may take, or carried by a command that will be handled, if and only if it is neither in a dial result queued after the close command was handled nor in a reply whose caller left |
| ConnPool.ConnPool.LateResultLeaks | connpool/connpool.go:756-766 | a run in which a dial result is queued when nobody reads the queue any more |
| ConnPool.ConnPool.LostReplyLeaks | connpool/connpool.go:227-232 | a run in which a caller leaves while its reply holds a connection |
| ConnPool.ConnPool.PendingExact | connpool/connpool.go:720-768 | while the pool is open the pending dials of an endpoint are its running dials plus its queued results |
| ConnPool.ConnPool.NothingLeftBehind | connpool/connpool.go:458-515 | once the close command has been handled, idle and gate are empty, no Put or close event is queued, and every connection ever given back is closed or closing, reported closed, or given out again |
| ConnPool.ConnPool.CountedDead | connpool/connpool.go:852-892 | a connection in the books is in no queued dial result; its closing has been reported if and only if the report was handled before its dial result was; the pool has closed it if and only if it came back unreadable or after closing had begun, and while the pool is open only the former; otherwise it is idle, given out or on its way |
| ConnPool.ConnPool.UnreadableStaysCounted | connpool/connpool.go:778-788 | a run of an open pool after which the books count a connection that came back unreadable and is being closed |
| ConnPool.ConnPool.ReportedEarlyIsCounted | connpool/connpool.go:600-606 | a run of an open pool after which the books count a connection whose closing was reported before its dial result was handled |
| ConnPool.ConnPool.ReturnedLateStaysCounted | connpool/connpool.go:235-247 | a run after which the books count a connection that was given back, and closed, after closing had begun |
| PoolState.GatePop | connpool/connpool.go:303-334 | when the close command is taken from the queue, nothing that passed the gate is behind it |
| Semaphore.BalancedIffTimely | syncx/semaphore.go:78-116 | held permits and committed hand-offs make up min(counter, maxPermits) if and only if every expiry so far happened while the counter exceeded the capacity |
| Semaphore.RunSurplus | syncx/semaphore.go:78-116 | in every run, held permits and committed hand-offs are min(counter, maxPermits) plus the number of late expiries so far |
| Semaphore.StepMakesSurplus | syncx/semaphore.go:86-92 | a late expiry makes exactly one permit too many, and no other step makes or loses any |
| Semaphore.PermitsRespected | syncx/semaphore.go:78-116 | then holders never exceed the capacity, the counter is holders plus waiters, and every blocked Release has its own waiter |
| Semaphore.RunCounted | syncx/semaphore.go:78-116 | the counter counts everyone who entered and has not left, in every run |
| Semaphore.TryOnly | syncx/semaphore.go:95-116 | with TryAcquire only, the bound is unconditional and Release never blocks |
| Semaphore.TryAcquireAlone | syncx/semaphore.go:95-108 | a TryAcquire that nobody disturbs takes a permit if and only if the counter is below the capacity |
| Semaphore.AcquireOrWait | syncx/semaphore.go:78-116 | an Acquire gets its permit at once if and only if the counter is below the capacity; it waits otherwise; a Release that finds the counter above the capacity hands its permit to a waiter |
| Semaphore.LateExpiryBreaksTheBound | syncx/semaphore.go:86-92 | a run in which a waiter expires after the hand-off was committed, and two goroutines hold the only permit |
| Framer.NewLengthField | framer/framer.go:48-80 | the configurations that are accepted are exactly the usable ones |
| Framer.ReadFrame | framer/framer.go:82-150 | a frame lies within the input and takes at least one byte |
| Framer.FrameOrError | framer/framer.go:96-150 | as equivalences on the number in the length field: when the input is refused, and with which error, when more bytes are needed, and when there is a frame, which then has that number of bytes behind the field, changed by the adjustment in 64-bit arithmetic |
| Framer.FieldMissing | framer/framer.go:82-94 | before the length field has arrived nothing is decided |
| Framer.CutPieces | tglog/client.go:493-537 | the frames delivered, whole again, and the rest make up the stream; each was read as a frame, and the rest is incomplete or, when the connection is closed, malformed |
| Framer.ExtensionKeeps | framer/framer.go:82-150 | frames and hard errors do not change when more bytes arrive |
| Framer.PrefixIncomplete | framer/framer.go:82-150 | an incomplete input stays incomplete when cut short |
| Framer.ChunkingIndependence | tglog/client.go:493-537 | however a stream is cut into arrivals, the loop delivers what it delivers for the whole stream at once |
| Framer.SameStreamSameFrames | tglog/client.go:493-537 | two ways of cutting the same stream deliver the same frames |
| Framer.CutInTwo | tglog/client.go:493-537 | processing a prefix first and the rest later makes no difference, also when a prefix is malformed |
| Framer.Connection.OnTraffic | tglog/client.go:493-537 | the loop over the buffer delivers the frames and keeps the rest as the function says, and ends |
| Codec.Pad | crypto/crypto.go:25-31 | a padded text is a whole number of blocks and starts with the data; every byte behind it is the padding length |
| Codec.UnPadInvertsPad | crypto/crypto.go:25-45 | removing the padding recovers the data exactly when the padding fits one byte |
| Codec.AesRoundTrip | crypto/crypto.go:48-90 | decryption recovers what was encrypted with the same valid key |
| Codec.NumberInvertsPut | tglog/codec.go:264-289 | a length field is read back as written, in either byte order |
| Codec.LayoutParts | tglog/codec.go:252-311 | magic number, length, flags, header length, reserved byte, header and body lie where the decoder and the framer look for them |
| Codec.FrameRecognised | tglog/client.go:113-118 | the default framing recognises an encoded frame at the front of any stream, within MaxFrameLen |
| Codec.CutInvertsJoin | tglog/client.go:493-537 | any concatenation of encoded frames is cut back into exactly those frames |
| Codec.PiecesInvertJoin | tglog/client.go:493-537 | also when it arrives in arbitrary pieces |
| Codec.TakeInvertsLayout | tglog/codec.go:252-311 | flags, header and body can be taken from a frame again if and only if the header section is shorter than 65536 bytes |
| Codec.CompressAndEncrypt | tglog/codec.go:208-224 | the body section for each choice of compression and encryption, and its flags |
| Codec.SignAndEncrypt | tglog/codec.go:226-250 | the header section and its flags; decrypting and decompressing it gives the header, signed over the encoded body if signing is asked for; it fails exactly without a valid key |
| Codec.WriteFrame | tglog/codec.go:252-311 | the frame is appended to the buffer in its layout |
| Codec.EncodeV3Req | tglog/codec.go:185-311 | the buffer grows by exactly the encoded frame; it fails exactly when something must be encrypted and the key is not valid; for a header section below 65536 bytes the flags, the header, signed if asked for, and the body can be read back from what was appended |
| Codec.FrameReadBack | tglog/codec.go:185-311 | every frame can be read back: the flags tell exactly what was done to either section, the header section gives the header, signed over the body section if asked for, and the body section gives the body |
| Codec.HeaderRoundTrip | tglog/codec.go:226-250 | decrypting and, if it is marked, decompressing the header section gives the header, and it is marked exactly if it was large and compression is on |
| Codec.EncodeFailsIff | tglog/codec.go:185-250 | encoding fails if and only if a section has to be encrypted and the key has no valid length |
| Codec.DecodeRejects | tglog/codec.go:314-397 | an empty frame, a wrong magic number when it is checked, and an encrypted body without a valid key are refused |
| Codec.DecodeLayout | tglog/codec.go:314-397 | decoding a laid-out frame with an empty header decodes its body by its own flags |
| Codec.BodyRoundTrip | tglog/codec.go:314-397 | decrypting then decompressing recovers the body for every choice |
| Codec.DecodeInvertsEncode | tglog/codec.go:185-397 | for frames with an empty header section, decoding inverts encoding |
| Codec.PlainDecodeIffNoHeader | tglog/codec.go:314-397 | an uncompressed, unencrypted body is recovered if and only if the header section is empty |
| Codec.HeaderNotEmpty | tglog/codec.go:226-250 | a header that is sent always leaves a non-empty section |
| Codec.BareRoundTrip | tglog/codec.go:314-397 | a body sent without a frame header and without other options is recovered as it is |
| Text.ParseMessages | tglog/message.go:32-50 | there is a strictly increasing list of exactly the lines whose first bar is not at the start; the messages are those lines, one by one, named by the text before that bar and with a newline; an error if and only if there is none |
| Text.ParseLists | tglog/message.go:32-50 | parsing skips exactly the lines without a name and takes the others in order |
| Text.SplitInvertsJoin | tglog/message.go:33 | the lines joined with newlines are the text, and none contains a newline |
| Text.JoinInvertsSplit | tglog/message.go:33 | no other lines do that |
| Text.EncodeMessages | tglog/codec.go:70-82 | the loop appends every payload with exactly one newline at its end |
| Text.ParseInvertsEncode | tglog/message.go:32-50 | encoding one-line records and parsing gives them back, up to one trailing newline |
| Text.ReparseIsIdentity | tglog/message.go:32-50 | whatever text is parsed, encoding the messages and parsing again gives the same messages |
| Text.EncodedLength | tglog/codec.go:70-82 | the encoded length is the payload size plus one for every missing newline |
| WorkerDatagrams.DatagramFits | tglog/worker.go:350-364 | in every run, a batch that a V1 worker over UDP has sent keeps its payloads within the limit and fits a datagram if and only if the newlines that encoding adds fit as well; it is too long by at most one byte per message, and never if all messages end with a newline |
| Text.DatagramTooLong | tglog/worker.go:284-292 | one record of the largest admitted size, without a newline, whose encoding exceeds a datagram |

## Left out

- Completion and closing of protocol V1 over TCP, which happen in the network callback and give other guarantees.
- The panic of a producer that sends to a data channel closed since its ready check: such a producer keeps its permit and does not enqueue.
- Panics and `recover`, data races, unsafe conversions.
- Capacities of the event channels of the worker and of the pool's command queue: a send that would wait is a later step.
- `updateConn`, `handleCleanMap`, heartbeats, metrics, logging, option setters and buffer pools.
- Real time: lifetimes, back-off delays, close delays and the retry counters that only lengthen delays.
- `NumPooled` and `dump` of the pool, which only read.
- A `Close` of the pool in the middle of a command: the handler goes on with the `closed` that it found, while the source reads it again at each dial, so a rebalance whose later dials alone are dropped is no step of the model.
- Internals of serialising, snappy, AES and MD5.
- DNS discovery, and reflection in `ToTGLogString`.
- WorkerLoop.Worker.Reserve: what the semaphore says is a parameter of this method; the semaphore's own steps, and the producers waiting in it, are in `WorkerAdmission`.
- WorkerLoop.Worker.CallBack: giving a permit back does not block in this method; the releases that can block are steps of `WorkerAdmission`.
- WorkerAdmission.Projection: a handler is one step followed by the releases it owes, so its callbacks and the closing of the worker are recorded together, before the releases; `Made` tells which callbacks have been made, and `ShutDown` whether `closeAll` has been reached.
- WorkerLoop.Worker.HandleSendData: the map of pending batches has a single key, so the pending batch is an optional object.
- ConnPool.ConnPool.GetEndpoint: the round-robin index is unbounded, so its wrap-around after 2^64 calls is not modelled.
- ConnPool.ConnPool.Expected: integer division stands for floating point and rounding down, which agree for numbers below 2^53.
- ConnPool.ConnPool.HandleConnClosed: an address that is not the connection's own is not modelled, because addresses come from the connection's context.
- ConnPool.ConnPool.CleanExpired: the list is filtered in place instead of being replaced at the end; nothing reads it in between.
- ConnPool.ConnPool.CountedDead: the event loop may report any connection at any time, more than once; that gnet reports each once is not used.
- ConnPool.ConnPool.PutConn: lifetimes are a set of connections whose time is over, read once per command.
- Framer.ReadFrame: offset plus length of the length field is unbounded, so settings near the largest integer do not wrap around.
- Semaphore.RunCounted: the counter is unbounded, so more than 2^31 waiters do not wrap around.
- Codec.FrameRecognised: frames longer than MaxFrameLen, and a MaxFrameLen beyond four bytes, are excluded, because the framer refuses them or the length field cannot hold them.
