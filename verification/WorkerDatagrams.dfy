/** What a worker with protocol V1 over UDP puts on the wire. */
module WorkerDatagrams {
  import opened Common
  import Framer
  import opened WorkerSpec
  import opened WorkerInvariant
  import opened WorkerRuns
  import Text

  /** The messages of a batch with their payloads. */
  function Records(ms: seq<Message>, payload: Message -> Framer.Bytes): seq<Text.Message> {
    seq(|ms|, i requires 0 <= i < |ms| => Text.Message([], payload(ms[i])))
  }

  lemma {:induction false} RecordsSize(ms: seq<Message>, payload: Message -> Framer.Bytes)
    requires forall m :: |payload(m)| == m.size
    ensures Text.PayloadSize(Records(ms, payload)) == TotalSize(ms)
  {
    if ms != [] {
      var n := |ms| - 1;
      RecordsSize(ms[..n], payload);
      Text.PayloadSizeAppend(Records(ms[..n], payload), Text.Message([], payload(ms[n])));
      assert Records(ms, payload) == Records(ms[..n], payload) + [Text.Message([], payload(ms[n]))];
    }
  }

  lemma BatchOnWire(cfg: Config, ms: seq<Message>, payload: Message -> Framer.Bytes)
    requires cfg.udp && !cfg.v3 && GoodBatch(cfg, ms) && forall m :: |payload(m)| == m.size
    ensures var rs := Records(ms, payload);
            && Text.NonEmpty(rs)
            && |Text.EncodeV1(rs)| == TotalSize(ms) + Text.Unterminated(rs)
            && Text.Unterminated(rs) <= |ms| && (Text.Unterminated(rs) == 0 <==> Text.AllTerminated(rs))
  {
    var rs := Records(ms, payload);
    assert forall k :: 0 <= k < |rs| ==> |rs[k].payload| == ms[k].size;
    assert forall k :: 0 <= k < |rs| ==> GoodMessage(cfg, ms[k]);
    RecordsSize(ms, payload);
    Text.EncodedLength(rs);
    Text.UnterminatedBound(rs);
  }

  /** In every run the worker keeps the payloads of a batch within the limit, but encoding adds the newlines
      that are missing. So a batch fits a datagram exactly if there is room left for those; it is too long by
      at most one byte per message, and never if all messages end with a newline. */
  lemma DatagramFits(cfg: Config, trace: seq<State>, steps: seq<Step>, i: nat, id: Id, payload: Message -> Framer.Bytes)
    requires cfg.Supported() && cfg.udp && !cfg.v3 && IsRun(cfg, trace, steps) && i < |trace| && id in trace[i].log
    requires forall m :: |payload(m)| == m.size
    ensures var ms := trace[i].log[id].msgs;
            var rs := Records(ms, payload);
            && TotalSize(ms) <= MAX_UDP_REQ_SIZE_V1 && Text.NonEmpty(rs)
            && (|Text.EncodeV1(rs)| <= MAX_UDP_REQ_SIZE_V1 <==> Text.Unterminated(rs) <= MAX_UDP_REQ_SIZE_V1 - TotalSize(ms))
            && |Text.EncodeV1(rs)| <= MAX_UDP_REQ_SIZE_V1 + |ms|
            && (Text.AllTerminated(rs) ==> |Text.EncodeV1(rs)| <= MAX_UDP_REQ_SIZE_V1)
  {
    OrderKept(cfg, trace, steps, i);
    BatchOnWire(cfg, trace[i].log[id].msgs, payload);
  }
}
