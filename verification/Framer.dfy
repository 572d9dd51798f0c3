/** Cutting a byte stream into frames by a length field. */
module Framer {

  type byte = b: int | 0 <= b < 256

  type Bytes = seq<byte>

  const DEFAULT_SIZE := 64 * 1024
  const TWO_63 := 0x8000_0000_0000_0000
  const TWO_64 := 0x1_0000_0000_0000_0000

  datatype Config = Config(
    littleEndian: bool, maxFrameLen: int, fieldOffset: int, fieldLength: int, adjustment: int, bytesToStrip: int)

  datatype ConfigError = BadOffset | BadLength | BadStrip | UnsupportedLength | FieldBeyondFrame

  datatype NewResult = Accepted(cfg: Config) | Refused(why: ConfigError)

  /** The value of an int64 that holds `n` modulo 2^64. */
  function Int64(n: int): (r: int)
    ensures -TWO_63 <= r < TWO_63 && (n - r) % TWO_64 == 0
    ensures -TWO_63 <= n < TWO_63 ==> r == n
  {
    var m := n % TWO_64;
    if m >= TWO_63 then m - TWO_64 else m
  }

  /** `NewLengthField`. */
  function NewLengthField(cfg: Config): (r: NewResult)
    ensures r.Accepted? ==> ValidConfig(r.cfg) && r.cfg == cfg.(maxFrameLen := r.cfg.maxFrameLen)
    ensures r.Accepted? <==> ValidConfig(cfg.(maxFrameLen := if cfg.maxFrameLen <= 0 then DEFAULT_SIZE else cfg.maxFrameLen))
    ensures r.Accepted? ==> r.cfg.maxFrameLen == if cfg.maxFrameLen <= 0 then DEFAULT_SIZE else cfg.maxFrameLen
    ensures r == Refused(BadOffset) <==> cfg.fieldOffset < 0
    ensures r == Refused(BadStrip) <==> cfg.fieldOffset >= 0 && cfg.fieldLength > 0 && cfg.bytesToStrip < 0
  {
    if cfg.fieldOffset < 0 then Refused(BadOffset)
    else if cfg.fieldLength <= 0 then Refused(BadLength)
    else if cfg.bytesToStrip < 0 then Refused(BadStrip)
    else if cfg.fieldLength !in {1, 2, 3, 4, 8} then Refused(UnsupportedLength)
    else
      var maxFrameLen := if cfg.maxFrameLen <= 0 then DEFAULT_SIZE else cfg.maxFrameLen;
      if cfg.fieldOffset + cfg.fieldLength >= maxFrameLen then Refused(FieldBeyondFrame)
      else Accepted(cfg.(maxFrameLen := maxFrameLen))
  }

  /** What a constructed framer guarantees about its settings. */
  predicate ValidConfig(cfg: Config) {
    && 0 <= cfg.fieldOffset && cfg.fieldLength in {1, 2, 3, 4, 8} && 0 <= cfg.bytesToStrip
    && cfg.fieldOffset + cfg.fieldLength < cfg.maxFrameLen
  }

  /** The number written in `bs`, most significant byte first. */
  function BigEndian(bs: Bytes): nat {
    if bs == [] then 0 else BigEndian(bs[..|bs| - 1]) * 256 + bs[|bs| - 1]
  }

  /** The number written in `bs`, least significant byte first. */
  function LittleEndian(bs: Bytes): nat {
    if bs == [] then 0 else bs[0] + 256 * LittleEndian(bs[1..])
  }

  function Number(littleEndian: bool, bs: Bytes): nat {
    if littleEndian then LittleEndian(bs) else BigEndian(bs)
  }

  datatype FrameError = InvalidLength | ShorterThanField | TooLong | StripTooMuch

  datatype ReadResult =
    | Frame(len: nat, start: nat, end: nat)
    | Incomplete
    | Malformed(why: FrameError)

  /** `ReadFrame`. */
  function ReadFrame(cfg: Config, input: Bytes): (r: ReadResult)
    requires ValidConfig(cfg)
    ensures r.Frame? ==> 1 <= r.len <= |input| && r.len <= cfg.maxFrameLen && r.start == cfg.bytesToStrip <= r.end == r.len
  {
    var fieldEnd := cfg.fieldOffset + cfg.fieldLength;
    if |input| <= 0 then Incomplete
    else if |input| < fieldEnd then Incomplete
    else
      var unadjusted := Number(cfg.littleEndian, input[cfg.fieldOffset..fieldEnd]);
      if unadjusted <= 0 then Malformed(InvalidLength)
      else
        var len := Int64(fieldEnd + cfg.adjustment + unadjusted);
        if len < fieldEnd then Malformed(ShorterThanField)
        else if len > cfg.maxFrameLen then Malformed(TooLong)
        else if len > |input| then Incomplete
        else if cfg.bytesToStrip > len then Malformed(StripTooMuch)
        else Frame(len, cfg.bytesToStrip, len)
  }

  /** Which result the number in the length field leads to. The frame has that number of bytes behind the field, changed
      by the adjustment, in the arithmetic of 64-bit integers. */
  lemma FrameOrError(cfg: Config, input: Bytes, fieldEnd: nat, x: nat, len: int)
    requires ValidConfig(cfg) && fieldEnd == cfg.fieldOffset + cfg.fieldLength <= |input|
    requires x == Number(cfg.littleEndian, input[cfg.fieldOffset..fieldEnd]) && len == Int64(fieldEnd + cfg.adjustment + x)
    ensures ReadFrame(cfg, input) == Malformed(InvalidLength) <==> x == 0
    ensures ReadFrame(cfg, input) == Malformed(ShorterThanField) <==> x > 0 && len < fieldEnd
    ensures ReadFrame(cfg, input) == Malformed(TooLong) <==> x > 0 && len >= fieldEnd && len > cfg.maxFrameLen
    ensures ReadFrame(cfg, input) == Incomplete <==> x > 0 && fieldEnd <= len <= cfg.maxFrameLen && len > |input|
    ensures ReadFrame(cfg, input) == Malformed(StripTooMuch) <==>
            x > 0 && fieldEnd <= len <= cfg.maxFrameLen && len <= |input| && len < cfg.bytesToStrip
    ensures ReadFrame(cfg, input).Frame? <==>
            x > 0 && fieldEnd <= len <= cfg.maxFrameLen && len <= |input| && cfg.bytesToStrip <= len
    ensures ReadFrame(cfg, input).Frame? ==> len >= 0 && ReadFrame(cfg, input) == Frame(len, cfg.bytesToStrip, len)
  {
  }

  /** Before the length field has arrived nothing is decided. */
  lemma FieldMissing(cfg: Config, input: Bytes)
    requires ValidConfig(cfg) && |input| < cfg.fieldOffset + cfg.fieldLength
    ensures ReadFrame(cfg, input) == Incomplete
  {
  }

  /** What has been decided stays decided when more bytes arrive. */
  lemma ExtensionKeeps(cfg: Config, input: Bytes, more: Bytes)
    requires ValidConfig(cfg) && !ReadFrame(cfg, input).Incomplete?
    ensures ReadFrame(cfg, input + more) == ReadFrame(cfg, input)
  {
    var fieldEnd := cfg.fieldOffset + cfg.fieldLength;
    assert (input + more)[cfg.fieldOffset..fieldEnd] == input[cfg.fieldOffset..fieldEnd];
  }

  /** What is incomplete was incomplete with fewer bytes. */
  lemma PrefixIncomplete(cfg: Config, input: Bytes, n: nat)
    requires ValidConfig(cfg) && ReadFrame(cfg, input).Incomplete? && n <= |input|
    ensures ReadFrame(cfg, input[..n]).Incomplete?
  {
    assert input == input[..n] + input[n..];
    if !ReadFrame(cfg, input[..n]).Incomplete? {
      ExtensionKeeps(cfg, input[..n], input[n..]);
    }
  }

  // ----- the receiving loop of a TCP connection

  /** What the loop has delivered, what it leaves in the buffer, and whether it closed the connection. */
  datatype Progress = Progress(frames: seq<Bytes>, rest: Bytes, closed: bool)

  /** One-shot processing of everything that has arrived. */
  function Cut(cfg: Config, buf: Bytes): (p: Progress)
    requires ValidConfig(cfg)
    decreases |buf|
  {
    match ReadFrame(cfg, buf)
    case Incomplete => Progress([], buf, false)
    case Malformed(_) => Progress([], buf, true)
    case Frame(len, start, end) =>
      var p := Cut(cfg, buf[len..]);
      p.(frames := [buf[..len][start..end]] + p.frames)
  }

  /** The bytes of a frame alone are a frame. */
  lemma FrameAlone(cfg: Config, input: Bytes)
    requires ValidConfig(cfg) && ReadFrame(cfg, input).Frame?
    ensures ReadFrame(cfg, input[..ReadFrame(cfg, input).len]) == ReadFrame(cfg, input)
  {
    var len, fieldEnd := ReadFrame(cfg, input).len, cfg.fieldOffset + cfg.fieldLength;
    assert input[..len][cfg.fieldOffset..fieldEnd] == input[cfg.fieldOffset..fieldEnd];
  }

  /** The pieces and what is left over make up the stream, each piece is a frame, and what is left over is none. */
  ghost predicate InPieces(cfg: Config, buf: Bytes, p: Progress, pieces: seq<Bytes>)
    requires ValidConfig(cfg)
  {
    && |pieces| == |p.frames| && Join(pieces) + p.rest == buf
    && (forall i :: 0 <= i < |pieces| ==> Delivers(cfg, pieces[i], p.frames[i]))
    && (if p.closed then ReadFrame(cfg, p.rest).Malformed? else ReadFrame(cfg, p.rest).Incomplete?)
  }

  lemma OneMorePiece(cfg: Config, piece: Bytes, frame: Bytes, buf: Bytes, p: Progress, pieces: seq<Bytes>)
    requires ValidConfig(cfg) && InPieces(cfg, buf, p, pieces) && Delivers(cfg, piece, frame)
    ensures InPieces(cfg, piece + buf, p.(frames := [frame] + p.frames), [piece] + pieces)
  {
    assert ([piece] + pieces)[1..] == pieces;
    assert piece + (Join(pieces) + p.rest) == piece + Join(pieces) + p.rest;
  }

  /** What has been delivered is the stream, piece by piece, each without the bytes to strip. */
  lemma {:induction false} CutPieces(cfg: Config, buf: Bytes) returns (pieces: seq<Bytes>)
    requires ValidConfig(cfg)
    ensures InPieces(cfg, buf, Cut(cfg, buf), pieces)
    decreases |buf|
  {
    pieces := [];
    match ReadFrame(cfg, buf) {
      case Frame(len, start, end) =>
        var more := CutPieces(cfg, buf[len..]);
        FrameAlone(cfg, buf);
        OneMorePiece(cfg, buf[..len], buf[..len][start..end], buf[len..], Cut(cfg, buf[len..]), more);
        pieces := [buf[..len]] + more;
        assert buf == buf[..len] + buf[len..];
      case _ =>
    }
  }

  /** `piece` is a whole frame, and `frame` is what the application gets of it. */
  predicate Delivers(cfg: Config, piece: Bytes, frame: Bytes)
    requires ValidConfig(cfg)
  {
    var r := ReadFrame(cfg, piece);
    r.Frame? && r.len == |piece| && 0 <= cfg.bytesToStrip <= |piece| && frame == piece[cfg.bytesToStrip..]
  }

  /** Frames back to back. */
  function Join(fs: seq<Bytes>): Bytes {
    if fs == [] then [] else fs[0] + Join(fs[1..])
  }

  /** More bytes arrive on a connection; a closed one ignores them. */
  function Receive(cfg: Config, p: Progress, chunk: Bytes): Progress
    requires ValidConfig(cfg)
  {
    if p.closed then p
    else
      var q := Cut(cfg, p.rest + chunk);
      q.(frames := p.frames + q.frames)
  }

  function ReceiveAll(cfg: Config, chunks: seq<Bytes>): Progress
    requires ValidConfig(cfg)
  {
    if chunks == [] then Progress([], [], false)
    else Receive(cfg, ReceiveAll(cfg, chunks[..|chunks| - 1]), chunks[|chunks| - 1])
  }

  function Concat(chunks: seq<Bytes>): Bytes {
    if chunks == [] then [] else Concat(chunks[..|chunks| - 1]) + chunks[|chunks| - 1]
  }

  /** A frame found before stays in front. */
  lemma ReceiveAfter(cfg: Config, p: Progress, chunk: Bytes, frame: Bytes)
    requires ValidConfig(cfg)
    ensures var q := Receive(cfg, p, chunk);
            Receive(cfg, p.(frames := [frame] + p.frames), chunk) == q.(frames := [frame] + q.frames)
  {
    var q := Cut(cfg, p.rest + chunk);
    assert [frame] + (p.frames + q.frames) == ([frame] + p.frames) + q.frames;
  }

  /** Cutting what has arrived, then the rest with what arrives later, is cutting it all at once. */
  lemma {:induction false} CutInTwo(cfg: Config, a: Bytes, b: Bytes)
    requires ValidConfig(cfg)
    ensures var p := Cut(cfg, a);
            var q := Cut(cfg, a + b);
            if p.closed then q.closed && q.frames == p.frames
            else q == Receive(cfg, p, b)
    decreases |a|
  {
    match ReadFrame(cfg, a)
    case Incomplete =>
      assert [] + Cut(cfg, a + b).frames == Cut(cfg, a + b).frames;
    case Malformed(_) =>
      ExtensionKeeps(cfg, a, b);
    case Frame(len, start, end) =>
      ExtensionKeeps(cfg, a, b);
      assert (a + b)[len..] == a[len..] + b && (a + b)[..len] == a[..len];
      CutInTwo(cfg, a[len..], b);
      ReceiveAfter(cfg, Cut(cfg, a[len..]), b, a[..len][start..end]);
  }

  /** However the stream is cut into arrivals, the same frames are delivered in the same order, the
      connection is closed in the same cases, and while it is open the same bytes are left over. */
  lemma {:induction false} ChunkingIndependence(cfg: Config, chunks: seq<Bytes>)
    requires ValidConfig(cfg)
    ensures var p := ReceiveAll(cfg, chunks);
            var q := Cut(cfg, Concat(chunks));
            p.frames == q.frames && p.closed == q.closed && (!p.closed ==> p.rest == q.rest)
  {
    if chunks != [] {
      var n := |chunks| - 1;
      ChunkingIndependence(cfg, chunks[..n]);
      CutInTwo(cfg, Concat(chunks[..n]), chunks[n]);
    }
  }

  /** Any two ways of cutting the same stream deliver the same. */
  lemma SameStreamSameFrames(cfg: Config, xs: seq<Bytes>, ys: seq<Bytes>)
    requires ValidConfig(cfg) && Concat(xs) == Concat(ys)
    ensures ReceiveAll(cfg, xs).frames == ReceiveAll(cfg, ys).frames
    ensures ReceiveAll(cfg, xs).closed == ReceiveAll(cfg, ys).closed
  {
    ChunkingIndependence(cfg, xs);
    ChunkingIndependence(cfg, ys);
  }

  /** A TCP connection of the client. */
  class Connection {
    const cfg: Config
    var buffered: Bytes
    var delivered: seq<Bytes>
    var closed: bool

    ghost predicate Valid()
    {
      ValidConfig(cfg)
    }

    function View(): Progress
      reads this
    {
      Progress(delivered, buffered, closed)
    }

    constructor (cfg: Config)
      requires ValidConfig(cfg)
      ensures this.cfg == cfg && Valid() && View() == ReceiveAll(cfg, [])
    {
      this.cfg := cfg;
      buffered, delivered, closed := [], [], false;
    }

    /** `OnTraffic`: every iteration takes at least one byte. */
    method OnTraffic(chunk: Bytes)
      requires Valid()
      modifies this
      ensures View() == Receive(cfg, old(View()), chunk)
    {
      if closed {
        return;
      }
      buffered := buffered + chunk;
      assert buffered + [] == buffered;
      ghost var goal := Receive(cfg, old(View()), chunk);
      while |buffered| > 0
        invariant !closed && goal == Receive(cfg, Progress(delivered, buffered, false), [])
        decreases |buffered|
      {
        assert buffered + [] == buffered;
        var r := ReadFrame(cfg, buffered);
        match r
        case Incomplete =>
          return;
        case Malformed(_) =>
          closed := true;
          return;
        case Frame(len, start, end) =>
          ghost var tail := Cut(cfg, buffered[len..]);
          assert delivered + ([buffered[..len][start..end]] + tail.frames) ==
                 (delivered + [buffered[..len][start..end]]) + tail.frames;
          delivered := delivered + [buffered[..len][start..end]];
          buffered := buffered[len..];
          assert buffered + [] == buffered;
      }
    }
  }
}
