/** Requests and responses of protocol V3: padding, encryption, compression and the frame layout. */
module Codec {
  import opened Common
  import opened Framer

  // ----- padding (section 6.3 of RFC 5652)

  /** `pkcs7Padding`; the padding length is written as a byte. */
  function Pad(data: Bytes, blockSize: nat): (r: Bytes)
    requires blockSize > 0
    ensures |r| % blockSize == 0 && |data| < |r| <= |data| + blockSize && r[..|data|] == data
    ensures forall i :: |data| <= i < |r| ==> r[i] == (|r| - |data|) % 256
  {
    var padding := blockSize - |data| % blockSize;
    PaddedLength(|data|, blockSize);
    data + seq(padding, _ => padding % 256)
  }

  lemma PaddedLength(n: nat, blockSize: nat)
    requires blockSize > 0
    ensures (n + (blockSize - n % blockSize)) % blockSize == 0
  {
    assert n == n / blockSize * blockSize + n % blockSize;
    assert n + (blockSize - n % blockSize) == (n / blockSize + 1) * blockSize;
    MultipleOf(n / blockSize + 1, blockSize);
  }

  lemma MultipleOf(k: nat, m: nat)
    requires m > 0
    ensures (k * m) % m == 0
  {
    var d := k - (k * m) / m;
    assert d * m == (k * m) % m;
    assert d >= 1 ==> d * m >= m;
    assert d <= -1 ==> d * m < 0;
  }

  /** `pkcs7UnPadding`. */
  function UnPad(data: Bytes): Option<Bytes> {
    if |data| == 0 then None
    else
      var n := data[|data| - 1];
      if n > |data| then None else Some(data[..|data| - n])
  }

  /** Removing the padding gives the data back exactly when the padding length fits into a byte. */
  lemma UnPadInvertsPad(data: Bytes, blockSize: nat)
    requires blockSize > 0
    ensures UnPad(Pad(data, blockSize)) == Some(data) <==> blockSize - |data| % blockSize <= 255
  {
    var padding := blockSize - |data| % blockSize;
    var padded := Pad(data, blockSize);
    assert padded[|padded| - 1] == padding % 256;
    if padding <= 255 {
      assert padded[..|padded| - padding] == data;
    } else {
      assert |padded| - padding % 256 > |data|;
    }
  }

  // ----- primitives that are not modelled further

  const BLOCK_SIZE := 16
  const MIN_COMPRESS_SIZE := 512

  /** AES in CBC mode over whole blocks, snappy, and the constants of the protocol. */
  datatype Primitives = Primitives(
    encrypt: (Bytes, Bytes) -> Bytes,
    decrypt: (Bytes, Bytes) -> Bytes,
    compress: Bytes -> Bytes,
    decompress: Bytes -> Option<Bytes>,
    magic: nat,
    compressed: bv8, encrypted: bv8, compressedHeader: bv8, encryptedHeader: bv8)
  {
    /** Each pair is inverse, and the flags are distinct bits. */
    ghost predicate Lawful() {
      && (forall k: Bytes, d: Bytes :: |d| % BLOCK_SIZE == 0 ==>
            |encrypt(k, d)| == |d| && decrypt(k, encrypt(k, d)) == d)
      && (forall d: Bytes :: decompress(compress(d)) == Some(d))
      && magic < 0x1_0000
      && DistinctFlags()
    }

    predicate DistinctFlags() {
      && compressed != 0 && encrypted != 0 && compressed & encrypted == 0
      && compressed & compressedHeader == 0 && compressed & encryptedHeader == 0
      && encrypted & compressedHeader == 0 && encrypted & encryptedHeader == 0
      && compressedHeader != 0 && encryptedHeader != 0 && compressedHeader & encryptedHeader == 0
    }
  }

  predicate ValidKey(key: Bytes) {
    |key| == 16 || |key| == 24 || |key| == 32
  }

  /** `AesEncrypt`; a key of another length is an error. */
  function AesEncrypt(p: Primitives, data: Bytes, key: Bytes): Option<Bytes> {
    if ValidKey(key) then Some(p.encrypt(key, Pad(data, BLOCK_SIZE))) else None
  }

  /** How decoding ends; input that is not whole blocks, or a frame shorter than its header, makes
      the library panic. */
  datatype Decoded = Payload(bytes: Bytes) | Rejected | Panic

  /** `AesDecrypt`. */
  function AesDecrypt(p: Primitives, data: Bytes, key: Bytes): Decoded {
    if !ValidKey(key) then Rejected
    else if |data| % BLOCK_SIZE != 0 then Panic
    else match UnPad(p.decrypt(key, data))
         case None => Rejected
         case Some(d) => Payload(d)
  }

  lemma AesRoundTrip(p: Primitives, data: Bytes, key: Bytes)
    requires p.Lawful() && ValidKey(key)
    ensures AesEncrypt(p, data, key).Some?
    ensures AesDecrypt(p, AesEncrypt(p, data, key).value, key) == Payload(data)
  {
    UnPadInvertsPad(data, BLOCK_SIZE);
  }

  // ----- fixed width numbers

  function Pow256(k: nat): nat {
    if k == 0 then 1 else 256 * Pow256(k - 1)
  }

  /** The low `k` bytes of `n`, as `PutUint16` and `PutUint32` write them. */
  function PutNumber(littleEndian: bool, n: nat, k: nat): (r: Bytes)
    ensures |r| == k
  {
    if k == 0 then []
    else if littleEndian then [n % 256] + PutNumber(littleEndian, n / 256, k - 1)
    else PutNumber(littleEndian, n / 256, k - 1) + [n % 256]
  }

  lemma {:induction false} NumberInvertsPut(littleEndian: bool, n: nat, k: nat)
    requires n < Pow256(k)
    ensures Number(littleEndian, PutNumber(littleEndian, n, k)) == n
  {
    if k > 0 {
      NumberInvertsPut(littleEndian, n / 256, k - 1);
      var rest := PutNumber(littleEndian, n / 256, k - 1);
      if littleEndian {
        assert PutNumber(littleEndian, n, k)[1..] == rest;
      } else {
        assert PutNumber(littleEndian, n, k)[..k - 1] == rest;
      }
    }
  }

  // ----- the frame layout

  const FRAME_HEADER_LEN := 10

  /** Magic, length, flags, header length, reserved byte, header, body. */
  function Layout(p: Primitives, littleEndian: bool, flags: bv8, header: Bytes, body: Bytes): (r: Bytes)
    ensures |r| == FRAME_HEADER_LEN + |header| + |body|
  {
    PutNumber(false, p.magic, 2) + PutNumber(littleEndian, FRAME_HEADER_LEN + |header| + |body|, 4)
    + [flags as int] + PutNumber(littleEndian, |header|, 2) + [0] + header + body
  }

  lemma LayoutParts(p: Primitives, littleEndian: bool, flags: bv8, header: Bytes, body: Bytes)
    ensures var f := Layout(p, littleEndian, flags, header, body);
            && f[..2] == PutNumber(false, p.magic, 2)
            && f[2..6] == PutNumber(littleEndian, |f|, 4)
            && f[6] == flags as int
            && f[7..9] == PutNumber(littleEndian, |header|, 2)
            && f[9] == 0
            && f[10..10 + |header|] == header && f[10 + |header|..] == body
            && f[10..] == header + body
  {
  }

  /** A frame that fits is recognised at the head of any stream, with the default settings. */
  lemma FrameRecognised(p: Primitives, littleEndian: bool, flags: bv8, header: Bytes, body: Bytes, more: Bytes, maxFrameLen: nat)
    requires |Layout(p, littleEndian, flags, header, body)| <= maxFrameLen < 0x1_0000_0000
    ensures var f := Layout(p, littleEndian, flags, header, body);
            ReadFrame(DefaultConfig(littleEndian, maxFrameLen), f + more) == Frame(|f|, 0, |f|)
  {
    var f := Layout(p, littleEndian, flags, header, body);
    LayoutParts(p, littleEndian, flags, header, body);
    assert (f + more)[2..6] == f[2..6];
    assert Pow256(4) == 0x1_0000_0000;
    NumberInvertsPut(littleEndian, |f|, 4);
  }

  /** The settings of `NewV3Client`. */
  function DefaultConfig(littleEndian: bool, maxFrameLen: nat): Config {
    Config(littleEndian, maxFrameLen, 2, 4, -6, 0)
  }

  /** A request as it is laid out on the wire. */
  datatype Request = Request(flags: bv8, header: Bytes, body: Bytes)

  function Wire(p: Primitives, littleEndian: bool, r: Request): Bytes {
    Layout(p, littleEndian, r.flags, r.header, r.body)
  }

  function Wires(p: Primitives, littleEndian: bool, rs: seq<Request>): seq<Bytes> {
    seq(|rs|, i requires 0 <= i < |rs| => Wire(p, littleEndian, rs[i]))
  }

  /** Whatever follows them, these bytes are taken for one frame. */
  ghost predicate IsFrame(cfg: Config, f: Bytes)
    requires ValidConfig(cfg)
  {
    forall more :: ReadFrame(cfg, f + more) == Frame(|f|, 0, |f|)
  }

  lemma CutFirst(cfg: Config, f: Bytes, more: Bytes)
    requires ValidConfig(cfg) && IsFrame(cfg, f)
    ensures var rest := Cut(cfg, more); Cut(cfg, f + more) == rest.(frames := [f] + rest.frames)
  {
    assert (f + more)[|f|..] == more && (f + more)[..|f|] == f && f[0..|f|] == f;
  }

  lemma {:induction false} CutAll(cfg: Config, fs: seq<Bytes>)
    requires ValidConfig(cfg) && forall i :: 0 <= i < |fs| ==> IsFrame(cfg, fs[i])
    ensures Cut(cfg, Join(fs)) == Progress(fs, [], false)
  {
    if fs != [] {
      CutAll(cfg, fs[1..]);
      CutFirst(cfg, fs[0], Join(fs[1..]));
    }
  }

  /** Any concatenation of frames is cut back into exactly those frames. */
  lemma CutInvertsJoin(p: Primitives, littleEndian: bool, rs: seq<Request>, maxFrameLen: nat)
    requires 6 < maxFrameLen < 0x1_0000_0000
    requires forall i :: 0 <= i < |rs| ==> |Wire(p, littleEndian, rs[i])| <= maxFrameLen
    ensures Cut(DefaultConfig(littleEndian, maxFrameLen), Join(Wires(p, littleEndian, rs))) ==
            Progress(Wires(p, littleEndian, rs), [], false)
  {
    var cfg, fs := DefaultConfig(littleEndian, maxFrameLen), Wires(p, littleEndian, rs);
    forall i | 0 <= i < |fs| ensures IsFrame(cfg, fs[i]) {
      WireIsFrame(p, littleEndian, rs[i], maxFrameLen);
    }
    CutAll(cfg, fs);
  }

  lemma WireIsFrame(p: Primitives, littleEndian: bool, r: Request, maxFrameLen: nat)
    requires 6 < maxFrameLen < 0x1_0000_0000 && |Wire(p, littleEndian, r)| <= maxFrameLen
    ensures IsFrame(DefaultConfig(littleEndian, maxFrameLen), Wire(p, littleEndian, r))
  {
    forall more ensures ReadFrame(DefaultConfig(littleEndian, maxFrameLen), Wire(p, littleEndian, r) + more)
                        == Frame(|Wire(p, littleEndian, r)|, 0, |Wire(p, littleEndian, r)|)
    {
      FrameRecognised(p, littleEndian, r.flags, r.header, r.body, more, maxFrameLen);
    }
  }

  /** The same when the stream arrives in pieces. */
  lemma PiecesInvertJoin(p: Primitives, littleEndian: bool, rs: seq<Request>, maxFrameLen: nat, pieces: seq<Bytes>)
    requires 6 < maxFrameLen < 0x1_0000_0000
    requires forall i :: 0 <= i < |rs| ==> |Wire(p, littleEndian, rs[i])| <= maxFrameLen
    requires Concat(pieces) == Join(Wires(p, littleEndian, rs))
    ensures ReceiveAll(DefaultConfig(littleEndian, maxFrameLen), pieces) ==
            Progress(Wires(p, littleEndian, rs), [], false)
  {
    ChunkingIndependence(DefaultConfig(littleEndian, maxFrameLen), pieces);
    CutInvertsJoin(p, littleEndian, rs, maxFrameLen);
  }

  // ----- encoding a request

  datatype Options = Options(
    noFrameHeader: bool, compress: bool, encrypt: bool, auth: bool, sign: bool, littleEndian: bool)

  /** A marshalled request header; the signature in it depends on the encoded body. */
  datatype Header = Header(plain: Bytes, signed: Bytes -> Bytes)

  /** An encoded section of a frame, and how it was treated. */
  datatype Section = Section(zipped: bool, secret: bool, bytes: Bytes)

  /** The body, compressed if it is large, then encrypted. */
  function EncodeBody(p: Primitives, body: Bytes, o: Options, key: Bytes): Option<Section> {
    var large := o.compress && |body| > MIN_COMPRESS_SIZE;
    var zipped := if large then p.compress(body) else body;
    if !o.encrypt then Some(Section(large, false, zipped))
    else match AesEncrypt(p, zipped, key)
         case None => None
         case Some(secret) => Some(Section(large, true, secret))
  }

  predicate HasHeader(header: Option<Header>, o: Options) {
    (o.auth || o.sign) && header.Some?
  }

  /** The header, signed over the encoded body; if there is one, it is always encrypted. */
  function EncodeHeader(p: Primitives, header: Option<Header>, body: Bytes, o: Options, key: Bytes): Option<Section> {
    if !HasHeader(header, o) then Some(Section(false, false, []))
    else
      var plain := if o.sign then header.value.signed(body) else header.value.plain;
      var large := o.compress && |plain| > MIN_COMPRESS_SIZE;
      var zipped := if large then p.compress(plain) else plain;
      match AesEncrypt(p, zipped, key)
      case None => None
      case Some(secret) => Some(Section(large, true, secret))
  }

  function BodyFlags(p: Primitives, zipped: bool, secret: bool): bv8 {
    (if zipped then p.compressed else 0) | (if secret then p.encrypted else 0)
  }

  function HeaderFlags(p: Primitives, zipped: bool, secret: bool): bv8 {
    (if zipped then p.compressedHeader else 0) | (if secret then p.encryptedHeader else 0)
  }

  function Flags(p: Primitives, body: Section, header: Section): bv8 {
    BodyFlags(p, body.zipped, body.secret) | HeaderFlags(p, header.zipped, header.secret)
  }

  /** The bytes that `EncodeV3Req` appends to its buffer. */
  function Encode(p: Primitives, header: Option<Header>, body: Bytes, o: Options, key: Bytes): Option<Bytes> {
    if o.noFrameHeader && !o.compress && !o.encrypt && !o.auth && !o.sign then Some(body)
    else match EncodeBody(p, body, o, key)
         case None => None
         case Some(b) =>
           match EncodeHeader(p, header, b.bytes, o, key)
           case None => None
           case Some(h) => Some(Layout(p, o.littleEndian, Flags(p, b, h), h.bytes, b.bytes))
  }

  method CompressAndEncrypt(p: Primitives, body: Bytes, o: Options, key: Bytes)
    returns (flags: bv8, r: Option<Section>)
    ensures r == EncodeBody(p, body, o, key)
    ensures r.Some? ==> flags == BodyFlags(p, r.value.zipped, r.value.secret)
  {
    flags := 0;
    var bodyBuf := body;
    if o.compress && |bodyBuf| > MIN_COMPRESS_SIZE {
      flags := flags | p.compressed;
      bodyBuf := p.compress(bodyBuf);
    }
    if o.encrypt {
      flags := flags | p.encrypted;
      var secret := AesEncrypt(p, bodyBuf, key);
      if secret.None? {
        return flags, None;
      }
      bodyBuf := secret.value;
    }
    r := Some(Section(o.compress && |body| > MIN_COMPRESS_SIZE, o.encrypt, bodyBuf));
  }

  method SignAndEncrypt(p: Primitives, header: Header, body: Bytes, o: Options, key: Bytes, flagsIn: bv8)
    returns (flags: bv8, r: Option<Section>)
    requires o.auth || o.sign
    ensures r == EncodeHeader(p, Some(header), body, o, key)
    ensures r.Some? ==> flags == flagsIn | HeaderFlags(p, r.value.zipped, r.value.secret)
    ensures r.Some? <==> ValidKey(key)
    ensures r.Some? && p.Lawful() ==>
              DecodeBody(p, r.value.zipped, true, r.value.bytes, key) == Payload(if o.sign then header.signed(body) else header.plain)
  {
    HeaderOpens(p, header, body, o, key);
    r := SealHeader(p, header, body, o, key);
    flags := flagsIn;
    if r.Some? {
      flags := MarkHeader(p, flagsIn, r.value.zipped);
    }
  }

  method SealHeader(p: Primitives, header: Header, body: Bytes, o: Options, key: Bytes) returns (r: Option<Section>)
    requires o.auth || o.sign
    ensures r == EncodeHeader(p, Some(header), body, o, key) && (r.Some? ==> r.value.secret)
  {
    var headerBuf := header.plain;
    if o.sign {
      headerBuf := header.signed(body);
    }
    var zipped := o.compress && |headerBuf| > MIN_COMPRESS_SIZE;
    if zipped {
      headerBuf := p.compress(headerBuf);
    }
    var secret := AesEncrypt(p, headerBuf, key);
    r := if secret.None? then None else Some(Section(zipped, true, secret.value));
  }

  method MarkHeader(p: Primitives, flagsIn: bv8, zipped: bool) returns (flags: bv8)
    ensures flags == flagsIn | HeaderFlags(p, zipped, true)
  {
    flags := flagsIn;
    if zipped {
      flags := flags | p.compressedHeader;
    }
    flags := flags | p.encryptedHeader;
    HeaderFlagsAdd(p, flagsIn, zipped);
  }

  lemma HeaderFlagsAdd(p: Primitives, flags: bv8, zipped: bool)
    ensures (if zipped then flags | p.compressedHeader else flags) | p.encryptedHeader == flags | HeaderFlags(p, zipped, true)
    ensures flags == flags | HeaderFlags(p, false, false)
  {
  }

  method WriteFrame(p: Primitives, littleEndian: bool, flags: bv8, header: Bytes, body: Bytes, buffer: Bytes)
    returns (bb: Bytes)
    ensures bb == buffer + Layout(p, littleEndian, flags, header, body)
  {
    var length := FRAME_HEADER_LEN + |header| + |body|;
    bb := buffer + PutNumber(false, p.magic, 2);
    bb := bb + PutNumber(littleEndian, length, 4);
    bb := bb + [flags as int];
    bb := bb + PutNumber(littleEndian, |header|, 2);
    bb := bb + [0];
    bb := bb + header;
    bb := bb + body;
  }

  /** `EncodeV3Req`, writing field by field. */
  method EncodeV3Req(p: Primitives, header: Option<Header>, body: Bytes, o: Options, key: Bytes, buffer: Bytes)
    returns (r: Option<Bytes>)
    ensures r == match Encode(p, header, body, o, key)
                 case None => None
                 case Some(bytes) => Some(buffer + bytes)
    ensures r.None? <==> !ValidKey(key) && (o.encrypt || HasHeader(header, o))
    ensures r.Some? && Bare(o) ==> r.value == buffer + body
    ensures r.Some? && !Bare(o) && p.Lawful() && HeaderSize(p, header, body, o, key) < 0x1_0000 ==>
              buffer <= r.value && ReadsBack(p, header, body, o, key, r.value[|buffer|..])
  {
    EncodeReadsBack(p, header, body, o, key, buffer);
    if o.noFrameHeader && !o.compress && !o.encrypt && !o.auth && !o.sign {
      return Some(buffer + body);
    }
    r := AppendFrame(p, header, body, o, key, buffer);
  }

  method AppendFrame(p: Primitives, header: Option<Header>, body: Bytes, o: Options, key: Bytes, buffer: Bytes)
    returns (r: Option<Bytes>)
    requires !Bare(o)
    ensures r == match Encode(p, header, body, o, key)
                 case None => None
                 case Some(bytes) => Some(buffer + bytes)
  {
    var flags, b := CompressAndEncrypt(p, body, o, key);
    if b.None? {
      return None;
    }
    var headerBuf: Bytes := [];
    if HasHeader(header, o) {
      var h;
      flags, h := SignAndEncrypt(p, header.value, b.value.bytes, o, key, flags);
      if h.None? {
        return None;
      }
      headerBuf := h.value.bytes;
    } else {
      HeaderFlagsAdd(p, flags, false);
    }
    var bb := WriteFrame(p, o.littleEndian, flags, headerBuf, b.value.bytes, buffer);
    r := Some(bb);
  }

  // ----- decoding a response

  /** What is left of the payload after decryption and decompression. */
  function DecodeBody(p: Primitives, zipped: bool, secret: bool, payload: Bytes, key: Bytes): Decoded {
    var plain := if secret then AesDecrypt(p, payload, key) else Payload(payload);
    if plain.Payload? && zipped then
      match p.decompress(plain.bytes)
      case None => Rejected
      case Some(d) => Payload(d)
    else plain
  }

  /** The bytes that `DecodeV3Rsp` hands to the unmarshaller. */
  function Decode(p: Primitives, frame: Bytes, noFrameHeader: bool, verifyMagic: bool, bytesToStrip: nat, key: Bytes): Decoded {
    if |frame| == 0 then Rejected
    else if noFrameHeader then Payload(frame)
    else if verifyMagic && |frame| < 2 then Panic
    else if verifyMagic && BigEndian(frame[..2]) != p.magic then Rejected
    else if |frame| < 7 || |frame| < bytesToStrip then Panic
    else
      var flags := Bits(frame[6]);
      DecodeBody(p, Has(flags, p.compressed), Has(flags, p.encrypted), frame[bytesToStrip..], key)
  }

  function Bits(b: byte): bv8 {
    b as bv8
  }

  predicate Has(flags: bv8, flag: bv8) {
    flags & flag != 0
  }

  lemma BitsOfFlags(flags: bv8)
    ensures Bits(flags as int) == flags
  {
  }

  /** The flag byte tells how the body was treated, whatever it says about the header. */
  lemma FlagsTell(p: Primitives, b: Section, h: Section)
    requires p.DistinctFlags()
    ensures Has(Flags(p, b, h), p.compressed) <==> b.zipped
    ensures Has(Flags(p, b, h), p.encrypted) <==> b.secret
  {
  }

  /** It also tells how the header was treated. */
  lemma HeaderFlagsTell(p: Primitives, b: Section, h: Section)
    requires p.DistinctFlags()
    ensures Has(Flags(p, b, h), p.compressedHeader) <==> h.zipped
    ensures Has(Flags(p, b, h), p.encryptedHeader) <==> h.secret
  {
  }

  lemma DecodeReadsFlags(p: Primitives, littleEndian: bool, flags: bv8, header: Bytes, body: Bytes, verifyMagic: bool, key: Bytes)
    requires p.magic < 0x1_0000
    ensures Decode(p, Layout(p, littleEndian, flags, header, body), false, verifyMagic, FRAME_HEADER_LEN, key) ==
            DecodeBody(p, Has(flags, p.compressed), Has(flags, p.encrypted), header + body, key)
  {
    BitsOfFlags(flags);
    LayoutParts(p, littleEndian, flags, header, body);
    assert Pow256(2) == 0x1_0000;
    NumberInvertsPut(false, p.magic, 2);
  }

  lemma DecodeLayout(p: Primitives, littleEndian: bool, b: Section, h: Section, verifyMagic: bool, key: Bytes)
    requires p.magic < 0x1_0000 && p.DistinctFlags()
    ensures Decode(p, Layout(p, littleEndian, Flags(p, b, h), h.bytes, b.bytes), false, verifyMagic, FRAME_HEADER_LEN, key) ==
            DecodeBody(p, b.zipped, b.secret, h.bytes + b.bytes, key)
  {
    var flags := Flags(p, b, h);
    DecodeReadsFlags(p, littleEndian, flags, h.bytes, b.bytes, verifyMagic, key);
    FlagsTell(p, b, h);
  }

  lemma BodyRoundTrip(p: Primitives, body: Bytes, o: Options, key: Bytes)
    requires p.Lawful() && (o.encrypt ==> ValidKey(key))
    ensures EncodeBody(p, body, o, key).Some?
    ensures var b := EncodeBody(p, body, o, key).value;
            DecodeBody(p, b.zipped, b.secret, b.bytes, key) == Payload(body)
  {
    if o.encrypt {
      AesRoundTrip(p, if o.compress && |body| > MIN_COMPRESS_SIZE then p.compress(body) else body, key);
    }
  }

  /** Decryption, padding removal and decompression recover the body, for every combination of
      options, as long as the frame carries no header section. */
  lemma DecodeInvertsEncode(p: Primitives, header: Option<Header>, body: Bytes, o: Options, key: Bytes, verifyMagic: bool)
    requires p.Lawful() && !o.noFrameHeader && (o.encrypt ==> ValidKey(key)) && !HasHeader(header, o)
    ensures Encode(p, header, body, o, key).Some?
    ensures Decode(p, Encode(p, header, body, o, key).value, false, verifyMagic, FRAME_HEADER_LEN, key) == Payload(body)
  {
    BodyRoundTrip(p, body, o, key);
    var b := EncodeBody(p, body, o, key).value;
    DecodeLayout(p, o.littleEndian, b, Section(false, false, []), verifyMagic, key);
    assert [] + b.bytes == b.bytes;
  }

  /** Without compression and encryption of the body, the body is recovered exactly from the frames
      without a header section: `DecodeV3Rsp` skips the fixed header only. */
  lemma PlainDecodeIffNoHeader(p: Primitives, header: Option<Header>, body: Bytes, o: Options, key: Bytes)
    requires p.Lawful() && !o.noFrameHeader && !o.encrypt && (o.compress ==> |body| <= MIN_COMPRESS_SIZE)
    requires Encode(p, header, body, o, key).Some?
    ensures Decode(p, Encode(p, header, body, o, key).value, false, false, FRAME_HEADER_LEN, key) == Payload(body)
            <==> !HasHeader(header, o)
  {
    var b := EncodeBody(p, body, o, key).value;
    var h := EncodeHeader(p, header, b.bytes, o, key).value;
    DecodeLayout(p, o.littleEndian, b, h, false, key);
    if HasHeader(header, o) {
      HeaderNotEmpty(p, header, b.bytes, o, key);
      assert |h.bytes + body| > |body|;
    } else {
      assert [] + body == body;
    }
  }

  lemma HeaderNotEmpty(p: Primitives, header: Option<Header>, body: Bytes, o: Options, key: Bytes)
    requires p.Lawful() && HasHeader(header, o) && EncodeHeader(p, header, body, o, key).Some?
    ensures |EncodeHeader(p, header, body, o, key).value.bytes| > 0
  {
  }

  /** Without a frame header a non-empty body travels as it is, provided no other option is set. */
  lemma BareRoundTrip(p: Primitives, header: Option<Header>, body: Bytes, o: Options, key: Bytes, verifyMagic: bool, strip: nat)
    requires o.noFrameHeader && !o.compress && !o.encrypt && !o.auth && !o.sign && |body| > 0
    ensures Encode(p, header, body, o, key).Some?
    ensures Decode(p, Encode(p, header, body, o, key).value, true, verifyMagic, strip, key) == Payload(body)
  {
  }

  // ----- reading a whole frame back

  /** A frame with its fixed header, cut at the length of its header section. */
  datatype Parts = Parts(flags: bv8, header: Bytes, body: Bytes)

  function Take(f: Bytes, littleEndian: bool): Option<Parts> {
    if |f| < FRAME_HEADER_LEN then None
    else
      var n := Number(littleEndian, f[7..9]);
      if |f| < FRAME_HEADER_LEN + n then None
      else Some(Parts(Bits(f[6]), f[FRAME_HEADER_LEN..FRAME_HEADER_LEN + n], f[FRAME_HEADER_LEN + n..]))
  }

  lemma {:induction false} NumberFits(littleEndian: bool, bs: Bytes)
    ensures Number(littleEndian, bs) < Pow256(|bs|)
  {
    if bs != [] {
      NumberFits(littleEndian, if littleEndian then bs[1..] else bs[..|bs| - 1]);
    }
  }

  /** The parts come back exactly when the length of the header section fits its two bytes. */
  lemma TakeInvertsLayout(p: Primitives, littleEndian: bool, flags: bv8, header: Bytes, body: Bytes)
    ensures Take(Layout(p, littleEndian, flags, header, body), littleEndian) == Some(Parts(flags, header, body))
            <==> |header| < 0x1_0000
  {
    var f := Layout(p, littleEndian, flags, header, body);
    LayoutParts(p, littleEndian, flags, header, body);
    BitsOfFlags(flags);
    assert Pow256(2) == 0x1_0000;
    if |header| < 0x1_0000 {
      NumberInvertsPut(littleEndian, |header|, 2);
    } else {
      NumberFits(littleEndian, f[7..9]);
    }
  }

  /** How long the header section becomes. */
  function HeaderSize(p: Primitives, header: Option<Header>, body: Bytes, o: Options, key: Bytes): nat {
    match EncodeBody(p, body, o, key)
    case None => 0
    case Some(b) =>
      match EncodeHeader(p, header, b.bytes, o, key)
      case None => 0
      case Some(h) => |h.bytes|
  }

  /** Encoding fails exactly when something has to be encrypted and the key has no valid length. */
  lemma EncodeFailsIff(p: Primitives, header: Option<Header>, body: Bytes, o: Options, key: Bytes)
    ensures Encode(p, header, body, o, key).None? <==> !ValidKey(key) && (o.encrypt || HasHeader(header, o))
  {
  }

  /** What decoding refuses: an empty frame, a frame that does not begin with the magic number if that is checked, and an
      encrypted body without a valid key. */
  lemma DecodeRejects(p: Primitives, frame: Bytes, noFrameHeader: bool, verifyMagic: bool, strip: nat, key: Bytes)
    requires p.magic < 0x1_0000
    requires || frame == []
             || (!noFrameHeader && verifyMagic && |frame| >= 2 && frame[..2] != PutNumber(false, p.magic, 2))
             || (!noFrameHeader && !verifyMagic && 7 <= |frame| && strip <= |frame| && Has(Bits(frame[6]), p.encrypted) && !ValidKey(key))
    ensures Decode(p, frame, noFrameHeader, verifyMagic, strip, key) == Rejected
  {
    if |frame| >= 2 {
      TwoBytes(frame[0], frame[1], p.magic);
      assert frame[..2] == [frame[0], frame[1]];
    }
  }

  lemma TwoBytes(a: byte, b: byte, n: nat)
    requires n < 0x1_0000
    ensures BigEndian([a, b]) == 256 * a + b
    ensures BigEndian([a, b]) == n <==> [a, b] == PutNumber(false, n, 2)
  {
    assert [a, b][..1] == [a] && [a][..0] == [];
    assert BigEndian([a]) == a;
    assert PutNumber(false, n / 256, 1) == [n / 256 % 256] by {
      assert PutNumber(false, n / 256 / 256, 0) == [];
    }
    assert PutNumber(false, n, 2) == [n / 256 % 256] + [n % 256];
    assert n / 256 % 256 == n / 256;
  }

  lemma HeaderOpens(p: Primitives, header: Header, body: Bytes, o: Options, key: Bytes)
    requires o.auth || o.sign
    ensures var r := EncodeHeader(p, Some(header), body, o, key);
            && (r.Some? <==> ValidKey(key))
            && (r.Some? && p.Lawful() ==>
                  DecodeBody(p, r.value.zipped, true, r.value.bytes, key) == Payload(if o.sign then header.signed(body) else header.plain))
  {
    if p.Lawful() && ValidKey(key) {
      HeaderRoundTrip(p, Some(header), body, o, key);
    }
  }

  /** Only the bare body travels without a frame header. */
  predicate Bare(o: Options) {
    o.noFrameHeader && !o.compress && !o.encrypt && !o.auth && !o.sign
  }

  lemma HeaderRoundTrip(p: Primitives, header: Option<Header>, body: Bytes, o: Options, key: Bytes)
    requires p.Lawful() && HasHeader(header, o) && EncodeHeader(p, header, body, o, key).Some?
    ensures var h, plain := EncodeHeader(p, header, body, o, key).value, if o.sign then header.value.signed(body) else header.value.plain;
            && h.secret && (h.zipped <==> o.compress && |plain| > MIN_COMPRESS_SIZE)
            && DecodeBody(p, h.zipped, true, h.bytes, key) == Payload(plain)
  {
    var plain := if o.sign then header.value.signed(body) else header.value.plain;
    AesRoundTrip(p, if o.compress && |plain| > MIN_COMPRESS_SIZE then p.compress(plain) else plain, key);
  }

  /** What can be read from a frame. The flags tell exactly what was done to its two sections. Decrypting and, if it is
      marked, decompressing the header section gives the header, signed over the body section if signing is asked for.
      The same for the body section gives the body. There is a header section if and only if a header is sent. */
  predicate ReadsBack(p: Primitives, header: Option<Header>, body: Bytes, o: Options, key: Bytes, f: Bytes) {
    var parts := Take(f, o.littleEndian);
    && parts.Some?
    && var Parts(flags, h, b) := parts.value;
       && (Has(flags, p.encrypted) <==> o.encrypt)
       && (Has(flags, p.compressed) <==> o.compress && |body| > MIN_COMPRESS_SIZE)
       && DecodeBody(p, Has(flags, p.compressed), Has(flags, p.encrypted), b, key) == Payload(body)
       && (Has(flags, p.encryptedHeader) <==> HasHeader(header, o))
       && (!HasHeader(header, o) ==> h == [] && !Has(flags, p.compressedHeader))
       && (HasHeader(header, o) ==>
             var plain := if o.sign then header.value.signed(b) else header.value.plain;
             && (Has(flags, p.compressedHeader) <==> o.compress && |plain| > MIN_COMPRESS_SIZE)
             && DecodeBody(p, Has(flags, p.compressedHeader), true, h, key) == Payload(plain))
  }

  /** Every frame can be read back. */
  lemma FrameReadBack(p: Primitives, header: Option<Header>, body: Bytes, o: Options, key: Bytes, f: Bytes)
    requires p.Lawful() && !Bare(o) && Encode(p, header, body, o, key) == Some(f)
    requires HeaderSize(p, header, body, o, key) < 0x1_0000
    ensures ReadsBack(p, header, body, o, key, f)
  {
    var b := EncodeBody(p, body, o, key).value;
    var h := EncodeHeader(p, header, b.bytes, o, key).value;
    BodyRoundTrip(p, body, o, key);
    FlagsTell(p, b, h);
    HeaderFlagsTell(p, b, h);
    if HasHeader(header, o) {
      HeaderRoundTrip(p, header, b.bytes, o, key);
    }
    TakeInvertsLayout(p, o.littleEndian, Flags(p, b, h), h.bytes, b.bytes);
  }

  /** The same for a frame that is appended to a buffer. */
  lemma EncodeReadsBack(p: Primitives, header: Option<Header>, body: Bytes, o: Options, key: Bytes, buffer: Bytes)
    ensures var r := Encode(p, header, body, o, key);
            && (r.None? <==> !ValidKey(key) && (o.encrypt || HasHeader(header, o)))
            && (r.Some? && !Bare(o) && p.Lawful() && HeaderSize(p, header, body, o, key) < 0x1_0000 ==>
                  ReadsBack(p, header, body, o, key, (buffer + r.value)[|buffer|..]))
  {
    EncodeFailsIff(p, header, body, o, key);
    var r := Encode(p, header, body, o, key);
    if r.Some? && !Bare(o) && p.Lawful() && HeaderSize(p, header, body, o, key) < 0x1_0000 {
      assert (buffer + r.value)[|buffer|..] == r.value;
      FrameReadBack(p, header, body, o, key, r.value);
    }
  }
}
