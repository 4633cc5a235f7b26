/** Frames and legacy tunnel packets on a byte stream. */
module Protocol {
  import opened Bytes

  const MAX_PAYLOAD: nat := 64 * 1024 * 1024
  const MAX_NAME: nat := 4096

  datatype FrameType =
    | TunnelPacket | CommandRequest | CommandResponse | Ping | Pong
    | WebRtcBootstrap | WebRtcTeardown
    | RelayOpen | RelayOpenAck | RelayData | RelayClose
    | StreamOpen | StreamData | StreamClose | FlowControl

  datatype Frame = Frame(kind: FrameType, payload: seq<byte>)

  datatype ProtocolError = ConnectionClosed | InvalidPacket

  datatype Result<+T> = Ok(value: T) | Err(error: ProtocolError)

  /** What a reader can tell from the bytes received so far. */
  datatype Decoded<+T> = Complete(value: T, rest: seq<byte>) | NeedMore | Invalid

  function TypeByte(t: FrameType): byte {
    match t
    case TunnelPacket => 0x01
    case CommandRequest => 0x02
    case CommandResponse => 0x03
    case Ping => 0x10
    case Pong => 0x11
    case WebRtcBootstrap => 0x20
    case WebRtcTeardown => 0x21
    case RelayOpen => 0x30
    case RelayOpenAck => 0x31
    case RelayData => 0x32
    case RelayClose => 0x33
    case StreamOpen => 0x40
    case StreamData => 0x41
    case StreamClose => 0x42
    case FlowControl => 0x43
  }

  /** `FrameType::try_from`: the exact inverse of the byte assignment, and nothing else is accepted. */
  function TypeOf(b: byte): (r: Option<FrameType>)
    ensures forall t :: r == Some(t) <==> TypeByte(t) == b
  {
    if b == 0x01 then Some(TunnelPacket)
    else if b == 0x02 then Some(CommandRequest)
    else if b == 0x03 then Some(CommandResponse)
    else if b == 0x10 then Some(Ping)
    else if b == 0x11 then Some(Pong)
    else if b == 0x20 then Some(WebRtcBootstrap)
    else if b == 0x21 then Some(WebRtcTeardown)
    else if b == 0x30 then Some(RelayOpen)
    else if b == 0x31 then Some(RelayOpenAck)
    else if b == 0x32 then Some(RelayData)
    else if b == 0x33 then Some(RelayClose)
    else if b == 0x40 then Some(StreamOpen)
    else if b == 0x41 then Some(StreamData)
    else if b == 0x42 then Some(StreamClose)
    else if b == 0x43 then Some(FlowControl)
    else None
  }

  /** The byte assigned to each type. */
  lemma TypeTable()
    ensures TypeOf(0x01) == Some(TunnelPacket) && TypeOf(0x02) == Some(CommandRequest)
    ensures TypeOf(0x03) == Some(CommandResponse) && TypeOf(0x10) == Some(Ping) && TypeOf(0x11) == Some(Pong)
    ensures TypeOf(0x20) == Some(WebRtcBootstrap) && TypeOf(0x21) == Some(WebRtcTeardown)
    ensures TypeOf(0x30) == Some(RelayOpen) && TypeOf(0x31) == Some(RelayOpenAck)
    ensures TypeOf(0x32) == Some(RelayData) && TypeOf(0x33) == Some(RelayClose)
    ensures TypeOf(0x40) == Some(StreamOpen) && TypeOf(0x41) == Some(StreamData)
    ensures TypeOf(0x42) == Some(StreamClose) && TypeOf(0x43) == Some(FlowControl)
  {
  }

  // ---------- length-prefixed fields ----------

  function EncodeField(width: nat, x: seq<byte>): seq<byte> {
    BigEndian(|x|, width) + x
  }

  function DecodeField(width: nat, limit: nat, b: seq<byte>): Decoded<seq<byte>> {
    if |b| < width then NeedMore
    else
      var n := FromBigEndian(b[..width]);
      if n > limit then Invalid
      else if |b| < width + n then NeedMore
      else Complete(b[width..width + n], b[width + n..])
  }

  lemma FieldRoundTrip(width: nat, limit: nat, x: seq<byte>, rest: seq<byte>)
    requires |x| <= limit < Range(width)
    ensures DecodeField(width, limit, EncodeField(width, x) + rest) == Complete(x, rest)
  {
    hide BigEndian, FromBigEndian, Range;
    var b := EncodeField(width, x) + rest;
    assert b[..width] == BigEndian(|x|, width);
    BigEndianRoundTrip(|x|, width);
    assert b[width..width + |x|] == x && b[width + |x|..] == rest;
  }

  lemma FieldReencodes(width: nat, limit: nat, b: seq<byte>)
    requires DecodeField(width, limit, b).Complete?
    ensures var d := DecodeField(width, limit, b);
            |d.value| <= limit && EncodeField(width, d.value) + d.rest == b
  {
    hide BigEndian, FromBigEndian;
    BigEndianRestores(b[..width]);
    var n := FromBigEndian(b[..width]);
    assert b == b[..width] + b[width..width + n] + b[width + n..];
  }

  /** A cut-off field that is within its limit only ever asks for more bytes. */
  lemma FieldPrefix(width: nat, limit: nat, x: seq<byte>, b: seq<byte>)
    requires |x| <= limit < Range(width)
    requires b < EncodeField(width, x)
    ensures DecodeField(width, limit, b) == NeedMore
  {
    hide BigEndian, FromBigEndian, Range;
    if |b| >= width {
      assert b[..width] == EncodeField(width, x)[..width] == BigEndian(|x|, width);
      BigEndianRoundTrip(|x|, width);
    }
  }

  // ---------- frames ----------

  function EncodeFrame(f: Frame): (b: seq<byte>)
    ensures b != []
  {
    [TypeByte(f.kind)] + EncodeField(4, f.payload)
  }

  function DecodeFrame(b: seq<byte>): (r: Decoded<Frame>)
    ensures r.Complete? ==> |r.rest| < |b|
  {
    if b == [] then NeedMore
    else
      match TypeOf(b[0])
      case None => Invalid
      case Some(t) =>
        match DecodeField(4, MAX_PAYLOAD, b[1..])
        case Complete(p, rest) => Complete(Frame(t, p), rest)
        case NeedMore => NeedMore
        case Invalid => Invalid
  }

  ghost predicate Fits(f: Frame) { |f.payload| <= 67_108_864 }

  /** A frame survives the wire exactly when its payload is within the 64 MiB limit. */
  lemma FrameRoundTrip(f: Frame, rest: seq<byte>)
    ensures DecodeFrame(EncodeFrame(f) + rest) == Complete(f, rest) <==> Fits(f)
  {
    hide BigEndian, FromBigEndian, Range, DecodeField, EncodeField;
    var b := EncodeFrame(f) + rest;
    assert b[1..] == EncodeField(4, f.payload) + rest;
    Ranges();
    if Fits(f) { FieldRoundTrip(4, MAX_PAYLOAD, f.payload, rest); }
    else if DecodeFrame(b).Complete? { FieldReencodes(4, MAX_PAYLOAD, b[1..]); }
  }

  /** One type byte, four length bytes, most significant first, and the payload. */
  lemma FrameLayout(f: Frame)
    ensures var b, n := EncodeFrame(f), |f.payload|;
            && |b| == 5 + n && TypeOf(b[0]) == Some(f.kind) && b[5..] == f.payload
            && b[1] == n / 0x100_0000 % 256 && b[2] == n / 0x1_0000 % 256 && b[3] == n / 256 % 256 && b[4] == n % 256
  {
    var b, n := EncodeFrame(f), |f.payload|;
    hide BigEndian;
    BigEndianByte(n, 4, 0);
    BigEndianByte(n, 4, 1);
    BigEndianByte(n, 4, 2);
    BigEndianByte(n, 4, 3);
    assert Range(1) == 256 && Range(2) == 0x1_0000 && Range(3) == 0x100_0000 && Range(0) == 1;
  }

  /** Every accepted byte string is the encoding of what it was read as. */
  lemma FrameReencodes(b: seq<byte>)
    requires DecodeFrame(b).Complete?
    ensures var d := DecodeFrame(b); Fits(d.value) && EncodeFrame(d.value) + d.rest == b
  {
    FieldReencodes(4, MAX_PAYLOAD, b[1..]);
    assert b == [b[0]] + b[1..];
  }

  lemma NothingYet()
    ensures DecodeFrame([]) == NeedMore
  {
  }

  lemma FramePrefix(f: Frame, b: seq<byte>)
    requires Fits(f)
    requires b < EncodeFrame(f)
    ensures DecodeFrame(b) == NeedMore
  {
    if b != [] {
      assert b[1..] < EncodeField(4, f.payload);
      Ranges();
      FieldPrefix(4, MAX_PAYLOAD, f.payload, b[1..]);
    }
  }

  /** A frame over the limit, but below 4 GiB, is refused as soon as its header is in. */
  lemma OversizeRefused(f: Frame, b: seq<byte>)
    requires MAX_PAYLOAD < |f.payload| < 0x1_0000_0000
    requires b <= EncodeFrame(f) || EncodeFrame(f) <= b
    ensures DecodeFrame(b) == if |b| < 5 then NeedMore else Invalid
  {
    hide BigEndian, FromBigEndian, Range;
    var e := EncodeFrame(f);
    if |b| >= 5 {
      assert b[..5] == e[..5];
      assert b[1..][..4] == e[..5][1..] == BigEndian(|f.payload|, 4);
      Ranges();
      BigEndianRoundTrip(|f.payload|, 4);
      assert b[0] == e[0];
    } else if b != [] {
      assert b[0] == e[0];
    }
  }

  // ---------- runs of frames ----------

  function EncodeAll(fs: seq<Frame>): seq<byte> {
    if fs == [] then [] else EncodeFrame(fs[0]) + EncodeAll(fs[1..])
  }

  /** The read loop: frames until the bytes run out or are refused. */
  function DecodeAll(b: seq<byte>): (r: (seq<Frame>, Decoded<Frame>, seq<byte>))
    decreases |b|
  {
    match DecodeFrame(b)
    case Complete(f, rest) => var (fs, end, left) := DecodeAll(rest); ([f] + fs, end, left)
    case stop => ([], stop, b)
  }

  /** Decoding any prefix of a run of frames yields exactly a prefix of the frames; what is left over
      is a proper part of the next frame, and the reader never reports an error. */
  lemma {:induction false} PrefixDecodes(fs: seq<Frame>, k: nat) returns (m: nat)
    requires forall f :: f in fs ==> Fits(f)
    requires k <= |EncodeAll(fs)|
    ensures m <= |fs|
    ensures var (got, end, left) := DecodeAll(EncodeAll(fs)[..k]);
            && got == fs[..m] && end == NeedMore
            && EncodeAll(fs[..m]) + left == EncodeAll(fs)[..k]
            && if m == |fs| then left == [] else left < EncodeFrame(fs[m])
    decreases |fs|
  {
    hide EncodeFrame, DecodeFrame;
    var b := EncodeAll(fs)[..k];
    if fs == [] { NothingYet(); return 0; }
    var e := EncodeFrame(fs[0]);
    if k < |e| {
      assert b < e;
      FramePrefix(fs[0], b);
      assert fs[..0] == [];
      return 0;
    }
    var tail := EncodeAll(fs[1..])[..k - |e|];
    assert b == e + tail;
    FrameRoundTrip(fs[0], tail);
    var m' := PrefixDecodes(fs[1..], k - |e|);
    assert fs[..m' + 1] == [fs[0]] + fs[1..][..m'];
    assert fs[..m' + 1][1..] == fs[1..][..m'];
    var left := DecodeAll(tail).2;
    assert e + (EncodeAll(fs[1..][..m']) + left) == (e + EncodeAll(fs[1..][..m'])) + left;
    return m' + 1;
  }

  /** Whatever the bytes are, the frames read re-encode to exactly the bytes consumed. */
  lemma {:induction false} AllReencodes(b: seq<byte>)
    ensures var (fs, end, left) := DecodeAll(b);
            EncodeAll(fs) + left == b && forall f :: f in fs ==> Fits(f)
    decreases |b|
  {
    if DecodeFrame(b).Complete? {
      FrameReencodes(b);
      AllReencodes(DecodeFrame(b).rest);
    }
  }

  // ---------- tunnel packets ----------

  /** Topic and type are taken as the bytes of their text. */
  datatype Packet = Packet(topic: seq<byte>, msgType: seq<byte>, timestampNs: nat, payload: seq<byte>)

  function EncodePacket(p: Packet): seq<byte> {
    EncodeField(2, p.topic) + EncodeField(2, p.msgType) + BigEndian(p.timestampNs, 8) + EncodeField(4, p.payload)
  }

  function DecodePacket(b: seq<byte>): Decoded<Packet> {
    match DecodeField(2, MAX_NAME, b)
    case NeedMore => NeedMore
    case Invalid => Invalid
    case Complete(topic, b1) =>
      match DecodeField(2, MAX_NAME, b1)
      case NeedMore => NeedMore
      case Invalid => Invalid
      case Complete(msgType, b2) =>
        if |b2| < 8 then NeedMore
        else
          match DecodeField(4, MAX_PAYLOAD, b2[8..])
          case NeedMore => NeedMore
          case Invalid => Invalid
          case Complete(payload, rest) =>
            Complete(Packet(topic, msgType, FromBigEndian(b2[..8]), payload), rest)
  }

  ghost predicate PacketFits(p: Packet) {
    |p.topic| <= 4096 && |p.msgType| <= 4096 && |p.payload| <= 67_108_864
    && p.timestampNs < 0x1_0000_0000_0000_0000
  }

  /** Topic and type with two length bytes each, eight bytes of timestamp, payload with four length bytes. */
  lemma PacketLayout(p: Packet)
    ensures var b, t, m := EncodePacket(p), |p.topic|, |p.msgType|;
            && |b| == 16 + t + m + |p.payload|
            && b[..2] == BigEndian(t, 2) && b[2..2 + t] == p.topic
            && b[2 + t..4 + t] == BigEndian(m, 2) && b[4 + t..4 + t + m] == p.msgType
            && b[4 + t + m..12 + t + m] == BigEndian(p.timestampNs, 8)
            && b[12 + t + m..16 + t + m] == BigEndian(|p.payload|, 4) && b[16 + t + m..] == p.payload
  {
    hide BigEndian;
  }

  lemma PacketRoundTrip(p: Packet, rest: seq<byte>)
    ensures DecodePacket(EncodePacket(p) + rest) == Complete(p, rest) <==> PacketFits(p)
  {
    hide BigEndian, FromBigEndian, Range, EncodeField, DecodeField;
    var b := EncodePacket(p) + rest;
    Ranges();
    if PacketFits(p) {
      var b3 := EncodeField(4, p.payload) + rest;
      var b2 := BigEndian(p.timestampNs, 8) + b3;
      var b1 := EncodeField(2, p.msgType) + b2;
      assert b == EncodeField(2, p.topic) + b1;
      FieldRoundTrip(2, MAX_NAME, p.topic, b1);
      FieldRoundTrip(2, MAX_NAME, p.msgType, b2);
      assert b2[..8] == BigEndian(p.timestampNs, 8) && b2[8..] == b3;
      BigEndianRoundTrip(p.timestampNs, 8);
      FieldRoundTrip(4, MAX_PAYLOAD, p.payload, rest);
    } else if DecodePacket(b).Complete? {
      PacketReencodes(b);
    }
  }

  lemma PacketReencodes(b: seq<byte>)
    requires DecodePacket(b).Complete?
    ensures var d := DecodePacket(b); PacketFits(d.value) && EncodePacket(d.value) + d.rest == b
  {
    hide BigEndian, FromBigEndian, Range, EncodeField, DecodeField;
    FieldReencodes(2, MAX_NAME, b);
    var b1 := DecodeField(2, MAX_NAME, b).rest;
    FieldReencodes(2, MAX_NAME, b1);
    var b2 := DecodeField(2, MAX_NAME, b1).rest;
    BigEndianRange(b2[..8]);
    BigEndianRestores(b2[..8]);
    Ranges();
    FieldReencodes(4, MAX_PAYLOAD, b2[8..]);
    assert b2 == b2[..8] + b2[8..];
  }

  /** A cut-off packet within the limits only ever asks for more bytes. */
  lemma PacketPrefix(p: Packet, b: seq<byte>)
    requires PacketFits(p) && b < EncodePacket(p)
    ensures DecodePacket(b) == NeedMore
  {
    hide BigEndian, FromBigEndian, Range, EncodeField, DecodeField;
    Ranges();
    var e1, e2, e4 := EncodeField(2, p.topic), EncodeField(2, p.msgType), EncodeField(4, p.payload);
    var ts := BigEndian(p.timestampNs, 8);
    var rest1 := e2 + ts + e4;
    assert EncodePacket(p) == e1 + rest1;
    if |b| < |e1| {
      assert b < e1;
      FieldPrefix(2, MAX_NAME, p.topic, b);
      return;
    }
    var b1 := b[|e1|..];
    assert b == e1 + b1 && b1 < rest1;
    FieldRoundTrip(2, MAX_NAME, p.topic, b1);
    if |b1| < |e2| {
      assert b1 < e2;
      FieldPrefix(2, MAX_NAME, p.msgType, b1);
      return;
    }
    var b2 := b1[|e2|..];
    assert b1 == e2 + b2 && rest1 == e2 + (ts + e4) && b2 < ts + e4;
    FieldRoundTrip(2, MAX_NAME, p.msgType, b2);
    if |b2| >= 8 {
      assert b2[8..] < e4;
      FieldPrefix(4, MAX_PAYLOAD, p.payload, b2[8..]);
    }
  }

  // ---------- the reader and the writer ----------

  /** The receiving half of a connection: `data[pos..]` is what is still to come before end of stream. */
  class Reader {
    const data: seq<byte>
    var pos: nat

    ghost predicate Valid() reads this { pos <= |data| }

    ghost function Ahead(): seq<byte>
      requires Valid()
      reads this
    { data[pos..] }

    constructor (data: seq<byte>)
      ensures Valid() && this.data == data && Ahead() == data
    {
      this.data := data;
      pos := 0;
    }

    method ReadExact(n: nat) returns (r: Result<seq<byte>>)
      requires Valid()
      modifies this
      ensures Valid()
      ensures if n <= |old(Ahead())| then r == Ok(old(Ahead())[..n]) && Ahead() == old(Ahead())[n..]
              else r == Err(ConnectionClosed) && Ahead() == []
    {
      if pos + n <= |data| {
        assert data[pos..][..n] == data[pos..pos + n] && data[pos..][n..] == data[pos + n..];
        r := Ok(data[pos..pos + n]);
        pos := pos + n;
      } else {
        r := Err(ConnectionClosed);
        pos := |data|;
      }
    }

    method ReadInteger(width: nat) returns (r: Result<nat>)
      requires Valid()
      modifies this
      ensures Valid()
      ensures if width <= |old(Ahead())|
              then r == Ok(FromBigEndian(old(Ahead())[..width])) && Ahead() == old(Ahead())[width..]
              else r == Err(ConnectionClosed)
    {
      var got := ReadExact(width);
      match got
      case Ok(bs) => r := Ok(FromBigEndian(bs));
      case Err(e) => r := Err(e);
    }

    /** A length-prefixed field with the length check the callers make before they allocate. */
    method ReadField(width: nat, limit: nat) returns (r: Result<seq<byte>>)
      requires Valid()
      modifies this
      ensures Valid()
      ensures match DecodeField(width, limit, old(Ahead()))
              case Complete(x, rest) => r == Ok(x) && Ahead() == rest
              case NeedMore => r == Err(ConnectionClosed)
              case Invalid => r == Err(InvalidPacket)
    {
      ghost var b := Ahead();
      var len := ReadInteger(width);
      match len
      case Err(e) => r := Err(e);
      case Ok(n) =>
        if n > limit { r := Err(InvalidPacket); return; }
        assert width + n <= |b| ==> b[width..][..n] == b[width..width + n] && b[width..][n..] == b[width + n..];
        r := ReadExact(n);
    }

    method ReadFrame() returns (r: Result<Frame>)
      requires Valid()
      modifies this
      ensures Valid()
      ensures match DecodeFrame(old(Ahead()))
              case Complete(f, rest) => r == Ok(f) && Ahead() == rest
              case NeedMore => r == Err(ConnectionClosed)
              case Invalid => r == Err(InvalidPacket)
    {
      var first := ReadExact(1);
      match first
      case Err(e) => r := Err(e);
      case Ok(bs) =>
        match TypeOf(bs[0])
        case None => r := Err(InvalidPacket);
        case Some(t) =>
          var body := ReadField(4, MAX_PAYLOAD);
          match body
          case Err(e) => r := Err(e);
          case Ok(p) => r := Ok(Frame(t, p));
    }

    method ReadPacket() returns (r: Result<Packet>)
      requires Valid()
      modifies this
      ensures Valid()
      ensures match DecodePacket(old(Ahead()))
              case Complete(p, rest) => r == Ok(p) && Ahead() == rest
              case NeedMore => r == Err(ConnectionClosed)
              case Invalid => r == Err(InvalidPacket)
    {
      var topic := ReadField(2, MAX_NAME);
      if topic.Err? { return Err(topic.error); }
      var msgType := ReadField(2, MAX_NAME);
      if msgType.Err? { return Err(msgType.error); }
      var ts := ReadInteger(8);
      if ts.Err? { return Err(ts.error); }
      var payload := ReadField(4, MAX_PAYLOAD);
      if payload.Err? { return Err(payload.error); }
      r := Ok(Packet(topic.value, msgType.value, ts.value, payload.value));
    }

    /** The loop every frame consumer runs: it sees exactly `DecodeAll` of what the peer sent. */
    method ReadAllFrames() returns (fs: seq<Frame>, stop: ProtocolError)
      requires Valid()
      modifies this
      ensures var (expected, end, left) := DecodeAll(old(Ahead()));
              fs == expected && (stop == if end == Invalid then InvalidPacket else ConnectionClosed)
    {
      hide DecodeFrame;
      fs := [];
      ghost var b := Ahead();
      assert [] + DecodeAll(b).0 == DecodeAll(b).0;
      while true
        invariant Valid()
        invariant var (later, end, left) := DecodeAll(Ahead());
                  DecodeAll(b) == (fs + later, end, left)
        decreases |Ahead()|
      {
        ghost var before := Ahead();
        var r := ReadFrame();
        match r
        case Err(e) => stop := e; assert fs + [] == fs; return;
        case Ok(f) =>
          assert fs + ([f] + DecodeAll(Ahead()).0) == (fs + [f]) + DecodeAll(Ahead()).0;
          fs := fs + [f];
      }
    }
  }

  /** The sending half of a connection; `out` is everything handed to the transport. */
  class Writer {
    var out: seq<byte>

    constructor ()
      ensures out == []
    { out := []; }

    method WriteFrame(f: Frame)
      modifies this
      ensures out == old(out) + EncodeFrame(f)
    {
      out := out + [TypeByte(f.kind)];
      out := out + BigEndian(|f.payload|, 4);
      out := out + f.payload;
    }

    method WritePacket(p: Packet)
      modifies this
      ensures out == old(out) + EncodePacket(p)
    {
      out := out + BigEndian(|p.topic|, 2) + p.topic;
      out := out + BigEndian(|p.msgType|, 2) + p.msgType;
      out := out + BigEndian(p.timestampNs, 8);
      out := out + BigEndian(|p.payload|, 4) + p.payload;
    }
  }
}
