/** The bit-packed transport header: encoding into a buffer, decoding, and the time-to-live byte rewritten in place. */
module Header {
  import opened Identity

  type U16 = x: int | 0 <= x < 0x1_0000
  type Buf = seq<Byte>

  const CONTROL_MARKER: Byte := 255

  datatype Route = Direct | ToNode(node: NodeId) | ToService(service: Byte) | ToServices(service: Byte, level: Level, seqNo: U16) | ToKey(key: NodeId)

  datatype Header = Header(version: Byte, encrypt: bool, route: Route, ttl: Byte, feature: Byte, meta: Byte, fromNode: Option<NodeId>)

  datatype HeaderError = InvalidVersion | InvalidRoute | TooSmall

  /** A decoded header and how many bytes it took. */
  datatype Decoded = Ok(header: Header, consumed: nat) | Err(error: HeaderError)

  // ---- pieces -------------------------------------------------------------------------------

  function RouteType(route: Route): Byte {
    match route
    case Direct => 0
    case ToNode(_) => 1
    case ToService(_) => 2
    case ToServices(_, _, _) => 3
    case ToKey(_) => 4
  }

  function LevelByte(level: Level): Byte {
    match level
    case Global => 0
    case Geo1 => 1
    case Geo2 => 2
    case Group => 3
  }

  function LevelOf(b: Byte): Level {
    if b == 0 then Global else if b == 1 then Geo1 else if b == 2 then Geo2 else Group
  }

  function NodeBytes(id: NodeId): Buf { [id.geo1, id.geo2, id.group, id.index] }

  function SeqBytes(n: U16): Buf { [n / 256, n % 256] }

  function SeqOf(high: Byte, low: Byte): U16 { high * 256 + low }

  /** Two version bits, then encryption, sender and four route bits; the fields occupy disjoint bits. */
  function FirstByte(h: Header): Byte {
    h.version % 4 * 64 + (if h.encrypt then 32 else 0) + (if h.fromNode.Some? then 16 else 0) + RouteType(h.route)
  }

  predicate Bit(b: Byte, weight: nat)
    requires weight > 0
  {
    b / weight % 2 == 1
  }

  predicate IsSecure(first: Byte) { Bit(first, 32) }

  /** The message type's own test of the first byte. */
  predicate IsSecureHeader(first: Byte) { Bit(first, 4) }

  function SerializeSize(h: Header): nat {
    4 + (if h.fromNode.Some? then 4 else 0) + (if h.route == Direct then 0 else 4)
  }

  // ---- encoding -----------------------------------------------------------------------------

  /** Writes `bytes` at `at`. */
  function Put(out: Buf, at: nat, bytes: Buf): Buf
    requires at + |bytes| <= |out|
  {
    out[..at] + bytes + out[at + |bytes|..]
  }

  /** A service alone fills one byte of its field; the other three keep what the buffer held. */
  function RouteBytes(route: Route): Buf {
    match route
    case Direct => []
    case ToNode(node) => NodeBytes(node)
    case ToService(service) => [service]
    case ToServices(service, level, seqNo) => [service, LevelByte(level)] + SeqBytes(seqNo)
    case ToKey(key) => NodeBytes(key)
  }

  function Encode(h: Header, out: Buf): (r: Option<Buf>)
    ensures r.Some? <==> |out| >= SerializeSize(h)
    ensures r.Some? ==> |r.value| == |out|
  {
    if |out| < SerializeSize(h) then None
    else
      var out1 := Put(out, 0, [FirstByte(h), h.ttl, h.feature, h.meta]);
      var out2 := Put(out1, 4, RouteBytes(h.route));
      var at := if h.route == Direct then 4 else 8;
      Some(if h.fromNode.Some? then Put(out2, at, NodeBytes(h.fromNode.value)) else out2)
  }

  // ---- decoding -----------------------------------------------------------------------------

  function NodeAt(bytes: Buf, at: nat): NodeId
    requires at + 4 <= |bytes|
  {
    NodeId(bytes[at], bytes[at + 1], bytes[at + 2], bytes[at + 3])
  }

  function RouteAt(kind: Byte, bytes: Buf): Route
    requires 1 <= kind <= 4 && |bytes| >= 8
  {
    if kind == 1 then ToNode(NodeAt(bytes, 4))
    else if kind == 2 then ToService(bytes[4])
    else if kind == 3 then ToServices(bytes[4], LevelOf(bytes[5]), SeqOf(bytes[6], bytes[7]))
    else ToKey(NodeAt(bytes, 4))
  }

  function Decode(bytes: Buf): Decoded {
    if |bytes| < 4 then Err(TooSmall)
    else if bytes[0] / 64 != 0 then Err(InvalidVersion)
    else
      var kind := bytes[0] % 16;
      if kind > 4 then Err(InvalidRoute)
      else if kind != 0 && |bytes| < 8 then Err(TooSmall)
      else
        var route := if kind == 0 then Direct else RouteAt(kind, bytes);
        var at := if kind == 0 then 4 else 8;
        if !Bit(bytes[0], 16) then Ok(Header(0, Bit(bytes[0], 32), route, bytes[1], bytes[2], bytes[3], None), at)
        else if |bytes| < at + 4 then Err(TooSmall)
        else Ok(Header(0, Bit(bytes[0], 32), route, bytes[1], bytes[2], bytes[3], Some(NodeAt(bytes, at))), at + 4)
  }

  function DecreaseTtl(bytes: Buf): (Buf, bool) {
    if |bytes| < 2 || bytes[1] == 0 then (bytes, false) else (bytes[1 := bytes[1] - 1], true)
  }

  // ---- properties ---------------------------------------------------------------------------

  /** The first byte carries its four fields. */
  lemma FirstByteFields(h: Header)
    ensures var b := FirstByte(h);
      && b / 64 == h.version % 4 && b % 16 == RouteType(h.route)
      && (Bit(b, 32) <==> h.encrypt) && (Bit(b, 16) <==> h.fromNode.Some?)
  {
    var (v, e, n, t) := (h.version % 4, if h.encrypt then 1 else 0, if h.fromNode.Some? then 1 else 0, RouteType(h.route));
    var b := FirstByte(h);
    assert b == v * 64 + e * 32 + n * 16 + t;
    assert b / 32 == v * 2 + e;
    assert b / 16 == v * 4 + e * 2 + n;
  }

  lemma PutFacts(out: Buf, at: nat, bytes: Buf)
    requires at + |bytes| <= |out|
    ensures |Put(out, at, bytes)| == |out|
    ensures forall i :: 0 <= i < |out| ==> Put(out, at, bytes)[i] == if at <= i < at + |bytes| then bytes[i - at] else out[i]
  {
  }

  /** Encoding fills the header bytes and keeps everything behind them. */
  lemma EncodeLayout(h: Header, out: Buf)
    requires |out| >= SerializeSize(h)
    ensures var r := Encode(h, out).value;
      var at := if h.route == Direct then 4 else 8;
      && |r| == |out| && r[0] == FirstByte(h) && r[1] == h.ttl && r[2] == h.feature && r[3] == h.meta
      && (forall i :: 0 <= i < |RouteBytes(h.route)| ==> r[4 + i] == RouteBytes(h.route)[i])
      && (h.fromNode.Some? ==> NodeAt(r, at) == h.fromNode.value)
      && r[SerializeSize(h)..] == out[SerializeSize(h)..]
  {
    var first := [FirstByte(h), h.ttl, h.feature, h.meta];
    var out1 := Put(out, 0, first);
    var out2 := Put(out1, 4, RouteBytes(h.route));
    PutFacts(out, 0, first);
    PutFacts(out1, 4, RouteBytes(h.route));
    if h.fromNode.Some? { PutFacts(out2, if h.route == Direct then 4 else 8, NodeBytes(h.fromNode.value)); }
  }

  /** Four bytes read as a 32-bit number, the most significant first. */
  function BigEndian(bytes: Buf, at: nat): nat
    requires at + 4 <= |bytes|
  {
    0x100_0000 * (bytes[at] as int) + 0x1_0000 * (bytes[at + 1] as int) + 0x100 * (bytes[at + 2] as int) + (bytes[at + 3] as int)
  }

  /** The bytes on the wire, number by number. */
  lemma WireFormat(h: Header, out: Buf)
    requires |out| >= SerializeSize(h)
    ensures var r := Encode(h, out).value;
      && r[0] == 64 * (h.version % 4) + (if h.encrypt then 32 else 0) + (if h.fromNode.Some? then 16 else 0)
                 + (match h.route case Direct => 0 case ToNode(_) => 1 case ToService(_) => 2 case ToServices(_, _, _) => 3 case ToKey(_) => 4)
      && (match h.route
          case Direct => true
          case ToNode(node) => BigEndian(r, 4) == Value(node)
          case ToService(service) => r[4] == service
          case ToServices(service, level, seqNo) =>
            r[4] == service && 256 * (r[6] as int) + (r[7] as int) == seqNo && r[5] == (match level case Global => 0 case Geo1 => 1 case Geo2 => 2 case Group => 3)
          case ToKey(key) => BigEndian(r, 4) == Value(key))
      && (h.fromNode.Some? ==> BigEndian(r, if h.route.Direct? then 4 else 8) == Value(h.fromNode.value))
      && SerializeSize(h) == 4 + (if h.route.Direct? then 0 else 4) + (if h.fromNode.Some? then 4 else 0)
  {
    EncodeLayout(h, out);
    var (r, route) := (Encode(h, out).value, RouteBytes(h.route));
    if h.route != Direct {
      assert r[4] == route[0];
      if !h.route.ToService? { assert r[5] == route[1] && r[6] == route[2] && r[7] == route[3]; }
    }
  }

  /** Which error an input fails with: too short for the fixed part, another version, an unknown route, or too short for the
      fields announced, in this order. */
  lemma DecodeFailsWith(bytes: Buf)
    requires Decode(bytes).Err?
    ensures Decode(bytes).error ==
      if |bytes| < 4 then TooSmall else if bytes[0] >= 64 then InvalidVersion else if bytes[0] % 16 > 4 then InvalidRoute else TooSmall
  {
  }

  /** Any version-0 header, encoded in front of any payload, decodes to itself and consumes exactly its own size. */
  lemma RoundTrip(h: Header, out: Buf)
    requires h.version == 0 && |out| >= SerializeSize(h)
    ensures Decode(Encode(h, out).value) == Ok(h, SerializeSize(h))
  {
    EncodeLayout(h, out);
    FirstByteFields(h);
    var (r, route) := (Encode(h, out).value, RouteBytes(h.route));
    if h.route != Direct {
      assert r[4] == route[0];
      if !h.route.ToService? { assert r[5] == route[1] && r[6] == route[2] && r[7] == route[3]; }
      assert RouteAt(RouteType(h.route), r) == h.route;
    }
  }

  /** Decoding looks at nothing behind the bytes it consumes, and consumes the size of what it found. */
  lemma DecodeIgnoresPayload(bytes: Buf, tail: Buf)
    requires Decode(bytes).Ok?
    ensures Decode(bytes).consumed == SerializeSize(Decode(bytes).header) <= |bytes|
    ensures Decode(bytes[..Decode(bytes).consumed] + tail) == Decode(bytes)
  {
  }

  /** Exactly which inputs decode. */
  lemma DecodeSucceedsIff(bytes: Buf)
    ensures Decode(bytes).Ok? <==>
            |bytes| >= 4 && bytes[0] / 64 == 0 && bytes[0] % 16 <= 4
            && |bytes| >= 4 + (if bytes[0] % 16 != 0 then 4 else 0) + (if Bit(bytes[0], 16) then 4 else 0)
  {
  }

  /** Encoding what was decoded into the same bytes gives the same bytes, unless a broadcast level byte was out of
      range, which is then rewritten to the code of the group level. */
  lemma ReencodeIff(bytes: Buf)
    requires Decode(bytes).Ok?
    ensures Encode(Decode(bytes).header, bytes) == Some(bytes) <==> (bytes[0] % 16 == 3 ==> bytes[5] <= 3)
  {
    var h := Decode(bytes).header;
    DecodeIgnoresPayload(bytes, []);
    EncodeLayout(h, bytes);
    var r := Encode(h, bytes).value;
    FirstByteBack(bytes);
    var route := RouteBytes(h.route);
    if h.route.ToServices? {
      assert r[5] == route[1] == LevelByte(LevelOf(bytes[5]));
      assert SeqBytes(SeqOf(bytes[6], bytes[7])) == [bytes[6], bytes[7]];
    }
    if bytes[0] % 16 == 3 ==> bytes[5] <= 3 {
      forall i | 0 <= i < |bytes| ensures r[i] == bytes[i] { ReencodedByte(bytes, i); }
      assert r == bytes;
    }
  }

  lemma FirstByteBack(bytes: Buf)
    requires Decode(bytes).Ok?
    ensures FirstByte(Decode(bytes).header) == bytes[0] && RouteType(Decode(bytes).header.route) == bytes[0] % 16
  {
  }

  /** The bytes of a re-encoded header, one by one. */
  lemma ReencodedByte(bytes: Buf, i: nat)
    requires Decode(bytes).Ok? && |bytes| >= SerializeSize(Decode(bytes).header) && i < |bytes| && (bytes[0] % 16 == 3 ==> bytes[5] <= 3)
    ensures Encode(Decode(bytes).header, bytes).value[i] == bytes[i]
  {
    var h := Decode(bytes).header;
    EncodeLayout(h, bytes);
    FirstByteBack(bytes);
    var (r, route) := (Encode(h, bytes).value, RouteBytes(h.route));
    if h.route.ToServices? { assert SeqBytes(SeqOf(bytes[6], bytes[7])) == [bytes[6], bytes[7]]; }
    if i >= SerializeSize(h) {
      assert r[i] == r[SerializeSize(h)..][i - SerializeSize(h)];
    } else if 4 <= i < 4 + |route| {
      assert r[4 + (i - 4)] == route[i - 4];
    } else if h.route.ToService? && 5 <= i < 8 {
      KeptByte(h, bytes, i);
    }
  }

  /** The padding of a service route keeps what the buffer held. */
  lemma KeptByte(h: Header, out: Buf, i: nat)
    requires |out| >= SerializeSize(h) && i < SerializeSize(h)
    requires h.route.ToService? && 5 <= i < 8
    ensures Encode(h, out).value[i] == out[i]
  {
  }

  /** Lowering the time to live changes that field of the decoded header and nothing else, and keeps every error. */
  lemma DecreaseTtlOnlyTtl(bytes: Buf)
    ensures var (bytes', done) := DecreaseTtl(bytes);
      && (done <==> |bytes| >= 2 && bytes[1] > 0)
      && (match Decode(bytes)
          case Ok(h, n) => Decode(bytes') == Ok(h.(ttl := if done then h.ttl - 1 else 0), n)
          case Err(e) => Decode(bytes') == Err(e))
  {
  }

  /** No header starts like a control message, of whatever version, and no control message decodes as a header. */
  lemma ControlMarkerIsApart(h: Header, out: Buf, bytes: Buf)
    ensures |out| >= SerializeSize(h) ==> Encode(h, out).value[0] != CONTROL_MARKER
    ensures bytes != [] && bytes[0] == CONTROL_MARKER ==> Decode(bytes).Err?
  {
  }

  /** The header's test of the first byte finds the encryption flag; the message's own test looks at a route bit
      instead and holds exactly of messages routed to a key. */
  lemma SecureBits(h: Header)
    ensures IsSecure(FirstByte(h)) <==> h.encrypt
    ensures IsSecureHeader(FirstByte(h)) <==> h.route.ToKey?
  {
  }

  // ---- the buffer operations ----------------------------------------------------------------

  /** Copies `bytes` into a buffer. */
  method CopyInto(output: array<Byte>, at: nat, bytes: Buf)
    requires at + |bytes| <= output.Length
    modifies output
    ensures output[..] == Put(old(output[..]), at, bytes)
  {
    var i := 0;
    while i < |bytes|
      invariant i <= |bytes|
      invariant forall k :: 0 <= k < output.Length ==> output[k] == if at <= k < at + i then bytes[k - at] else old(output[k])
    {
      output[at + i] := bytes[i];
      i := i + 1;
    }
    PutFacts(old(output[..]), at, bytes);
  }

  method ToBytes(h: Header, output: array<Byte>) returns (n: Option<nat>)
    modifies output
    ensures n.Some? <==> output.Length >= SerializeSize(h)
    ensures n.Some? ==> n.value == SerializeSize(h) && Some(output[..]) == Encode(h, old(output[..]))
    ensures n.None? ==> output[..] == old(output[..])
  {
    if output.Length < SerializeSize(h) { return None; }
    CopyInto(output, 0, [FirstByte(h), h.ttl, h.feature, h.meta]);
    var at := 4;
    CopyInto(output, at, RouteBytes(h.route));
    if h.route != Direct { at := at + 4; }
    match h.fromNode {
      case Some(node) =>
        CopyInto(output, at, NodeBytes(node));
        at := at + 4;
      case None =>
    }
    n := Some(at);
  }

  /** Decoding with a cursor. */
  method TryFrom(bytes: Buf) returns (r: Decoded)
    ensures r == Decode(bytes)
  {
    if |bytes| < 4 { return Err(TooSmall); }
    if bytes[0] / 64 != 0 { return Err(InvalidVersion); }
    var (kind, at) := (bytes[0] % 16, 4);
    var route := Direct;
    if kind > 4 { return Err(InvalidRoute); }
    if kind != 0 {
      if |bytes| < at + 4 { return Err(TooSmall); }
      route := RouteAt(kind, bytes);
      at := at + 4;
    }
    var fromNode := None;
    if Bit(bytes[0], 16) {
      if |bytes| < at + 4 { return Err(TooSmall); }
      fromNode := Some(NodeAt(bytes, at));
      at := at + 4;
    }
    r := Ok(Header(0, Bit(bytes[0], 32), route, bytes[1], bytes[2], bytes[3], fromNode), at);
  }

  method RewriteTtl(buf: array<Byte>, ttl: Byte) returns (done: bool)
    modifies buf
    ensures done <==> buf.Length >= 2
    ensures buf[..] == if done then old(buf[..])[1 := ttl] else old(buf[..])
  {
    if buf.Length < 2 { return false; }
    buf[1] := ttl;
    done := true;
  }

  method DecreaseTtlInPlace(buf: array<Byte>) returns (done: bool)
    modifies buf
    ensures (buf[..], done) == DecreaseTtl(old(buf[..]))
  {
    if buf.Length < 2 || buf[1] == 0 { return false; }
    buf[1] := buf[1] - 1;
    done := true;
  }
}
