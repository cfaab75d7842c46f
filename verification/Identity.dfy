/** Node and connection identities: 32-bit node ids read as four 8-bit layers, XOR distance,
    and the number of layers on which two ids still differ. */
module Identity {

  type U32 = x: int | 0 <= x < 0x1_0000_0000
  type Byte = x: int | 0 <= x < 256
  type LayerNo = x: int | 0 <= x < 4

  /** A node id as its four bytes, most significant first; `Value` is the 32-bit integer itself. */
  datatype NodeId = NodeId(geo1: Byte, geo2: Byte, group: Byte, index: Byte)

  datatype Direction = Outgoing | Incoming

  /** Connections are compared by session and direction only; the protocol byte takes no part. */
  datatype ConnId = ConnId(direction: Direction, session: nat)

  /** How far a service broadcast reaches. */
  datatype Level = Global | Geo1 | Geo2 | Group

  datatype Option<+T> = None | Some(value: T)

  function Value(id: NodeId): U32 {
    id.geo1 * 16777216 + id.geo2 * 65536 + id.group * 256 + id.index
  }

  function OfValue(v: U32): NodeId {
    NodeId(v / 16777216, v / 65536 % 256, v / 256 % 256, v % 256)
  }

  /** Byte number `l` of a node id, layer 0 being the least significant. */
  function Layer(id: NodeId, l: LayerNo): Byte {
    if l == 0 then id.index else if l == 1 then id.group else if l == 2 then id.geo2 else id.geo1
  }

  /** One more than the highest layer on which the ids differ; 0 when they are equal. */
  function EqUtilLayer(a: NodeId, b: NodeId): nat {
    if Layer(a, 3) != Layer(b, 3) then 4
    else if Layer(a, 2) != Layer(b, 2) then 3
    else if Layer(a, 1) != Layer(b, 1) then 2
    else if Layer(a, 0) != Layer(b, 0) then 1
    else 0
  }

  /** Bitwise exclusive or of the `bits` low bits of two naturals. */
  function Xor(a: nat, b: nat, bits: nat): nat {
    if bits == 0 then 0
    else (if a % 2 != b % 2 then 1 else 0) + 2 * Xor(a / 2, b / 2, bits - 1)
  }

  function Power2(n: nat): nat {
    if n == 0 then 1 else 2 * Power2(n - 1)
  }

  function Xor8(a: Byte, b: Byte): nat {
    Xor(a, b, 8)
  }

  function Distance(a: NodeId, b: NodeId): nat {
    Xor(Value(a), Value(b), 32)
  }

  /** An id shifted right by `l` layers. */
  function Shifted(id: NodeId, l: LayerNo): nat {
    if l == 0 then Value(id)
    else if l == 1 then id.geo1 * 65536 + id.geo2 * 256 + id.group
    else if l == 2 then id.geo1 * 256 + id.geo2
    else id.geo1
  }

  /** Distance with the layers below `l` cut off. */
  function DistanceAbove(a: NodeId, b: NodeId, l: LayerNo): nat {
    Xor(Shifted(a, l), Shifted(b, l), 32 - 8 * l)
  }

  /** Ids and 32-bit integers correspond one to one. */
  lemma ValueRoundTrip(id: NodeId, v: U32)
    ensures OfValue(Value(id)) == id
    ensures Value(OfValue(v)) == v
  {
    assert Value(id) / 256 == Shifted(id, 1);
    assert Value(id) / 65536 == Shifted(id, 1) / 256 == Shifted(id, 2);
    assert Value(id) / 16777216 == Shifted(id, 2) / 256 == id.geo1;
    assert v / 65536 == v / 256 / 256;
    assert v / 16777216 == v / 256 / 256 / 256;
  }

  /** `EqUtilLayer` is the unique level at and above which the ids agree and just below which they differ. */
  lemma EqUtilLayerMeaning(a: NodeId, b: NodeId)
    ensures var e := EqUtilLayer(a, b);
      && e <= 4
      && (e == 0 <==> a == b)
      && (forall l: LayerNo :: e <= l ==> Layer(a, l) == Layer(b, l))
      && (0 < e ==> Layer(a, e - 1) != Layer(b, e - 1))
    ensures EqUtilLayer(a, b) == EqUtilLayer(b, a)
  {
  }

  /** Sharing a layer prefix: agreement from layer `l` upwards. */
  predicate SharesFrom(a: NodeId, b: NodeId, l: nat) {
    forall k: LayerNo :: l <= k ==> Layer(a, k) == Layer(b, k)
  }

  lemma SharesFromIff(a: NodeId, b: NodeId, l: nat)
    ensures SharesFrom(a, b, l) <==> EqUtilLayer(a, b) <= l
  {
  }

  // ---- exclusive or -------------------------------------------------------------------------

  lemma {:induction false} XorBound(a: nat, b: nat, bits: nat)
    ensures Xor(a, b, bits) < Power2(bits)
  {
    if bits > 0 {
      XorBound(a / 2, b / 2, bits - 1);
    }
  }

  lemma {:induction false} XorInjective(a: nat, b: nat, k: nat, bits: nat)
    requires a < Power2(bits) && b < Power2(bits)
    requires Xor(a, k, bits) == Xor(b, k, bits)
    ensures a == b
  {
    if bits > 0 {
      XorInjective(a / 2, b / 2, k / 2, bits - 1);
    }
  }

  lemma {:induction false} XorSymmetric(a: nat, b: nat, bits: nat)
    ensures Xor(a, b, bits) == Xor(b, a, bits)
  {
    if bits > 0 {
      XorSymmetric(a / 2, b / 2, bits - 1);
    }
  }

  lemma {:induction false} XorIdentityIff(a: nat, b: nat, bits: nat)
    requires a < Power2(bits) && b < Power2(bits)
    ensures Xor(a, b, bits) == 0 <==> a == b
  {
    if bits > 0 {
      XorIdentityIff(a / 2, b / 2, bits - 1);
    }
  }

  lemma Double(h: nat, q: nat)
    ensures (2 * h) * q == 2 * (h * q)
  {
  }

  /** Exclusive or works separately on the low `low` bits and on what lies above them. */
  lemma {:induction false} XorSplit(a: nat, b: nat, low: nat, c: nat, d: nat, high: nat)
    requires a < Power2(low) && b < Power2(low)
    ensures Xor(a + Power2(low) * c, b + Power2(low) * d, low + high) == Xor(a, b, low) + Power2(low) * Xor(c, d, high)
  {
    if low > 0 {
      var h := Power2(low - 1);
      var x := Xor(c, d, high);
      Double(h, c);
      Double(h, d);
      Double(h, x);
      assert (a + 2 * (h * c)) / 2 == a / 2 + h * c && (b + 2 * (h * d)) / 2 == b / 2 + h * d;
      XorSplit(a / 2, b / 2, low - 1, c, d, high);
    }
  }

  /** Splitting off the low byte. */
  lemma XorLowByte(a: nat, b: nat, high: nat)
    ensures Xor(a, b, 8 + high) == Xor(a % 256, b % 256, 8) + 256 * Xor(a / 256, b / 256, high)
  {
    Powers();
    XorSplit(a % 256, b % 256, 8, a / 256, b / 256, high);
    assert a == a % 256 + 256 * (a / 256) && b == b % 256 + 256 * (b / 256);
  }

  lemma Powers()
    ensures Power2(8) == 256 && Power2(16) == 65536 && Power2(24) == 16777216 && Power2(32) == 0x1_0000_0000
  {
  }

  lemma Xor8Facts(a: Byte, b: Byte, k: Byte)
    ensures Xor8(a, k) < 256
    ensures Xor8(a, k) == Xor8(b, k) ==> a == b
    ensures Xor8(a, b) == Xor8(b, a)
  {
    Powers();
    XorBound(a, k, 8);
    XorSymmetric(a, b, 8);
    if Xor8(a, k) == Xor8(b, k) {
      XorInjective(a, b, k, 8);
    }
  }

  /** The next shift drops the low byte. */
  lemma ShiftStep(id: NodeId, l: LayerNo)
    requires l < 3
    ensures Shifted(id, l) % 256 == Layer(id, l) && Shifted(id, l) / 256 == Shifted(id, l + 1)
  {
  }

  /** Peeling the lowest remaining layer off a distance. */
  lemma DistanceStep(a: NodeId, b: NodeId, l: LayerNo)
    requires l < 3
    ensures DistanceAbove(a, b, l) == Xor8(Layer(a, l), Layer(b, l)) + 256 * DistanceAbove(a, b, l + 1)
  {
    ShiftStep(a, l);
    ShiftStep(b, l);
    XorLowByte(Shifted(a, l), Shifted(b, l), 24 - 8 * l);
  }

  /** Cutting off low layers is division: `DistanceAbove` is the true distance with its low bytes dropped. */
  lemma DistanceAboveIsQuotient(a: NodeId, b: NodeId)
    ensures DistanceAbove(a, b, 0) == Distance(a, b)
    ensures DistanceAbove(a, b, 1) == Distance(a, b) / 256
    ensures DistanceAbove(a, b, 2) == Distance(a, b) / 65536
    ensures DistanceAbove(a, b, 3) == Distance(a, b) / 16777216
  {
    DistanceStep(a, b, 0);
    DistanceStep(a, b, 1);
    DistanceStep(a, b, 2);
    Xor8Facts(Layer(a, 0), Layer(a, 0), Layer(b, 0));
    Xor8Facts(Layer(a, 1), Layer(a, 1), Layer(b, 1));
    Xor8Facts(Layer(a, 2), Layer(a, 2), Layer(b, 2));
  }

  /** Ids agreeing from layer `l` upwards are equally far from any key when only those layers are read. */
  lemma {:induction false} SharedPrefixSameDistance(a: NodeId, b: NodeId, key: NodeId, l: LayerNo)
    requires SharesFrom(a, b, l)
    ensures DistanceAbove(a, key, l) == DistanceAbove(b, key, l)
    decreases 4 - l
  {
    assert Layer(a, l) == Layer(b, l);
    if l < 3 {
      DistanceStep(a, key, l);
      DistanceStep(b, key, l);
      SharedPrefixSameDistance(a, b, key, l + 1);
    }
  }

  /** The first differing layer decides the order of distances, read down to any layer at or below it. */
  lemma {:induction false} FirstDifferenceDecides(a: NodeId, b: NodeId, key: NodeId, l: LayerNo, low: LayerNo)
    requires SharesFrom(a, b, l + 1) && low <= l
    requires Xor8(Layer(a, l), Layer(key, l)) < Xor8(Layer(b, l), Layer(key, l))
    ensures DistanceAbove(a, key, low) < DistanceAbove(b, key, low)
    decreases l - low
  {
    if low < l {
      FirstDifferenceDecides(a, b, key, l, low + 1);
      DistanceStep(a, key, low);
      DistanceStep(b, key, low);
      Xor8Facts(Layer(a, low), Layer(a, low), Layer(key, low));
    } else if l < 3 {
      SharedPrefixSameDistance(a, b, key, l + 1);
      DistanceStep(a, key, l);
      DistanceStep(b, key, l);
    }
  }

  /** XOR distance compares ids by the layer where they first differ, and by nothing else. */
  lemma DistanceIsLexicographic(a: NodeId, b: NodeId, key: NodeId)
    requires a != b
    ensures var l := EqUtilLayer(a, b) - 1;
      && 0 <= l < 4
      && (Distance(a, key) < Distance(b, key) <==> Xor8(Layer(a, l), Layer(key, l)) < Xor8(Layer(b, l), Layer(key, l)))
      && Distance(a, key) != Distance(b, key)
  {
    EqUtilLayerMeaning(a, b);
    var l := EqUtilLayer(a, b) - 1;
    Xor8Facts(Layer(a, l), Layer(b, l), Layer(key, l));
    if Xor8(Layer(a, l), Layer(key, l)) < Xor8(Layer(b, l), Layer(key, l)) {
      FirstDifferenceDecides(a, b, key, l, 0);
    } else {
      FirstDifferenceDecides(b, a, key, l, 0);
    }
  }

  /** The distance is symmetric, fits 32 bits, vanishes exactly on equal ids, and tells ids apart from any key. */
  lemma DistanceMetric(a: NodeId, b: NodeId, key: NodeId)
    ensures Distance(a, b) == Distance(b, a) < 0x1_0000_0000
    ensures Distance(a, b) == 0 <==> a == b
    ensures Distance(a, key) == Distance(b, key) <==> a == b
  {
    Powers();
    XorSymmetric(Value(a), Value(b), 32);
    XorBound(Value(a), Value(b), 32);
    XorIdentityIff(Value(a), Value(b), 32);
    if a != b { DistanceIsLexicographic(a, b, key); }
    if Value(a) == Value(b) {
      ValueRoundTrip(a, 0);
      ValueRoundTrip(b, 0);
    }
  }
}
