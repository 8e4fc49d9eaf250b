/** The byte layer: the nil, int, str and array families of the MessagePack
    specification, with msgpack-c's encoder (shortest form first) and an
    incremental decoder that says "not enough bytes yet". */
module MsgPack {

  type Byte = b: int | 0 <= b < 256
  type Bytes = seq<Byte>

  const TWO_32: nat := 0x1_0000_0000

  type Num = n: int | -0x8000_0000_0000_0000 <= n < 0x1_0000_0000_0000_0000
  type Text = s: Bytes | |s| < TWO_32 witness []

  datatype Value =
    | Nil
    | Int(n: Num)
    | Str(text: Text)
    | Arr(items: seq<Value>)

  /** Array lengths fit the 32-bit field of the widest array header. */
  predicate Packable(v: Value) {
    match v
    case Arr(items) => |items| < TWO_32 && forall i :: 0 <= i < |items| ==> Packable(items[i])
    case _ => true
  }

  /** The objects that msgpack can pack. */
  type Obj = v: Value | Packable(v) witness Nil

  // ---------------------------------------------------------------- numbers

  function Pow256(k: nat): (p: nat)
    ensures p > 0
  {
    if k == 0 then 1 else 256 * Pow256(k - 1)
  }

  /** The low k bytes of x, most significant first. */
  function BigEndian(k: nat, x: nat): (b: Bytes)
    ensures |b| == k
  {
    if k == 0 then [] else BigEndian(k - 1, x / 256) + [x % 256]
  }

  function FromBigEndian(b: Bytes): (x: nat)
    ensures x < Pow256(|b|)
  {
    if b == [] then 0 else FromBigEndian(b[..|b| - 1]) * 256 + b[|b| - 1]
  }

  lemma {:induction false} BigEndianRoundTrip(k: nat, x: nat)
    requires x < Pow256(k)
    ensures FromBigEndian(BigEndian(k, x)) == x
  {
    if k > 0 {
      BigEndianRoundTrip(k - 1, x / 256);
      assert BigEndian(k, x)[..k - 1] == BigEndian(k - 1, x / 256);
    }
  }

  lemma Powers()
    ensures Pow256(1) == 0x100
    ensures Pow256(2) == 0x1_0000
    ensures Pow256(4) == TWO_32
    ensures Pow256(8) == 0x1_0000_0000_0000_0000
  {
    assert Pow256(3) == 0x100_0000;
    assert Pow256(5) == 0x100_0000_0000;
    assert Pow256(7) == 0x100_0000_0000_0000;
  }

  // ---------------------------------------------------------------- headers

  /** What the first bytes of an object announce: a whole nil or int, or the
      length of the str or array that follows. */
  datatype Head =
    | NilHead
    | IntHead(n: Num)
    | StrHead(length: nat)
    | ArrHead(count: nat)

  datatype Kind = Unsigned | Signed | StrLength | ArrCount

  /** How the lead byte continues. */
  datatype Lead =
    | Whole(head: Head)
    | Sized(kind: Kind, width: nat)
    | Unsupported

  /** Success with the unread rest, a request for more bytes, or bytes that no
      continuation turns into an object. */
  datatype Parse<+T> = Got(value: T, rest: Bytes) | More | Bad

  function LeadOf(b: Byte): Lead {
    if b < 0x80 then Whole(IntHead(b))
    else if b < 0x90 then Unsupported
    else if b < 0xa0 then Whole(ArrHead(b - 0x90))
    else if b < 0xc0 then Whole(StrHead(b - 0xa0))
    else if b == 0xc0 then Whole(NilHead)
    else if b == 0xcc then Sized(Unsigned, 1)
    else if b == 0xcd then Sized(Unsigned, 2)
    else if b == 0xce then Sized(Unsigned, 4)
    else if b == 0xcf then Sized(Unsigned, 8)
    else if b == 0xd0 then Sized(Signed, 1)
    else if b == 0xd1 then Sized(Signed, 2)
    else if b == 0xd2 then Sized(Signed, 4)
    else if b == 0xd3 then Sized(Signed, 8)
    else if b == 0xd9 then Sized(StrLength, 1)
    else if b == 0xda then Sized(StrLength, 2)
    else if b == 0xdb then Sized(StrLength, 4)
    else if b == 0xdc then Sized(ArrCount, 2)
    else if b == 0xdd then Sized(ArrCount, 4)
    else if b >= 0xe0 then Whole(IntHead(b - 256))
    else Unsupported
  }

  predicate HeadOk(h: Head) {
    match h
    case StrHead(l) => l < TWO_32
    case ArrHead(c) => c < TWO_32
    case _ => true
  }

  /** The lead byte, then the announced number in as few bytes as it needs. */
  function EncodeHead(h: Head): (b: Bytes)
    requires HeadOk(h)
    ensures b != []
  {
    match h
    case NilHead => [0xc0]
    case IntHead(n) =>
      if n < -0x8000_0000 then [0xd3] + BigEndian(8, n + 0x1_0000_0000_0000_0000)
      else if n < -0x8000 then [0xd2] + BigEndian(4, n + TWO_32)
      else if n < -0x80 then [0xd1] + BigEndian(2, n + 0x1_0000)
      else if n < -0x20 then [0xd0] + BigEndian(1, n + 0x100)
      else if n < 0 then [n + 0x100]
      else if n < 0x80 then [n]
      else if n < 0x100 then [0xcc] + BigEndian(1, n)
      else if n < 0x1_0000 then [0xcd] + BigEndian(2, n)
      else if n < TWO_32 then [0xce] + BigEndian(4, n)
      else [0xcf] + BigEndian(8, n)
    case StrHead(l) =>
      if l < 0x20 then [0xa0 + l]
      else if l < 0x100 then [0xd9] + BigEndian(1, l)
      else if l < 0x1_0000 then [0xda] + BigEndian(2, l)
      else [0xdb] + BigEndian(4, l)
    case ArrHead(c) =>
      if c < 0x10 then [0x90 + c]
      else if c < 0x1_0000 then [0xdc] + BigEndian(2, c)
      else [0xdd] + BigEndian(4, c)
  }

  function SizedHead(kind: Kind, width: nat, x: nat): (h: Head)
    requires width in {1, 2, 4, 8}
    requires x < Pow256(width)
    requires kind in {StrLength, ArrCount} ==> width <= 4
    ensures HeadOk(h)
  {
    Powers();
    match kind
    case Unsigned => IntHead(x)
    case Signed => IntHead(if x < Pow256(width) / 2 then x else x - Pow256(width))
    case StrLength => StrHead(x)
    case ArrCount => ArrHead(x)
  }

  function DecodeHead(b: Bytes): (p: Parse<Head>)
    ensures p.Got? ==> HeadOk(p.value) && |p.rest| < |b|
  {
    if b == [] then More
    else match LeadOf(b[0])
      case Whole(h) => Got(h, b[1..])
      case Unsupported => Bad
      case Sized(kind, w) =>
        if |b| < 1 + w then More
        else Got(SizedHead(kind, w, FromBigEndian(b[1..1 + w])), b[1 + w..])
  }

  lemma SizedRoundTrip(lead: Byte, kind: Kind, w: nat, n: nat, x: Bytes)
    requires LeadOf(lead) == Sized(kind, w) && n < Pow256(w)
    ensures DecodeHead([lead] + BigEndian(w, n) + x) == Got(SizedHead(kind, w, n), x)
  {
    var b := [lead] + BigEndian(w, n) + x;
    BigEndianRoundTrip(w, n);
    assert b[1..1 + w] == BigEndian(w, n);
    assert b[1 + w..] == x;
  }

  lemma IntHeadRoundTrip(n: Num, x: Bytes)
    ensures DecodeHead(EncodeHead(IntHead(n)) + x) == Got(IntHead(n), x)
  {
    Powers();
    if n < -0x8000_0000 { SizedRoundTrip(0xd3, Signed, 8, n + 0x1_0000_0000_0000_0000, x); }
    else if n < -0x8000 { SizedRoundTrip(0xd2, Signed, 4, n + TWO_32, x); }
    else if n < -0x80 { SizedRoundTrip(0xd1, Signed, 2, n + 0x1_0000, x); }
    else if n < -0x20 { SizedRoundTrip(0xd0, Signed, 1, n + 0x100, x); }
    else if n < 0 { assert ([n + 0x100] + x)[1..] == x; }
    else if n < 0x80 { assert ([n] + x)[1..] == x; }
    else if n < 0x100 { SizedRoundTrip(0xcc, Unsigned, 1, n, x); }
    else if n < 0x1_0000 { SizedRoundTrip(0xcd, Unsigned, 2, n, x); }
    else if n < TWO_32 { SizedRoundTrip(0xce, Unsigned, 4, n, x); }
    else { SizedRoundTrip(0xcf, Unsigned, 8, n, x); }
  }

  lemma LengthHeadRoundTrip(h: Head, x: Bytes)
    requires HeadOk(h) && (h.StrHead? || h.ArrHead?)
    ensures DecodeHead(EncodeHead(h) + x) == Got(h, x)
  {
    Powers();
    match h
    case StrHead(l) =>
      if l < 0x20 { assert ([0xa0 + l] + x)[1..] == x; }
      else if l < 0x100 { SizedRoundTrip(0xd9, StrLength, 1, l, x); }
      else if l < 0x1_0000 { SizedRoundTrip(0xda, StrLength, 2, l, x); }
      else { SizedRoundTrip(0xdb, StrLength, 4, l, x); }
    case ArrHead(c) =>
      if c < 0x10 { assert ([0x90 + c] + x)[1..] == x; }
      else if c < 0x1_0000 { SizedRoundTrip(0xdc, ArrCount, 2, c, x); }
      else { SizedRoundTrip(0xdd, ArrCount, 4, c, x); }
  }

  lemma HeadRoundTrip(h: Head, x: Bytes)
    requires HeadOk(h)
    ensures DecodeHead(EncodeHead(h) + x) == Got(h, x)
  {
    match h
    case NilHead => assert ([0xc0] + x)[1..] == x;
    case IntHead(n) => IntHeadRoundTrip(n, x);
    case _ => LengthHeadRoundTrip(h, x);
  }

  /** Most significant byte first: what stands above the low k bytes leads. */
  lemma {:induction false} BigEndianLeads(k: nat, high: Byte, low: nat)
    requires low < Pow256(k)
    ensures BigEndian(k + 1, high * Pow256(k) + low) == [high] + BigEndian(k, low)
  {
    if k == 0 {
      assert BigEndian(0, high / 256) == [] && BigEndian(0, low) == [];
    } else {
      var q := high * Pow256(k - 1);
      Shifted(high, Pow256(k - 1));
      var x := 256 * q + low;
      assert x / 256 == q + low / 256 && x % 256 == low % 256;
      BigEndianLeads(k - 1, high, low / 256);
    }
  }

  lemma Shifted(high: nat, p: nat)
    ensures high * (256 * p) == 256 * (high * p)
  {
  }

  /** Any width reads as two's complement, also where a shorter form exists. */
  lemma SignedReads(w: nat, x: nat)
    requires w in {1, 2, 4, 8} && x < Pow256(w)
    ensures
      var n := SizedHead(Signed, w, x).n;
      -(Pow256(w) as int) <= 2 * n < Pow256(w) && (n == x || n == x - Pow256(w))
    ensures SizedHead(Unsigned, w, x) == IntHead(x)
    ensures w <= 4 ==> SizedHead(StrLength, w, x) == StrHead(x) && SizedHead(ArrCount, w, x) == ArrHead(x)
  {
    Powers();
  }

  /** The lead bytes of the other families: maps, booleans, bin, ext and floats, and
      the one the specification never uses. */
  lemma UnsupportedLeads(b: Byte, rest: Bytes)
    ensures DecodeHead([b] + rest).Bad? <==>
      || 0x80 <= b <= 0x8f || 0xc1 <= b <= 0xcb || 0xd4 <= b <= 0xd8 || b == 0xde || b == 0xdf
  {
    hide FromBigEndian, SizedHead;
  }

  /** The lead byte of each family, as the MessagePack specification lays them out. */
  lemma LeadByte(v: Obj)
    ensures
      var b, n := Encode(v)[0], |Encode(v)|;
      match v
      case Nil => b == 0xc0 && n == 1
      case Int(i) =>
        && (0 <= i < 0x80 ==> b == i && n == 1) && (-0x20 <= i < 0 ==> b == 0x100 + i && n == 1)
        && (0x80 <= i < 0x100 ==> b == 0xcc && n == 2) && (0x100 <= i < 0x1_0000 ==> b == 0xcd && n == 3)
        && (0x1_0000 <= i < TWO_32 ==> b == 0xce && n == 5) && (TWO_32 <= i ==> b == 0xcf && n == 9)
        && (-0x80 <= i < -0x20 ==> b == 0xd0 && n == 2) && (-0x8000 <= i < -0x80 ==> b == 0xd1 && n == 3)
        && (-0x8000_0000 <= i < -0x8000 ==> b == 0xd2 && n == 5) && (i < -0x8000_0000 ==> b == 0xd3 && n == 9)
      case Str(t) =>
        && (|t| < 0x20 ==> b == 0xa0 + |t| && n == 1 + |t|) && (0x20 <= |t| < 0x100 ==> b == 0xd9 && n == 2 + |t|)
        && (0x100 <= |t| < 0x1_0000 ==> b == 0xda && n == 3 + |t|) && (0x1_0000 <= |t| ==> b == 0xdb && n == 5 + |t|)
      case Arr(vs) =>
        && (|vs| < 0x10 ==> b == 0x90 + |vs|) && (0x10 <= |vs| < 0x1_0000 ==> b == 0xdc)
        && (0x1_0000 <= |vs| ==> b == 0xdd)
  {
  }

  /** No other header says the same in fewer bytes. */
  lemma ShortestHead(h: Head, b: Bytes)
    requires HeadOk(h) && DecodeHead(b) == Got(h, [])
    ensures |EncodeHead(h)| <= |b|
  {
    if LeadOf(b[0]).Whole? {
      WholeIsOne(b[0]);
    } else {
      var kind, w := LeadOf(b[0]).kind, LeadOf(b[0]).width;
      var x := FromBigEndian(b[1..1 + w]);
      assert |b| == 1 + w && h == SizedHead(kind, w, x);
      SizedIsNoShorter(kind, w, x);
      hide EncodeHead, DecodeHead, LeadOf, SizedHead, Pow256, FromBigEndian;
    }
  }

  lemma WholeIsOne(b: Byte)
    requires LeadOf(b).Whole?
    ensures HeadOk(LeadOf(b).head) && |EncodeHead(LeadOf(b).head)| == 1
  {
    HeadSize(LeadOf(b).head);
    hide EncodeHead;
  }

  lemma SizedIsNoShorter(kind: Kind, w: nat, x: nat)
    requires w in {1, 2, 4, 8} && x < Pow256(w) && (kind in {StrLength, ArrCount} ==> w <= 4)
    requires kind == ArrCount ==> w >= 2
    ensures |EncodeHead(SizedHead(kind, w, x))| <= 1 + w
  {
    HeadSize(SizedHead(kind, w, x));
    Powers();
    hide EncodeHead, Pow256;
  }

  /** How many bytes the shortest form takes. */
  lemma HeadSize(h: Head)
    requires HeadOk(h)
    ensures
      var n := |EncodeHead(h)|;
      match h
      case NilHead => n == 1
      case IntHead(i) =>
        n == if -0x20 <= i < 0x80 then 1 else if -0x80 <= i < 0x100 then 2
             else if -0x8000 <= i < 0x1_0000 then 3 else if -0x8000_0000 <= i < TWO_32 then 5 else 9
      case StrHead(l) => n == if l < 0x20 then 1 else if l < 0x100 then 2 else if l < 0x1_0000 then 3 else 5
      case ArrHead(c) => n == if c < 0x10 then 1 else if c < 0x1_0000 then 3 else 5
  {
  }

  /** A verdict on a header never changes when more bytes arrive. */
  lemma HeadExtends(b: Bytes, x: Bytes)
    ensures DecodeHead(b).Got? ==> DecodeHead(b + x) == Got(DecodeHead(b).value, DecodeHead(b).rest + x)
    ensures DecodeHead(b).Bad? ==> DecodeHead(b + x).Bad?
  {
    if b != [] {
      assert (b + x)[0] == b[0];
      match LeadOf(b[0])
      case Whole(h) => assert (b + x)[1..] == b[1..] + x;
      case Unsupported =>
      case Sized(kind, w) =>
        if |b| >= 1 + w {
          assert (b + x)[1..1 + w] == b[1..1 + w];
          assert (b + x)[1 + w..] == b[1 + w..] + x;
        }
    }
  }

  // ---------------------------------------------------------------- objects

  function HeadOf(v: Obj): (h: Head)
    ensures HeadOk(h)
  {
    match v
    case Nil => NilHead
    case Int(n) => IntHead(n)
    case Str(t) => StrHead(|t|)
    case Arr(items) => ArrHead(|items|)
  }

  function Encode(v: Obj): (b: Bytes)
    ensures b != []
    decreases v, 0
  {
    match v
    case Str(t) => EncodeHead(HeadOf(v)) + t
    case Arr(items) => EncodeHead(HeadOf(v)) + EncodeItems(items)
    case _ => EncodeHead(HeadOf(v))
  }

  /** The bytes of objects packed one after another. */
  function EncodeItems(vs: seq<Obj>): Bytes
    decreases vs, 0
  {
    if vs == [] then [] else Encode(vs[0]) + EncodeItems(vs[1..])
  }

  /** The first object of b, as the unpacker's next() finds it. */
  function Next(b: Bytes): (p: Parse<Value>)
    ensures p.Got? ==> Packable(p.value) && |p.rest| < |b|
    decreases |b|, 0
  {
    match DecodeHead(b)
    case More => More
    case Bad => Bad
    case Got(head, rest) =>
      match head
      case NilHead => Got(Nil, rest)
      case IntHead(n) => Got(Int(n), rest)
      case StrHead(l) => if |rest| < l then More else Got(Str(rest[..l]), rest[l..])
      case ArrHead(c) =>
        match NextN(rest, c)
        case More => More
        case Bad => Bad
        case Got(items, after) => Got(Arr(items), after)
  }

  function NextN(b: Bytes, n: nat): (p: Parse<seq<Value>>)
    ensures p.Got? ==> |p.value| == n && |p.rest| <= |b|
    ensures p.Got? ==> forall i :: 0 <= i < n ==> Packable(p.value[i])
    decreases |b|, 1
  {
    if n == 0 then Got([], b)
    else match Next(b)
      case More => More
      case Bad => Bad
      case Got(v, rest) =>
        match NextN(rest, n - 1)
        case More => More
        case Bad => Bad
        case Got(vs, after) => Got([v] + vs, after)
  }

  /** Decoding undoes encoding, whatever follows. */
  lemma {:induction false} RoundTrip(v: Obj, x: Bytes)
    ensures Next(Encode(v) + x) == Got(v, x)
    decreases v, 0
  {
    var h := EncodeHead(HeadOf(v));
    match v
    case Str(t) =>
      assert Encode(v) + x == h + (t + x);
      HeadRoundTrip(HeadOf(v), t + x);
      assert (t + x)[..|t|] == t && (t + x)[|t|..] == x;
    case Arr(items) =>
      assert Encode(v) + x == h + (EncodeItems(items) + x);
      HeadRoundTrip(HeadOf(v), EncodeItems(items) + x);
      RoundTripItems(items, x);
    case _ => HeadRoundTrip(HeadOf(v), x);
  }

  lemma {:induction false} RoundTripItems(vs: seq<Obj>, x: Bytes)
    ensures NextN(EncodeItems(vs) + x, |vs|) == Got(vs, x)
    decreases vs, 0
  {
    if vs == [] {
      assert EncodeItems(vs) + x == x;
    } else {
      assert EncodeItems(vs) + x == Encode(vs[0]) + (EncodeItems(vs[1..]) + x);
      RoundTrip(vs[0], EncodeItems(vs[1..]) + x);
      RoundTripItems(vs[1..], x);
      assert [vs[0]] + vs[1..] == vs;
    }
  }

  /** More bytes never change what next() already decided. */
  lemma {:induction false} Extends(b: Bytes, x: Bytes)
    ensures Next(b).Got? ==> Next(b + x) == Got(Next(b).value, Next(b).rest + x)
    ensures Next(b).Bad? ==> Next(b + x).Bad?
    decreases |b|, 0
  {
    HeadExtends(b, x);
    match DecodeHead(b)
    case Got(StrHead(l), rest) =>
      if |rest| >= l {
        assert (rest + x)[..l] == rest[..l] && (rest + x)[l..] == rest[l..] + x;
      }
    case Got(ArrHead(c), rest) => ExtendsN(rest, c, x);
    case _ =>
  }

  lemma {:induction false} ExtendsN(b: Bytes, n: nat, x: Bytes)
    ensures NextN(b, n).Got? ==> NextN(b + x, n) == Got(NextN(b, n).value, NextN(b, n).rest + x)
    ensures NextN(b, n).Bad? ==> NextN(b + x, n).Bad?
    decreases |b|, 1
  {
    if n > 0 {
      var c := b + x;
      Extends(b, x);
      match Next(b)
      case Got(v, rest) =>
        assert Next(c) == Got(v, rest + x);
        ExtendsN(rest, n - 1, x);
      case _ =>
    }
  }

  /** A proper prefix of an encoding is never mistaken for an object. */
  lemma ProperPrefixWaits(v: Obj, p: Bytes, s: Bytes)
    requires p + s == Encode(v) && s != []
    ensures Next(p) == More
  {
    RoundTrip(v, []);
    assert Encode(v) + [] == Encode(v);
    Extends(p, s);
  }
}
