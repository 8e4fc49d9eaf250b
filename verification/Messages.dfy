/** The Request, Notification and Response messages of MessagePack-RPC, the
    path of a call id through four integer types, and the Response object. */
module Messages {
  import opened MsgPack

  datatype Option<+T> = None | Some(value: T)

  // -------------------------------------------------------------------- ids

  type Int32 = n: int | -0x8000_0000 <= n < 0x8000_0000
  type Uint32 = n: int | 0 <= n < TWO_32

  /** Conversion to a 32-bit signed integer keeps the value modulo 2^32. */
  function ToInt32(n: int): Int32 {
    (n + 0x8000_0000) % 0x1_0000_0000 - 0x8000_0000
  }

  function ToUint32(n: int): Uint32 {
    n % 0x1_0000_0000
  }

  /** next_call_idx: pre-increment of an atomic<int>, which wraps. */
  function NextCallIdx(idx: Int32): Int32 {
    ToInt32(idx + 1)
  }

  /** The id of the n-th call, counting from 1, of a client whose counter
      starts at 0. */
  function NthId(n: nat): Int32 {
    if n == 0 then 0 else NextCallIdx(NthId(n - 1))
  }

  /** x and the integer it converts to differ by a multiple of 2^32, and only
      one 32-bit integer does. */
  lemma ToInt32Is(x: int, r: Int32, k: int)
    requires x == r + k * 0x1_0000_0000
    ensures ToInt32(x) == r
  {
    var y := x + 0x8000_0000;
    var q, m := y / 0x1_0000_0000, y % 0x1_0000_0000;
    assert y == q * 0x1_0000_0000 + m;
    assert k == q;
  }

  lemma Wraps(x: int) returns (k: int)
    ensures x == ToInt32(x) + k * 0x1_0000_0000
  {
    k := (x + 0x8000_0000) / 0x1_0000_0000;
  }

  lemma Successor(x: int)
    ensures NextCallIdx(ToInt32(x)) == ToInt32(x + 1)
  {
    var k := Wraps(x);
    var j := Wraps(ToInt32(x) + 1);
    ToInt32Is(x + 1, ToInt32(ToInt32(x) + 1), j + k);
  }

  lemma {:induction false} NthIdIs(n: nat)
    ensures NthId(n) == ToInt32(n)
  {
    if n == 0 {
      ToInt32Is(0, 0, 0);
    } else {
      NthIdIs(n - 1);
      Successor(n - 1);
    }
  }

  /** The id a call is registered under is the id its response is looked up by. */
  lemma IdSurvives(id: Int32)
    ensures ToInt32(ToUint32(id)) == id
  {
    var k := id / 0x1_0000_0000;
    assert id == k * 0x1_0000_0000 + ToUint32(id);
    ToInt32Is(ToUint32(id), id, -k);
  }

  /** Two calls share an id exactly when they are a multiple of 2^32 calls apart. */
  lemma IdsCollide(n: nat, m: nat)
    ensures NthId(n) == NthId(m) <==> exists k :: n == m + k * 0x1_0000_0000
  {
    NthIdIs(n);
    NthIdIs(m);
    var a := Wraps(n);
    var b := Wraps(m);
    if NthId(n) == NthId(m) {
      assert n == m + (a - b) * 0x1_0000_0000;
    }
    forall k | n == m + k * 0x1_0000_0000 ensures NthId(n) == NthId(m) {
      ToInt32Is(n, ToInt32(m), b + k);
    }
  }

  /** So over any window of 2^32 allocations the ids are pairwise distinct. */
  lemma IdsDistinctInWindow(n: nat, m: nat)
    requires n < m < n + 0x1_0000_0000
    ensures NthId(n) != NthId(m)
  {
    IdsCollide(n, m);
  }

  // --------------------------------------------------------------- requests

  type Args = s: seq<Obj> | |s| < TWO_32 witness []

  function Array(items: Args): Obj {
    Arr(items)
  }

  function RequestFrame(id: Int32, name: Text, args: Args): Obj {
    Array([Int(0), Int(id), Str(name), Array(args)])
  }

  function NotificationFrame(name: Text, args: Args): Obj {
    Array([Int(2), Str(name), Array(args)])
  }

  predicate FitsInt8(v: Obj) {
    v.Int? && -0x80 <= v.n < 0x80
  }

  predicate FitsInt32(v: Obj) {
    v.Int? && -0x8000_0000 <= v.n < 0x8000_0000
  }

  predicate FitsUint32(v: Obj) {
    v.Int? && 0 <= v.n < TWO_32
  }

  /** What the server converts a message to, by the number of its elements;
      BadMessage is the type error the conversion throws. */
  datatype Request =
    | Call(id: Int32, name: Text, args: Obj)
    | Notification(name: Text, args: Obj)
    | BadMessage

  function ParseRequest(v: Obj): Request {
    if !v.Arr? then BadMessage
    else if |v.items| == 4 then
      var code, id, name, args := v.items[0], v.items[1], v.items[2], v.items[3];
      if FitsInt8(code) && FitsInt32(id) && name.Str? then Call(id.n, name.text, args) else BadMessage
    else if |v.items| == 3 then
      var code, name, args := v.items[0], v.items[1], v.items[2];
      if FitsInt8(code) && name.Str? then Notification(name.text, args) else BadMessage
    else BadMessage
  }

  /** What the client packs, the server unpacks and reads back as the same call
      or the same notification. */
  lemma RequestRoundTrip(id: Int32, name: Text, args: Args, x: Bytes)
    ensures Next(Encode(RequestFrame(id, name, args)) + x) == Got(RequestFrame(id, name, args), x)
    ensures ParseRequest(RequestFrame(id, name, args)) == Call(id, name, Array(args))
    ensures Next(Encode(NotificationFrame(name, args)) + x) == Got(NotificationFrame(name, args), x)
    ensures ParseRequest(NotificationFrame(name, args)) == Notification(name, Array(args))
  {
    RoundTrip(RequestFrame(id, name, args), x);
    RoundTrip(NotificationFrame(name, args), x);
  }

  /** A request on the wire: an array of four or three, the message type, 0 for a
      call and 2 for a notification, then id, name and arguments. */
  lemma RequestBytes(id: Int32, name: Text, args: Args)
    ensures Encode(RequestFrame(id, name, args))
      == [0x94, 0x00] + (Encode(Int(id)) + (Encode(Str(name)) + Encode(Array(args))))
    ensures Encode(NotificationFrame(name, args)) == [0x93, 0x02] + (Encode(Str(name)) + Encode(Array(args)))
  {
    SmallObjects();
    hide Encode;
    FourItems(Int(0), Int(id), Str(name), Array(args));
    ThreeItems(Int(2), Str(name), Array(args));
    Typed(0x94, 0x00, Encode(Int(id)) + (Encode(Str(name)) + Encode(Array(args))));
    Typed(0x93, 0x02, Encode(Str(name)) + Encode(Array(args)));
  }

  lemma SmallObjects()
    ensures Encode(Int(0)) == [0x00] && Encode(Int(1)) == [0x01] && Encode(Int(2)) == [0x02] && Encode(Nil) == [0xc0]
  {
  }

  lemma Items(items: Args)
    ensures Encode(Arr(items)) == EncodeHead(ArrHead(|items|)) + EncodeItems(items)
  {
  }

  lemma ItemsCons(a: Obj, rest: seq<Obj>, all: seq<Obj>)
    requires |all| == |rest| + 1 && all[0] == a && all[1..] == rest
    ensures EncodeItems(all) == Encode(a) + EncodeItems(rest)
  {
    hide Encode;
  }

  lemma TwoItems(a: Obj, b: Obj)
    ensures EncodeItems([a, b]) == Encode(a) + Encode(b)
  {
    hide Encode;
    ItemsCons(b, [], [b]);
    assert Encode(b) + EncodeItems([]) == Encode(b);
    ItemsCons(a, [b], [a, b]);
  }

  lemma ThreeItems(a: Obj, b: Obj, c: Obj)
    ensures EncodeItems([a, b, c]) == Encode(a) + (Encode(b) + Encode(c))
    ensures Encode(Array([a, b, c])) == [0x93] + (Encode(a) + (Encode(b) + Encode(c)))
  {
    assert EncodeHead(ArrHead(3)) == [0x93];
    Items([a, b, c]);
    hide Encode, EncodeItems, EncodeHead;
    TwoItems(b, c);
    ItemsCons(a, [b, c], [a, b, c]);
  }

  lemma FourItems(a: Obj, b: Obj, c: Obj, d: Obj)
    ensures Encode(Array([a, b, c, d])) == [0x94] + (Encode(a) + (Encode(b) + (Encode(c) + Encode(d))))
  {
    assert EncodeHead(ArrHead(4)) == [0x94];
    Items([a, b, c, d]);
    hide Encode, EncodeItems, EncodeHead;
    ThreeItems(b, c, d);
    ItemsCons(a, [b, c, d], [a, b, c, d]);
  }

  lemma Typed(head: Byte, code: Byte, rest: Bytes)
    ensures [head] + ([code] + rest) == [head, code] + rest
  {
  }

  /** Which messages convert, and to what: exactly the arrays of a small integer, an
      id that fits 32 bits when there are four, a name, and any arguments. */
  lemma ConvertsExactly(v: Obj, id: Int32, name: Text, args: Obj)
    ensures ParseRequest(v) == Call(id, name, args) <==>
      exists code: Num :: -0x80 <= code < 0x80 && v == Arr([Int(code), Int(id), Str(name), args])
    ensures ParseRequest(v) == Notification(name, args) <==>
      exists code: Num :: -0x80 <= code < 0x80 && v == Arr([Int(code), Str(name), args])
  {
    if v.Arr? && |v.items| == 4 && v.items[0].Int? {
      assert v.items == [v.items[0], v.items[1], v.items[2], v.items[3]];
      if ParseRequest(v) == Call(id, name, args) {
        assert v == Arr([Int(v.items[0].n), Int(id), Str(name), args]);
      }
    }
    if v.Arr? && |v.items| == 3 && v.items[0].Int? {
      assert v.items == [v.items[0], v.items[1], v.items[2]];
      if ParseRequest(v) == Notification(name, args) {
        assert v == Arr([Int(v.items[0].n), Str(name), args]);
      }
    }
  }

  // -------------------------------------------------------------- responses

  /** A response's fields; empty means that nothing is to be sent. */
  datatype Answer = Answer(id: Uint32, error: Option<Obj>, result: Option<Obj>, empty: bool)

  const EMPTY_ANSWER: Answer := Answer(0, None, None, true)

  function OrNil(o: Option<Obj>): Obj {
    if o.Some? then o.value else Nil
  }

  function ResponseFrame(a: Answer): Obj {
    Array([Int(1), Int(a.id), OrNil(a.error), OrNil(a.result)])
  }

  /** None is the type error the conversion throws. */
  function ParseResponse(v: Obj): Option<Answer> {
    if v.Arr? && |v.items| == 4 && FitsUint32(v.items[0]) && FitsUint32(v.items[1]) then
      var error: Obj, result: Obj := v.items[2], v.items[3];
      Some(Answer(v.items[1].n, if error.Nil? then None else Some(error), Some(result), false))
    else None
  }

  /** The one change the wire makes: a nil error becomes absent and an absent
      result becomes nil. */
  function Normalised(a: Answer): Answer {
    a.(error := if OrNil(a.error).Nil? then None else a.error, result := Some(OrNil(a.result)))
  }

  lemma ResponseRoundTrip(a: Answer, x: Bytes)
    requires !a.empty
    ensures Next(Encode(ResponseFrame(a)) + x) == Got(ResponseFrame(a), x)
    ensures ParseResponse(ResponseFrame(a)) == Some(Normalised(a))
    ensures Encode(ResponseFrame(Normalised(a))) == Encode(ResponseFrame(a))
    ensures Normalised(Normalised(a)) == Normalised(a)
  {
    RoundTrip(ResponseFrame(a), x);
  }

  lemma EncodeInjective(v: Obj, w: Obj)
    ensures Encode(v) == Encode(w) ==> v == w
  {
    RoundTrip(v, []);
    RoundTrip(w, []);
  }

  /** Parsing a frame and packing it again gives the bytes it came from exactly if
      its first element is 1, which is what is always packed there. */
  lemma RepackingIsIdentity(v: Obj)
    requires ParseResponse(v).Some?
    ensures Encode(ResponseFrame(ParseResponse(v).value)) == Encode(v) <==> v.items[0] == Int(1)
    ensures ResponseFrame(ParseResponse(v).value).items[1..] == v.items[1..]
  {
    var frame := ResponseFrame(ParseResponse(v).value);
    EncodeInjective(frame, v);
    assert frame.items[0] == Int(1);
    if v.items[0] == Int(1) {
      assert frame == v;
    }
  }

  /** A response on the wire: the type 1, the id, the error or nil, the result or
      nil. */
  lemma ResponseBytes(a: Answer)
    ensures Encode(ResponseFrame(a))
      == [0x94, 0x01] + (Encode(Int(a.id))
         + ((if a.error.Some? then Encode(a.error.value) else [0xc0])
            + (if a.result.Some? then Encode(a.result.value) else [0xc0])))
  {
    SmallObjects();
    hide Encode;
    FourItems(Int(1), Int(a.id), OrNil(a.error), OrNil(a.result));
    Typed(0x94, 0x01, Encode(Int(a.id)) + (Encode(OrNil(a.error)) + Encode(OrNil(a.result))));
  }

  /** Which frames convert to a response, and to which: exactly the arrays of two
      32-bit numbers and any two objects. */
  lemma RespondsExactly(v: Obj, id: Uint32, error: Obj, result: Obj)
    ensures
      (ParseResponse(v) ==
         Some(Answer(id, if error.Nil? then None else Some(error), Some(result), false)))
      <==> exists version: Num :: 0 <= version < 0x1_0000_0000 && v == Arr([Int(version), Int(id), error, result])
  {
    if ParseResponse(v).Some? {
      assert v.items == [v.items[0], v.items[1], v.items[2], v.items[3]];
      assert v == Arr([Int(v.items[0].n), Int(v.items[1].n), v.items[2], v.items[3]]);
    }
  }

  /** An error does not discard the result: the packed bytes forget a result that
      stands beside an error exactly when that result is nil. */
  lemma ResultKeptBesideError(a: Answer)
    requires a.error.Some? && a.result.Some?
    ensures Encode(ResponseFrame(a)) == Encode(ResponseFrame(a.(result := None))) <==> a.result.value.Nil?
  {
    var b := a.(result := None);
    EncodeInjective(ResponseFrame(a), ResponseFrame(b));
    assert ResponseFrame(a).items[3] == a.result.value && ResponseFrame(b).items[3] == Nil;
    if a.result.value.Nil? {
      assert ResponseFrame(a) == ResponseFrame(b);
    }
  }

  lemma ResultKeptExample()
    ensures
      var a := Answer(7, Some(Str([1])), Some(Int(1)), false);
      Encode(ResponseFrame(a)) != Encode(ResponseFrame(a.(result := None)))
  {
    ResultKeptBesideError(Answer(7, Some(Str([1])), Some(Int(1)), false));
  }

  // ----------------------------------------------------------------- object

  class Response {
    var id: Uint32
    var error: Option<Obj>
    var result: Option<Obj>
    var isEmpty: bool

    function View(): Answer
      reads this
    {
      Answer(id, error, result, isEmpty)
    }

    /** The copy that returning a Response by value makes. */
    constructor Copy(a: Answer)
      ensures View() == a
    {
      id, error, result, isEmpty := a.id, a.error, a.result, a.empty;
    }

    constructor Empty()
      ensures View() == EMPTY_ANSWER
    {
      id, error, result, isEmpty := 0, None, None, true;
    }

    constructor MakeResult(id: Uint32, result: Obj)
      ensures View() == Answer(id, None, Some(result), false)
    {
      this.id, this.error, this.result, isEmpty := id, None, Some(result), false;
    }

    constructor MakeError(id: Uint32, error: Obj)
      ensures View() == Answer(id, Some(error), None, false)
    {
      this.id, this.error, this.result, isEmpty := id, Some(error), None, false;
    }

    /** The constructor from an unpacked object that the conversion accepts. */
    constructor FromObject(v: Obj)
      requires ParseResponse(v).Some?
      ensures Some(View()) == ParseResponse(v)
      ensures v.items[1..] == ResponseFrame(View()).items[1..]
    {
      id := v.items[1].n;
      var errObj: Obj := v.items[2];
      if errObj.Nil? {
        error := None;
      } else {
        error := Some(errObj);
      }
      result := Some(v.items[3]);
      isEmpty := false;
    }

    method CaptureResult(v: Obj)
      modifies this
      ensures View() == old(View()).(result := Some(v))
    {
      result := Some(v);
    }

    method CaptureError(v: Obj)
      modifies this
      ensures View() == old(View()).(error := Some(v))
    {
      error := Some(v);
    }

    /** Both the error and the result are packed when both are there. */
    method Data() returns (data: Bytes)
      ensures data == Encode(ResponseFrame(View()))
      ensures Next(data) == Got(ResponseFrame(View()), [])
    {
      RoundTrip(ResponseFrame(View()), []);
      data := Encode(Array([Int(1), Int(id), OrNil(error), OrNil(result)]));
      assert data + [] == data;
    }
  }
}
