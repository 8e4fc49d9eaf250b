/** From a byte stream cut into arbitrary reads to a sequence of objects:
    the unpacker and its chunk independence. */
module Framing {
  import opened MsgPack

  /** Every object a byte string yields, first to last. */
  function Frames(b: Bytes): seq<Obj>
    decreases |b|
  {
    match Next(b)
    case Got(v, rest) => [v] + Frames(rest)
    case _ => []
  }

  /** The bytes held back once every object has been taken out. */
  function Held(b: Bytes): (h: Bytes)
    ensures !Next(h).Got?
    decreases |b|
  {
    match Next(b)
    case Got(_, rest) => Held(rest)
    case _ => b
  }

  /** b is exactly a sequence of encoded objects. */
  predicate Framed(b: Bytes) {
    EncodeItems(Frames(b)) == b
  }

  /** Concatenation is associative, kept apart so that the solver need not try. */
  lemma Regroup<T>(xs: seq<T>, ys: seq<T>, zs: seq<T>)
    ensures (xs + ys) + zs == xs + (ys + zs)
  {
  }

  function Join(chunks: seq<Bytes>): Bytes {
    if chunks == [] then [] else chunks[0] + Join(chunks[1..])
  }

  lemma {:induction false} JoinAppend(xs: seq<Bytes>, ys: seq<Bytes>)
    ensures Join(xs + ys) == Join(xs) + Join(ys)
  {
    if xs == [] {
      assert xs + ys == ys;
    } else {
      var zs := xs + ys;
      assert zs[1..] == xs[1..] + ys;
      JoinAppend(xs[1..], ys);
    }
  }

  lemma JoinOne(x: Bytes)
    ensures Join([x]) == x
  {
    assert Join([x]) == x + Join([]);
  }

  /** Reading b and then x is reading b + x. */
  lemma {:induction false} SplitRead(b: Bytes, x: Bytes)
    ensures Frames(b + x) == Frames(b) + Frames(Held(b) + x)
    ensures Held(b + x) == Held(Held(b) + x)
    decreases |b|
  {
    Extends(b, x);
    match Next(b)
    case Got(v, rest) => SplitRead(rest, x);
    case _ =>
  }

  /** The objects yielded when the reads are chunks, with buf held from before. */
  function Yielded(buf: Bytes, chunks: seq<Bytes>): seq<Obj>
    decreases |chunks|
  {
    if chunks == [] then []
    else Frames(buf + chunks[0]) + Yielded(Held(buf + chunks[0]), chunks[1..])
  }

  function LeftAfter(buf: Bytes, chunks: seq<Bytes>): Bytes
    decreases |chunks|
  {
    if chunks == [] then buf else LeftAfter(Held(buf + chunks[0]), chunks[1..])
  }

  /** How the stream is cut into reads changes nothing: what is yielded and
      what is held back depend on the bytes alone. */
  lemma {:induction false} ChunkIndependence(buf: Bytes, chunks: seq<Bytes>)
    requires !Next(buf).Got?
    ensures Yielded(buf, chunks) == Frames(buf + Join(chunks))
    ensures LeftAfter(buf, chunks) == Held(buf + Join(chunks))
    decreases |chunks|
  {
    if chunks == [] {
      assert buf + Join(chunks) == buf;
    } else {
      var b, tail := buf + chunks[0], Join(chunks[1..]);
      assert buf + Join(chunks) == b + tail;
      SplitRead(b, tail);
      ChunkIndependence(Held(b), chunks[1..]);
    }
  }

  lemma {:induction false} StreamAppend(xs: seq<Obj>, ys: seq<Obj>)
    ensures EncodeItems(xs + ys) == EncodeItems(xs) + EncodeItems(ys)
  {
    if xs == [] {
      assert xs + ys == ys;
    } else {
      var zs := xs + ys;
      assert zs[1..] == xs[1..] + ys;
      StreamAppend(xs[1..], ys);
    }
  }

  lemma FramesCons(v: Obj, rest: Bytes)
    ensures Frames(Encode(v) + rest) == [v] + Frames(rest)
    ensures Held(Encode(v) + rest) == Held(rest)
  {
    RoundTrip(v, rest);
  }

  lemma {:induction false} FramesOfStream(vs: seq<Obj>, x: Bytes)
    ensures Frames(EncodeItems(vs) + x) == vs + Frames(x)
    ensures Held(EncodeItems(vs) + x) == Held(x)
  {
    if vs == [] {
      assert EncodeItems(vs) + x == x;
    } else {
      hide Next, Encode, Frames, Held;
      var v, rest := vs[0], EncodeItems(vs[1..]) + x;
      Regroup(Encode(v), EncodeItems(vs[1..]), x);
      FramesCons(v, rest);
      FramesOfStream(vs[1..], x);
      Regroup([v], vs[1..], Frames(x));
      assert [v] + vs[1..] == vs;
    }
  }

  /** Any split of an encoded stream that stops in the middle of an object
      yields the whole objects before it, in order, and holds back just the
      started one. */
  lemma EncodedStream(vs: seq<Obj>, v: Obj, p: Bytes, s: Bytes, chunks: seq<Bytes>)
    requires p + s == Encode(v) && s != []
    requires Join(chunks) == EncodeItems(vs) + p
    ensures Yielded([], chunks) == vs
    ensures LeftAfter([], chunks) == p
  {
    ChunkIndependence([], chunks);
    assert [] + Join(chunks) == Join(chunks);
    FramesOfStream(vs, p);
    ProperPrefixWaits(v, p, s);
    assert vs + [] == vs;
  }

  lemma FramedStream(vs: seq<Obj>)
    ensures Framed(EncodeItems(vs)) && Frames(EncodeItems(vs)) == vs
  {
    FramesOfStream(vs, []);
    assert EncodeItems(vs) + [] == EncodeItems(vs);
    assert vs + [] == vs;
  }

  /** A framed stream grows by whole frames. */
  lemma FramedAppend(b: Bytes, v: Obj)
    requires Framed(b)
    ensures Framed(b + Encode(v)) && Frames(b + Encode(v)) == Frames(b) + [v]
  {
    StreamAppend(Frames(b), [v]);
    assert EncodeItems([v]) == Encode(v) + EncodeItems([]);
    assert b + Encode(v) == EncodeItems(Frames(b) + [v]);
    FramedStream(Frames(b) + [v]);
  }

  /** What next() finds at the front of part of a framed stream is the stream's
      first frame, and the stream without it is still framed. */
  lemma FramedNext(b: Bytes, more: Bytes)
    requires Framed(b + more) && Next(b).Got?
    ensures Frames(b + more) == [Next(b).value] + Frames(Next(b).rest + more)
    ensures Framed(Next(b).rest + more)
  {
    Extends(b, more);
    var rest := Next(b).rest + more;
    var v: Obj := Next(b).value;
    var fs := Frames(b + more);
    assert fs == [v] + Frames(rest);
    assert fs[1..] == Frames(rest);
    RoundTrip(v, EncodeItems(Frames(rest)));
    assert b + more == Encode(v) + EncodeItems(Frames(rest));
  }

  /** A non-empty framed stream that has arrived whole has a frame to give. */
  lemma FramedHasNext(b: Bytes)
    requires Framed(b) && b != []
    ensures Next(b).Got?
  {
  }

  /** msgpack::unpacker: bytes appended by buffer_consumed, objects taken off
      the front by next. */
  class Unpacker {
    var buf: Bytes

    constructor ()
      ensures buf == []
    {
      buf := [];
    }

    method BufferConsumed(chunk: Bytes)
      modifies this
      ensures buf == old(buf) + chunk
    {
      buf := buf + chunk;
    }

    /** next(): Bad stands for the parse error msgpack throws. */
    method TakeNext() returns (p: Parse<Obj>)
      modifies this
      ensures p.Got? ==>
        && Frames(old(buf)) == [p.value] + Frames(buf)
        && Held(old(buf)) == Held(buf)
        && |buf| < |old(buf)|
      ensures !p.Got? ==>
        && buf == old(buf) && Frames(buf) == [] && Held(buf) == buf
        && (p.Bad? <==> Next(buf).Bad?)
    {
      match Next(buf) {
        case Got(v, rest) =>
          p := Got(v, rest);
          buf := rest;
        case More => p := More;
        case Bad => p := Bad;
      }
    }
  }
}
