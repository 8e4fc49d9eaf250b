/** One direction of the connection: a writer, the bytes on the network, and
    the bytes in the reader's unpacker; seen as a queue of objects. */
module Pipes {
  import opened MsgPack
  import opened Framing
  import opened AsyncWriting

  datatype Pipe = Pipe(w: Writer, net: Bytes, buf: Bytes)

  /** A queued buffer holds one object, or nothing once it has been moved from. */
  predicate ItemOk(item: Bytes) {
    Framed(item) && |Frames(item)| <= 1
  }

  function ItemFrames(items: seq<Bytes>): seq<Obj> {
    if items == [] then [] else Frames(items[0]) + ItemFrames(items[1..])
  }

  /** Whether the front buffer has begun to leave. */
  predicate Begun(w: Writer) {
    !w.flight.Idle? && w.flight.sent > 0
  }

  /** The rest of the front buffer, when its beginning has left. */
  function Tail(w: Writer): Bytes
    requires Sound(w)
  {
    if Begun(w) then w.queue[0][w.flight.sent..] else []
  }

  /** The buffers of which nothing has left. */
  function Waiting(w: Writer): seq<Bytes>
    requires Sound(w)
  {
    if Begun(w) then w.queue[1..] else w.queue
  }

  function Wire(p: Pipe): Bytes
    requires Sound(p.w)
  {
    p.buf + (p.net + Tail(p.w))
  }

  predicate PipeOk(p: Pipe) {
    && Sound(p.w)
    && Framed(Wire(p))
    && forall i :: 0 <= i < |p.w.queue| ==> ItemOk(p.w.queue[i])
  }

  /** The objects accepted and not yet unpacked, oldest first. */
  function InTransit(p: Pipe): seq<Obj>
    requires PipeOk(p)
  {
    Frames(Wire(p)) + ItemFrames(Waiting(p.w))
  }

  lemma NoFrames()
    ensures Frames([]) == [] && Framed([]) && ItemOk([])
  {
    FramedStream([]);
  }

  lemma OneFrame(v: Obj)
    ensures ItemOk(Encode(v)) && Frames(Encode(v)) == [v]
  {
    NoFrames();
    FramedAppend([], v);
    assert [] + Encode(v) == Encode(v);
  }

  lemma {:induction false} ItemFramesAppend(xs: seq<Bytes>, ys: seq<Bytes>)
    ensures ItemFrames(xs + ys) == ItemFrames(xs) + ItemFrames(ys)
  {
    hide Frames;
    if xs == [] {
      assert xs + ys == ys;
    } else {
      var zs := xs + ys;
      assert zs[1..] == xs[1..] + ys;
      ItemFramesAppend(xs[1..], ys);
    }
  }

  lemma ItemFramesOne(item: Bytes)
    ensures ItemFrames([item]) == Frames(item)
  {
    assert ItemFrames([item]) == Frames(item) + ItemFrames([]);
  }

  lemma FramedConcat(b: Bytes, item: Bytes)
    requires Framed(b) && ItemOk(item)
    ensures Framed(b + item) && Frames(b + item) == Frames(b) + Frames(item)
  {
    var fs := Frames(item);
    if fs == [] {
      assert EncodeItems(fs) == [] == item;
      assert b + item == b;
    } else {
      assert fs[1..] == [];
      assert item == EncodeItems(fs) == Encode(fs[0]) + EncodeItems(fs[1..]);
      assert item == Encode(fs[0]);
      FramedAppend(b, fs[0]);
      assert fs == [fs[0]];
    }
  }

  /** An open writer takes a buffer in at the end; a closed one changes nothing. */
  lemma PushItem(p: Pipe, item: Bytes, raced: bool)
    requires PipeOk(p) && ItemOk(item)
    ensures
      var q := p.(w := Accept(p.w, item, raced));
      PipeOk(q) && InTransit(q) == InTransit(p) + if p.w.exit then [] else Frames(item)
  {
    hide Frames, Framed;
    var q := p.(w := Accept(p.w, item, raced));
    if !p.w.exit {
      SoundForever(p.w, Event.Write(item, raced));
      assert q.w.queue == p.w.queue + [item];
      assert p.w.queue != [] ==> q.w.queue[0] == p.w.queue[0];
      assert Tail(q.w) == Tail(p.w);
      assert Waiting(q.w) == Waiting(p.w) + [item];
      ItemFramesAppend(Waiting(p.w), [item]);
      ItemFramesOne(item);
      Regroup(Frames(Wire(p)), ItemFrames(Waiting(p.w)), Frames(item));
    }
  }

  /** Bytes leaving, from the first of a buffer to its last, reorder nothing. */
  lemma Send(p: Pipe, k: nat)
    requires PipeOk(p) && Possible(p.w, Transmit(k))
    ensures
      var q := Pipe(Apply(p.w, Transmit(k)), p.net + p.w.queue[0][p.w.flight.sent..p.w.flight.sent + k], p.buf);
      PipeOk(q) && InTransit(q) == InTransit(p)
  {
    hide Frames, Framed;
    var item, from := p.w.queue[0], p.w.flight.sent;
    var q := Pipe(Apply(p.w, Transmit(k)), p.net + item[from..from + k], p.buf);
    if from == 0 {
      assert item[..k] + item[k..] == item;
      assert Wire(q) == Wire(p) + item;
      FramedConcat(Wire(p), item);
      Regroup(Frames(Wire(p)), Frames(item), ItemFrames(p.w.queue[1..]));
    } else {
      assert item[from..from + k] + item[from + k..] == item[from..];
      assert Wire(q) == Wire(p);
    }
  }

  /** The completion of a write that sent everything. */
  lemma Complete(p: Pipe, raced: bool)
    requires PipeOk(p) && Possible(p.w, Done(raced))
    ensures
      var q := p.(w := Apply(p.w, Done(raced)));
      PipeOk(q) && InTransit(q) == InTransit(p)
  {
    hide Frames, Framed;
    var q := p.(w := Apply(p.w, Done(raced)));
    SoundForever(p.w, Done(raced));
    assert Tail(p.w) == [];
    assert Wire(q) == Wire(p);
    if p.w.queue[0] == [] {
      NoFrames();
      assert Waiting(p.w) == p.w.queue && Waiting(q.w) == p.w.queue[1..];
      assert [] + ItemFrames(p.w.queue[1..]) == ItemFrames(p.w.queue[1..]);
    }
  }

  /** A failed write keeps everything, except that a forgiven one drops its own
      notification from the middle of the queue. */
  lemma Failing(p: Pipe, broken: bool, raced: bool)
    requires PipeOk(p) && Possible(p.w, Fail(broken, raced))
    ensures
      var q := p.(w := Apply(p.w, Fail(broken, raced)));
      && PipeOk(q)
      && (!Forgiven(p.w.queue[0], broken) ==> InTransit(q) == InTransit(p))
      && (Forgiven(p.w.queue[0], broken) ==>
            && InTransit(p) == Frames(Wire(p)) + (Frames(p.w.queue[0]) + ItemFrames(p.w.queue[1..]))
            && InTransit(q) == Frames(Wire(p)) + ItemFrames(p.w.queue[1..]))
  {
    hide Frames, Framed;
    var q := p.(w := Apply(p.w, Fail(broken, raced)));
    SoundForever(p.w, Fail(broken, raced));
    assert Wire(q) == Wire(p);
  }

  lemma Shutting(p: Pipe)
    requires PipeOk(p)
    ensures
      var q := p.(w := p.w.(exit := true));
      PipeOk(q) && InTransit(q) == InTransit(p)
  {
    hide Frames, Framed;
    assert Wire(p.(w := p.w.(exit := true))) == Wire(p);
  }

  lemma Receive(p: Pipe, k: nat)
    requires PipeOk(p) && k <= |p.net|
    ensures
      var q := Pipe(p.w, p.net[k..], p.buf + p.net[..k]);
      PipeOk(q) && InTransit(q) == InTransit(p)
  {
    hide Frames, Framed;
    assert p.net[..k] + p.net[k..] == p.net;
    assert Wire(Pipe(p.w, p.net[k..], p.buf + p.net[..k])) == Wire(p);
  }

  /** What the reader unpacks is the oldest object in transit. */
  lemma Take(p: Pipe)
    requires PipeOk(p) && Next(p.buf).Got?
    ensures
      var q := p.(buf := Next(p.buf).rest);
      PipeOk(q) && InTransit(p) == [Next(p.buf).value] + InTransit(q)
  {
    hide Frames, Framed, Next;
    var q := p.(buf := Next(p.buf).rest);
    FramedNext(p.buf, p.net + Tail(p.w));
    Regroup([Next(p.buf).value], Frames(Wire(q)), ItemFrames(Waiting(p.w)));
  }

  /** When the network is empty and no buffer is half sent, whatever the reader
      still holds includes a whole object. */
  lemma NothingStuck(p: Pipe)
    requires PipeOk(p) && p.net == [] && !Begun(p.w) && !Next(p.buf).Got?
    ensures p.buf == [] && InTransit(p) == ItemFrames(p.w.queue)
  {
    assert Wire(p) == p.buf;
    if p.buf != [] {
      FramedHasNext(p.buf);
    }
    NoFrames();
    assert [] + ItemFrames(p.w.queue) == ItemFrames(p.w.queue);
  }
}
