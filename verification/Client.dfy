/** The client's io thread: the call table, the buffers pending before the
    connection, and the answers read back. */
module Clients {
  import opened MsgPack
  import opened Framing
  import opened Messages
  import opened AsyncWriting
  import opened ServerSessions

  /** Whose promise a table entry holds: the n-th call's, or the one that
      ongoing_calls[id] makes up when the id is missing, set at once. */
  datatype Owner = Of(n: nat) | Orphan

  /** The handlers posted to the client's strand. */
  datatype Task =
    | DoCall(n: nat, id: Int32, buffer: Bytes)
    | DoNotify(buffer: Bytes)
    | Flush
    | Erase(id: Int32)

  datatype Client = Client(
    ongoing: map<Int32, Owner>,
    pending: seq<Bytes>,
    connected: bool,
    strand: seq<Task>,
    promises: map<nat, Reply>,
    writer: Writer)

  const NEW_CLIENT: Client := Client(map[], [], false, [], map[], FRESH)

  /** Buffers that have been moved from. */
  function Emptied(items: seq<Bytes>): (r: seq<Bytes>)
    ensures |r| == |items| && forall i :: 0 <= i < |r| ==> r[i] == []
  {
    seq(|items|, _ => [])
  }

  function WriteAll(w: Writer, items: seq<Bytes>): Writer {
    if items == [] then w
    else Accept(WriteAll(w, items[..|items| - 1]), items[|items| - 1], false)
  }

  /** pending_calls is written again by every flush, and never cleared. */
  function FlushPending(c: Client): Client {
    c.(writer := WriteAll(c.writer, c.pending), pending := Emptied(c.pending))
  }

  function RunTask(c: Client, t: Task): Client {
    match t
    case DoCall(n, id, buffer) =>
      var registered := c.(ongoing := c.ongoing[id := Of(n)]);
      if c.connected then
        var flushed := FlushPending(registered);
        flushed.(writer := Accept(flushed.writer, buffer, false))
      else registered.(pending := c.pending + [buffer])
    case DoNotify(buffer) => c.(writer := Accept(c.writer, buffer, false))
    case Flush => FlushPending(c)
    case Erase(id) => c.(ongoing := c.ongoing - {id})
  }

  function Connect(c: Client): Client {
    c.(connected := true, strand := c.strand + [Flush])
  }

  /** Whether a response can be delivered: it converts, and its promise, if it
      is not made up on the spot, has not been set before. */
  predicate Deliverable(c: Client, frame: Obj) {
    var a := ParseResponse(frame);
    a.Some? && var id := ToInt32(a.value.id);
    id in c.ongoing ==> c.ongoing[id].Of? && c.ongoing[id].n !in c.promises
  }

  function Deliver(c: Client, frame: Obj): Client
    requires Deliverable(c, frame)
  {
    var a := ParseResponse(frame).value;
    var id := ToInt32(a.id);
    var told := c.(strand := c.strand + [Erase(id)]);
    if id in c.ongoing then told.(promises := c.promises[c.ongoing[id].n := ReplyOf(a)])
    else told.(ongoing := c.ongoing[id := Orphan])
  }

  function DeliverAll(c: Client, frames: seq<Obj>): Option<Client>
    decreases |frames|
  {
    if frames == [] then Some(c)
    else if Deliverable(c, frames[0]) then DeliverAll(Deliver(c, frames[0]), frames[1..])
    else None
  }

  /** A broken_pipe gives up a notification none of which has left, and goes on;
      on a call it stops the writer. */
  lemma BrokenPipe(w: Writer, id: Int32, name: Text, args: Args)
    requires Sound(w) && w.flight == Sending(0) && w.queue != []
    ensures w.queue[0] == Encode(NotificationFrame(name, args)) ==>
      && Possible(w, Fail(true, false))
      && Apply(w, Fail(true, false)).queue == w.queue[1..]
      && (!w.exit && |w.queue| > 1 ==> Apply(w, Fail(true, false)).flight == Sending(0))
    ensures w.queue[0] == Encode(RequestFrame(id, name, args)) ==>
      Possible(w, Fail(true, false)) && Apply(w, Fail(true, false)) == w.(flight := Failed(0))
  {
    RequestRoundTrip(id, name, args, []);
    assert w.queue[0] + [] == w.queue[0];
    hide Encode;
  }

  /** A response under an id the table does not know sets no promise; the entry it
      makes is gone when the erasure it posts has run. */
  lemma UnknownResponse(c: Client, frame: Obj)
    requires ParseResponse(frame).Some? && ToInt32(ParseResponse(frame).value.id) !in c.ongoing
    ensures Deliverable(c, frame)
    ensures
      var id, d := ToInt32(ParseResponse(frame).value.id), Deliver(c, frame);
      && d == c.(strand := c.strand + [Erase(id)], ongoing := d.ongoing)
      && d.ongoing.Keys == c.ongoing.Keys + {id} && d.ongoing[id] == Orphan
      && RunTask(d.(strand := c.strand), Erase(id)) == c
  {
    var id := ToInt32(ParseResponse(frame).value.id);
    assert c.ongoing[id := Orphan] - {id} == c.ongoing;
  }

  /** Whatever frames a peer sends, a promise that is set is never set again, and
      the only ones set are those of calls in the table. */
  lemma {:induction false} PromisesSetOnce(c: Client, frames: seq<Obj>)
    requires DeliverAll(c, frames).Some?
    ensures
      var d := DeliverAll(c, frames).value;
      && (forall n :: n in c.promises ==> n in d.promises && d.promises[n] == c.promises[n])
      && (forall n :: n in d.promises ==> n in c.promises || exists id :: id in c.ongoing && c.ongoing[id] == Of(n))
    decreases |frames|
  {
    hide ParseResponse, ToInt32;
    if frames != [] {
      var d := Deliver(c, frames[0]);
      PromisesSetOnce(d, frames[1..]);
      assert forall id :: id in d.ongoing && d.ongoing[id].Of? ==> id in c.ongoing && c.ongoing[id] == d.ongoing[id];
    }
  }

  /** Which frames break the io thread: those that do not convert, and those for an
      entry whose promise is set or that was made up. */
  lemma DeliverableExactly(c: Client, frame: Obj)
    ensures !Deliverable(c, frame) <==>
      || ParseResponse(frame).None?
      || exists id :: id in c.ongoing && id == ToInt32(ParseResponse(frame).value.id)
           && (c.ongoing[id] == Orphan || exists n :: n in c.promises && c.ongoing[id] == Of(n))
  {
    if ParseResponse(frame).Some? && ToInt32(ParseResponse(frame).value.id) in c.ongoing {
      var id := ToInt32(ParseResponse(frame).value.id);
      if c.ongoing[id].Of? && c.ongoing[id].n in c.promises {
        assert c.ongoing[id] == Of(c.ongoing[id].n);
      }
    }
  }

  lemma WriteAllOpen(w: Writer, items: seq<Bytes>)
    requires Sound(w) && !w.exit
    ensures Sound(WriteAll(w, items)) && !WriteAll(w, items).exit
  {
    if items != [] {
      WriteAllOpen(w, items[..|items| - 1]);
      SoundForever(WriteAll(w, items[..|items| - 1]), Event.Write(items[|items| - 1], false));
    }
  }

  lemma WriteAllNext(w: Writer, items: seq<Bytes>, i: nat)
    requires i < |items|
    ensures WriteAll(w, items[..i + 1]) == Accept(WriteAll(w, items[..i]), items[i], false)
  {
    assert items[..i + 1] == items[..i] + [items[i]];
    assert (items[..i] + [items[i]])[..i] == items[..i];
  }

  /** The pending buffers when the first i have been moved from. */
  function HalfEmptied(items: seq<Bytes>, i: nat): seq<Bytes>
    requires i <= |items|
  {
    Emptied(items[..i]) + items[i..]
  }

  lemma EmptiedNext(items: seq<Bytes>, i: nat)
    requires i < |items|
    ensures |HalfEmptied(items, i)| == |items| && HalfEmptied(items, i)[i] == items[i]
    ensures HalfEmptied(items, i)[i := []] == HalfEmptied(items, i + 1)
  {
  }

  lemma EmptiedEnds(w: Writer, items: seq<Bytes>)
    ensures HalfEmptied(items, 0) == items && HalfEmptied(items, |items|) == Emptied(items)
    ensures WriteAll(w, items[..0]) == w && WriteAll(w, items[..|items|]) == WriteAll(w, items)
  {
    assert items[..|items|] == items;
  }

  class ClientImpl {
    var callIdx: Int32
    var issued: nat                      // promises made so far
    var ongoing: map<Int32, Owner>
    var pending: seq<Bytes>
    var isConnected: bool
    var strand: seq<Task>
    var promises: map<nat, Reply>        // promises set so far
    const writer: AsyncWriter
    const unpac: Unpacker

    ghost function View(): Client
      reads this, writer, writer.exit
    {
      Client(ongoing, pending, isConnected, strand, promises, writer.View())
    }

    /** Nobody closes a client's writer. */
    ghost predicate Valid()
      reads this, writer, writer.exit
    {
      writer.Valid() && !writer.exit.shared && !writer.exit.value
    }

    constructor ()
      ensures Valid() && View() == NEW_CLIENT && callIdx == 0 && unpac.buf == []
      ensures fresh(writer) && fresh(writer.exit) && fresh(unpac)
    {
      callIdx, issued := 0, 0;
      ongoing, pending, isConnected, strand, promises := map[], [], false, [], map[];
      writer := new AsyncWriter(false);
      unpac := new Unpacker();
    }

    /** next_call_idx and the packing: the first half of async_call. */
    method Allocate(name: Text, args: Args) returns (n: nat, id: Int32, buffer: Bytes)
      modifies this`callIdx, this`issued
      ensures id == callIdx == NextCallIdx(old(callIdx))
      ensures n == old(issued) && issued == n + 1
      ensures buffer == Encode(RequestFrame(id, name, args))
    {
      callIdx := NextCallIdx(callIdx);
      id, n := callIdx, issued;
      issued := issued + 1;
      buffer := Encode(RequestFrame(id, name, args));
    }

    method PostCall(n: nat, id: Int32, buffer: Bytes)
      modifies this`strand
      ensures strand == old(strand) + [DoCall(n, id, buffer)]
    {
      strand := strand + [DoCall(n, id, buffer)];
    }

    method Notify(name: Text, args: Args)
      modifies this`strand
      ensures strand == old(strand) + [DoNotify(Encode(NotificationFrame(name, args)))]
    {
      strand := strand + [DoNotify(Encode(NotificationFrame(name, args)))];
    }

    method WritePending()
      requires Valid()
      modifies this`pending, writer, writer.exit
      ensures Valid()
      ensures View() == FlushPending(old(View()))
    {
      ghost var items, w := pending, writer.View();
      EmptiedEnds(w, items);
      hide WriteAll, Emptied, HalfEmptied, Accept;
      var i := 0;
      while i < |pending|
        invariant 0 <= i <= |pending| == |items|
        invariant Valid()
        invariant pending == HalfEmptied(items, i)
        invariant writer.View() == WriteAll(w, items[..i])
      {
        EmptiedNext(items, i);
        WriteAllNext(w, items, i);
        var before, raced := writer.Write(pending[i]);
        pending := pending[i := []];
        i := i + 1;
      }
    }

    /** The handler at the front of the strand. */
    method RunStrand()
      requires Valid() && strand != []
      modifies this, writer, writer.exit
      ensures Valid()
      ensures View() == RunTask(old(View()).(strand := old(strand)[1..]), old(strand)[0])
      ensures callIdx == old(callIdx) && issued == old(issued)
    {
      var t := strand[0];
      strand := strand[1..];
      match t {
        case DoCall(n, id, buffer) =>
          ongoing := ongoing[id := Of(n)];
          if isConnected {
            WritePending();
            var before, raced := writer.Write(buffer);
          } else {
            pending := pending + [buffer];
          }
        case DoNotify(buffer) =>
          var before, raced := writer.Write(buffer);
        case Flush =>
          WritePending();
        case Erase(id) =>
          ongoing := ongoing - {id};
      }
    }

    method OnConnected()
      modifies this`isConnected, this`strand
      ensures View() == Connect(old(View()))
    {
      isConnected := true;
      strand := strand + [Flush];
    }

    /** One unpacked response: set the promise its id leads to, then post the
        erasure. ok is false when an exception leaves the handler. */
    method OnResponse(frame: Obj) returns (ok: bool)
      modifies this`ongoing, this`promises, this`strand
      ensures ok <==> Deliverable(old(View()), frame)
      ensures ok ==> View() == Deliver(old(View()), frame)
      ensures !ok ==> promises == old(promises) && strand == old(strand)
    {
      if ParseResponse(frame).None? {
        return false;
      }
      var response := new Response.FromObject(frame);
      var id := ToInt32(response.id);
      var owner := if id in ongoing then ongoing[id] else Orphan;
      if id !in ongoing {
        ongoing := ongoing[id := Orphan];
      } else if owner.Orphan? || owner.n in promises {
        return false;
      } else if response.error.Some? {
        promises := promises[owner.n := Fails(response.error.value)];
      } else {
        promises := promises[owner.n := Yields(OrNil(response.result))];
      }
      strand := strand + [Erase(id)];
      return true;
    }

    /** The read handler's loop over one chunk. again: the next read was issued. */
    method OnRead(chunk: Bytes) returns (again: bool)
      modifies this`ongoing, this`promises, this`strand, unpac
      ensures
        var frames := Frames(old(unpac.buf) + chunk);
        var end := DeliverAll(old(View()), frames);
        && (again <==> end.Some? && !Next(Held(old(unpac.buf) + chunk)).Bad?)
        && (again ==> View() == end.value && unpac.buf == Held(old(unpac.buf) + chunk))
    {
      hide Frames, Held, Next;
      unpac.BufferConsumed(chunk);
      ghost var whole := unpac.buf;
      var found := unpac.TakeNext();
      while found.Got?
        invariant found.Got? ==>
          DeliverAll(old(View()), Frames(whole)) == DeliverAll(View(), [found.value] + Frames(unpac.buf))
        invariant !found.Got? ==>
          && DeliverAll(old(View()), Frames(whole)) == Some(View())
          && unpac.buf == Held(whole) && (found.Bad? <==> Next(unpac.buf).Bad?)
        invariant Held(whole) == Held(unpac.buf)
        decreases |unpac.buf| + (if found.Got? then 1 else 0)
      {
        ghost var rest := Frames(unpac.buf);
        assert ([found.value] + rest)[1..] == rest;
        var ok := OnResponse(found.value);
        if !ok {
          return false;
        }
        found := unpac.TakeNext();
      }
      again := found.More?;
    }
  }
}
