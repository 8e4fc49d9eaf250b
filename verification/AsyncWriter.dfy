/** The write queue with at most one write in flight, its three completion
    branches, and an exit flag that another thread may set at any moment. */
module AsyncWriting {
  import opened MsgPack
  import opened Framing

  /** What the socket is doing with the front of the queue, and how many of its
      bytes have left: nothing, writing, or stopped for good by an error. */
  datatype Flight = Idle | Sending(sent: nat) | Failed(sent: nat)

  datatype Writer = Writer(queue: seq<Bytes>, flight: Flight, exit: bool)

  const FRESH: Writer := Writer([], Idle, false)

  /** One write at most, always of the front; a non-empty queue that nobody is
      writing means exit. */
  predicate Sound(w: Writer) {
    if w.flight.Idle? then w.queue == [] || w.exit
    else w.queue != [] && w.flight.sent <= |w.queue[0]|
  }

  /** The object read as the union member via.array.size: an array or a str keep
      their length there, an int its low 32 bits; nil leaves it unset, taken as 0. */
  function ArraySize(v: Obj): nat {
    match v
    case Arr(items) => |items|
    case Str(t) => |t|
    case Int(n) => n % TWO_32
    case Nil => 0
  }

  /** The array size of a queued buffer, when it holds an object at all. */
  function ElementCount(item: Bytes): nat {
    match Next(item)
    case Got(v, _) => ArraySize(v)
    case _ => 0
  }

  function Shut(w: Writer, b: bool): Writer {
    w.(exit := w.exit || b)
  }

  /** do_write on an idle queue; raced says that its exit check, or the one made
      just before it, saw a flag set by another thread meanwhile. */
  function Start(queue: seq<Bytes>, exit: bool, raced: bool): Writer {
    var stop := exit || raced;
    Writer(queue, if queue != [] && !stop then Sending(0) else Idle, stop)
  }

  function Accept(w: Writer, item: Bytes, raced: bool): Writer {
    if w.exit then w
    else if w.queue == [] then Start([item], false, raced)
    else w.(queue := w.queue + [item])
  }

  function PopFront(w: Writer, raced: bool): Writer
    requires w.queue != []
  {
    Start(w.queue[1..], w.exit, raced && |w.queue| > 1)
  }

  /** The completion handler's broken_pipe branch lets a notification go. */
  predicate Forgiven(item: Bytes, broken: bool) {
    broken && ElementCount(item) == 3
  }

  datatype Event =
    | Write(item: Bytes, raced: bool)
    | Transmit(count: nat)
    | Done(raced: bool)
    | Fail(broken: bool, raced: bool)
    | Close

  /** What the environment can do: a write completes without error once all its
      bytes have left; a zero-length write does not fail; a notification that
      dies of broken_pipe has sent nothing. */
  predicate Possible(w: Writer, e: Event) {
    match e
    case Write(_, _) => true
    case Transmit(k) => w.flight.Sending? && w.queue != [] && 0 < k && w.flight.sent + k <= |w.queue[0]|
    case Done(_) => w.flight.Sending? && w.queue != [] && w.flight.sent == |w.queue[0]|
    case Fail(broken, _) =>
      && w.flight.Sending? && w.queue != [] && w.queue[0] != []
      && (Forgiven(w.queue[0], broken) ==> w.flight.sent == 0)
    case Close => true
  }

  function Apply(w: Writer, e: Event): Writer
    requires Possible(w, e)
  {
    match e
    case Write(item, raced) => Accept(w, item, raced)
    case Transmit(k) => w.(flight := Sending(w.flight.sent + k))
    case Done(raced) => PopFront(w, raced)
    case Fail(broken, raced) =>
      if Forgiven(w.queue[0], broken) then PopFront(w, raced)
      else w.(flight := Failed(w.flight.sent))
    case Close => w.(exit := true)
  }

  lemma SoundForever(w: Writer, e: Event)
    requires Sound(w) && Possible(w, e)
    ensures Sound(Apply(w, e))
  {
    if e.Write? && w.queue != [] {
      assert Accept(w, e.item, e.raced).queue[0] == w.queue[0];
    }
  }

  /** The front holds an object whose size field reads 3. */
  predicate SizeThree(item: Bytes) {
    match Next(item)
    case Got(Arr(items), _) => |items| == 3
    case Got(Str(t), _) => |t| == 3
    case Got(Int(n), _) => n % 0x1_0000_0000 == 3
    case _ => false
  }

  /** A failed write is forgiven exactly when it is broken_pipe on such an object:
      the front is gone and what follows starts, unless exit is seen. Any other
      failure leaves the queue and stops the writer. */
  lemma FailureDecision(w: Writer, broken: bool, raced: bool)
    requires Sound(w) && Possible(w, Fail(broken, raced))
    ensures
      var after := Apply(w, Fail(broken, raced));
      if broken && SizeThree(w.queue[0]) then
        && after.queue == w.queue[1..]
        && (after.flight == if after.queue != [] && !w.exit && !raced then Sending(0) else Idle)
        && after.exit == (w.exit || (raced && after.queue != []))
      else after == w.(flight := Failed(w.flight.sent))
  {
  }

  /** A completed write: the front is gone and what follows starts, unless exit is
      seen. */
  lemma CompletionDecision(w: Writer, raced: bool)
    requires Sound(w) && Possible(w, Done(raced))
    ensures
      var after := Apply(w, Done(raced));
      && after.queue == w.queue[1..]
      && (after.flight == if after.queue != [] && !w.exit && !raced then Sending(0) else Idle)
  {
  }

  // ------------------------------------------------------------------- logs

  /** A buffer that has left the queue, sent or dropped on broken_pipe. */
  datatype Settled = Settled(item: Bytes, dropped: bool)

  /** A writer with what it accepted, how that settled, and the bytes it sent. */
  datatype Log = Log(w: Writer, accepted: seq<Bytes>, settled: seq<Settled>, sent: Bytes)

  const EMPTY_LOG: Log := Log(FRESH, [], [], [])

  function Items(settled: seq<Settled>): (items: seq<Bytes>)
    ensures |items| == |settled|
  {
    seq(|settled|, i requires 0 <= i < |settled| => settled[i].item)
  }

  /** The buffers that were not dropped, in order. */
  function Kept(settled: seq<Settled>): seq<Bytes> {
    if settled == [] then []
    else
      var last := settled[|settled| - 1];
      Kept(settled[..|settled| - 1]) + (if last.dropped then [] else [last.item])
  }

  function Started(w: Writer): Bytes
    requires Sound(w)
  {
    if w.flight.Idle? then [] else w.queue[0][..w.flight.sent]
  }

  /** Sent bytes are the accepted buffers, in order, without the dropped
      notifications, up to the point the current write has reached. */
  predicate LogOk(l: Log) {
    && Sound(l.w)
    && l.accepted == Items(l.settled) + l.w.queue
    && l.sent == Join(Kept(l.settled)) + Started(l.w)
    && forall s :: s in l.settled && s.dropped ==> ElementCount(s.item) == 3
  }

  function Record(l: Log, e: Event): Log
    requires Possible(l.w, e)
  {
    var w := Apply(l.w, e);
    match e
    case Write(item, _) => l.(w := w, accepted := if l.w.exit then l.accepted else l.accepted + [item])
    case Transmit(k) =>
      var from := l.w.flight.sent;
      l.(w := w, sent := l.sent + l.w.queue[0][from..from + k])
    case Done(_) => l.(w := w, settled := l.settled + [Settled(l.w.queue[0], false)])
    case Fail(broken, _) =>
      if Forgiven(l.w.queue[0], broken) then l.(w := w, settled := l.settled + [Settled(l.w.queue[0], true)])
      else l.(w := w)
    case Close => l.(w := w)
  }

  lemma ItemsSnoc(settled: seq<Settled>, s: Settled)
    ensures Items(settled + [s]) == Items(settled) + [s.item]
    ensures Kept(settled + [s]) == Kept(settled) + (if s.dropped then [] else [s.item])
  {
    assert (settled + [s])[..|settled|] == settled;
  }

  lemma FrontMoves(xs: seq<Bytes>, queue: seq<Bytes>)
    requires queue != []
    ensures xs + queue == (xs + [queue[0]]) + queue[1..]
  {
  }

  lemma Settle(l: Log, dropped: bool)
    requires LogOk(l) && !l.w.flight.Idle?
    requires l.w.flight.sent == if dropped then 0 else |l.w.queue[0]|
    ensures
      var s := l.settled + [Settled(l.w.queue[0], dropped)];
      l.accepted == Items(s) + l.w.queue[1..] && l.sent == Join(Kept(s))
  {
    var front, kept := l.w.queue[0], Kept(l.settled);
    ItemsSnoc(l.settled, Settled(front, dropped));
    FrontMoves(Items(l.settled), l.w.queue);
    if dropped {
      assert kept + [] == kept && front[..0] == [];
      assert l.sent == Join(kept) + [];
    } else {
      JoinAppend(kept, [front]);
      JoinOne(front);
      assert front[..|front|] == front;
    }
  }

  lemma SentMore(l: Log, k: nat)
    requires LogOk(l) && Possible(l.w, Transmit(k))
    ensures LogOk(Record(l, Transmit(k)))
  {
    hide Join, Items, ElementCount;
    var item, from := l.w.queue[0], l.w.flight.sent;
    TakeMore(Join(Kept(l.settled)), item, from, k);
  }

  lemma TakeMore(before: Bytes, item: Bytes, from: nat, k: nat)
    requires from + k <= |item|
    ensures (before + item[..from]) + item[from..from + k] == before + item[..from + k]
  {
  }

  lemma WriteLogged(l: Log, item: Bytes, raced: bool)
    requires LogOk(l)
    ensures LogOk(Record(l, Event.Write(item, raced)))
  {
    hide Join, Kept, Items, ElementCount;
    SoundForever(l.w, Event.Write(item, raced));
    if !l.w.exit {
      Regroup(Items(l.settled), l.w.queue, [item]);
      assert l.w.queue == [] ==> l.w.queue + [item] == [item];
      assert l.w.queue != [] ==> (l.w.queue + [item])[0] == l.w.queue[0];
    }
  }

  /** The front leaves the queue, sent or dropped. */
  lemma FrontSettles(l: Log, e: Event)
    requires LogOk(l) && Possible(l.w, e)
    requires e.Done? || (e.Fail? && Forgiven(l.w.queue[0], e.broken))
    ensures LogOk(Record(l, e))
  {
    hide Join, Kept, Items, ElementCount;
    Settle(l, e.Fail?);
    var after := PopFront(l.w, e.raced);
    assert Started(after) == [];
    var sent := Join(Kept(Record(l, e).settled));
    assert sent + [] == sent;
  }

  lemma LogStep(l: Log, e: Event)
    requires LogOk(l) && Possible(l.w, e)
    ensures LogOk(Record(l, e))
  {
    hide Join, Kept, Items, ElementCount;
    match e
    case Write(item, raced) => WriteLogged(l, item, raced);
    case Transmit(k) => SentMore(l, k);
    case Done(_) => FrontSettles(l, e);
    case Fail(broken, _) =>
      if Forgiven(l.w.queue[0], broken) {
        FrontSettles(l, e);
      }
    case Close =>
  }

  predicate PossibleRun(l: Log, es: seq<Event>)
    decreases |es|
  {
    es == [] || (Possible(l.w, es[0]) && PossibleRun(Record(l, es[0]), es[1..]))
  }

  function RunLog(l: Log, es: seq<Event>): Log
    requires PossibleRun(l, es)
    decreases |es|
  {
    if es == [] then l else RunLog(Record(l, es[0]), es[1..])
  }

  /** The same at the end of a run from any log that has it. */
  lemma {:induction false} SentBytesFrom(l: Log, es: seq<Event>)
    requires LogOk(l) && PossibleRun(l, es)
    ensures LogOk(RunLog(l, es))
    ensures
      var end := RunLog(l, es);
      && Items(end.settled) <= end.accepted
      && end.sent == Join(Kept(end.settled)) + Started(end.w)
      && (Started(end.w) != [] ==>
            |end.settled| < |end.accepted| && Started(end.w) <= end.accepted[|end.settled|])
    decreases |es|
  {
    if es != [] {
      LogStep(l, es[0]);
      SentBytesFrom(Record(l, es[0]), es[1..]);
    }
  }

  /** Over any run of a new writer: the settled buffers are a prefix of the
      accepted ones, only 3-element frames were dropped, and the bytes sent are
      exactly the others followed by the started part of the next accepted one. */
  lemma SentBytes(es: seq<Event>)
    requires PossibleRun(EMPTY_LOG, es)
    ensures LogOk(RunLog(EMPTY_LOG, es))
    ensures
      var end := RunLog(EMPTY_LOG, es);
      && Items(end.settled) <= end.accepted
      && (forall s :: s in end.settled && s.dropped ==> ElementCount(s.item) == 3)
      && end.sent == Join(Kept(end.settled)) + Started(end.w)
      && (Started(end.w) != [] ==>
            |end.settled| < |end.accepted| && Started(end.w) <= end.accepted[|end.settled|])
  {
    assert LogOk(EMPTY_LOG);
    SentBytesFrom(EMPTY_LOG, es);
  }

  /** A write that failed for another reason is never restarted: the sent log
      and the front of the queue are frozen whatever happens next. */
  lemma {:induction false} FailedForever(l: Log, es: seq<Event>)
    requires LogOk(l) && l.w.flight.Failed? && PossibleRun(l, es)
    ensures
      var end := RunLog(l, es);
      && end.sent == l.sent && end.settled == l.settled
      && end.w.flight == l.w.flight && end.w.queue != [] && end.w.queue[0] == l.w.queue[0]
    decreases |es|
  {
    if es != [] {
      LogStep(l, es[0]);
      FailedForever(Record(l, es[0]), es[1..]);
    }
  }

  /** Once exit is set nothing more is accepted and at most the write already in
      flight still settles. */
  lemma {:induction false} AfterExit(l: Log, es: seq<Event>)
    requires LogOk(l) && l.w.exit && PossibleRun(l, es)
    ensures
      var end := RunLog(l, es);
      && end.w.exit && end.accepted == l.accepted
      && |end.settled| <= |l.settled| + (if l.w.flight.Sending? then 1 else 0)
      && (l.w.flight.Idle? ==> end.sent == l.sent)
    decreases |es|
  {
    if es != [] {
      LogStep(l, es[0]);
      AfterExit(Record(l, es[0]), es[1..]);
    }
  }

  /** Whether everything accepted can still leave the queue. */
  ghost predicate CanFinish(l: Log) {
    exists es :: PossibleRun(l, es) && RunLog(l, es).w.queue == []
  }

  /** close() finishes what was accepted before it exactly when that is at most
      the write in flight: whatever waits behind it stays for ever. */
  lemma CloseFinishesOnlyTheFlight(l: Log)
    requires LogOk(l) && !l.w.exit
    ensures CanFinish(Record(l, Event.Close)) <==>
      l.w.queue == [] || (|l.w.queue| == 1 && l.w.flight.Sending?)
  {
    var shut := Record(l, Event.Close);
    LogStep(l, Event.Close);
    forall es | PossibleRun(shut, es) && RunLog(shut, es).w.queue == []
      ensures l.w.queue == [] || (|l.w.queue| == 1 && l.w.flight.Sending?)
    {
      SentBytesFrom(shut, es);
      AfterExit(shut, es);
      if l.w.flight.Failed? {
        FailedForever(shut, es);
      }
    }
    if l.w.queue == [] {
      assert RunLog(shut, []).w.queue == [];
    } else if |l.w.queue| == 1 && l.w.flight.Sending? {
      FlightLands(shut);
    }
  }

  lemma FlightLands(l: Log)
    requires LogOk(l) && |l.w.queue| == 1 && l.w.flight.Sending?
    ensures CanFinish(l)
  {
    var left := |l.w.queue[0]| - l.w.flight.sent;
    if left == 0 {
      var es := [Done(false)];
      assert es[1..] == [];
      assert PossibleRun(l, es) && RunLog(l, es).w.queue == [];
    } else {
      var es := [Transmit(left), Done(false)];
      var next := Record(l, es[0]);
      assert es[1..] == [Done(false)] && es[1..][1..] == [];
      assert PossibleRun(next, es[1..]) && RunLog(next, es[1..]).w.queue == [];
      assert PossibleRun(l, es) && RunLog(l, es).w.queue == [];
    }
  }

  /** What is left of the front buffer once it has started. */
  function Unsent(w: Writer): Bytes
    requires Sound(w)
  {
    if w.flight.Idle? then [] else w.queue[0][w.flight.sent..]
  }

  /** After exit no byte leaves but those of the buffer in flight. */
  lemma {:induction false} NothingBehindLeaves(l: Log, es: seq<Event>)
    requires Sound(l.w) && l.w.exit && PossibleRun(l, es)
    ensures l.sent <= RunLog(l, es).sent <= l.sent + Unsent(l.w)
    decreases |es|
  {
    if es != [] {
      SoundForever(l.w, es[0]);
      NothingBehindLeaves(Record(l, es[0]), es[1..]);
      if es[0].Transmit? {
        var item, from, k := l.w.queue[0], l.w.flight.sent, es[0].count;
        assert item[from..] == item[from..from + k] + item[from + k..];
        Regroup(l.sent, item[from..from + k], item[from + k..]);
      }
    }
  }

  /** A new writer accepts two buffers and is closed: no byte of the second ever
      leaves. */
  lemma CloseLeavesTheSecond(a: Bytes, b: Bytes, es: seq<Event>)
    ensures PossibleRun(EMPTY_LOG, TwoThenClose(a, b))
    ensures
      var l := RunLog(EMPTY_LOG, TwoThenClose(a, b));
      l.accepted == [a, b] && l.w.queue == [a, b] && (PossibleRun(l, es) ==> RunLog(l, es).sent <= a)
  {
    var one := Record(EMPTY_LOG, Event.Write(a, false));
    var two := Record(one, Event.Write(b, false));
    var l := Record(two, Event.Close);
    var all := TwoThenClose(a, b);
    assert all[1..] == [Event.Write(b, false), Event.Close];
    assert all[1..][1..] == [Event.Close] && all[1..][1..][1..] == [];
    assert PossibleRun(two, [Event.Close]) && RunLog(two, [Event.Close]) == l;
    assert PossibleRun(one, all[1..]) && RunLog(one, all[1..]) == l;
    assert [a] + [b] == [a, b];
    if PossibleRun(l, es) {
      NothingBehindLeaves(l, es);
      assert a[0..] == a && [] + a == a;
    }
  }

  function TwoThenClose(a: Bytes, b: Bytes): seq<Event> {
    [Event.Write(a, false), Event.Write(b, false), Event.Close]
  }

  // ------------------------------------------------------------------ class

  /** std::atomic<bool>. When shared, any other thread may set it before a load. */
  class AtomicFlag {
    const shared: bool
    var value: bool

    constructor (shared: bool)
      ensures !value && this.shared == shared
    {
      this.shared, value := shared, false;
    }

    method Load() returns (v: bool)
      modifies this
      ensures v == value
      ensures old(value) ==> value
      ensures !shared ==> value == old(value)
    {
      if * {
        value := value || shared;
      }
      v := value;
    }

    method Store(v: bool)
      modifies this
      ensures value == v
    {
      value := v;
    }
  }

  datatype ErrorCode = Ok | BrokenPipe | OtherError

  class AsyncWriter {
    var queue: seq<Bytes>
    const exit: AtomicFlag
    ghost var flight: Flight

    ghost function View(): Writer
      reads this, exit
    {
      Writer(queue, flight, exit.value)
    }

    ghost predicate Valid()
      reads this, exit
    {
      Sound(View())
    }

    /** shared: whether a thread other than the strand's may close the writer. */
    constructor (shared: bool)
      ensures View() == FRESH && fresh(exit) && exit.shared == shared
    {
      queue, flight := [], Idle;
      exit := new AtomicFlag(shared);
    }

    /** Sets the flag only; the posted socket shutdown shows up as failed writes. */
    method Close()
      modifies exit
      ensures View() == Apply(old(View()), Event.Close)
    {
      exit.Store(true);
    }

    method IsClosed() returns (closed: bool)
      modifies exit
      ensures closed == exit.value
      ensures View() == Shut(old(View()), closed)
    {
      closed := exit.Load();
    }

    method DoWrite() returns (ghost raced: bool)
      requires queue != [] && flight.Idle?
      modifies this`flight, exit
      ensures View() == Start(queue, old(exit.value), raced)
      ensures !exit.shared ==> raced == old(exit.value)
    {
      var closed := exit.Load();
      raced := closed;
      if closed {
        return;
      }
      flight := Sending(0);
    }

    /** before: another thread closed the writer ahead of the first check;
        raced: it did so between the two checks. */
    method Write(data: Bytes) returns (ghost before: bool, ghost raced: bool)
      requires Valid()
      modifies this, exit
      ensures Valid()
      ensures View() == Apply(Shut(old(View()), before), Event.Write(data, raced))
      ensures !exit.shared && !old(exit.value) ==> !before && !raced
    {
      SoundForever(View(), Event.Write(data, false));
      raced := false;
      var closed := exit.Load();
      before := closed;
      if closed {
        return;
      }
      queue := queue + [data];
      if |queue| > 1 {
        return;
      }
      raced := DoWrite();
    }

    /** The completion handler of the write in flight. */
    method OnWritten(ec: ErrorCode) returns (ghost raced: bool)
      requires Valid()
      requires ec.Ok? ==> Possible(View(), Done(false))
      requires !ec.Ok? ==> Possible(View(), Fail(ec.BrokenPipe?, false))
      modifies this, exit
      ensures Valid()
      ensures ec.Ok? ==> View() == Apply(old(View()), Done(raced))
      ensures !ec.Ok? ==> View() == Apply(old(View()), Fail(ec.BrokenPipe?, raced))
    {
      raced := false;
      if ec.Ok? {
        raced := Advance();
      } else if ec.BrokenPipe? {
        var item := queue[0];
        if ElementCount(item) == 3 {
          raced := Advance();
        } else {
          flight := Failed(flight.sent);
        }
      } else {
        flight := Failed(flight.sent);
      }
    }

    /** pop_front, then the next write unless the writer is closed. */
    method Advance() returns (ghost raced: bool)
      requires Valid() && flight.Sending?
      modifies this, exit
      ensures Valid()
      ensures View() == PopFront(old(View()), raced)
    {
      raced := false;
      queue := queue[1..];
      flight := Idle;
      if |queue| > 0 {
        var closed := exit.Load();
        raced := closed;
        if !closed {
          raced := DoWrite();
        }
      }
    }
  }
}
