/** AsyncWriter's handlers cut at every read and write of shared state, with
    close() from another thread allowed between any two cuts. */
module WriterRace {
  import opened MsgPack
  import opened AsyncWriting
  import opened Framing

  /** Where the strand's current handler stands; Rest is between handlers. */
  datatype Pc =
    | Rest
    | Entered(item: Bytes)   // write: before its exit check
    | Checked(item: Bytes)   // write: check passed, before push_back
    | Pushed                 // write: before the size test
    | Landed                 // completion: before pop_front
    | Popped                 // completion: before the size and exit test
    | Starting               // do_write: before its exit check
    | Cleared                // do_write: check passed, before front() and async_write

  /** cur is the writer now; from is the writer as the current handler found it,
      with op the event that handler carries out. starts counts async_writes;
      accepted, settled and sent log the buffers pushed, the buffers popped, each
      sent or dropped, and the bytes gone. */
  datatype Micro = Micro(
    cur: Writer, pc: Pc, from: Writer, op: Event, starts: nat,
    accepted: seq<Bytes>, settled: seq<Settled>, sent: Bytes)

  datatype Move =
    | Begin(item: Bytes)
    | Complete
    | Drop
    | Break(broken: bool)
    | Strand
    | SetExit
    | Progress(count: nat)

  predicate Possible(m: Micro, move: Move) {
    match move
    case Begin(_) => m.pc.Rest?
    case Complete => m.pc.Rest? && AsyncWriting.Possible(m.cur, Done(false))
    case Drop => m.pc.Rest? && AsyncWriting.Possible(m.cur, Fail(true, false)) && Forgiven(m.cur.queue[0], true)
    case Break(broken) =>
      m.pc.Rest? && AsyncWriting.Possible(m.cur, Fail(broken, false)) && !Forgiven(m.cur.queue[0], broken)
    case Strand =>
      // front() and pop_front() are undefined on an empty deque
      !m.pc.Rest? && (m.pc.Landed? || m.pc.Cleared? ==> m.cur.queue != [])
    case SetExit => true
    case Progress(k) => AsyncWriting.Possible(m.cur, Transmit(k))
  }

  /** The completion has been delivered, so nothing is in flight any more. */
  function Enter(m: Micro, pc: Pc, op: Event, flight: Flight): Micro {
    m.(pc := pc, from := m.cur, op := op, cur := m.cur.(flight := flight))
  }

  function StrandMove(m: Micro): Micro
    requires Possible(m, Strand)
  {
    match m.pc
    case Entered(item) => m.(pc := if m.cur.exit then Rest else Checked(item))
    case Checked(item) =>
      m.(pc := Pushed, cur := m.cur.(queue := m.cur.queue + [item]), accepted := m.accepted + [item])
    case Pushed => m.(pc := if |m.cur.queue| > 1 then Rest else Starting)
    case Landed =>
      m.(pc := Popped, cur := m.cur.(queue := m.cur.queue[1..]),
         settled := m.settled + [Settled(m.cur.queue[0], m.op.Fail?)])
    case Popped => m.(pc := if |m.cur.queue| > 0 && !m.cur.exit then Starting else Rest)
    case Starting => m.(pc := if m.cur.exit then Rest else Cleared)
    case _ => m.(pc := Rest, cur := m.cur.(flight := Sending(0)), starts := m.starts + 1)
  }

  function Apply(m: Micro, move: Move): Micro
    requires Possible(m, move)
  {
    match move
    case Begin(item) => Enter(m, Entered(item), Event.Write(item, false), m.cur.flight)
    case Complete => Enter(m, Landed, Done(false), Idle)
    case Drop => Enter(m, Landed, Fail(true, false), Idle)
    case Break(broken) => m.(cur := AsyncWriting.Apply(m.cur, Fail(broken, false)))
    case Strand => StrandMove(m)
    case SetExit => m.(cur := m.cur.(exit := true))
    case Progress(k) =>
      var from := m.cur.flight.sent;
      m.(cur := AsyncWriting.Apply(m.cur, Transmit(k)), from := Underway(m, k),
         sent := m.sent + m.cur.queue[0][from..from + k])
  }

  /** Bytes leave whether or not a handler runs; one that runs sees them gone. */
  function Underway(m: Micro, k: nat): Writer {
    if !m.pc.Rest? && AsyncWriting.Possible(m.from, Transmit(k)) then AsyncWriting.Apply(m.from, Transmit(k))
    else m.from
  }

  const REST: Micro := Micro(FRESH, Rest, FRESH, Event.Close, 0, [], [], [])

  /** At most one write in flight, always of the front, and the queue is never
      empty where front() or pop_front() is about to run. */
  predicate Safe(m: Micro) {
    && (m.cur.flight.Idle? || (m.cur.queue != [] && m.cur.flight.sent <= |m.cur.queue[0]|))
    && (m.pc.Rest? ==> Sound(m.cur))
    && (m.pc.Cleared? || m.pc.Landed? || m.pc.Starting? ==> m.cur.flight.Idle? && m.cur.queue != [])
    && (m.pc.Popped? ==> m.cur.flight.Idle?)
  }

  /** How the writer now relates to the one the handler found. */
  predicate Tracks(m: Micro) {
    && (m.from.exit ==> m.cur.exit)
    && match m.pc
       case Rest => true
       case Entered(item) => m.op == Event.Write(item, false) && Same(m, m.from.queue)
       case Checked(item) => m.op == Event.Write(item, false) && !m.from.exit && Same(m, m.from.queue)
       case Pushed => m.op.Write? && !m.from.exit && Same(m, m.from.queue + [m.op.item])
       case Landed => Ending(m) && m.cur.queue == m.from.queue
       case Popped => Ending(m) && m.cur.queue == m.from.queue[1..]
       case _ =>
         if m.op.Write? then !m.from.exit && m.from.queue == [] && Same(m, [m.op.item])
         else !m.from.exit && Ending(m) && m.cur.queue == m.from.queue[1..]
  }

  predicate Same(m: Micro, queue: seq<Bytes>) {
    m.cur.queue == queue && m.cur.flight == m.from.flight && Sound(m.from)
  }

  /** The handler found its write over: done, or dropped on broken_pipe. */
  predicate Ending(m: Micro) {
    && m.cur.flight.Idle?
    && m.op in {Done(false), Fail(true, false)}
    && AsyncWriting.Possible(m.from, m.op)
    && (m.op.Fail? ==> Forgiven(m.from.queue[0], true))
  }

  function Raced(e: Event, raced: bool): Event {
    match e
    case Write(item, _) => Event.Write(item, raced)
    case Done(_) => Done(raced)
    case Fail(broken, _) => Fail(broken, raced)
    case _ => e
  }

  /** The handler took effect as one event: with the flag set before it, between
      its checks, or after it. */
  predicate Atomic(from: Writer, op: Event, now: Writer) {
    exists before: bool, raced: bool ::
      && AsyncWriting.Possible(Shut(from, before), Raced(op, raced))
      && now == Shut(AsyncWriting.Apply(Shut(from, before), Raced(op, raced)), now.exit)
  }

  lemma Witness(from: Writer, op: Event, now: Writer, before: bool, raced: bool)
    requires AsyncWriting.Possible(Shut(from, before), Raced(op, raced))
    requires now == Shut(AsyncWriting.Apply(Shut(from, before), Raced(op, raced)), now.exit)
    ensures Atomic(from, op, now)
  {
  }

  /** Every interleaving keeps the writer safe. */
  lemma SafeStep(m: Micro, move: Move)
    requires Safe(m) && Tracks(m) && Possible(m, move)
    ensures Safe(Apply(m, move)) && Tracks(Apply(m, move))
  {
    if move == Strand && m.pc.Checked? {
      assert m.cur.queue != [] ==> (m.cur.queue + [m.pc.item])[0] == m.cur.queue[0];
    }
  }

  /** No interleaving makes a handler do anything but its atomic event. */
  lemma HandlerIsAtomic(m: Micro, move: Move)
    requires Safe(m) && Tracks(m) && Possible(m, move)
    requires !m.pc.Rest? && Apply(m, move).pc.Rest?
    ensures Atomic(m.from, m.op, Apply(m, move).cur)
  {
    var now := Apply(m, move).cur;
    match m.pc
    case Entered(item) => Witness(m.from, m.op, now, true, false);
    case Pushed => Witness(m.from, m.op, now, false, false);
    case Popped =>
      if m.cur.queue == [] || m.from.exit { Witness(m.from, m.op, now, false, false); }
      else { Witness(m.from, m.op, now, false, true); }
    case Starting => Witness(m.from, m.op, now, false, true);
    case _ => Witness(m.from, m.op, now, false, false);
  }

  predicate PossibleRun(m: Micro, moves: seq<Move>)
    decreases |moves|
  {
    moves == [] || (Possible(m, moves[0]) && PossibleRun(Apply(m, moves[0]), moves[1..]))
  }

  function Run(m: Micro, moves: seq<Move>): Micro
    requires PossibleRun(m, moves)
    decreases |moves|
  {
    if moves == [] then m else Run(Apply(m, moves[0]), moves[1..])
  }

  lemma {:induction false} SafeAlways(m: Micro, moves: seq<Move>)
    requires Safe(m) && Tracks(m) && PossibleRun(m, moves)
    ensures Safe(Run(m, moves)) && Tracks(Run(m, moves))
    decreases |moves|
  {
    if moves != [] {
      SafeStep(m, moves[0]);
      SafeAlways(Apply(m, moves[0]), moves[1..]);
    }
  }

  /** From a new writer, in every reachable state: one write in flight at most
      and it is the front; front and pop_front meet a non-empty queue; between
      handlers a non-empty queue with nothing in flight and no failed front
      means exit. */
  lemma WriterIsSafe(moves: seq<Move>)
    requires PossibleRun(REST, moves)
    ensures
      var m := Run(REST, moves);
      && (!m.cur.flight.Idle? ==> m.cur.queue != [])
      && (m.pc.Cleared? || m.pc.Landed? ==> m.cur.queue != [] && m.cur.flight.Idle?)
      && (m.pc.Rest? && m.cur.queue != [] && m.cur.flight.Idle? ==> m.cur.exit)
      && (!m.pc.Rest? ==> Possible(m, Strand))
  {
    SafeAlways(REST, moves);
  }

  /** Once exit is set no write starts, except one whose check already passed. */
  lemma {:induction false} NoStartAfterExit(m: Micro, moves: seq<Move>)
    requires m.cur.exit && PossibleRun(m, moves)
    ensures Run(m, moves).starts <= m.starts + (if m.pc.Cleared? then 1 else 0)
    decreases |moves|
  {
    if moves != [] {
      NoStartAfterExit(Apply(m, moves[0]), moves[1..]);
    }
  }

  /** A lone buffer that was pushed, started and sent. */
  function Gone(a: Bytes): Micro {
    Micro(Writer([a], Sending(|a|), false), Rest, FRESH, Event.Write(a, false), 1, [a], [], a)
  }

  lemma LoneWriteLands(a: Bytes)
    ensures
      var end := Run(Gone(a), [Complete, Strand, Strand]);
      && PossibleRun(Gone(a), [Complete, Strand, Strand])
      && end.pc.Rest? && end.cur == FRESH && end.accepted == [a] && end.sent == a && end.starts == 1
      && end.settled == [Settled(a, false)]
  {
    var m := Gone(a);
    assert [a][1..] == [];
    RunTwo(Apply(m, Complete), Strand, Strand, []);
    assert [Strand, Strand] + [] == [Strand, Strand];
    RunOne(m, Complete, [Strand, Strand]);
    assert [Complete] + [Strand, Strand] == [Complete, Strand, Strand];
  }

  lemma LoneWriteStarts(a: Bytes, rest: seq<Move>)
    ensures
      var all := [Begin(a), Strand, Strand, Strand, Strand, Strand] + rest;
      var started := Gone(a).(cur := Writer([a], Sending(0), false), sent := []);
      && (PossibleRun(REST, all) <==> PossibleRun(started, rest))
      && (PossibleRun(REST, all) ==> Run(REST, all) == Run(started, rest))
  {
    assert [] + [a] == [a];
    var entered := Apply(REST, Begin(a));
    var pushed := Apply(Apply(entered, Strand), Strand);
    var cleared := Apply(Apply(pushed, Strand), Strand);
    RunOne(cleared, Strand, rest);
    RunTwo(pushed, Strand, Strand, [Strand] + rest);
    RunTwo(entered, Strand, Strand, [Strand, Strand] + ([Strand] + rest));
    RunOne(REST, Begin(a), [Strand, Strand] + ([Strand, Strand] + ([Strand] + rest)));
    assert [Begin(a), Strand, Strand, Strand, Strand, Strand] + rest
      == [Begin(a)] + ([Strand, Strand] + ([Strand, Strand] + ([Strand] + rest)));
  }

  /** A lone write, whatever it carries: pushed, started, sent, completed; then
      the writer rests with an empty queue, still open. */
  lemma LoneWriteCompletes(a: Bytes)
    ensures PossibleRun(REST, LoneWrite(a))
    ensures
      var m := Run(REST, LoneWrite(a));
      m.pc.Rest? && m.cur == FRESH && m.starts == 1
      && m.accepted == [a] && m.settled == [Settled(a, false)] && m.sent == a
  {
    var started := Gone(a).(cur := Writer([a], Sending(0), false), sent := []);
    LoneWriteStarts(a, Landing(a));
    LoneWriteLands(a);
    hide StrandMove, Run, PossibleRun;
    if a == [] {
      assert started == Gone(a);
      assert Landing(a) == [Complete, Strand, Strand];
    } else {
      assert a[0..|a|] == a && [] + a == a;
      assert Apply(started, Progress(|a|)) == Gone(a);
      RunOne(started, Progress(|a|), [Complete, Strand, Strand]);
    }
  }

  function Landing(a: Bytes): seq<Move> {
    (if a == [] then [] else [Progress(|a|)]) + [Complete, Strand, Strand]
  }

  function LoneWrite(a: Bytes): seq<Move> {
    [Begin(a), Strand, Strand, Strand, Strand, Strand] + Landing(a)
  }

  lemma RunOne(m: Micro, move: Move, rest: seq<Move>)
    requires Possible(m, move)
    ensures PossibleRun(m, [move] + rest) <==> PossibleRun(Apply(m, move), rest)
    ensures PossibleRun(m, [move] + rest) ==> Run(m, [move] + rest) == Run(Apply(m, move), rest)
  {
    assert ([move] + rest)[1..] == rest;
  }

  lemma RunTwo(m: Micro, first: Move, second: Move, rest: seq<Move>)
    requires Possible(m, first) && Possible(Apply(m, first), second)
    ensures
      var all, end := [first, second] + rest, Apply(Apply(m, first), second);
      && (PossibleRun(m, all) <==> PossibleRun(end, rest))
      && (PossibleRun(m, all) ==> Run(m, all) == Run(end, rest))
  {
    RunOne(Apply(m, first), second, rest);
    RunOne(m, first, [second] + rest);
    assert [first, second] + rest == [first] + ([second] + rest);
  }

  // ------------------------------------- every interleaving is a run of events

  /** What the handler in progress has pushed already. */
  function Ahead(m: Micro): seq<Bytes> {
    if m.op.Write? && (m.pc.Pushed? || m.pc.Starting? || m.pc.Cleared?) then [m.op.item] else []
  }

  /** And what it has popped already. */
  function AheadSettled(m: Micro): seq<Settled>
    requires Tracks(m)
  {
    if m.pc.Popped? || (!m.op.Write? && (m.pc.Starting? || m.pc.Cleared?))
    then [Settled(m.from.queue[0], m.op.Fail?)] else []
  }

  /** l logs the handlers that are over and the bytes gone; the one in progress
      has yet to take effect. */
  predicate Follows(m: Micro, l: Log)
    requires Tracks(m)
  {
    && l.w == (if m.pc.Rest? then m.cur else m.from) && l.sent == m.sent
    && l.accepted + Ahead(m) == m.accepted && l.settled + AheadSettled(m) == m.settled
  }

  lemma {:induction false} RunLogAppend(l: Log, xs: seq<Event>, ys: seq<Event>)
    requires AsyncWriting.PossibleRun(l, xs) && AsyncWriting.PossibleRun(RunLog(l, xs), ys)
    ensures AsyncWriting.PossibleRun(l, xs + ys) && RunLog(l, xs + ys) == RunLog(RunLog(l, xs), ys)
    decreases |xs|
  {
    if xs == [] {
      assert xs + ys == ys;
    } else {
      var all := xs + ys;
      assert all[1..] == xs[1..] + ys;
      RunLogAppend(Record(l, xs[0]), xs[1..], ys);
    }
  }

  lemma OneEvent(l: Log, e: Event)
    requires AsyncWriting.Possible(l.w, e)
    ensures AsyncWriting.PossibleRun(l, [e]) && RunLog(l, [e]) == Record(l, e)
  {
    assert [e][1..] == [];
  }

  lemma ClosedMaybe(l: Log, b: bool) returns (es: seq<Event>)
    ensures AsyncWriting.PossibleRun(l, es) && RunLog(l, es) == l.(w := Shut(l.w, b))
  {
    es := if b then [Event.Close] else [];
    if b {
      OneEvent(l, Event.Close);
    }
  }

  /** One handler's event, with the closes around it. */
  lemma HandlerEvents(l: Log, before: bool, op: Event, after: bool) returns (es: seq<Event>)
    requires AsyncWriting.Possible(Shut(l.w, before), op)
    ensures AsyncWriting.PossibleRun(l, es)
    ensures
      var done := Record(l.(w := Shut(l.w, before)), op);
      RunLog(l, es) == done.(w := Shut(done.w, after))
  {
    hide AsyncWriting.PossibleRun, RunLog, Record, AsyncWriting.Apply, AsyncWriting.Possible;
    var shut := l.(w := Shut(l.w, before));
    var first := ClosedMaybe(l, before);
    OneEvent(shut, op);
    var last := ClosedMaybe(Record(shut, op), after);
    RunLogAppend(shut, [op], last);
    RunLogAppend(l, first, [op] + last);
    es := first + ([op] + last);
  }

  /** The events of a handler that has just finished. */
  lemma FinishFollows(m: Micro, l: Log) returns (es: seq<Event>)
    requires Safe(m) && Tracks(m) && Possible(m, Strand) && Follows(m, l) && Apply(m, Strand).pc.Rest?
    requires Tracks(Apply(m, Strand))
    ensures AsyncWriting.PossibleRun(l, es) && Follows(Apply(m, Strand), RunLog(l, es))
  {
    hide AsyncWriting.PossibleRun, RunLog, Tracks, Safe;
    HandlerIsAtomic(m, Strand);
    var now := Apply(m, Strand).cur;
    var before: bool, raced: bool :|
      && AsyncWriting.Possible(Shut(m.from, before), Raced(m.op, raced))
      && now == Shut(AsyncWriting.Apply(Shut(m.from, before), Raced(m.op, raced)), now.exit);
    es := HandlerEvents(l, before, Raced(m.op, raced), now.exit);
    FinishedMatches(m, l, before, raced);
  }

  /** The finished handler had pushed its buffer exactly if its event does. */
  lemma PushedByEvent(m: Micro, before: bool, raced: bool)
    requires Safe(m) && Tracks(m) && Possible(m, Strand) && Apply(m, Strand).pc.Rest?
    requires AsyncWriting.Possible(Shut(m.from, before), Raced(m.op, raced))
    requires
      var now := Apply(m, Strand).cur;
      now == Shut(AsyncWriting.Apply(Shut(m.from, before), Raced(m.op, raced)), now.exit)
    ensures Ahead(m) == if m.op.Write? && !Shut(m.from, before).exit then [m.op.item] else []
  {
    hide ElementCount;
    if m.op.Write? {
      assert |Accept(Shut(m.from, before), m.op.item, raced).queue|
        == |m.from.queue| + if Shut(m.from, before).exit then 0 else 1;
    }
  }

  lemma LastStrandMove(m: Micro)
    requires Tracks(m) && Possible(m, Strand) && Apply(m, Strand).pc.Rest?
    ensures Apply(m, Strand).accepted == m.accepted && Apply(m, Strand).sent == m.sent
    ensures m.op.Write? || (m.op.Done? || (m.op.Fail? && m.from.queue != [] && Forgiven(m.from.queue[0], m.op.broken)))
  {
  }

  lemma FinishedMatches(m: Micro, l: Log, before: bool, raced: bool)
    requires Safe(m) && Tracks(m) && Possible(m, Strand) && Follows(m, l) && Apply(m, Strand).pc.Rest?
    requires Tracks(Apply(m, Strand))
    requires AsyncWriting.Possible(Shut(m.from, before), Raced(m.op, raced))
    requires
      var now := Apply(m, Strand).cur;
      now == Shut(AsyncWriting.Apply(Shut(m.from, before), Raced(m.op, raced)), now.exit)
    ensures
      var now := Apply(m, Strand).cur;
      var done := Record(l.(w := Shut(l.w, before)), Raced(m.op, raced));
      Follows(Apply(m, Strand), done.(w := Shut(done.w, now.exit)))
  {
    PushedByEvent(m, before, raced);
    LastStrandMove(m);
    hide ElementCount, Tracks, Safe, StrandMove, AsyncWriting.Apply, AsyncWriting.Possible, Apply;
    assert l.accepted + [] == l.accepted;
  }

  lemma StrandFollows(m: Micro, l: Log) returns (es: seq<Event>)
    requires Safe(m) && Tracks(m) && Possible(m, Strand) && Follows(m, l) && Tracks(Apply(m, Strand))
    ensures AsyncWriting.PossibleRun(l, es) && Follows(Apply(m, Strand), RunLog(l, es))
  {
    es := [];
    if Apply(m, Strand).pc.Rest? {
      es := FinishFollows(m, l);
    } else {
      assert l.accepted + [] == l.accepted && l.settled + [] == l.settled;
    }
  }

  lemma BytesFollow(m: Micro, k: nat, l: Log)
    requires Safe(m) && Tracks(m) && Possible(m, Progress(k)) && Follows(m, l) && Tracks(Apply(m, Progress(k)))
    ensures AsyncWriting.Possible(l.w, Transmit(k)) && Follows(Apply(m, Progress(k)), Record(l, Transmit(k)))
  {
  }

  lemma StepFollows(m: Micro, move: Move, l: Log) returns (es: seq<Event>)
    requires Safe(m) && Tracks(m) && Possible(m, move) && Follows(m, l)
    ensures Safe(Apply(m, move)) && Tracks(Apply(m, move))
    ensures AsyncWriting.PossibleRun(l, es) && Follows(Apply(m, move), RunLog(l, es))
  {
    SafeStep(m, move);
    es := [];
    match move
    case Break(broken) =>
      es := [Fail(broken, false)];
      OneEvent(l, es[0]);
    case Progress(k) =>
      es := [Transmit(k)];
      BytesFollow(m, k, l);
      OneEvent(l, es[0]);
    case SetExit => es := ClosedMaybe(l, m.pc.Rest?);
    case Strand => es := StrandFollows(m, l);
    case _ => assert l.accepted + [] == l.accepted && l.settled + [] == l.settled;
  }

  /** Every interleaving of micro-steps is a run of atomic events that accepts the
      same buffers and sends the same bytes. */
  lemma {:induction false} RefinesEvents(m: Micro, moves: seq<Move>, l: Log) returns (es: seq<Event>)
    requires Safe(m) && Tracks(m) && PossibleRun(m, moves) && Follows(m, l)
    ensures Tracks(Run(m, moves))
    ensures AsyncWriting.PossibleRun(l, es) && Follows(Run(m, moves), RunLog(l, es))
    decreases |moves|
  {
    es := [];
    if moves != [] {
      var first := StepFollows(m, moves[0], l);
      var rest := RefinesEvents(Apply(m, moves[0]), moves[1..], RunLog(l, first));
      RunLogAppend(l, first, rest);
      es := first + rest;
    }
  }

  lemma EveryInterleavingIsEvents(moves: seq<Move>)
    requires PossibleRun(REST, moves)
    ensures Tracks(Run(REST, moves))
    ensures exists es: seq<Event> ::
      AsyncWriting.PossibleRun(EMPTY_LOG, es) && Follows(Run(REST, moves), RunLog(EMPTY_LOG, es))
  {
    hide Run, PossibleRun, RunLog, AsyncWriting.PossibleRun, LogOk;
    var es := FromTheStart(moves);
  }

  /** The bytes of the current front that have left: so far, or all of them when
      their completion has not popped it yet. */
  function Begun(m: Micro): Bytes
    requires Safe(m)
  {
    if !m.cur.flight.Idle? then m.cur.queue[0][..m.cur.flight.sent]
    else if m.pc.Landed? && m.op.Done? then m.cur.queue[0]
    else []
  }

  /** Every buffer accepted is settled or queued, in order; the dropped ones are
      3-element frames; and what has left is the settled buffers that were not
      dropped and the begun part of the front. */
  predicate InOrder(m: Micro)
    requires Safe(m)
  {
    && m.accepted == Items(m.settled) + m.cur.queue
    && (forall s :: s in m.settled && s.dropped ==> ElementCount(s.item) == 3)
    && m.sent == Join(Kept(m.settled)) + Begun(m)
  }

  lemma SentInOrder(m: Micro, k: nat)
    requires Safe(m) && InOrder(m) && Possible(m, Progress(k)) && Safe(Apply(m, Progress(k)))
    ensures InOrder(Apply(m, Progress(k)))
  {
    hide Join, Kept, Items, ElementCount;
    TakeMore(Join(Kept(m.settled)), m.cur.queue[0], m.cur.flight.sent, k);
  }

  lemma PushedInOrder(m: Micro)
    requires Safe(m) && InOrder(m) && m.pc.Checked? && Safe(Apply(m, Strand))
    ensures InOrder(Apply(m, Strand))
  {
    hide Join, Kept, Items, ElementCount;
    Regroup(Items(m.settled), m.cur.queue, [m.pc.item]);
    assert m.cur.queue != [] ==> (m.cur.queue + [m.pc.item])[0] == m.cur.queue[0];
  }

  lemma PoppedInOrder(m: Micro)
    requires Safe(m) && Tracks(m) && InOrder(m) && m.pc.Landed? && Safe(Apply(m, Strand))
    ensures InOrder(Apply(m, Strand))
  {
    hide Join, Kept, Items, ElementCount;
    var front, kept := m.cur.queue[0], Kept(m.settled);
    ItemsSnoc(m.settled, Settled(front, m.op.Fail?));
    FrontMoves(Items(m.settled), m.cur.queue);
    if m.op.Fail? {
      assert kept + [] == kept;
    } else {
      JoinAppend(kept, [front]);
      JoinOne(front);
      assert Join(kept + [front]) + [] == Join(kept + [front]);
    }
  }

  lemma StepInOrder(m: Micro, move: Move)
    requires Safe(m) && Tracks(m) && InOrder(m) && Possible(m, move) && Safe(Apply(m, move))
    ensures InOrder(Apply(m, move))
  {
    hide Join, Kept, Items, ElementCount;
    match move
    case Progress(k) => SentInOrder(m, k);
    case Strand =>
      if m.pc.Checked? {
        PushedInOrder(m);
      } else if m.pc.Landed? {
        PoppedInOrder(m);
      }
    case Complete => assert m.cur.queue[0][..m.cur.flight.sent] == m.cur.queue[0];
    case _ =>
  }

  lemma {:induction false} InOrderAlways(m: Micro, moves: seq<Move>)
    requires Safe(m) && Tracks(m) && InOrder(m) && PossibleRun(m, moves)
    ensures Safe(Run(m, moves)) && InOrder(Run(m, moves))
    decreases |moves|
  {
    hide InOrder;
    if moves != [] {
      SafeStep(m, moves[0]);
      StepInOrder(m, moves[0]);
      InOrderAlways(Apply(m, moves[0]), moves[1..]);
    }
  }

  /** So under any interleaving, at every cut, what has left is the accepted
      buffers popped so far, in order, without the notifications dropped by a
      broken_pipe completion, and the begun part of the front. */
  lemma InterleavedSentBytes(moves: seq<Move>)
    requires PossibleRun(REST, moves)
    ensures Safe(Run(REST, moves)) && InOrder(Run(REST, moves))
  {
    InOrderAlways(REST, moves);
  }

  lemma FromTheStart(moves: seq<Move>) returns (es: seq<Event>)
    requires PossibleRun(REST, moves)
    ensures Safe(Run(REST, moves)) && Tracks(Run(REST, moves))
    ensures AsyncWriting.PossibleRun(EMPTY_LOG, es)
    ensures LogOk(RunLog(EMPTY_LOG, es)) && Follows(Run(REST, moves), RunLog(EMPTY_LOG, es))
  {
    hide Run, PossibleRun, RunLog, AsyncWriting.PossibleRun, LogOk;
    SafeAlways(REST, moves);
    es := RefinesEvents(REST, moves, EMPTY_LOG);
    SentBytes(es);
  }

  /** A failed write, at whatever cut, and one move. */
  lemma FailedStep(m: Micro, move: Move)
    requires Safe(m) && Tracks(m) && Possible(m, move) && m.cur.flight.Failed?
    ensures
      var n := Apply(m, move);
      && n.sent == m.sent && n.settled == m.settled && n.cur.flight == m.cur.flight
      && n.cur.queue != [] && n.cur.queue[0] == m.cur.queue[0]
  {
    if move == Strand && m.pc.Checked? {
      assert (m.cur.queue + [m.pc.item])[0] == m.cur.queue[0];
    }
  }

  lemma {:induction false} FailedStays(m: Micro, moves: seq<Move>)
    requires Safe(m) && Tracks(m) && PossibleRun(m, moves) && m.cur.flight.Failed?
    ensures
      var n := Run(m, moves);
      && n.sent == m.sent && n.settled == m.settled && n.cur.flight == m.cur.flight
      && m.cur.queue != [] && n.cur.queue != [] && n.cur.queue[0] == m.cur.queue[0]
    decreases |moves|
  {
    if moves != [] {
      hide Apply, Possible, Tracks;
      SafeStep(m, moves[0]);
      FailedStep(m, moves[0]);
      FailedStays(Apply(m, moves[0]), moves[1..]);
    }
  }

  /** After a write that failed for another reason nothing settles and no byte
      leaves any more, whatever interleaves and wherever a handler stands. */
  lemma InterleavedFailedForever(moves: seq<Move>, more: seq<Move>)
    requires PossibleRun(REST, moves) && Run(REST, moves).cur.flight.Failed?
    requires PossibleRun(Run(REST, moves), more)
    ensures
      var m, n := Run(REST, moves), Run(Run(REST, moves), more);
      && n.sent == m.sent && n.settled == m.settled && n.cur.flight == m.cur.flight
      && m.cur.queue != [] && n.cur.queue != [] && n.cur.queue[0] == m.cur.queue[0]
  {
    hide Run, PossibleRun;
    SafeAlways(REST, moves);
    FailedStays(Run(REST, moves), more);
  }

  /** The bytes that may still leave once exit is set: the rest of a write in
      flight, or the front whose start has passed its check. */
  function Last(m: Micro): Bytes
    requires Safe(m)
  {
    if m.cur.flight.Sending? then m.cur.queue[0][m.cur.flight.sent..]
    else if m.pc.Cleared? then m.cur.queue[0]
    else []
  }

  /** The buffer that may still be accepted: one whose exit check has passed. */
  function LastPush(m: Micro): seq<Bytes> {
    if m.pc.Checked? then [m.pc.item] else []
  }

  lemma ExitBytes(m: Micro, k: nat)
    requires Safe(m) && Possible(m, Progress(k)) && Safe(Apply(m, Progress(k)))
    ensures
      var n := Apply(m, Progress(k));
      && m.sent <= n.sent && n.sent + Last(n) == m.sent + Last(m)
      && n.accepted == m.accepted && LastPush(n) == LastPush(m) && n.cur.exit == m.cur.exit
  {
    var item, from := m.cur.queue[0], m.cur.flight.sent;
    assert item[from..] == item[from..from + k] + item[from + k..];
    Regroup(m.sent, item[from..from + k], item[from + k..]);
  }

  /** The strand's moves send nothing and start only what was cleared to start. */
  lemma ExitStrand(m: Micro)
    requires Safe(m) && Tracks(m) && Possible(m, Strand) && m.cur.exit && Safe(Apply(m, Strand))
    ensures
      var n := Apply(m, Strand);
      && n.sent == m.sent && n.cur.exit && (Last(n) == Last(m) || Last(n) == [])
      && m.accepted <= n.accepted && n.accepted + LastPush(n) == m.accepted + LastPush(m)
  {
    hide ElementCount;
    if m.pc.Checked? {
      assert m.cur.queue != [] ==> (m.cur.queue + [m.pc.item])[0] == m.cur.queue[0];
      assert Apply(m, Strand).accepted + [] == Apply(m, Strand).accepted;
    } else if m.pc.Cleared? {
      assert m.cur.queue[0][0..] == m.cur.queue[0];
    }
  }

  /** The other moves change neither log. */
  lemma ExitOther(m: Micro, move: Move)
    requires Safe(m) && Possible(m, move) && !move.Strand? && !move.Progress? && Safe(Apply(m, move)) && m.cur.exit
    ensures
      var n := Apply(m, move);
      && n.sent == m.sent && n.accepted == m.accepted && n.cur.exit
      && (Last(n) == Last(m) || Last(n) == []) && LastPush(n) == LastPush(m)
  {
    hide ElementCount, Tracks;
  }

  lemma ExitStep(m: Micro, move: Move)
    requires Safe(m) && Tracks(m) && Possible(m, move) && m.cur.exit && Safe(Apply(m, move))
    ensures
      var n := Apply(m, move);
      && n.cur.exit
      && m.sent <= n.sent && n.sent + Last(n) <= m.sent + Last(m)
      && m.accepted <= n.accepted && n.accepted + LastPush(n) == m.accepted + LastPush(m)
  {
    hide Safe, Tracks, Last, LastPush, StrandMove;
    match move
    case Progress(k) =>
      ExitBytes(m, k);
      hide Apply;
    case Strand =>
      ExitStrand(m);
      hide Apply;
    case _ =>
      ExitOther(m, move);
      hide Apply;
  }

  lemma {:induction false} ExitStays(m: Micro, moves: seq<Move>)
    requires Safe(m) && Tracks(m) && PossibleRun(m, moves) && m.cur.exit
    ensures
      var n := Run(m, moves);
      && m.sent <= n.sent <= m.sent + Last(m)
      && m.accepted <= n.accepted <= m.accepted + LastPush(m)
    decreases |moves|
  {
    if moves != [] {
      hide Apply, Possible, Tracks, Last, LastPush;
      SafeStep(m, moves[0]);
      ExitStep(m, moves[0]);
      ExitStays(Apply(m, moves[0]), moves[1..]);
    }
  }

  /** Once exit is set, by whichever thread and wherever the handler stands: at
      most one buffer is still accepted, the one whose check had passed; and no
      byte leaves but the rest of the write in flight, or of the one buffer whose
      start had passed its check. */
  lemma InterleavedAfterExit(moves: seq<Move>, more: seq<Move>)
    requires PossibleRun(REST, moves) && Run(REST, moves).cur.exit
    requires PossibleRun(Run(REST, moves), more)
    ensures
      var m, n := Run(REST, moves), Run(Run(REST, moves), more);
      && Safe(m)
      && m.sent <= n.sent <= m.sent + Last(m)
      && m.accepted <= n.accepted <= m.accepted + LastPush(m)
  {
    hide Run, PossibleRun;
    SafeAlways(REST, moves);
    ExitStays(Run(REST, moves), more);
  }
}
