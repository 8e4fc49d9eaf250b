/** The client's connection: the retry chain with its back-off closure, then the
    read chain, and the connection state they drive. */
module Connecting {

  datatype ConnectionState = Initial | Connected | Disconnected | Reset

  function Pow2(n: nat): (p: nat)
    ensures p > 0
  {
    if n == 0 then 1 else 2 * Pow2(n - 1)
  }

  datatype ReadResult = ReadOk | Eof | ConnectionReset | OtherReadError | Malformed

  /** connecting, reading: an asynchronous operation is outstanding. The rest
      counts what the closure and the chain have done. */
  datatype Link = Link(
    state: ConnectionState, isConnected: bool,
    connecting: bool, reading: bool,
    failures: nat, attempts: nat, slept: nat)

  const NEW_LINK: Link := Link(Initial, false, true, false, 0, 1, 0)

  /** A completion handler of either chain. */
  datatype Completion = ConnectDone(ok: bool) | ReadDone(result: ReadResult)

  predicate Possible(l: Link, c: Completion) {
    if c.ConnectDone? then l.connecting else l.reading
  }

  /** The default closure: whether to try again, and the seconds slept first. */
  function Retry(max: nat, failures: nat): (bool, nat) {
    if failures + 1 != max then (true, 2 * Pow2(failures)) else (false, 0)
  }

  /** Called on and on, the closure refuses once only: on the call that makes the
      count max. */
  lemma RefusesOnce(max: nat, failures: nat)
    ensures !Retry(max, failures).0 <==> failures + 1 == max
  {
  }

  function Apply(max: nat, l: Link, c: Completion): Link
    requires Possible(l, c)
  {
    match c
    case ConnectDone(ok) =>
      if ok then l.(isConnected := true, state := Connected, connecting := false, reading := true)
      else
        var (again, wait) := Retry(max, l.failures);
        var failed := l.(failures := l.failures + 1, slept := l.slept + wait);
        if again then failed.(attempts := l.attempts + 1)
        else failed.(state := Disconnected, connecting := false)
    case ReadDone(ReadOk) => l
    case ReadDone(Eof) => l.(state := Disconnected, reading := false)
    case ReadDone(ConnectionReset) => l.(state := Disconnected, reading := false)
    case ReadDone(_) => l.(reading := false)
  }

  predicate PossibleRun(max: nat, l: Link, cs: seq<Completion>)
    decreases |cs|
  {
    cs == [] || (Possible(l, cs[0]) && PossibleRun(max, Apply(max, l, cs[0]), cs[1..]))
  }

  function Run(max: nat, l: Link, cs: seq<Completion>): Link
    requires PossibleRun(max, l, cs)
    decreases |cs|
  {
    if cs == [] then l else Run(max, Apply(max, l, cs[0]), cs[1..])
  }

  /** The whole history is in the counters: the attempts are the failures and the
      one after them, unless the last one allowed has failed, and the sleeps add
      up to a power of two. */
  predicate LinkOk(max: nat, l: Link) {
    && (l.connecting <==> l.state.Initial?) && !l.state.Reset?
    && (l.reading ==> l.state.Connected? && l.isConnected)
    && (l.state.Connected? ==> l.isConnected) && (l.isConnected ==> !l.connecting)
    && (if l.connecting || l.isConnected
        then l.failures < max && l.attempts == l.failures + 1 && l.slept == 2 * Pow2(l.failures) - 2
        else l.failures == max == l.attempts && l.slept == Pow2(max) - 2)
  }

  lemma LinkStep(max: nat, l: Link, c: Completion)
    requires LinkOk(max, l) && Possible(l, c)
    ensures LinkOk(max, Apply(max, l, c))
  {
  }

  lemma {:induction false} LinkAlwaysOk(max: nat, l: Link, cs: seq<Completion>)
    requires LinkOk(max, l) && PossibleRun(max, l, cs)
    ensures LinkOk(max, Run(max, l, cs))
    decreases |cs|
  {
    if cs != [] {
      LinkStep(max, l, cs[0]);
      LinkAlwaysOk(max, Apply(max, l, cs[0]), cs[1..]);
    }
  }

  /** Along every run at most max attempts are made and the client never sleeps
      longer than 2^max - 2 seconds in all; it gives up exactly when max attempts
      have failed, and has then slept exactly that long. */
  lemma ReconnectBound(max: nat, cs: seq<Completion>)
    requires max > 0 && PossibleRun(max, NEW_LINK, cs)
    ensures
      var l := Run(max, NEW_LINK, cs);
      && l.attempts <= max && l.slept <= Pow2(max) - 2
      && (!l.connecting && !l.isConnected <==> l.failures == max)
      && (l.failures == max ==> l.attempts == max && l.slept == Pow2(max) - 2 && l.state.Disconnected?)
  {
    assert Pow2(0) == 1;
    LinkAlwaysOk(max, NEW_LINK, cs);
    hide Pow2, Run, PossibleRun;
    var l := Run(max, NEW_LINK, cs);
    if l.failures < max {
      SleepBound(l.failures, max);
    }
  }

  lemma SleepBound(n: nat, m: nat)
    requires n < m
    ensures 2 * Pow2(n) <= Pow2(m)
  {
    PowersGrow(n + 1, m);
  }

  lemma {:induction false} PowersGrow(n: nat, m: nat)
    requires n <= m
    ensures Pow2(n) <= Pow2(m)
  {
    if n < m {
      PowersGrow(n, m - 1);
    }
  }

  function Results(outcomes: seq<bool>): seq<Completion> {
    if outcomes == [] then [] else [ConnectDone(outcomes[0])] + Results(outcomes[1..])
  }

  /** Which patterns of connect results can occur: no more than the attempts left,
      and nothing after a success. */
  lemma {:induction false} PossibleOutcomes(max: nat, l: Link, outcomes: seq<bool>)
    requires LinkOk(max, l) && l.connecting
    ensures PossibleRun(max, l, Results(outcomes)) <==>
      |outcomes| <= max - l.failures && forall i :: 0 <= i < |outcomes| - 1 ==> !outcomes[i]
    decreases |outcomes|
  {
    if outcomes != [] {
      var c, rest := ConnectDone(outcomes[0]), outcomes[1..];
      var next := Apply(max, l, c);
      assert Results(outcomes)[1..] == Results(rest);
      LinkStep(max, l, c);
      if next.connecting {
        PossibleOutcomes(max, next, rest);
        assert forall i :: 0 <= i < |rest| ==> rest[i] == outcomes[i + 1];
      } else {
        assert PossibleRun(max, next, Results(rest)) <==> rest == [];
      }
    }
  }

  /** The default closure allows five attempts. */
  const MAX_ATTEMPTS: nat := 5

  /** If all five fail the back-off was 2 + 4 + 8 + 16 seconds. */
  lemma DefaultBackOff(cs: seq<Completion>)
    requires PossibleRun(MAX_ATTEMPTS, NEW_LINK, cs)
    ensures
      var l := Run(MAX_ATTEMPTS, NEW_LINK, cs);
      l.attempts <= 5 && l.slept <= 30 && (l.failures == 5 <==> !l.connecting && !l.isConnected)
      && (l.failures == 5 ==> l.slept == 30)
  {
    ReconnectBound(MAX_ATTEMPTS, cs);
    assert Pow2(2) == 4 && Pow2(4) == 16;
  }

  function Rank(s: ConnectionState): nat {
    match s
    case Initial => 0
    case Connected => 1
    case Disconnected => 2
    case Reset => 3
  }

  /** The state only moves from initial to connected to disconnected, or from
      initial to disconnected; the connected flag is never reset, so a client
      that lost its connection still takes itself for connected. */
  lemma {:induction false} StateOnlyAdvances(max: nat, l: Link, cs: seq<Completion>)
    requires LinkOk(max, l) && PossibleRun(max, l, cs)
    ensures
      var end := Run(max, l, cs);
      && Rank(l.state) <= Rank(end.state) <= 2
      && (l.isConnected ==> end.isConnected)
      && (end.isConnected && !l.isConnected ==> l.state.Initial?)
    decreases |cs|
  {
    if cs != [] {
      LinkStep(max, l, cs[0]);
      StateOnlyAdvances(max, Apply(max, l, cs[0]), cs[1..]);
    }
  }

  /** The read chain is over. */
  predicate Ends(c: Completion) {
    c.ReadDone? && !c.result.ReadOk?
  }

  /** The peer is known to be gone. */
  predicate Hangs(c: Completion) {
    c == ReadDone(Eof) || c == ReadDone(ConnectionReset)
  }

  predicate Any(cs: seq<Completion>, p: Completion -> bool) {
    exists i :: 0 <= i < |cs| && p(cs[i])
  }

  lemma AnyCons(cs: seq<Completion>, p: Completion -> bool)
    requires cs != []
    ensures Any(cs, p) <==> p(cs[0]) || Any(cs[1..], p)
  {
    if Any(cs[1..], p) {
      var i :| 0 <= i < |cs[1..]| && p(cs[1..][i]);
      assert p(cs[i + 1]);
    }
    if Any(cs, p) && !p(cs[0]) {
      var i :| 0 <= i < |cs| && p(cs[i]);
      assert p(cs[1..][i - 1]);
    }
  }

  /** The state at the end of every run: connected exactly after a successful
      connect with no eof and no reset since; reading exactly while no read has
      failed in any way; disconnected exactly after an eof or a reset, or when
      the attempts are used up. */
  lemma {:induction false} StateExactly(max: nat, l: Link, cs: seq<Completion>)
    requires max > 0 && LinkOk(max, l) && PossibleRun(max, l, cs)
    requires l.connecting || (l.isConnected && l.state.Connected? && l.reading)
    ensures
      var end, up := Run(max, l, cs), l.isConnected || ConnectDone(true) in cs;
      && (end.isConnected <==> up)
      && (end.state.Connected? <==> up && !Any(cs, Hangs))
      && (end.reading <==> up && !Any(cs, Ends))
      && (end.state.Disconnected? <==> Any(cs, Hangs) || end.failures == max)
    decreases |cs|
  {
    if cs != [] {
      var next, rest := Apply(max, l, cs[0]), cs[1..];
      LinkStep(max, l, cs[0]);
      AnyCons(cs, Hangs);
      AnyCons(cs, Ends);
      if next.connecting || next.reading {
        StateExactly(max, next, rest);
      } else {
        assert rest == [];
      }
    }
  }

  lemma StateOfRuns(max: nat, cs: seq<Completion>)
    requires max > 0 && PossibleRun(max, NEW_LINK, cs)
    ensures
      var end, up := Run(max, NEW_LINK, cs), ConnectDone(true) in cs;
      && (end.isConnected <==> up)
      && (end.state.Connected? <==> up && !Any(cs, Hangs))
      && (end.reading <==> up && !Any(cs, Ends))
      && (end.state.Disconnected? <==> Any(cs, Hangs) || end.failures == max)
  {
    assert Pow2(0) == 1;
    StateExactly(max, NEW_LINK, cs);
  }

  // ------------------------------------------------------------------ class

  /** The default reconnectable: a mutable closure. The chain moves it from one
      attempt to the next, so its count travels along. */
  class Reconnectable {
    const max: nat
    var failureCount: nat

    constructor (max: nat)
      ensures this.max == max && failureCount == 0
    {
      this.max, failureCount := max, 0;
    }

    method Call() returns (again: bool, wait: nat)
      modifies this
      ensures failureCount == old(failureCount) + 1
      ensures (again, wait) == Retry(max, old(failureCount))
    {
      failureCount := failureCount + 1;
      if failureCount != max {
        return true, 2 * Pow2(failureCount - 1);
      }
      return false, 0;
    }
  }

  class Connector {
    var state: ConnectionState
    var isConnected: bool
    var connecting: bool
    var reading: bool
    const reconnectable: Reconnectable
    ghost var attempts: nat
    ghost var slept: nat

    ghost function View(): Link
      reads this, reconnectable
    {
      Link(state, isConnected, connecting, reading, reconnectable.failureCount, attempts, slept)
    }

    constructor ()
      ensures View() == NEW_LINK && fresh(reconnectable) && reconnectable.max == MAX_ATTEMPTS
    {
      state, isConnected, reading := Initial, false, false;
      reconnectable := new Reconnectable(MAX_ATTEMPTS);
      connecting, attempts, slept := true, 1, 0;
    }

    method DoConnect()
      modifies `connecting, `attempts
      ensures connecting && attempts == old(attempts) + 1
    {
      connecting, attempts := true, attempts + 1;
    }

    /** thrown: the system error that ends the io thread. */
    method OnConnect(ok: bool) returns (thrown: bool)
      requires connecting
      modifies this, reconnectable
      ensures View() == Apply(reconnectable.max, old(View()), ConnectDone(ok))
      ensures thrown <==> !ok && !connecting
    {
      connecting, thrown := false, false;
      if ok {
        isConnected := true;
        state := Connected;
        reading := true;
      } else {
        var again, wait := reconnectable.Call();
        slept := slept + wait;
        if again {
          DoConnect();
        } else {
          state := Disconnected;
          thrown := true;
        }
      }
    }

    method OnRead(result: ReadResult)
      requires reading
      modifies `reading, `state
      ensures View() == Apply(reconnectable.max, old(View()), ReadDone(result))
    {
      reading := false;
      match result
      case ReadOk => reading := true;
      case Eof => state := Disconnected;
      case ConnectionReset => state := Disconnected;
      case _ =>
    }
  }
}
