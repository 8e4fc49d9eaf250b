/** The life of a call, with the transport reduced to two bags of frames:
    requests on their way to a handler, replies on their way to a promise. */
module Rpc {
  import opened MsgPack
  import opened Messages
  import opened ThisState
  import opened Dispatching
  import opened ServerSessions
  import opened Clients

  datatype Issued = Issued(name: Text, args: Args)

  /** allotted: an id is taken, nothing posted yet; posted: in the client's
      strand; erasing: erasures in the client's strand. runs and lost are
      history: with which world a call's handler ran, and the calls whose frame
      was thrown away or never made. */
  datatype Core = Core(
    calls: seq<Issued>,
    allotted: set<nat>,
    posted: multiset<nat>,
    ongoing: map<Int32, Owner>,
    erasing: multiset<Int32>,
    requests: multiset<Obj>,
    replies: multiset<Obj>,
    runs: map<nat, World>,
    promises: map<nat, Reply>,
    lost: set<nat>)

  const EMPTY_CORE: Core :=
    Core([], {}, multiset{}, map[], multiset{}, multiset{}, multiset{}, map[], map[], {})

  /** Call n is the (n+1)-st to take an id. */
  function IdOf(n: nat): Int32 {
    NthId(n + 1)
  }

  /** Ids are handed out by the pre-incremented counter: 1 first, then each next one. */
  lemma IdsInTurn(n: nat)
    ensures IdOf(0) == 1 && IdOf(n + 1) == NextCallIdx(IdOf(n))
  {
    ToInt32Is(1, 1, 0);
  }

  function RequestOf(c: Core, n: nat): Obj
    requires n < |c.calls|
  {
    RequestFrame(IdOf(n), c.calls[n].name, c.calls[n].args)
  }

  function ObservedOf(cfg: Config, c: Core, n: nat, world: World): Verdict
    requires n < |c.calls|
  {
    Observed(cfg, c.calls[n].name, c.calls[n].args, world)
  }

  /** The frame that answers a call, when there is one. */
  function ReplyFrame(cfg: Config, id: Int32, call: Issued, world: World): Obj {
    var end := JobOn(cfg, Cleared(cfg.session), RequestFrame(id, call.name, call.args), world);
    if end.JobPosts? && end.tasks != [] && end.tasks[0].SendAnswer? then ResponseFrame(end.tasks[0].answer)
    else Nil
  }

  function ReplyOfCall(cfg: Config, c: Core, n: nat): Obj
    requires n < |c.calls| && n in c.runs
  {
    ReplyFrame(cfg, IdOf(n), c.calls[n], c.runs[n])
  }

  predicate IsCall(f: Obj) {
    ParseRequest(f).Call?
  }

  /** The table leads from call n's id to call n's promise. */
  predicate InTable(ongoing: map<Int32, Owner>, n: nat) {
    IdOf(n) in ongoing && ongoing[IdOf(n)] == Of(n)
  }

  predicate Live(allotted: set<nat>, posted: multiset<nat>, ongoing: map<Int32, Owner>, n: nat) {
    n in allotted || n in posted || InTable(ongoing, n)
  }

  /** The call a frame's id leads to, if the table knows it. */
  function CallOf(ongoing: map<Int32, Owner>, id: Int32): Option<nat> {
    if id in ongoing && ongoing[id].Of? then Some(ongoing[id].n) else None
  }

  function RequestOwner(ongoing: map<Int32, Owner>, f: Obj): Option<nat> {
    if IsCall(f) then CallOf(ongoing, ParseRequest(f).id) else None
  }

  function ReplyOwner(ongoing: map<Int32, Owner>, f: Obj): Option<nat> {
    if ParseResponse(f).Some? then CallOf(ongoing, ToInt32(ParseResponse(f).value.id)) else None
  }

  // -------------------------------------------------------------- invariant

  ghost predicate Open(c: Core, n: nat) {
    n < |c.calls| && InTable(c.ongoing, n) && n !in c.promises && n !in c.lost
  }

  /** A call request in flight is the one of an open, unanswered call. */
  ghost predicate GoodRequest(c: Core, f: Obj) {
    && !ParseRequest(f).BadMessage?
    && (IsCall(f) ==>
          && c.requests[f] == 1
          && var n := RequestOwner(c.ongoing, f);
             n.Some? && Open(c, n.value) && n.value !in c.runs && f == RequestOf(c, n.value))
  }

  /** A reply in flight is the one its call's single run produced. */
  ghost predicate GoodReply(cfg: Config, c: Core, f: Obj) {
    && c.replies[f] == 1
    && var n := ReplyOwner(c.ongoing, f);
       && n.Some? && Open(c, n.value) && n.value in c.runs
       && ObservedOf(cfg, c, n.value, c.runs[n.value]).Replies?
       && f == ReplyOfCall(cfg, c, n.value)
  }

  /** A call that has only been issued has left no trace elsewhere. */
  ghost predicate Untouched(c: Core, n: nat) {
    && n < |c.calls| && IdOf(n) !in c.ongoing
    && n !in c.runs && n !in c.promises && n !in c.lost
  }

  ghost predicate Waits(c: Core, n: nat) {
    n in c.allotted || n in c.posted
  }

  ghost predicate WaitingOk(c: Core) {
    && (forall n :: Waits(c, n) ==> Untouched(c, n))
    && (forall n, m :: Waits(c, n) && Waits(c, m) && n != m ==> IdOf(n) != IdOf(m))
    && (forall n :: n in c.posted ==> c.posted[n] == 1 && n !in c.allotted)
  }

  ghost predicate TableOk(c: Core) {
    forall id :: id in c.ongoing ==>
      && c.ongoing[id].Of? && c.ongoing[id].n < |c.calls| && IdOf(c.ongoing[id].n) == id
      && (c.ongoing[id].n in c.promises <==> id in c.erasing)
  }

  ghost predicate ErasingOk(c: Core) {
    forall id :: id in c.erasing ==> c.erasing[id] == 1 && id in c.ongoing
  }

  ghost predicate HistoryOk(cfg: Config, c: Core) {
    && (forall n :: n in c.runs ==> n < |c.calls|)
    && (forall n :: n in c.promises ==>
          && n in c.runs && n !in c.lost
          && ObservedOf(cfg, c, n, c.runs[n]) == Replies(c.promises[n]))
    && (forall n :: n in c.lost ==> n < |c.calls| && InTable(c.ongoing, n))
  }

  ghost predicate Accounted(cfg: Config, c: Core, n: nat)
    requires n < |c.calls|
  {
    || Waits(c, n) || n in c.promises || n in c.lost
    || (InTable(c.ongoing, n) && n !in c.runs && RequestOf(c, n) in c.requests)
    || (InTable(c.ongoing, n) && n in c.runs && ReplyOfCall(cfg, c, n) in c.replies)
  }

  ghost predicate RequestsOk(c: Core) {
    forall f :: f in c.requests ==> GoodRequest(c, f)
  }

  ghost predicate RepliesOk(cfg: Config, c: Core) {
    forall f :: f in c.replies ==> GoodReply(cfg, c, f)
  }

  ghost predicate AllAccounted(cfg: Config, c: Core) {
    forall n :: 0 <= n < |c.calls| ==> Accounted(cfg, c, n)
  }

  ghost predicate Inv(cfg: Config, c: Core) {
    && WaitingOk(c)
    && TableOk(c)
    && ErasingOk(c)
    && HistoryOk(cfg, c)
    && RequestsOk(c)
    && RepliesOk(cfg, c)
    && AllAccounted(cfg, c)
  }

  // ------------------------------------------------------------------ steps

  datatype Action =
    | Issue(name: Text, args: Args)
    | Post(n: nat)
    | Register(n: nat)
    | Notify(f: Obj)
    | DropRequest(f: Obj)
    | Handle(f: Obj, world: World)
    | DropReply(f: Obj)
    | Resolve(f: Obj)
    | Forget(id: Int32)
    | Stutter

  /** The assumption on callers: fewer than 2^32 ids are taken during the life of
      any call. */
  ghost predicate WindowOpen(count: nat, allotted: set<nat>, posted: multiset<nat>, ongoing: map<Int32, Owner>) {
    forall n: nat :: Live(allotted, posted, ongoing, n) ==> n <= count < n + 0x1_0000_0000
  }

  ghost predicate Can(cfg: Config, c: Core, a: Action) {
    match a
    case Issue(_, _) => WindowOpen(|c.calls|, c.allotted, c.posted, c.ongoing)
    case Post(n) => n in c.allotted
    case Register(n) => n in c.posted && n < |c.calls|
    case Notify(f) => ParseRequest(f).Notification?
    case DropRequest(f) => f in c.requests
    case Handle(f, world) =>
      && f in c.requests
      && var n := RequestOwner(c.ongoing, f);
         n.Some? && n.value < |c.calls| ==> !ObservedOf(cfg, c, n.value, world).Breaks?
    case DropReply(f) => f in c.replies
    case Resolve(f) =>
      && f in c.replies && ParseResponse(f).Some?
      && ReplyOwner(c.ongoing, f).Some? && ReplyOwner(c.ongoing, f).value !in c.promises
    case Forget(id) => id in c.erasing
    case Stutter => true
  }

  function AsSet(n: Option<nat>): set<nat> {
    if n.Some? then {n.value} else {}
  }

  ghost function Act(cfg: Config, c: Core, a: Action): Core
    requires Can(cfg, c, a)
  {
    match a
    case Issue(name, args) =>
      c.(calls := c.calls + [Issued(name, args)], allotted := c.allotted + {|c.calls|})
    case Post(n) => c.(allotted := c.allotted - {n}, posted := c.posted + multiset{n})
    case Register(n) =>
      c.(posted := c.posted - multiset{n}, ongoing := c.ongoing[IdOf(n) := Of(n)],
         requests := c.requests + multiset{RequestOf(c, n)})
    case Notify(f) => c.(requests := c.requests + multiset{f})
    case DropRequest(f) =>
      c.(requests := c.requests - multiset{f}, lost := c.lost + AsSet(RequestOwner(c.ongoing, f)))
    case Handle(f, world) => Handled(cfg, c, f, world)
    case DropReply(f) =>
      c.(replies := c.replies - multiset{f}, lost := c.lost + AsSet(ReplyOwner(c.ongoing, f)))
    case Resolve(f) =>
      var a := ParseResponse(f).value;
      c.(replies := c.replies - multiset{f}, erasing := c.erasing + multiset{ToInt32(a.id)},
         promises := c.promises[ReplyOwner(c.ongoing, f).value := ReplyOf(a)])
    case Forget(id) => c.(ongoing := c.ongoing - {id}, erasing := c.erasing - multiset{id})
    case Stutter => c
  }

  function Handled(cfg: Config, c: Core, f: Obj, world: World): Core {
    var taken := c.(requests := c.requests - multiset{f});
    match RequestOwner(c.ongoing, f)
    case None => taken
    case Some(n) =>
      var ran := taken.(runs := c.runs[n := world]);
      if n < |c.calls| && ObservedOf(cfg, c, n, world).Replies? then
        ran.(replies := c.replies + multiset{ReplyFrame(cfg, IdOf(n), c.calls[n], world)})
      else ran.(lost := c.lost + {n})
  }

  lemma EmptyInv(cfg: Config)
    ensures Inv(cfg, EMPTY_CORE)
  {
  }

  lemma RequestParses(n: nat, call: Issued)
    ensures ParseRequest(RequestFrame(IdOf(n), call.name, call.args))
      == Request.Call(IdOf(n), call.name, Array(call.args))
  {
    RequestRoundTrip(IdOf(n), call.name, call.args, []);
  }

  /** The answering frame leads back to the call's own id. */
  lemma ReplyFrameIs(cfg: Config, id: Int32, call: Issued, world: World)
    ensures
      var a := ParseResponse(ReplyFrame(cfg, id, call, world));
      && (a.Some? <==> Observed(cfg, call.name, call.args, world).Replies?)
      && (a.Some? ==>
            && ToInt32(a.value.id) == id
            && Replies(ReplyOf(a.value)) == Observed(cfg, call.name, call.args, world))
  {
    CallDecision(cfg, Cleared(cfg.session), id, call.name, call.args, world);
  }

  // --------------------------------------------------- what leaves what alone

  ghost predicate SameTables(c: Core, d: Core) {
    && c.calls <= d.calls && d.ongoing == c.ongoing && d.erasing == c.erasing
    && d.runs == c.runs && d.promises == c.promises && d.lost == c.lost
  }

  lemma TableStays(c: Core, d: Core)
    requires TableOk(c) && ErasingOk(c) && c.calls <= d.calls
    requires d.ongoing == c.ongoing && d.erasing == c.erasing && d.promises == c.promises
    ensures TableOk(d) && ErasingOk(d)
  {
    hide NthId, ToInt32, Observed, ReplyFrame, ParseRequest, ParseResponse, RequestFrame;
  }

  lemma HistoryStays(cfg: Config, c: Core, d: Core)
    requires HistoryOk(cfg, c) && SameTables(c, d)
    ensures HistoryOk(cfg, d)
  {
    hide NthId, ToInt32, Observed, ReplyFrame, ParseRequest, ParseResponse, RequestFrame;
  }

  /** Waiting calls stay untouched when none joins them and the table gains no
      id of theirs. */
  lemma WaitingStays(c: Core, d: Core)
    requires WaitingOk(c) && c.calls <= d.calls
    requires d.allotted == c.allotted && d.posted == c.posted
    requires forall n :: Waits(c, n) && Untouched(c, n) ==> Untouched(d, n)
    ensures WaitingOk(d)
  {
    hide NthId, ToInt32, Observed, ReplyFrame, ParseRequest, ParseResponse, RequestFrame;
    forall n ensures Waits(d, n) <==> Waits(c, n) {}
  }

  /** Requests still in flight stay good while their calls stay open and unrun. */
  lemma RequestsStay(c: Core, d: Core)
    requires RequestsOk(c) && TableOk(c) && c.calls <= d.calls && d.requests <= c.requests
    requires forall n :: Open(c, n) && n !in c.runs && RequestOf(c, n) in d.requests ==> Open(d, n) && n !in d.runs
    ensures RequestsOk(d)
  {
    hide NthId, ToInt32, Observed, ReplyFrame, ParseRequest, ParseResponse, RequestFrame;
    forall f | f in d.requests ensures GoodRequest(d, f) {
      assert GoodRequest(c, f);
      if IsCall(f) {
        var n := RequestOwner(c.ongoing, f).value;
        assert IdOf(n) == ParseRequest(f).id;
        assert InTable(d.ongoing, n);
        assert RequestOf(d, n) == RequestOf(c, n);
      }
    }
  }

  lemma RepliesStay(cfg: Config, c: Core, d: Core)
    requires RepliesOk(cfg, c) && TableOk(c) && c.calls <= d.calls && d.replies <= c.replies
    requires forall n :: Open(c, n) && n in c.runs && ReplyOfCall(cfg, c, n) in d.replies ==>
      Open(d, n) && n in d.runs && d.runs[n] == c.runs[n]
    ensures RepliesOk(cfg, d)
  {
    hide NthId, ToInt32, Observed, ReplyFrame, ParseRequest, ParseResponse, RequestFrame;
    forall f | f in d.replies ensures GoodReply(cfg, d, f) {
      assert GoodReply(cfg, c, f);
      var n := ReplyOwner(c.ongoing, f).value;
      assert IdOf(n) == ToInt32(ParseResponse(f).value.id);
      assert InTable(d.ongoing, n);
      assert d.calls[n] == c.calls[n];
    }
  }

  /** Calls keep their place, and new ones have one. */
  lemma AccountedStay(cfg: Config, c: Core, d: Core)
    requires AllAccounted(cfg, c) && SameTables(c, d)
    requires c.requests <= d.requests && c.replies <= d.replies
    requires forall n :: Waits(c, n) ==> Waits(d, n)
    requires forall n :: |c.calls| <= n < |d.calls| ==> Waits(d, n)
    ensures AllAccounted(cfg, d)
  {
    hide NthId, ToInt32, Observed, ReplyFrame, ParseRequest, ParseResponse, RequestFrame;
    forall n | 0 <= n < |d.calls| ensures Accounted(cfg, d, n) {
      if n < |c.calls| { assert Accounted(cfg, c, n); }
    }
  }

  // ------------------------------------------------------------ taking an id

  lemma LiveIsIssued(c: Core, n: nat)
    requires WaitingOk(c) && TableOk(c) && Live(c.allotted, c.posted, c.ongoing, n)
    ensures n < |c.calls|
  {
    hide NthId, ToInt32, Observed, ReplyFrame, ParseRequest, ParseResponse, RequestFrame;
    if InTable(c.ongoing, n) {
      assert IdOf(n) in c.ongoing;
    } else {
      assert Waits(c, n);
    }
  }

  /** An id taken now is no live call's id. */
  lemma FreshId(c: Core)
    requires WaitingOk(c) && TableOk(c) && WindowOpen(|c.calls|, c.allotted, c.posted, c.ongoing)
    ensures IdOf(|c.calls|) !in c.ongoing
    ensures forall n: nat :: Waits(c, n) ==> IdOf(n) != IdOf(|c.calls|)
  {
    hide NthId, ToInt32, Observed, ReplyFrame, ParseRequest, ParseResponse, RequestFrame;
    var k := |c.calls|;
    forall n: nat | Live(c.allotted, c.posted, c.ongoing, n) ensures IdOf(n) != IdOf(k) {
      LiveIsIssued(c, n);
      IdsDistinctInWindow(n + 1, k + 1);
    }
    forall id | id in c.ongoing ensures id != IdOf(k) {
      assert Live(c.allotted, c.posted, c.ongoing, c.ongoing[id].n);
    }
  }

  lemma WaitingAfterIssue(cfg: Config, c: Core, name: Text, args: Args)
    requires WaitingOk(c) && TableOk(c) && HistoryOk(cfg, c) && WindowOpen(|c.calls|, c.allotted, c.posted, c.ongoing)
    ensures WaitingOk(Act(cfg, c, Issue(name, args)))
  {
    hide NthId, ToInt32, Observed, ReplyFrame, ParseRequest, ParseResponse, RequestFrame;
    var d := Act(cfg, c, Issue(name, args));
    var k := |c.calls|;
    FreshId(c);
    assert k !in c.runs && k !in c.promises && k !in c.lost;
    forall n: nat ensures Waits(d, n) <==> Waits(c, n) || n == k {}
  }

  lemma IssueKeeps(cfg: Config, c: Core, name: Text, args: Args)
    requires Inv(cfg, c) && WindowOpen(|c.calls|, c.allotted, c.posted, c.ongoing)
    ensures Inv(cfg, Act(cfg, c, Issue(name, args)))
  {
    hide NthId, ToInt32, Observed, ReplyFrame, ParseRequest, ParseResponse, RequestFrame;
    var d := Act(cfg, c, Issue(name, args));
    WaitingAfterIssue(cfg, c, name, args);
    TableStays(c, d);
    HistoryStays(cfg, c, d);
    RequestsStay(c, d);
    RepliesStay(cfg, c, d);
    AccountedStay(cfg, c, d);
  }

  lemma WaitingAfterPost(cfg: Config, c: Core, n: nat)
    requires WaitingOk(c) && n in c.allotted
    ensures WaitingOk(Act(cfg, c, Post(n)))
    ensures forall m: nat :: Waits(Act(cfg, c, Post(n)), m) <==> Waits(c, m)
  {
    hide NthId, ToInt32, Observed, ReplyFrame, ParseRequest, ParseResponse, RequestFrame;
    var d := Act(cfg, c, Post(n));
    forall m: nat ensures Waits(d, m) <==> Waits(c, m) {}
    forall m | m in d.posted ensures d.posted[m] == 1 && m !in d.allotted {
      assert m != n ==> m in c.posted;
    }
  }

  lemma PostKeeps(cfg: Config, c: Core, n: nat)
    requires Inv(cfg, c) && n in c.allotted
    ensures Inv(cfg, Act(cfg, c, Post(n)))
  {
    hide NthId, ToInt32, Observed, ReplyFrame, ParseRequest, ParseResponse, RequestFrame;
    var d := Act(cfg, c, Post(n));
    WaitingAfterPost(cfg, c, n);
    TableStays(c, d);
    HistoryStays(cfg, c, d);
    RequestsStay(c, d);
    RepliesStay(cfg, c, d);
    AccountedStay(cfg, c, d);
  }

  // -------------------------------------------------------------- registering

  /** d is c after call n's strand step. */
  ghost predicate Registers(c: Core, d: Core, n: nat) {
    && n in c.posted && n < |c.calls|
    && d == c.(posted := c.posted - multiset{n}, ongoing := c.ongoing[IdOf(n) := Of(n)],
               requests := c.requests + multiset{RequestOf(c, n)})
  }

  lemma WaitingAfterRegister(c: Core, d: Core, n: nat)
    requires WaitingOk(c) && Registers(c, d, n)
    ensures WaitingOk(d)
    ensures forall m: nat :: Waits(d, m) <==> Waits(c, m) && m != n
    ensures Untouched(c, n)
  {
    hide NthId, ToInt32, Observed, ReplyFrame, ParseRequest, ParseResponse, RequestFrame;
    assert Waits(c, n) && c.posted[n] == 1;
    forall m: nat ensures Waits(d, m) <==> Waits(c, m) && m != n {
      assert m in d.posted ==> m in c.posted && m != n;
    }
  }

  lemma RequestsAfterRegister(c: Core, d: Core, n: nat)
    requires RequestsOk(c) && TableOk(c) && Registers(c, d, n) && Untouched(c, n)
    ensures RequestsOk(d)
  {
    hide NthId, ToInt32, Observed, ReplyFrame, ParseRequest, ParseResponse, RequestFrame;
    RequestParses(n, c.calls[n]);
    var r := RequestOf(c, n);
    forall f | f in c.requests ensures f != r {
      assert GoodRequest(c, f);
    }
    forall f | f in d.requests ensures GoodRequest(d, f) {
      if f != r {
        assert GoodRequest(c, f);
      }
    }
  }

  lemma TableAfterRegister(c: Core, d: Core, n: nat)
    requires TableOk(c) && ErasingOk(c) && Registers(c, d, n) && Untouched(c, n)
    ensures TableOk(d) && ErasingOk(d)
  {
    hide NthId, ToInt32, Observed, ReplyFrame, ParseRequest, ParseResponse, RequestFrame;
  }

  lemma HistoryAfterRegister(cfg: Config, c: Core, d: Core, n: nat)
    requires HistoryOk(cfg, c) && Registers(c, d, n) && Untouched(c, n)
    ensures HistoryOk(cfg, d)
  {
    hide NthId, ToInt32, Observed, ReplyFrame, ParseRequest, ParseResponse, RequestFrame;
  }

  lemma RepliesAfterRegister(cfg: Config, c: Core, d: Core, n: nat)
    requires RepliesOk(cfg, c) && TableOk(c) && Registers(c, d, n) && Untouched(c, n)
    ensures RepliesOk(cfg, d)
  {
    hide NthId, ToInt32, Observed, ReplyFrame, ParseRequest, ParseResponse, RequestFrame;
    RepliesStay(cfg, c, d);
  }

  lemma AccountedAfterRegister(cfg: Config, c: Core, d: Core, n: nat)
    requires AllAccounted(cfg, c) && Registers(c, d, n) && Untouched(c, n)
    requires forall m: nat :: Waits(d, m) <==> Waits(c, m) && m != n
    ensures AllAccounted(cfg, d)
  {
    hide NthId, ToInt32, Observed, ReplyFrame, ParseRequest, ParseResponse, RequestFrame;
    forall m | 0 <= m < |d.calls| ensures Accounted(cfg, d, m) {
      assert Accounted(cfg, c, m);
      assert RequestOf(d, m) == RequestOf(c, m);
    }
  }

  lemma RegisterKeeps(cfg: Config, c: Core, n: nat)
    requires Inv(cfg, c) && Can(cfg, c, Register(n))
    ensures Inv(cfg, Act(cfg, c, Register(n)))
  {
    hide NthId, ToInt32, Observed, ReplyFrame, ParseRequest, ParseResponse, RequestFrame;
    hide WaitingOk, TableOk, ErasingOk, HistoryOk, RequestsOk, RepliesOk, AllAccounted;
    var d := Act(cfg, c, Register(n));
    WaitingAfterRegister(c, d, n);
    RequestsAfterRegister(c, d, n);
    RepliesAfterRegister(cfg, c, d, n);
    TableAfterRegister(c, d, n);
    HistoryAfterRegister(cfg, c, d, n);
    AccountedAfterRegister(cfg, c, d, n);
  }

  lemma RequestsAfterNotify(c: Core, d: Core, f: Obj)
    requires RequestsOk(c) && ParseRequest(f).Notification? && d == c.(requests := c.requests + multiset{f})
    ensures RequestsOk(d)
  {
    hide NthId, ToInt32, Observed, ReplyFrame, ParseRequest, ParseResponse, RequestFrame;
    forall g | g in d.requests ensures GoodRequest(d, g) {
      if g != f {
        assert GoodRequest(c, g);
      }
    }
  }

  lemma NotifyKeeps(cfg: Config, c: Core, f: Obj)
    requires Inv(cfg, c) && Can(cfg, c, Notify(f))
    ensures Inv(cfg, Act(cfg, c, Notify(f)))
  {
    hide NthId, ToInt32, Observed, ReplyFrame, ParseRequest, ParseResponse, RequestFrame;
    hide WaitingOk, TableOk, ErasingOk, HistoryOk, RequestsOk, RepliesOk, AllAccounted;
    var d := Act(cfg, c, Notify(f));
    RequestsAfterNotify(c, d, f);
    WaitingStays(c, d);
    TableStays(c, d);
    HistoryStays(cfg, c, d);
    RepliesStay(cfg, c, d);
    AccountedStay(cfg, c, d);
  }

  // ------------------------------------------------------------------ losing

  /** d is c without some frames; gone is the call they belonged to, if any. */
  ghost predicate Loses(cfg: Config, c: Core, d: Core, gone: Option<nat>) {
    && d == c.(requests := d.requests, replies := d.replies, lost := c.lost + AsSet(gone))
    && d.requests <= c.requests && d.replies <= c.replies
    && (gone.Some? ==> Open(c, gone.value))
    && forall n :: Open(c, n) ==>
         if n !in c.runs then (gone == Some(n) || RequestOf(c, n) !in c.requests <==> RequestOf(c, n) !in d.requests)
         else (gone == Some(n) || ReplyOfCall(cfg, c, n) !in c.replies <==> ReplyOfCall(cfg, c, n) !in d.replies)
  }

  lemma AccountedAfterLoss(cfg: Config, c: Core, d: Core, gone: Option<nat>)
    requires AllAccounted(cfg, c) && Loses(cfg, c, d, gone)
    ensures AllAccounted(cfg, d)
  {
    hide NthId, ToInt32, Observed, ReplyFrame, ParseRequest, ParseResponse, RequestFrame;
    forall n | 0 <= n < |d.calls| ensures Accounted(cfg, d, n) {
      assert Accounted(cfg, c, n);
      assert n !in c.promises && n !in c.lost && InTable(c.ongoing, n) ==> Open(c, n);
    }
  }

  lemma RequestsAfterLoss(cfg: Config, c: Core, d: Core, gone: Option<nat>)
    requires RequestsOk(c) && TableOk(c) && Loses(cfg, c, d, gone)
    ensures RequestsOk(d)
  {
    hide NthId, ToInt32, Observed, ReplyFrame, ParseRequest, ParseResponse, RequestFrame;
    RequestsStay(c, d);
  }

  lemma RepliesAfterLoss(cfg: Config, c: Core, d: Core, gone: Option<nat>)
    requires RepliesOk(cfg, c) && TableOk(c) && Loses(cfg, c, d, gone)
    ensures RepliesOk(cfg, d)
  {
    hide NthId, ToInt32, Observed, ReplyFrame, ParseRequest, ParseResponse, RequestFrame;
    RepliesStay(cfg, c, d);
  }

  lemma WaitingAfterLoss(cfg: Config, c: Core, d: Core, gone: Option<nat>)
    requires WaitingOk(c) && Loses(cfg, c, d, gone)
    ensures WaitingOk(d)
  {
    hide NthId, ToInt32, Observed, ReplyFrame, ParseRequest, ParseResponse, RequestFrame;
    WaitingStays(c, d);
  }

  lemma HistoryAfterLoss(cfg: Config, c: Core, d: Core, gone: Option<nat>)
    requires HistoryOk(cfg, c) && Loses(cfg, c, d, gone)
    ensures HistoryOk(cfg, d)
  {
    hide NthId, ToInt32, Observed, ReplyFrame, ParseRequest, ParseResponse, RequestFrame;
  }

  lemma LossKeeps(cfg: Config, c: Core, d: Core, gone: Option<nat>)
    requires Inv(cfg, c) && Loses(cfg, c, d, gone)
    ensures Inv(cfg, d)
  {
    hide NthId, ToInt32, Observed, ReplyFrame, ParseRequest, ParseResponse, RequestFrame;
    hide WaitingOk, TableOk, ErasingOk, HistoryOk, RequestsOk, RepliesOk, AllAccounted;
    WaitingAfterLoss(cfg, c, d, gone);
    RequestsAfterLoss(cfg, c, d, gone);
    RepliesAfterLoss(cfg, c, d, gone);
    TableStays(c, d);
    HistoryAfterLoss(cfg, c, d, gone);
    AccountedAfterLoss(cfg, c, d, gone);
  }

  lemma OneLess(bag: multiset<Obj>, f: Obj, g: Obj)
    requires bag[f] == 1
    ensures g !in bag - multiset{f} <==> g == f || g !in bag
  {
  }

  lemma DroppedRequest(cfg: Config, c: Core, f: Obj)
    requires RequestsOk(c) && f in c.requests
    ensures Loses(cfg, c, Act(cfg, c, DropRequest(f)), RequestOwner(c.ongoing, f))
  {
    hide NthId, ToInt32, Observed, ReplyFrame, ParseRequest, ParseResponse, RequestFrame;
    InFlightIsGood(c, f);
    hide RequestsOk;
    forall n: nat | Open(c, n) && n !in c.runs
      ensures RequestOwner(c.ongoing, f) == Some(n) || RequestOf(c, n) !in c.requests
        <==> RequestOf(c, n) !in c.requests - multiset{f}
    {
      RequestParses(n, c.calls[n]);
      if IsCall(f) {
        OneLess(c.requests, f, RequestOf(c, n));
      }
    }
  }

  lemma DroppedReply(cfg: Config, c: Core, f: Obj)
    requires RepliesOk(cfg, c) && f in c.replies
    ensures Loses(cfg, c, Act(cfg, c, DropReply(f)), ReplyOwner(c.ongoing, f))
  {
    hide NthId, ToInt32, Observed, ReplyFrame, ParseRequest, ParseResponse, RequestFrame;
    ReplyInFlightIsGood(cfg, c, f);
    hide RepliesOk;
    forall n: nat | Open(c, n) && n in c.runs
      ensures ReplyOwner(c.ongoing, f) == Some(n) || ReplyOfCall(cfg, c, n) !in c.replies
        <==> ReplyOfCall(cfg, c, n) !in c.replies - multiset{f}
    {
      ReplyFrameIs(cfg, IdOf(n), c.calls[n], c.runs[n]);
      OneLess(c.replies, f, ReplyOfCall(cfg, c, n));
    }
  }

  // ---------------------------------------------------------------- handling

  /** A call that is lost may as well have run. */
  lemma RunningLostKeeps(cfg: Config, c: Core, n: nat, world: World)
    requires Inv(cfg, c) && n in c.lost
    ensures Inv(cfg, c.(runs := c.runs[n := world]))
  {
    hide NthId, ToInt32, Observed, ReplyFrame, ParseRequest, ParseResponse, RequestFrame;
    hide WaitingOk, TableOk, ErasingOk, HistoryOk, RequestsOk, RepliesOk, AllAccounted;
    var d := c.(runs := c.runs[n := world]);
    HistoryAfterLostRun(cfg, c, n, world);
    WaitingAfterLostRun(cfg, c, n, world);
    TableStays(c, d);
    RequestsStay(c, d);
    RepliesStay(cfg, c, d);
    AccountedAfterLostRun(cfg, c, n, world);
  }

  lemma HistoryAfterLostRun(cfg: Config, c: Core, n: nat, world: World)
    requires HistoryOk(cfg, c) && n in c.lost
    ensures HistoryOk(cfg, c.(runs := c.runs[n := world]))
  {
    hide NthId, ToInt32, Observed, ReplyFrame, ParseRequest, ParseResponse, RequestFrame;
  }

  lemma WaitingAfterLostRun(cfg: Config, c: Core, n: nat, world: World)
    requires WaitingOk(c) && n in c.lost
    ensures WaitingOk(c.(runs := c.runs[n := world]))
  {
    hide NthId, ToInt32, Observed, ReplyFrame, ParseRequest, ParseResponse, RequestFrame;
    WaitingStays(c, c.(runs := c.runs[n := world]));
  }

  lemma AccountedAfterLostRun(cfg: Config, c: Core, n: nat, world: World)
    requires AllAccounted(cfg, c) && n in c.lost
    ensures AllAccounted(cfg, c.(runs := c.runs[n := world]))
  {
    hide NthId, ToInt32, Observed, ReplyFrame, ParseRequest, ParseResponse, RequestFrame;
    var d := c.(runs := c.runs[n := world]);
    forall m | 0 <= m < |d.calls| ensures Accounted(cfg, d, m) {
      assert Accounted(cfg, c, m);
    }
  }

  /** d is c after the handler of call n, whose request was f, produced an answer. */
  ghost predicate Answered(cfg: Config, c: Core, d: Core, f: Obj, n: nat, world: World) {
    && f in c.requests && c.requests[f] == 1 && RequestOwner(c.ongoing, f) == Some(n)
    && Open(c, n) && n !in c.runs && f == RequestOf(c, n)
    && ObservedOf(cfg, c, n, world).Replies?
    && d == c.(requests := c.requests - multiset{f}, runs := c.runs[n := world],
               replies := c.replies + multiset{ReplyFrame(cfg, IdOf(n), c.calls[n], world)})
  }

  lemma RequestsAfterAnswer(cfg: Config, c: Core, d: Core, f: Obj, n: nat, world: World)
    requires RequestsOk(c) && TableOk(c) && Answered(cfg, c, d, f, n, world)
    ensures RequestsOk(d)
  {
    hide NthId, ToInt32, Observed, ReplyFrame, ParseRequest, ParseResponse, RequestFrame;
    RequestsStay(c, d);
  }

  lemma RepliesAfterAnswer(cfg: Config, c: Core, d: Core, f: Obj, n: nat, world: World)
    requires RepliesOk(cfg, c) && Answered(cfg, c, d, f, n, world)
    ensures RepliesOk(cfg, d)
  {
    hide NthId, ToInt32, Observed, ReplyFrame, ParseRequest, ParseResponse, RequestFrame;
    var r := ReplyFrame(cfg, IdOf(n), c.calls[n], world);
    ReplyFrameIs(cfg, IdOf(n), c.calls[n], world);
    forall g | g in c.replies ensures g != r && ReplyOwner(c.ongoing, g) != Some(n) {
      assert GoodReply(cfg, c, g);
    }
    forall g | g in d.replies ensures GoodReply(cfg, d, g) {
      if g != r {
        assert GoodReply(cfg, c, g);
      }
    }
  }

  lemma HistoryAfterAnswer(cfg: Config, c: Core, d: Core, f: Obj, n: nat, world: World)
    requires HistoryOk(cfg, c) && Answered(cfg, c, d, f, n, world)
    ensures HistoryOk(cfg, d)
  {
    hide NthId, ToInt32, Observed, ReplyFrame, ParseRequest, ParseResponse, RequestFrame;
  }

  lemma WaitingAfterAnswer(cfg: Config, c: Core, d: Core, f: Obj, n: nat, world: World)
    requires WaitingOk(c) && Answered(cfg, c, d, f, n, world)
    ensures WaitingOk(d)
  {
    hide NthId, ToInt32, Observed, ReplyFrame, ParseRequest, ParseResponse, RequestFrame;
    WaitingStays(c, d);
  }

  lemma AccountedAfterAnswer(cfg: Config, c: Core, d: Core, f: Obj, n: nat, world: World)
    requires AllAccounted(cfg, c) && Answered(cfg, c, d, f, n, world)
    ensures AllAccounted(cfg, d)
  {
    hide NthId, ToInt32, Observed, ReplyFrame, ParseRequest, ParseResponse, RequestFrame;
    forall m | 0 <= m < |d.calls| ensures Accounted(cfg, d, m) {
      assert Accounted(cfg, c, m);
      RequestParses(m, c.calls[m]);
      if m != n && m in c.runs {
        assert ReplyOfCall(cfg, d, m) == ReplyOfCall(cfg, c, m);
      }
    }
  }

  lemma AnswerKeeps(cfg: Config, c: Core, d: Core, f: Obj, n: nat, world: World)
    requires Inv(cfg, c) && Answered(cfg, c, d, f, n, world)
    ensures Inv(cfg, d)
  {
    hide NthId, ToInt32, Observed, ReplyFrame, ParseRequest, ParseResponse, RequestFrame;
    hide WaitingOk, TableOk, ErasingOk, HistoryOk, RequestsOk, RepliesOk, AllAccounted;
    WaitingAfterAnswer(cfg, c, d, f, n, world);
    RequestsAfterAnswer(cfg, c, d, f, n, world);
    RepliesAfterAnswer(cfg, c, d, f, n, world);
    HistoryAfterAnswer(cfg, c, d, f, n, world);
    AccountedAfterAnswer(cfg, c, d, f, n, world);
    TableStays(c, d);
  }

  lemma InFlightIsGood(c: Core, f: Obj)
    requires RequestsOk(c) && f in c.requests
    ensures GoodRequest(c, f)
  {
  }

  /** A handler that leaves no frame loses its call. */
  lemma SilenceKeeps(cfg: Config, c: Core, f: Obj, n: nat, world: World)
    requires Inv(cfg, c) && f in c.requests && RequestOwner(c.ongoing, f) == Some(n)
    ensures
      var e := Act(cfg, c, DropRequest(f));
      Inv(cfg, e.(runs := e.runs[n := world]))
  {
    hide NthId, ToInt32, Observed, ReplyFrame, ParseRequest, ParseResponse, RequestFrame;
    hide WaitingOk, TableOk, ErasingOk, HistoryOk, RequestsOk, RepliesOk, AllAccounted;
    DroppedRequest(cfg, c, f);
    var e := Act(cfg, c, DropRequest(f));
    LossKeeps(cfg, c, e, Some(n));
    RunningLostKeeps(cfg, e, n, world);
  }

  lemma HandleKeeps(cfg: Config, c: Core, f: Obj, world: World)
    requires Inv(cfg, c) && Can(cfg, c, Handle(f, world))
    ensures Inv(cfg, Act(cfg, c, Handle(f, world)))
  {
    hide NthId, ToInt32, Observed, ReplyFrame, ParseRequest, ParseResponse, RequestFrame;
    hide WaitingOk, TableOk, ErasingOk, HistoryOk, RequestsOk, RepliesOk, AllAccounted;
    var d := Act(cfg, c, Handle(f, world));
    InFlightIsGood(c, f);
    match RequestOwner(c.ongoing, f)
    case None =>
      DroppedRequest(cfg, c, f);
      assert c.lost + {} == c.lost;
      LossKeeps(cfg, c, d, None);
    case Some(n) =>
      if ObservedOf(cfg, c, n, world).Replies? {
        AnswerKeeps(cfg, c, d, f, n, world);
      } else {
        SilenceKeeps(cfg, c, f, n, world);
      }
  }

  // ------------------------------------------------------ resolving, erasing

  /** d is c after the reply f set the promise of call n. */
  ghost predicate Resolves(cfg: Config, c: Core, d: Core, f: Obj, n: nat) {
    && f in c.replies && c.replies[f] == 1 && ReplyOwner(c.ongoing, f) == Some(n)
    && Open(c, n) && n in c.runs && f == ReplyOfCall(cfg, c, n)
    && ParseResponse(f).Some? && ToInt32(ParseResponse(f).value.id) == IdOf(n)
    && ObservedOf(cfg, c, n, c.runs[n]) == Replies(ReplyOf(ParseResponse(f).value))
    && d == c.(replies := c.replies - multiset{f}, erasing := c.erasing + multiset{IdOf(n)},
               promises := c.promises[n := ReplyOf(ParseResponse(f).value)])
  }

  lemma WaitingAfterResolve(cfg: Config, c: Core, d: Core, f: Obj, n: nat)
    requires WaitingOk(c) && Resolves(cfg, c, d, f, n)
    ensures WaitingOk(d)
  {
    hide NthId, ToInt32, Observed, ReplyFrame, ParseRequest, ParseResponse, RequestFrame;
    WaitingStays(c, d);
  }

  /** A promise is set and its erasure posted. */
  lemma TableAfterTelling(c: Core, d: Core, n: nat, reply: Reply)
    requires TableOk(c) && ErasingOk(c) && n < |c.calls| && InTable(c.ongoing, n) && n !in c.promises
    requires d.calls == c.calls && d.ongoing == c.ongoing
    requires d.promises == c.promises[n := reply] && d.erasing == c.erasing + multiset{IdOf(n)}
    ensures TableOk(d) && ErasingOk(d)
  {
    hide NthId, IdOf;
    assert IdOf(n) !in c.erasing;
    forall id | id in d.ongoing
      ensures d.ongoing[id].Of? && d.ongoing[id].n < |d.calls| && IdOf(d.ongoing[id].n) == id
      ensures d.ongoing[id].n in d.promises <==> id in d.erasing
    {
      assert id in c.ongoing;
    }
  }

  lemma TableAfterResolve(cfg: Config, c: Core, d: Core, f: Obj, n: nat)
    requires TableOk(c) && ErasingOk(c) && Resolves(cfg, c, d, f, n)
    ensures TableOk(d) && ErasingOk(d)
  {
    hide NthId, ToInt32, Observed, ReplyFrame, ParseRequest, ParseResponse, RequestFrame, IdOf, TableOk, ErasingOk;
    TableAfterTelling(c, d, n, ReplyOf(ParseResponse(f).value));
  }

  lemma HistoryAfterResolve(cfg: Config, c: Core, d: Core, f: Obj, n: nat)
    requires HistoryOk(cfg, c) && Resolves(cfg, c, d, f, n)
    ensures HistoryOk(cfg, d)
  {
    hide NthId, ToInt32, Observed, ReplyFrame, ParseRequest, ParseResponse, RequestFrame;
  }

  lemma FlightAfterResolve(cfg: Config, c: Core, d: Core, f: Obj, n: nat)
    requires RequestsOk(c) && RepliesOk(cfg, c) && TableOk(c) && Resolves(cfg, c, d, f, n)
    ensures RequestsOk(d) && RepliesOk(cfg, d)
  {
    hide NthId, ToInt32, Observed, ReplyFrame, ParseRequest, ParseResponse, RequestFrame;
    RequestsStay(c, d);
    RepliesStay(cfg, c, d);
  }

  lemma AccountedAfterResolve(cfg: Config, c: Core, d: Core, f: Obj, n: nat)
    requires AllAccounted(cfg, c) && Resolves(cfg, c, d, f, n)
    ensures AllAccounted(cfg, d)
  {
    hide NthId, ToInt32, Observed, ReplyFrame, ParseRequest, ParseResponse, RequestFrame;
    forall m | 0 <= m < |d.calls| ensures Accounted(cfg, d, m) {
      assert Accounted(cfg, c, m);
      if m in c.runs {
        ReplyFrameIs(cfg, IdOf(m), c.calls[m], c.runs[m]);
      }
    }
  }

  lemma ReplyInFlightIsGood(cfg: Config, c: Core, f: Obj)
    requires RepliesOk(cfg, c) && f in c.replies
    ensures GoodReply(cfg, c, f)
  {
  }

  lemma ResolveKeeps(cfg: Config, c: Core, f: Obj)
    requires Inv(cfg, c) && Can(cfg, c, Resolve(f))
    ensures Inv(cfg, Act(cfg, c, Resolve(f)))
  {
    hide NthId, ToInt32, Observed, ReplyFrame, ParseRequest, ParseResponse, RequestFrame;
    hide WaitingOk, TableOk, ErasingOk, HistoryOk, RequestsOk, RepliesOk, AllAccounted;
    var d := Act(cfg, c, Resolve(f));
    ReplyInFlightIsGood(cfg, c, f);
    var n := ReplyOwner(c.ongoing, f).value;
    ReplyFrameIs(cfg, IdOf(n), c.calls[n], c.runs[n]);
    ResolvesKeeps(cfg, c, d, f, n);
  }

  lemma ResolvesKeeps(cfg: Config, c: Core, d: Core, f: Obj, n: nat)
    requires Inv(cfg, c) && Resolves(cfg, c, d, f, n)
    ensures Inv(cfg, d)
  {
    hide NthId, ToInt32, Observed, ReplyFrame, ParseRequest, ParseResponse, RequestFrame;
    hide WaitingOk, TableOk, ErasingOk, HistoryOk, RequestsOk, RepliesOk, AllAccounted;
    WaitingAfterResolve(cfg, c, d, f, n);
    TableAfterResolve(cfg, c, d, f, n);
    HistoryAfterResolve(cfg, c, d, f, n);
    FlightAfterResolve(cfg, c, d, f, n);
    AccountedAfterResolve(cfg, c, d, f, n);
  }

  /** d is c after the table forgot a resolved call's id. */
  ghost predicate Forgets(c: Core, d: Core, id: Int32) {
    && id in c.ongoing && c.ongoing[id].Of? && c.ongoing[id].n in c.promises && c.erasing[id] == 1
    && d == c.(ongoing := c.ongoing - {id}, erasing := c.erasing - multiset{id})
  }

  lemma TableAfterForget(c: Core, d: Core, id: Int32)
    requires TableOk(c) && ErasingOk(c) && Forgets(c, d, id)
    ensures TableOk(d) && ErasingOk(d)
  {
    hide NthId, ToInt32, Observed, ReplyFrame, ParseRequest, ParseResponse, RequestFrame;
  }

  lemma HistoryAfterForget(cfg: Config, c: Core, d: Core, id: Int32)
    requires HistoryOk(cfg, c) && Forgets(c, d, id)
    ensures HistoryOk(cfg, d)
  {
    hide NthId, ToInt32, Observed, ReplyFrame, ParseRequest, ParseResponse, RequestFrame;
  }

  lemma WaitingAfterForget(c: Core, d: Core, id: Int32)
    requires WaitingOk(c) && Forgets(c, d, id)
    ensures WaitingOk(d)
  {
    hide NthId, ToInt32, Observed, ReplyFrame, ParseRequest, ParseResponse, RequestFrame;
    WaitingStays(c, d);
  }

  lemma RequestsAfterForget(c: Core, d: Core, id: Int32)
    requires RequestsOk(c) && TableOk(c) && Forgets(c, d, id)
    ensures RequestsOk(d)
  {
    hide NthId, ToInt32, Observed, ReplyFrame, ParseRequest, ParseResponse, RequestFrame;
    RequestsStay(c, d);
  }

  lemma RepliesAfterForget(cfg: Config, c: Core, d: Core, id: Int32)
    requires RepliesOk(cfg, c) && TableOk(c) && Forgets(c, d, id)
    ensures RepliesOk(cfg, d)
  {
    hide NthId, ToInt32, Observed, ReplyFrame, ParseRequest, ParseResponse, RequestFrame;
    RepliesStay(cfg, c, d);
  }

  lemma AccountedAfterForget(cfg: Config, c: Core, d: Core, id: Int32)
    requires AllAccounted(cfg, c) && HistoryOk(cfg, c) && Forgets(c, d, id)
    ensures AllAccounted(cfg, d)
  {
    hide NthId, ToInt32, Observed, ReplyFrame, ParseRequest, ParseResponse, RequestFrame;
    forall m | 0 <= m < |d.calls| ensures Accounted(cfg, d, m) {
      assert Accounted(cfg, c, m);
    }
  }

  lemma ForgetKeeps(cfg: Config, c: Core, id: Int32)
    requires Inv(cfg, c) && id in c.erasing
    ensures Inv(cfg, Act(cfg, c, Forget(id)))
  {
    hide NthId, ToInt32, Observed, ReplyFrame, ParseRequest, ParseResponse, RequestFrame;
    ForgetsKeeps(cfg, c, Act(cfg, c, Forget(id)), id);
  }

  lemma ForgetsKeeps(cfg: Config, c: Core, d: Core, id: Int32)
    requires Inv(cfg, c) && Forgets(c, d, id)
    ensures Inv(cfg, d)
  {
    hide NthId, ToInt32, Observed, ReplyFrame, ParseRequest, ParseResponse, RequestFrame;
    hide WaitingOk, TableOk, ErasingOk, HistoryOk, RequestsOk, RepliesOk, AllAccounted;
    TableAfterForget(c, d, id);
    HistoryAfterForget(cfg, c, d, id);
    WaitingAfterForget(c, d, id);
    RequestsAfterForget(c, d, id);
    RepliesAfterForget(cfg, c, d, id);
    AccountedAfterForget(cfg, c, d, id);
  }

  // ------------------------------------------------------------- every action

  lemma ActKeeps(cfg: Config, c: Core, a: Action)
    requires Inv(cfg, c) && Can(cfg, c, a)
    ensures Inv(cfg, Act(cfg, c, a))
  {
    hide NthId, ToInt32, Observed, ReplyFrame, ParseRequest, ParseResponse, RequestFrame;
    hide WaitingOk, TableOk, ErasingOk, HistoryOk, RequestsOk, RepliesOk, AllAccounted;
    match a
    case Issue(name, args) => IssueKeeps(cfg, c, name, args);
    case Post(n) => PostKeeps(cfg, c, n);
    case Register(n) => RegisterKeeps(cfg, c, n);
    case Notify(f) => NotifyKeeps(cfg, c, f);
    case DropRequest(f) =>
      DroppedRequest(cfg, c, f);
      LossKeeps(cfg, c, Act(cfg, c, a), RequestOwner(c.ongoing, f));
    case Handle(f, world) => HandleKeeps(cfg, c, f, world);
    case DropReply(f) =>
      DroppedReply(cfg, c, f);
      LossKeeps(cfg, c, Act(cfg, c, a), ReplyOwner(c.ongoing, f));
    case Resolve(f) => ResolveKeeps(cfg, c, f);
    case Forget(id) => ForgetKeeps(cfg, c, id);
    case Stutter =>
  }
}
