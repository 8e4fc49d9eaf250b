/** What holds in every state that client, network and server can reach. */
module Guarantees {
  import opened MsgPack
  import opened Framing
  import opened Messages
  import opened ThisState
  import opened AsyncWriting
  import opened Dispatching
  import opened ServerSessions
  import opened Clients
  import opened Pipes
  import opened Rpc
  import opened Systems
  import opened Simulation

  function TheFrame(buffer: Bytes): Obj {
    if |Frames(buffer)| == 1 then Frames(buffer)[0] else Nil
  }

  /** The abstract action each step performs. */
  ghost function ActionOf(s: Sys, step: Step): Action {
    match step
    case IssueCall(name, args) => Issue(name, args)
    case PostCall(n) => Action.Post(n)
    case RunStrand =>
      if s.client.strand == [] then Stutter
      else (match s.client.strand[0]
            case DoCall(n, _, _) => Register(n)
            case DoNotify(buffer) => Notify(TheFrame(buffer))
            case Flush => Stutter
            case Erase(id) => Forget(id))
    case ClientWriteFails(broken) =>
      if s.client.writer.queue != [] && Forgiven(s.client.writer.queue[0], broken)
      then DropRequest(TheFrame(s.client.writer.queue[0])) else Stutter
    case ServerDiscards => if Next(s.upBuf).Got? then DropRequest(Next(s.upBuf).value) else Stutter
    case RunJob(i, w, world) => if i < |s.server.jobs| then Handle(s.server.jobs[i], world) else Stutter
    case RunSessionTask(_) =>
      if s.server.tasks != [] && s.server.tasks[0].SendAnswer? && s.server.out.exit
      then DropReply(ResponseFrame(s.server.tasks[0].answer)) else Stutter
    case ClientUnpacks => if Next(s.downBuf).Got? then Resolve(Next(s.downBuf).value) else Stutter
    case _ => Stutter
  }

  ghost predicate Good(cfg: Config, s: Sys) {
    SysOk(s) && Inv(cfg, CoreOf(s))
  }

  lemma ClientStepSimulates(cfg: Config, s: Sys, step: Step)
    requires Good(cfg, s) && Enabled(cfg, s, step) && !ByServer(step)
    ensures Simulates(cfg, s, Do(cfg, s, step), ActionOf(s, step))
  {
    hide Encode, Frames, Framed, Next, NthId, ParseRequest, ParseResponse, RequestFrame, NotificationFrame;
    hide Observed, JobOn, PipeOk, InTransit, ItemOk, ItemFrames, AnswerFrames, PostedFrames, CallsIn, ErasuresIn;
    var t := Do(cfg, s, step);
    match step
    case IssueCall(name, args) => SimIssue(cfg, s, t, name, args);
    case PostCall(n) => SimPost(cfg, s, t, n);
    case PostNotification(name, args) => SimPostNotification(cfg, s, t, name, args);
    case GiveUp(_) => SameCore(cfg, s, t);
    case Connects => SimConnect(cfg, s, t);
    case RunStrand =>
      match s.client.strand[0] {
        case DoCall(_, _, _) => SimCall(cfg, s, t);
        case DoNotify(_) => SimNotify(cfg, s, t);
        case Flush => SimFlush(cfg, s, t);
        case Erase(_) => SimErase(cfg, s, t);
      }
    case ClientSends(k) => SimClientSends(cfg, s, t, k);
    case ClientWritten => SimClientWritten(cfg, s, t);
    case ClientWriteFails(broken) => SimClientWriteFails(cfg, s, t, broken);
    case ClientReads(k) => SimClientReads(cfg, s, t, k);
    case ClientUnpacks => SimClientUnpacks(cfg, s, t);
  }

  lemma ServerWorkSimulates(cfg: Config, s: Sys, step: Step)
    requires Good(cfg, s) && Enabled(cfg, s, step)
    requires step.RunJob? || step.WorkerPosts? || step.RunSessionTask?
    ensures Simulates(cfg, s, Do(cfg, s, step), ActionOf(s, step))
  {
    hide Encode, Frames, Framed, Next, NthId, ParseRequest, ParseResponse, RequestFrame, NotificationFrame;
    hide Observed, JobOn, PipeOk, InTransit, ItemOk, ItemFrames, AnswerFrames, PostedFrames, CallsIn, ErasuresIn;
    hide Simulates, DoClient, JobStep, SessionStep, Possible, Apply;
    var t := Do(cfg, s, step);
    match step
    case RunJob(i, w, world) => SimRunJob(cfg, s, t, i, w, world);
    case WorkerPosts(w) => SimWorkerPosts(cfg, s, t, w);
    case RunSessionTask(raced) =>
      if s.server.tasks[0].SendAnswer? {
        SimSessionSend(cfg, s, t, raced);
      } else {
        SimSessionClose(cfg, s, t, raced);
      }
  }

  lemma ServerStepSimulates(cfg: Config, s: Sys, step: Step)
    requires Good(cfg, s) && Enabled(cfg, s, step) && ByServer(step)
    ensures Simulates(cfg, s, Do(cfg, s, step), ActionOf(s, step))
  {
    hide Encode, Frames, Framed, Next, NthId, ParseRequest, ParseResponse, RequestFrame, NotificationFrame;
    hide Observed, JobOn, PipeOk, InTransit, ItemOk, ItemFrames, AnswerFrames, PostedFrames, CallsIn, ErasuresIn;
    hide Simulates, DoClient, JobStep, SessionStep, Possible, Apply;
    var t := Do(cfg, s, step);
    match step
    case ServerReads(k) => SimServerReads(cfg, s, t, k);
    case ServerUnpacks => SimServerUnpacks(cfg, s, t);
    case ServerDiscards => SimServerDiscards(cfg, s, t);
    case ServerSends(k) => SimServerSends(cfg, s, t, k);
    case ServerWritten(raced) => SimServerWritten(cfg, s, t, raced);
    case ServerWriteFails(broken, raced) => SimServerWriteFails(cfg, s, t, broken, raced);
    case ServerCloses => SimServerCloses(cfg, s, t);
    case _ => ServerWorkSimulates(cfg, s, step);
  }

  /** Every step of the composed system refines an action of a call's life. */
  lemma StepSimulates(cfg: Config, s: Sys, step: Step)
    requires Good(cfg, s) && Enabled(cfg, s, step)
    ensures Simulates(cfg, s, Do(cfg, s, step), ActionOf(s, step))
    ensures Good(cfg, Do(cfg, s, step))
  {
    hide Encode, Frames, Framed, Next, NthId, ParseRequest, ParseResponse, RequestFrame, NotificationFrame;
    hide Observed, JobOn, PipeOk, InTransit, ItemOk, ItemFrames, AnswerFrames, PostedFrames, CallsIn, ErasuresIn;
    hide SysOk, Inv, Do, ActionOf, Can, Act;
    if ByServer(step) {
      ServerStepSimulates(cfg, s, step);
    } else {
      ClientStepSimulates(cfg, s, step);
    }
    SimulatesKeeps(cfg, s, Do(cfg, s, step), ActionOf(s, step));
  }

  lemma SimulatesKeeps(cfg: Config, s: Sys, t: Sys, a: Action)
    requires Good(cfg, s) && Simulates(cfg, s, t, a)
    ensures Good(cfg, t)
  {
    hide Encode, Frames, Framed, Next, NthId, ParseRequest, ParseResponse, RequestFrame, NotificationFrame;
    hide Observed, JobOn, PipeOk, InTransit, ItemOk, ItemFrames, AnswerFrames, PostedFrames, CallsIn, ErasuresIn;
    hide Inv, Can, Act;
    ActKeeps(cfg, CoreOf(s), a);
  }

  // -------------------------------------------------------------------- runs

  ghost predicate Executes(cfg: Config, s: Sys, steps: seq<Step>)
    decreases |steps|
  {
    steps == [] || (Enabled(cfg, s, steps[0]) && Executes(cfg, Do(cfg, s, steps[0]), steps[1..]))
  }

  ghost function After(cfg: Config, s: Sys, steps: seq<Step>): Sys
    requires Executes(cfg, s, steps)
    decreases |steps|
  {
    if steps == [] then s else After(cfg, Do(cfg, s, steps[0]), steps[1..])
  }

  lemma InitialGood(cfg: Config, left: seq<Locals>)
    ensures Good(cfg, Initial(left))
  {
    hide PipeOk, InTransit, Inv;
    var s := Initial(left);
    EmptyPipes(s);
    NothingPosted(s.server.posting);
    InitialCore(s);
    EmptyInv(cfg);
  }

  lemma InitialCore(s: Sys)
    requires s == Initial(s.server.locals) && PipeOk(Up(s)) && PipeOk(Down(s))
    requires InTransit(Up(s)) == InTransit(Down(s)) == [] && PostedFrames(s.server.posting) == []
    ensures CoreOf(s) == EMPTY_CORE
  {
    hide PipeOk, InTransit, PostedFrames;
  }

  lemma EmptyPipes(s: Sys)
    requires s.client == NEW_CLIENT && s.server.out == FRESH
    requires s.upNet == s.upBuf == s.downNet == s.downBuf == []
    ensures PipeOk(Up(s)) && PipeOk(Down(s)) && InTransit(Up(s)) == InTransit(Down(s)) == []
  {
    NoFrames();
    assert Wire(Up(s)) == [] && Wire(Down(s)) == [];
  }

  lemma {:induction false} NothingPosted(posting: seq<seq<SessionTask>>)
    requires forall w :: 0 <= w < |posting| ==> posting[w] == []
    ensures PostedFrames(posting) == []
  {
    if posting != [] {
      NothingPosted(posting[1..]);
    }
  }

  /** The invariant holds in every reachable state. */
  lemma {:induction false} AlwaysGood(cfg: Config, s: Sys, steps: seq<Step>)
    requires Good(cfg, s) && Executes(cfg, s, steps)
    ensures Good(cfg, After(cfg, s, steps))
    decreases |steps|
  {
    hide Good, Enabled, Do;
    if steps != [] {
      StepSimulates(cfg, s, steps[0]);
      AlwaysGood(cfg, Do(cfg, s, steps[0]), steps[1..]);
    }
  }

  // ------------------------------------------------------- the atomic RPC map

  /** All a caller can see: the calls made and the futures that are ready. */
  datatype RpcMap = RpcMap(calls: seq<Issued>, answers: map<nat, Reply>)

  function MapOf(s: Sys): RpcMap {
    RpcMap(s.calls, s.client.promises)
  }

  /** The atomic specification: a call is made, or one unanswered call gets what
      its function does in some world, or nothing happens. */
  ghost predicate AtomicMove(cfg: Config, m: RpcMap, m': RpcMap) {
    || m' == m
    || (exists name: Text, args: Args :: m' == m.(calls := m.calls + [Issued(name, args)]))
    || (exists n: nat, world: World, reply: Reply ::
          && n < |m.calls| && n !in m.answers
          && Observed(cfg, m.calls[n].name, m.calls[n].args, world) == Replies(reply)
          && m' == m.(answers := m.answers[n := reply]))
  }

  lemma ActIsAtomic(cfg: Config, c: Core, a: Action)
    requires RepliesOk(cfg, c) && Can(cfg, c, a)
    ensures
      var d := Act(cfg, c, a);
      AtomicMove(cfg, RpcMap(c.calls, c.promises), RpcMap(d.calls, d.promises))
  {
    hide NthId, ToInt32, Observed, ParseRequest, ParseResponse, RequestFrame, JobOn, ReplyFrame;
    match a
    case Issue(name, args) =>
    case Resolve(f) =>
      assert GoodReply(cfg, c, f);
      var n := ReplyOwner(c.ongoing, f).value;
      ReplyFrameIs(cfg, IdOf(n), c.calls[n], c.runs[n]);
      assert ObservedOf(cfg, c, n, c.runs[n]) == Replies(ReplyOf(ParseResponse(f).value));
    case _ =>
  }

  /** Under any interleaving, chunking and worker order, with any faults, each
      step of client, network and server is one move of the atomic map. */
  lemma RefinesAtomicMap(cfg: Config, s: Sys, step: Step)
    requires Good(cfg, s) && Enabled(cfg, s, step)
    ensures AtomicMove(cfg, MapOf(s), MapOf(Do(cfg, s, step)))
  {
    hide Encode, Frames, Framed, Next, NthId, ParseRequest, ParseResponse, RequestFrame, NotificationFrame;
    hide Observed, JobOn, PipeOk, InTransit, ItemOk, ItemFrames, AnswerFrames, PostedFrames, CallsIn, ErasuresIn;
    hide Enabled, Do, ActionOf, Can, Act, AtomicMove, RepliesOk;
    StepSimulates(cfg, s, step);
    ActIsAtomic(cfg, CoreOf(s), ActionOf(s, step));
  }

  /** In every reachable state a ready future holds what its own call's function
      did, on that call's own arguments, in the one run recorded for it. */
  lemma FuturesHoldOwnOutcomes(cfg: Config, left: seq<Locals>, steps: seq<Step>)
    requires Executes(cfg, Initial(left), steps)
    ensures
      var s := After(cfg, Initial(left), steps);
      forall n :: n in s.client.promises ==>
        && n < |s.calls| && n in s.runs
        && Observed(cfg, s.calls[n].name, s.calls[n].args, s.runs[n]) == Replies(s.client.promises[n])
  {
    hide Encode, Frames, Framed, Next, NthId, ParseRequest, ParseResponse, RequestFrame, NotificationFrame;
    hide Observed, JobOn, PipeOk, InTransit, ItemOk, ItemFrames, AnswerFrames, PostedFrames, CallsIn, ErasuresIn;
    hide Executes, After, WaitingOk, TableOk, ErasingOk, RequestsOk, RepliesOk, AllAccounted;
    InitialGood(cfg, left);
    AlwaysGood(cfg, Initial(left), steps);
    var s := After(cfg, Initial(left), steps);
    forall n | n in s.client.promises
      ensures n < |s.calls| && n in s.runs
      ensures Observed(cfg, s.calls[n].name, s.calls[n].args, s.runs[n]) == Replies(s.client.promises[n])
    {
      assert n in CoreOf(s).promises;
    }
  }

  /** Nothing observed is ever taken back: calls, runs, ready futures, losses. */
  ghost predicate Grows(s: Sys, t: Sys) {
    && s.calls <= t.calls && s.lost <= t.lost
    && (forall n :: n in s.runs ==> n in t.runs && t.runs[n] == s.runs[n])
    && (forall n :: n in s.client.promises ==>
          n in t.client.promises && t.client.promises[n] == s.client.promises[n])
  }

  ghost predicate CoreGrows(c: Core, d: Core) {
    && c.calls <= d.calls && c.lost <= d.lost
    && (forall n :: n in c.runs ==> n in d.runs && d.runs[n] == c.runs[n])
    && (forall n :: n in c.promises ==> n in d.promises && d.promises[n] == c.promises[n])
  }

  lemma HandlingGrows(cfg: Config, c: Core, f: Obj, world: World)
    requires RequestsOk(c) && f in c.requests
    ensures CoreGrows(c, Handled(cfg, c, f, world))
  {
    hide NthId, ToInt32, Observed, ParseRequest, ParseResponse, RequestFrame, JobOn, ReplyFrame;
    assert GoodRequest(c, f);
  }

  lemma ResolvingGrows(cfg: Config, c: Core, f: Obj)
    requires Can(cfg, c, Resolve(f))
    ensures CoreGrows(c, Act(cfg, c, Resolve(f)))
  {
    hide NthId, ToInt32, ParseRequest, ParseResponse, RequestFrame, IdOf, Handled, RequestOwner, ReplyOwner, ReplyOf;
  }

  lemma OthersGrow(cfg: Config, c: Core, a: Action)
    requires Can(cfg, c, a) && !a.Handle? && !a.Resolve?
    ensures
      var d := Act(cfg, c, a);
      c.calls <= d.calls && c.lost <= d.lost && d.runs == c.runs && d.promises == c.promises
  {
    hide NthId, ToInt32, Observed, ParseRequest, ParseResponse, RequestFrame, JobOn, ReplyFrame, IdOf;
    hide Handled, RequestOwner, ReplyOwner, AsSet, RequestOf, WindowOpen, ObservedOf, ReplyOf, Can;
    match a
    case Issue(_, _) =>
    case Post(_) =>
    case Register(_) =>
    case Notify(_) =>
    case DropRequest(_) =>
    case DropReply(_) =>
    case Forget(_) =>
    case Stutter =>
  }

  lemma ActGrows(cfg: Config, c: Core, a: Action)
    requires RequestsOk(c) && Can(cfg, c, a)
    ensures CoreGrows(c, Act(cfg, c, a))
  {
    if a.Handle? {
      HandlingGrows(cfg, c, a.f, a.world);
      hide Handled, RequestsOk;
    } else if a.Resolve? {
      ResolvingGrows(cfg, c, a.f);
      hide CoreGrows, Act, Can, RequestsOk;
    } else {
      OthersGrow(cfg, c, a);
      hide Act, Can, RequestsOk;
    }
  }

  lemma StepGrows(cfg: Config, s: Sys, step: Step)
    requires Good(cfg, s) && Enabled(cfg, s, step)
    ensures Grows(s, Do(cfg, s, step))
  {
    hide Encode, Frames, Framed, Next, NthId, ParseRequest, ParseResponse, RequestFrame, NotificationFrame;
    hide Observed, JobOn, PipeOk, InTransit, ItemOk, ItemFrames, AnswerFrames, PostedFrames, CallsIn, ErasuresIn;
    hide Enabled, Do, ActionOf, Can, Act, RequestsOk;
    StepSimulates(cfg, s, step);
    ActGrows(cfg, CoreOf(s), ActionOf(s, step));
  }

  /** The run recorded for a call and a future that is ready never change, however
      the run goes on. */
  lemma {:induction false} RunsGrow(cfg: Config, s: Sys, steps: seq<Step>)
    requires Good(cfg, s) && Executes(cfg, s, steps)
    ensures Grows(s, After(cfg, s, steps))
    decreases |steps|
  {
    hide Good, Enabled, Do, Grows;
    GrowsRefl(s);
    if steps != [] {
      var t := Do(cfg, s, steps[0]);
      StepSimulates(cfg, s, steps[0]);
      StepGrows(cfg, s, steps[0]);
      RunsGrow(cfg, t, steps[1..]);
      GrowsTrans(s, t, After(cfg, t, steps[1..]));
    }
  }

  lemma GrowsRefl(s: Sys)
    ensures Grows(s, s)
  {
  }

  lemma GrowsTrans(s: Sys, t: Sys, u: Sys)
    requires Grows(s, t) && Grows(t, u)
    ensures Grows(s, u)
  {
  }

  /** A call found in the job queue has not run yet, and carries its own name
      and arguments. */
  lemma HandlersRunOnce(cfg: Config, s: Sys, i: nat)
    requires Good(cfg, s) && i < |s.server.jobs| && IsCall(s.server.jobs[i])
    ensures
      var n := RequestOwner(s.client.ongoing, s.server.jobs[i]);
      && n.Some? && n.value < |s.calls| && n.value !in s.runs
      && s.server.jobs[i] == RequestFrame(IdOf(n.value), s.calls[n.value].name, s.calls[n.value].args)
  {
    hide Encode, Frames, Framed, Next, NthId, ParseRequest, ParseResponse, RequestFrame, NotificationFrame;
    hide Observed, JobOn, PipeOk, InTransit, ItemOk, ItemFrames, AnswerFrames, PostedFrames, CallsIn, ErasuresIn;
    hide WaitingOk, TableOk, ErasingOk, HistoryOk, RepliesOk, AllAccounted;
    assert s.server.jobs[i] in CoreOf(s).requests;
    assert GoodRequest(CoreOf(s), s.server.jobs[i]);
  }

  // ------------------------------------------------------------ conservation

  function Count(b: bool): nat {
    if b then 1 else 0
  }

  lemma RequestCounted(cfg: Config, c: Core, n: nat)
    requires RequestsOk(c) && Settling(c, n)
    ensures c.requests[RequestOf(c, n)] == Count(RequestOf(c, n) in c.requests)
    ensures RequestOf(c, n) in c.requests ==> Open(c, n) && n !in c.runs
  {
    hide NthId, ToInt32, ParseRequest, RequestFrame;
    RequestParses(n, c.calls[n]);
    if RequestOf(c, n) in c.requests {
      assert GoodRequest(c, RequestOf(c, n));
    }
  }

  lemma ReplyCounted(cfg: Config, c: Core, n: nat)
    requires RepliesOk(cfg, c) && Settling(c, n) && n in c.runs
    ensures c.replies[ReplyOfCall(cfg, c, n)] == Count(ReplyOfCall(cfg, c, n) in c.replies)
    ensures ReplyOfCall(cfg, c, n) in c.replies ==> Open(c, n)
  {
    hide NthId, ToInt32, Observed, ParseResponse, JobOn, ReplyFrame;
    ReplyFrameIs(cfg, IdOf(n), c.calls[n], c.runs[n]);
    if ReplyOfCall(cfg, c, n) in c.replies {
      assert GoodReply(cfg, c, ReplyOfCall(cfg, c, n));
    }
  }

  /** An unresolved call: the table leads to it, or knows nothing of its id yet. */
  ghost predicate Settling(c: Core, n: nat) {
    && n < |c.calls|
    && (if Waits(c, n) then Untouched(c, n) else InTable(c.ongoing, n))
  }

  lemma OnePlace(cfg: Config, c: Core, n: nat)
    requires Inv(cfg, c) && n < |c.calls| && n !in c.promises
    ensures
      Count(n in c.allotted) + c.posted[n] + c.requests[RequestOf(c, n)]
      + (if n in c.runs then c.replies[ReplyOfCall(cfg, c, n)] else 0)
      + Count(n in c.lost) == 1
  {
    hide NthId, ToInt32, Observed, ParseRequest, ParseResponse, RequestFrame, JobOn, ReplyFrame;
    hide TableOk, ErasingOk, RequestsOk, RepliesOk;
    assert Accounted(cfg, c, n);
    assert Settling(c, n);
    RequestCounted(cfg, c, n);
    if n in c.runs {
      ReplyCounted(cfg, c, n);
    }
  }

  /** How often call n is found: its id just taken, in the strand, pending, in the
      client's write queue, among the request bytes, in the job queue, among a
      worker's posts, in the session's strand, in its write queue, among the
      response bytes, lost. */
  ghost function Places(cfg: Config, s: Sys, n: nat): nat
    requires SysOk(s) && n < |s.calls|
  {
    var f := RequestFrame(IdOf(n), s.calls[n].name, s.calls[n].args);
    Count(n in s.allotted)
    + multiset(CallsIn(s.client.strand))[n]
    + multiset(ItemFrames(s.client.pending))[f]
    + multiset(ItemFrames(Waiting(s.client.writer)))[f]
    + multiset(Frames(Wire(Up(s))))[f]
    + multiset(s.server.jobs)[f]
    + (if n !in s.runs then 0 else
         var g := ReplyFrame(cfg, IdOf(n), s.calls[n], s.runs[n]);
         multiset(PostedFrames(s.server.posting))[g]
         + multiset(AnswerFrames(s.server.tasks))[g]
         + multiset(ItemFrames(Waiting(s.server.out)))[g]
         + multiset(Frames(Wire(Down(s))))[g])
    + Count(n in s.lost)
  }

  /** An unresolved call is in exactly one place, once. */
  lemma ExactlyOnePlace(cfg: Config, s: Sys, n: nat)
    requires Good(cfg, s) && n < |s.calls| && n !in s.client.promises
    ensures Places(cfg, s, n) == 1
  {
    hide Encode, Frames, Framed, Next, NthId, ParseRequest, ParseResponse, RequestFrame, Observed, JobOn, ReplyFrame;
    hide ItemOk, ItemFrames, AnswerFrames, PostedFrames, CallsIn, ErasuresIn, Inv, Tail;
    OnePlace(cfg, CoreOf(s), n);
    var up, down := Up(s), Down(s);
    assert multiset(InTransit(up)) == multiset(Frames(Wire(up))) + multiset(ItemFrames(Waiting(up.w)));
    assert multiset(InTransit(down)) == multiset(Frames(Wire(down))) + multiset(ItemFrames(Waiting(down.w)));
  }

  /** A resolved call is nowhere else: a frame in flight under its id is that of
      a later call which took the id again. */
  lemma ResolvedIsNowhereElse(cfg: Config, s: Sys, n: nat)
    requires Good(cfg, s) && n in s.client.promises
    ensures n !in s.allotted && n !in CallsIn(s.client.strand) && n !in s.lost
    ensures forall f :: f in Requests(s) && IsCall(f) ==>
      RequestOwner(s.client.ongoing, f).Some? && RequestOwner(s.client.ongoing, f) != Some(n)
    ensures forall f :: f in ReplyFrames(s) ==>
      ReplyOwner(s.client.ongoing, f).Some? && ReplyOwner(s.client.ongoing, f) != Some(n)
  {
    hide Encode, Frames, Framed, Next, NthId, ParseRequest, ParseResponse, RequestFrame, NotificationFrame;
    hide Observed, JobOn, PipeOk, InTransit, ItemOk, ItemFrames, AnswerFrames, PostedFrames, CallsIn, ErasuresIn;
    hide ReplyFrame, TableOk, ErasingOk, AllAccounted;
    var c := CoreOf(s);
    assert n in c.promises;
    assert Waits(c, n) ==> Untouched(c, n);
    assert n in c.posted <==> n in CallsIn(s.client.strand);
    forall f | f in Requests(s) && IsCall(f)
      ensures RequestOwner(s.client.ongoing, f).Some? && RequestOwner(s.client.ongoing, f) != Some(n)
    {
      assert GoodRequest(c, f);
    }
    forall f | f in ReplyFrames(s)
      ensures ReplyOwner(s.client.ongoing, f).Some? && ReplyOwner(s.client.ongoing, f) != Some(n)
    {
      assert GoodReply(cfg, c, f);
    }
  }

  /** A call past its strand step is in the table while unresolved; once resolved
      it is there exactly while its erasure is in the strand; and an erasure in
      the strand, one for its id, has the entry of a resolved call to erase. */
  lemma InTableUntilErased(cfg: Config, s: Sys, n: nat)
    requires Good(cfg, s) && n < |s.calls|
    ensures InTable(s.client.ongoing, n) ==>
      && n !in s.allotted && n !in CallsIn(s.client.strand)
      && (n in s.client.promises <==> IdOf(n) in ErasuresIn(s.client.strand))
    ensures n !in s.allotted && n !in CallsIn(s.client.strand) && n !in s.client.promises ==>
      InTable(s.client.ongoing, n)
    ensures forall id :: id in ErasuresIn(s.client.strand) ==>
      && id in s.client.ongoing && s.client.ongoing[id].Of?
      && IdOf(s.client.ongoing[id].n) == id && s.client.ongoing[id].n in s.client.promises
      && multiset(ErasuresIn(s.client.strand))[id] == 1
  {
    hide Encode, Frames, Framed, Next, NthId, ParseRequest, ParseResponse, RequestFrame, NotificationFrame;
    hide Observed, JobOn, PipeOk, InTransit, ItemOk, ItemFrames, AnswerFrames, PostedFrames, CallsIn, ErasuresIn;
    hide RequestsOk, RepliesOk;
    var c := CoreOf(s);
    assert Accounted(cfg, c, n);
    assert n in c.posted <==> n in CallsIn(s.client.strand);
    assert forall id :: id in c.erasing <==> id in ErasuresIn(s.client.strand);
    if Waits(c, n) {
      assert Untouched(c, n);
    }
  }

  /** An entry appears only when its call's strand handler runs, under an id the
      table does not hold, and goes only when an erasure of its id runs. */
  lemma TableChangesOnTheStrand(cfg: Config, s: Sys, step: Step)
    requires Good(cfg, s) && Enabled(cfg, s, step)
    ensures
      var before, after := s.client.ongoing, Do(cfg, s, step).client.ongoing;
      if step.RunStrand? && s.client.strand[0].DoCall? then
        var t := s.client.strand[0];
        t.id == IdOf(t.n) && t.id !in before && after == before[t.id := Of(t.n)]
      else if step.RunStrand? && s.client.strand[0].Erase? then
        s.client.strand[0].id in before && after == before - {s.client.strand[0].id}
      else after == before
  {
    hide Encode, Frames, Framed, Next, NthId, ParseRequest, ParseResponse, RequestFrame, NotificationFrame;
    hide Observed, JobOn, PipeOk, InTransit, ItemOk, ItemFrames, AnswerFrames, PostedFrames, CallsIn, ErasuresIn;
    hide Inv, WriteAll, Accept, DoServer, Apply, Possible, Leaving, HandedBy, CallIds, WindowOpen;
    if ByServer(step) {
      ServerLeavesClient(cfg, s, step);
    } else if step.RunStrand? {
      StrandFindsTable(cfg, s);
    } else if step.ClientUnpacks? {
      RequestsAndReplies(cfg, s);
      AlwaysDeliverable(cfg, s);
    }
  }

  lemma ServerLeavesClient(cfg: Config, s: Sys, step: Step)
    requires Enabled(cfg, s, step) && ByServer(step)
    ensures Do(cfg, s, step).client == s.client
  {
    hide Encode, Next, Accept, Apply, JobOn, RequestOwner, ReplyOwner, CallIds, Leaving;
  }

  lemma RequestsAndReplies(cfg: Config, s: Sys)
    requires Good(cfg, s)
    ensures RequestsOk(CoreOf(s)) && RepliesOk(cfg, CoreOf(s)) && TableOk(CoreOf(s))
  {
    hide Encode, Frames, Framed, Next, ParseRequest, ParseResponse, NotificationFrame, Observed, JobOn;
    hide PipeOk, InTransit, ItemOk, ItemFrames, AnswerFrames, PostedFrames, CallsIn, ErasuresIn, CallIds;
  }

  /** The front handler registers a fresh id, or erases one that is there. */
  lemma StrandFindsTable(cfg: Config, s: Sys)
    requires Good(cfg, s) && s.client.strand != []
    ensures
      match s.client.strand[0]
      case DoCall(n, id, _) => id == IdOf(n) && id !in s.client.ongoing
      case Erase(id) => id in s.client.ongoing
      case _ => true
  {
    hide Encode, Frames, Framed, Next, NthId, ParseRequest, ParseResponse, RequestFrame, NotificationFrame;
    hide Observed, JobOn, PipeOk, InTransit, ItemOk, ItemFrames, AnswerFrames, PostedFrames, CallsIn, ErasuresIn;
    hide RequestsOk, RepliesOk, TableOk, HistoryOk, AllAccounted;
    Popping(s.client.strand);
    var c, t := CoreOf(s), s.client.strand[0];
    assert TaskOk(s, t);
    if t.DoCall? {
      assert t.n in c.posted && Waits(c, t.n);
    } else if t.Erase? {
      assert t.id in c.erasing;
    }
  }

  /** Only three things lose a call: a frame unpacked by a closed session, a
      handler that disabled its response, and a reply written to a closed session. */
  lemma LossNeedsACause(cfg: Config, s: Sys, step: Step)
    requires Good(cfg, s) && Enabled(cfg, s, step) && Do(cfg, s, step).lost != s.lost
    ensures
      || (step.ServerDiscards? && s.server.out.exit)
      || (step.RunSessionTask? && s.server.out.exit)
      || (step.RunJob? &&
            var n := RequestOwner(s.client.ongoing, s.server.jobs[step.i]);
            && n.Some? && n.value < |s.calls|
            && Observed(cfg, s.calls[n.value].name, s.calls[n.value].args, step.world).Silent?)
  {
    hide Encode, Frames, Framed, Next, NthId, ParseRequest, ParseResponse, RequestFrame, NotificationFrame;
    hide Observed, JobOn, PipeOk, InTransit, ItemOk, ItemFrames, AnswerFrames, PostedFrames, CallsIn, ErasuresIn;
    hide Inv, RequestOwner;
    if step.RunJob? {
      LossByJob(cfg, s, step.i, step.worker, step.world);
    }
  }

  lemma LossByJob(cfg: Config, s: Sys, i: nat, w: nat, world: World)
    requires Good(cfg, s) && Enabled(cfg, s, RunJob(i, w, world))
    requires Do(cfg, s, RunJob(i, w, world)).lost != s.lost
    ensures
      var n := RequestOwner(s.client.ongoing, s.server.jobs[i]);
      && n.Some? && n.value < |s.calls|
      && Observed(cfg, s.calls[n.value].name, s.calls[n.value].args, world).Silent?
  {
    hide Encode, Frames, Framed, Next, NthId, ParseRequest, ParseResponse, RequestFrame, NotificationFrame;
    hide Observed, JobOn, PipeOk, InTransit, ItemOk, ItemFrames, AnswerFrames, PostedFrames, CallsIn, ErasuresIn;
    hide Inv, RequestOwner, ReplyFrame;
    assert s.lost + {} == s.lost;
    var f := s.server.jobs[i];
    var n := RequestOwner(s.client.ongoing, f);
    OwnedIsCall(s.client.ongoing, f);
    HandlersRunOnce(cfg, s, i);
    JobFrames(cfg, s.server.locals[w], IdOf(n.value), s.calls[n.value], world);
  }

  lemma OwnedIsCall(ongoing: map<Int32, Owner>, f: Obj)
    ensures RequestOwner(ongoing, f).Some? ==> IsCall(f)
  {
  }

  // ----------------------------------------------------- no surprise on a wire

  /** Every response frame the client unpacks finds an existing entry whose
      promise is unset: the table is never inserted into, no promise is set
      twice, and the step is always possible. */
  lemma ResponsesFindTheirCalls(cfg: Config, s: Sys)
    requires Good(cfg, s) && Next(s.downBuf).Got?
    ensures Enabled(cfg, s, ClientUnpacks)
    ensures
      var t := Do(cfg, s, ClientUnpacks);
      && t.client.ongoing == s.client.ongoing
      && exists n :: n !in s.client.promises && InTable(s.client.ongoing, n)
           && t.client.promises.Keys == s.client.promises.Keys + {n}
  {
    hide Encode, Frames, Framed, Next, NthId, ParseRequest, ParseResponse, RequestFrame, NotificationFrame;
    hide Observed, JobOn, PipeOk, InTransit, ItemOk, ItemFrames, AnswerFrames, PostedFrames, CallsIn, ErasuresIn;
    AlwaysDeliverable(cfg, s);
    var v: Obj := Next(s.downBuf).value;
    var n := ReplyOwner(s.client.ongoing, v).value;
    assert v in CoreOf(s).replies;
    assert GoodReply(cfg, CoreOf(s), v);
    assert InTable(s.client.ongoing, n);
  }

  /** Neither unpacker ever meets bytes that are not msgpack, and no message
      reaches a worker that dispatch could not convert. */
  lemma StreamsAreWellFormed(cfg: Config, s: Sys)
    requires Good(cfg, s)
    ensures !Next(s.upBuf).Bad? && !Next(s.downBuf).Bad?
    ensures forall i :: 0 <= i < |s.server.jobs| ==> !ParseRequest(s.server.jobs[i]).BadMessage?
  {
    hide Encode, Frames, Framed, Next, PipeOk, InTransit, ItemOk, ItemFrames, ParseRequest, ParseResponse;
    hide WaitingOk, TableOk, ErasingOk, HistoryOk, RepliesOk, AllAccounted, CallsIn, ErasuresIn, PostedFrames;
    NeverBad(Up(s));
    NeverBad(Down(s));
    forall i | 0 <= i < |s.server.jobs| ensures !ParseRequest(s.server.jobs[i]).BadMessage? {
      assert s.server.jobs[i] in CoreOf(s).requests;
      InFlightIsGood(CoreOf(s), s.server.jobs[i]);
    }
  }

  lemma NeverBad(p: Pipe)
    requires PipeOk(p)
    ensures !Next(p.buf).Bad?
  {
    var more := p.net + Tail(p.w);
    Extends(p.buf, more);
    if p.buf + more != [] {
      FramedHasNext(p.buf + more);
    }
  }
}
