/** The way back: with one worker and a FIFO job queue, calls run and their
    futures resolve in the order of the client's strand. */
module ReturnOrder {
  import opened MsgPack
  import opened Framing
  import opened Messages
  import opened ThisState
  import opened AsyncWriting
  import opened Dispatching
  import opened ServerSessions
  import opened Clients
  import opened Pipes
  import opened Rpc
  import opened Systems
  import opened Simulation
  import opened Guarantees
  import opened Order

  // ------------------------------------------------------------ subsequences

  /** xs is ys with some elements left out. */
  predicate Subseq(xs: seq<Int32>, ys: seq<Int32>)
    decreases |ys|
  {
    || xs == []
    || (ys != [] && (Subseq(xs, ys[1..]) || (xs[0] == ys[0] && Subseq(xs[1..], ys[1..]))))
  }

  lemma {:induction false} SubseqAppend(xs: seq<Int32>, ys: seq<Int32>, zs: seq<Int32>)
    requires Subseq(xs, ys)
    ensures Subseq(xs + zs, ys + zs)
    decreases |ys|
  {
    if ys == [] {
      assert xs + zs == zs == ys + zs;
      SubseqSelf(zs);
    } else {
      assert (ys + zs)[1..] == ys[1..] + zs;
      if xs == [] {
        SubseqAppend([], ys[1..], zs);
      } else if Subseq(xs, ys[1..]) {
        SubseqAppend(xs, ys[1..], zs);
      } else {
        SubseqAppend(xs[1..], ys[1..], zs);
        assert (xs + zs)[1..] == xs[1..] + zs;
      }
    }
  }

  lemma {:induction false} SubseqSelf(xs: seq<Int32>)
    ensures Subseq(xs, xs)
  {
    if xs != [] {
      SubseqSelf(xs[1..]);
    }
  }

  lemma {:induction false} SubseqLonger(xs: seq<Int32>, ys: seq<Int32>, zs: seq<Int32>)
    requires Subseq(xs, ys)
    ensures Subseq(xs, ys + zs)
    decreases |ys|
  {
    if xs != [] {
      assert (ys + zs)[1..] == ys[1..] + zs;
      if Subseq(xs, ys[1..]) {
        SubseqLonger(xs, ys[1..], zs);
      } else {
        SubseqLonger(xs[1..], ys[1..], zs);
      }
    }
  }

  lemma {:induction false} SubseqTail(xs: seq<Int32>, ys: seq<Int32>)
    requires xs != [] && Subseq(xs, ys)
    ensures Subseq(xs[1..], ys)
    decreases |ys|
  {
    if Subseq(xs, ys[1..]) {
      SubseqTail(xs, ys[1..]);
    }
  }

  /** Leaving out one more element. */
  lemma {:induction false} SubseqWithout(xs: seq<Int32>, x: Int32, zs: seq<Int32>, ys: seq<Int32>)
    requires Subseq(xs + ([x] + zs), ys)
    ensures Subseq(xs + zs, ys)
    decreases |ys|
  {
    var all := xs + ([x] + zs);
    if xs == [] {
      assert all[1..] == zs && xs + zs == zs;
      SubseqTail(all, ys);
    } else if Subseq(all, ys[1..]) {
      SubseqWithout(xs, x, zs, ys[1..]);
    } else {
      assert all[1..] == xs[1..] + ([x] + zs) && (xs + zs)[1..] == xs[1..] + zs;
      SubseqWithout(xs[1..], x, zs, ys[1..]);
    }
  }

  lemma {:induction false} SubseqTrans(xs: seq<Int32>, ys: seq<Int32>, zs: seq<Int32>)
    requires Subseq(xs, ys) && Subseq(ys, zs)
    ensures Subseq(xs, zs)
    decreases |zs|
  {
    if xs != [] {
      if Subseq(ys, zs[1..]) {
        SubseqTrans(xs, ys, zs[1..]);
      } else if Subseq(xs, ys[1..]) {
        SubseqTrans(xs, ys[1..], zs[1..]);
      } else {
        SubseqTrans(xs[1..], ys[1..], zs[1..]);
      }
    }
  }

  /** In order, and complete when nothing was lost. */
  predicate Follows(xs: seq<Int32>, ys: seq<Int32>, complete: bool) {
    Subseq(xs, ys) && (complete ==> xs == ys)
  }

  // ----------------------------------------------------------- ids of replies

  function ReplyIds(frames: seq<Obj>): seq<Int32> {
    if frames == [] then []
    else
      var a := ParseResponse(frames[0]);
      (if a.Some? then [ToInt32(a.value.id)] else []) + ReplyIds(frames[1..])
  }

  lemma {:induction false} ReplyIdsAppend(xs: seq<Obj>, ys: seq<Obj>)
    ensures ReplyIds(xs + ys) == ReplyIds(xs) + ReplyIds(ys)
  {
    hide ParseResponse, ToInt32;
    if xs == [] {
      assert xs + ys == ys;
    } else {
      var zs := xs + ys;
      assert zs[1..] == xs[1..] + ys;
      ReplyIdsAppend(xs[1..], ys);
      var a := ParseResponse(xs[0]);
      Regroup(if a.Some? then [ToInt32(a.value.id)] else [], ReplyIds(xs[1..]), ReplyIds(ys));
    }
  }

  lemma ReplyIdsOne(f: Obj)
    ensures ReplyIds([f]) == if ParseResponse(f).Some? then [ToInt32(ParseResponse(f).value.id)] else []
    ensures ReplyIds([]) == []
  {
    hide ParseResponse, ToInt32;
    var a := ParseResponse(f);
    assert ReplyIds([f]) == (if a.Some? then [ToInt32(a.value.id)] else []) + ReplyIds([]);
  }

  /** The answers between a worker and the end of the stream, oldest first. */
  function Returning(s: Sys): seq<Obj>
    requires SysOk(s)
  {
    InTransit(Down(s)) + (AnswerFrames(s.server.tasks) + PostedFrames(s.server.posting))
  }

  ghost predicate FifoOrder(s: Sys) {
    && SysOk(s) && |s.server.posting| == 1
    && Follows(s.hist.ran + CallIds(s.server.jobs), s.hist.taken, s.lost == {})
    && Follows(s.hist.resolved + ReplyIds(Returning(s)), s.hist.ran, s.lost == {})
  }

  /** Ready handlers run in the order they became ready. */
  predicate Fifo(step: Step) {
    step.RunJob? ==> step.i == 0
  }

  lemma JobsKept(s: Sys, t: Sys)
    requires FifoOrder(s) && SysOk(t) && |t.server.posting| == 1
    requires CallIds(t.server.jobs) == CallIds(s.server.jobs) && t.lost == s.lost
    requires t.hist.ran == s.hist.ran && t.hist.taken == s.hist.taken
    requires t.hist.resolved + ReplyIds(Returning(t)) == s.hist.resolved + ReplyIds(Returning(s))
    ensures FifoOrder(t)
  {
  }

  lemma FifoUnpack(s: Sys, t: Sys, v: Obj)
    requires FifoOrder(s) && SysOk(t) && Down(t) == Down(s) && t.lost == s.lost
    requires t.server == s.server.(jobs := s.server.jobs + [v])
    requires t.hist == s.hist.(taken := s.hist.taken + CallIds([v]))
    ensures FifoOrder(t)
  {
    hide Encode, Frames, Framed, Next, NthId, ToInt32, ParseRequest, ParseResponse, RequestFrame, Observed, JobOn;
    hide PipeOk, InTransit, ItemOk, ItemFrames, AnswerFrames, PostedFrames, CallsIn, ErasuresIn, CallIds, ReplyIds;
    hide Subseq;
    CallIdsAppend(s.server.jobs, [v]);
    Regroup(s.hist.ran, CallIds(s.server.jobs), CallIds([v]));
    SubseqAppend(s.hist.ran + CallIds(s.server.jobs), s.hist.taken, CallIds([v]));
  }

  lemma FifoDiscard(cfg: Config, s: Sys, t: Sys, v: Obj)
    requires FifoOrder(s) && SysOk(t) && Down(t) == Down(s) && RequestsOk(CoreOf(s)) && v in Requests(s)
    requires t.server == s.server.(reading := false)
    requires t.lost == s.lost + AsSet(RequestOwner(s.client.ongoing, v))
    requires t.hist == s.hist.(taken := s.hist.taken + CallIds([v]))
    ensures FifoOrder(t)
  {
    hide Encode, Frames, Framed, Next, NthId, ToInt32, ParseRequest, ParseResponse, RequestFrame, Observed, JobOn;
    hide PipeOk, InTransit, ItemOk, ItemFrames, AnswerFrames, PostedFrames, CallsIn, ErasuresIn, CallIds, ReplyIds;
    hide Subseq, RequestsOk, RequestOwner;
    RequestHasOwner(CoreOf(s), v);
    CallIdsOne(v);
    SubseqLonger(s.hist.ran + CallIds(s.server.jobs), s.hist.taken, CallIds([v]));
    assert s.hist.taken + [] == s.hist.taken && s.lost + {} == s.lost;
    assert forall n :: n in AsSet(RequestOwner(s.client.ongoing, v)) ==> n in t.lost;
    if IsCall(v) {
      assert RequestOwner(s.client.ongoing, v).value in t.lost;
    }
  }

  lemma RequestHasOwner(c: Core, f: Obj)
    requires RequestsOk(c) && f in c.requests
    ensures IsCall(f) <==> RequestOwner(c.ongoing, f).Some?
    ensures !IsCall(f) ==> CallIds([f]) == []
  {
    assert GoodRequest(c, f);
    CallIdsOne(f);
  }

  lemma ReplyHasOwner(cfg: Config, c: Core, f: Obj)
    requires RepliesOk(cfg, c) && f in c.replies
    ensures ParseResponse(f).Some? && ReplyOwner(c.ongoing, f).Some?
  {
    hide Observed, JobOn, NthId, ReplyFrame;
    assert GoodReply(cfg, c, f);
  }

  /** What the first job of the only worker does to both lines. */
  lemma FifoRun(cfg: Config, s: Sys, t: Sys, world: World)
    requires FifoOrder(s) && Good(cfg, s) && SysOk(t) && Runs(cfg, s, t, 0, 0, world)
    ensures FifoOrder(t)
  {
    hide Encode, Frames, Framed, Next, NthId, ToInt32, ParseRequest, ParseResponse, RequestFrame, Observed, JobOn;
    hide PipeOk, InTransit, ItemOk, ItemFrames, AnswerFrames, PostedFrames, CallsIn, ErasuresIn, CallIds, ReplyIds;
    hide Subseq, Inv;
    var f := s.server.jobs[0];
    var tasks := JobOn(cfg, s.server.locals[0], f, world).tasks;
    var answers := AnswerFrames(tasks);
    assert Without(s.server.jobs, 0) == s.server.jobs[1..];
    assert s.server.jobs == [f] + s.server.jobs[1..];
    CallIdsAppend([f], s.server.jobs[1..]);
    Regroup(s.hist.ran, CallIds([f]), CallIds(s.server.jobs[1..]));
    OneWorker(s.server.posting, tasks);
    assert Down(t) == Down(s);
    var before := AnswerFrames(s.server.tasks);
    assert before + [] == before;
    Regroup(InTransit(Down(s)), before, answers);
    ReplyIdsAppend(InTransit(Down(s)) + before, answers);
    Regroup(s.hist.resolved, ReplyIds(InTransit(Down(s)) + before), ReplyIds(answers));
    RunIds(cfg, s, t, world);
    var line := s.hist.resolved + ReplyIds(Returning(s));
    SubseqAppend(line, s.hist.ran, CallIds([f]));
    SubseqLonger(line, s.hist.ran, CallIds([f]));
    assert line + [] == line;
  }

  lemma OneWorker(posting: seq<seq<SessionTask>>, tasks: seq<SessionTask>)
    requires |posting| == 1 && posting[0] == []
    ensures PostedFrames(posting) == [] && PostedFrames(posting[0 := tasks]) == AnswerFrames(tasks)
  {
    hide ResponseFrame;
    assert posting[1..] == [] && posting[0 := tasks][1..] == [];
    assert AnswerFrames(tasks) + [] == AnswerFrames(tasks);
  }

  /** A job's answer bears its request's id; without one, the call is lost. */
  lemma RunIds(cfg: Config, s: Sys, t: Sys, world: World)
    requires Good(cfg, s) && Runs(cfg, s, t, 0, 0, world)
    ensures
      var f := s.server.jobs[0];
      var tasks := JobOn(cfg, s.server.locals[0], f, world).tasks;
      && (ReplyIds(AnswerFrames(tasks)) == CallIds([f]) || (ReplyIds(AnswerFrames(tasks)) == [] && t.lost != {}))
      && (t.lost == {} ==> s.lost == {})
  {
    hide Encode, Frames, Framed, Next, NthId, ToInt32, ParseRequest, ParseResponse, RequestFrame, Observed, JobOn;
    hide PipeOk, InTransit, ItemOk, ItemFrames, AnswerFrames, PostedFrames, CallsIn, ErasuresIn, CallIds, ReplyIds;
    hide Subseq, Inv, RequestOwner, ReplyFrame, IdOf;
    var f := s.server.jobs[0];
    var tasks := JobOn(cfg, s.server.locals[0], f, world).tasks;
    CallIdsOne(f);
    ReplyIdsOne(f);
    if IsCall(f) {
      HandlersRunOnce(cfg, s, 0);
      var n := RequestOwner(s.client.ongoing, f).value;
      JobFrames(cfg, s.server.locals[0], IdOf(n), s.calls[n], world);
      RequestParses(n, s.calls[n]);
      ReplyFrameIs(cfg, IdOf(n), s.calls[n], world);
      ReplyIdsOne(ReplyFrame(cfg, IdOf(n), s.calls[n], world));
      assert AnswerFrames(tasks) == [] ==> n in t.lost;
      assert forall m :: m in s.lost ==> m in t.lost;
    } else {
      OnlyCallsAreAnswered(cfg, s.server.locals[0], f, world);
      NoAnswerFrames(tasks);
      OwnedIsCall(s.client.ongoing, f);
    }
  }

  lemma FifoWorkerPosts(s: Sys, t: Sys)
    requires FifoOrder(s) && SysOk(t) && Down(t) == Down(s) && s.server.posting[0] != []
    requires
      var rest := s.server.posting[0];
      t == s.(server := s.server.(posting := s.server.posting[0 := rest[1..]], tasks := s.server.tasks + [rest[0]]))
    ensures FifoOrder(t)
  {
    hide Encode, Frames, Framed, Next, NthId, ToInt32, ParseRequest, ParseResponse, RequestFrame, Observed, JobOn;
    hide PipeOk, InTransit, ItemOk, ItemFrames, AnswerFrames, PostedFrames, CallsIn, ErasuresIn, CallIds, ReplyIds;
    hide Subseq;
    var rest := s.server.posting[0];
    assert rest == [rest[0]] + rest[1..];
    AnswersAppend([rest[0]], rest[1..]);
    AnswersAppend(s.server.tasks, [rest[0]]);
    SingleWorker(s.server.posting);
    SingleWorker(t.server.posting);
    Regroup(AnswerFrames(s.server.tasks), AnswerFrames([rest[0]]), AnswerFrames(rest[1..]));
    JobsKept(s, t);
  }

  lemma SingleWorker(posting: seq<seq<SessionTask>>)
    requires |posting| == 1
    ensures PostedFrames(posting) == AnswerFrames(posting[0])
  {
    hide AnswerFrames;
    assert posting[1..] == [];
    assert AnswerFrames(posting[0]) + [] == AnswerFrames(posting[0]);
  }

  lemma FifoSessionTask(cfg: Config, s: Sys, t: Sys, raced: bool)
    requires FifoOrder(s) && Good(cfg, s) && SysOk(t) && s.server.tasks != [] && t == SessionStep(s, raced)
    ensures FifoOrder(t)
  {
    hide Encode, Frames, Framed, Next, NthId, ToInt32, ParseRequest, ParseResponse, RequestFrame, Observed, JobOn;
    hide PipeOk, InTransit, ItemOk, ItemFrames, AnswerFrames, PostedFrames, CallsIn, ErasuresIn, CallIds, ReplyIds;
    hide Subseq, Inv, ResponseFrame;
    FirstAnswer(s.server.tasks);
    var down, rest := InTransit(Down(s)), AnswerFrames(t.server.tasks) + PostedFrames(s.server.posting);
    if s.server.tasks[0].SendAnswer? {
      var f := ResponseFrame(s.server.tasks[0].answer);
      OneFrame(f);
      PushItem(Down(s), Encode(f), raced);
      Regroup([f], AnswerFrames(t.server.tasks), PostedFrames(s.server.posting));
      assert Returning(s) == down + ([f] + rest);
      if s.server.out.exit {
        assert down + [] == down;
        FifoReplyDropped(cfg, s, t, f, rest);
      } else {
        Regroup(down, [f], rest);
        assert s.lost + {} == s.lost;
        JobsKept(s, t);
      }
    } else {
      Shutting(Down(s));
      assert [] + AnswerFrames(t.server.tasks) == AnswerFrames(t.server.tasks);
      JobsKept(s, t);
    }
  }

  lemma FifoReplyDropped(cfg: Config, s: Sys, t: Sys, f: Obj, rest: seq<Obj>)
    requires FifoOrder(s) && Good(cfg, s) && SysOk(t) && |t.server.posting| == 1
    requires Returning(s) == InTransit(Down(s)) + ([f] + rest) && Returning(t) == InTransit(Down(s)) + rest
    requires f in ReplyFrames(s)
    requires t.hist == s.hist && t.server.jobs == s.server.jobs
    requires t.lost == s.lost + AsSet(ReplyOwner(s.client.ongoing, f))
    ensures FifoOrder(t)
  {
    hide Encode, Frames, Framed, Next, NthId, ToInt32, ParseRequest, ParseResponse, RequestFrame, Observed, JobOn;
    hide PipeOk, InTransit, ItemOk, ItemFrames, AnswerFrames, PostedFrames, CallsIn, ErasuresIn, CallIds, ReplyIds;
    hide Subseq, Inv;
    RequestsAndReplies(cfg, s);
    ReplyHasOwner(cfg, CoreOf(s), f);
    assert ReplyOwner(s.client.ongoing, f).value in t.lost;
    var down := InTransit(Down(s));
    ReplyIdsOne(f);
    ReplyIdsAppend(down, [f] + rest);
    ReplyIdsAppend([f], rest);
    ReplyIdsAppend(down, rest);
    var x := ToInt32(ParseResponse(f).value.id);
    Regroup(s.hist.resolved, ReplyIds(down), [x] + ReplyIds(rest));
    Regroup(s.hist.resolved, ReplyIds(down), ReplyIds(rest));
    SubseqWithout(s.hist.resolved + ReplyIds(down), x, ReplyIds(rest), s.hist.ran);
  }

  lemma FifoResolve(cfg: Config, s: Sys, t: Sys, v: Obj)
    requires FifoOrder(s) && Good(cfg, s) && SysOk(t) && v in ReplyFrames(s)
    requires InTransit(Down(s)) == [v] + InTransit(Down(t)) && t.server == s.server && t.lost == s.lost
    requires ParseResponse(v).Some?
    requires t.hist == s.hist.(resolved := s.hist.resolved + [ToInt32(ParseResponse(v).value.id)])
    ensures FifoOrder(t)
  {
    hide Encode, Frames, Framed, Next, NthId, ToInt32, ParseRequest, ParseResponse, RequestFrame, Observed, JobOn;
    hide PipeOk, InTransit, ItemOk, ItemFrames, AnswerFrames, PostedFrames, CallsIn, ErasuresIn, CallIds, ReplyIds;
    hide Subseq;
    var rest := AnswerFrames(s.server.tasks) + PostedFrames(s.server.posting);
    Regroup([v], InTransit(Down(t)), rest);
    ReplyIdsAppend([v], Returning(t));
    ReplyIdsOne(v);
    Regroup(s.hist.resolved, ReplyIds([v]), ReplyIds(Returning(t)));
    JobsKept(s, t);
  }

  lemma ClientLeavesDown(cfg: Config, s: Sys, step: Step)
    requires Enabled(cfg, s, step) && !ByServer(step) && !step.ClientReads? && !step.ClientUnpacks?
    ensures
      var t := Do(cfg, s, step);
      && t.server == s.server && Down(t) == Down(s) && t.lost == s.lost
      && t.hist.taken == s.hist.taken && t.hist.ran == s.hist.ran && t.hist.resolved == s.hist.resolved
  {
    hide Encode, Frames, Framed, Next, NthId, ToInt32, ParseRequest, ParseResponse, RequestFrame, Observed, JobOn;
    hide PipeOk, InTransit, ItemOk, ItemFrames, AnswerFrames, PostedFrames, CallsIn, ErasuresIn, CallIds, ReplyIds;
    hide Subseq, RunTask, Deliver;
  }

  lemma ClientKeepsFifo(cfg: Config, s: Sys, step: Step)
    requires Good(cfg, s) && Enabled(cfg, s, step) && !ByServer(step) && FifoOrder(s)
    requires Good(cfg, Do(cfg, s, step))
    ensures FifoOrder(Do(cfg, s, step))
  {
    hide Encode, Frames, Framed, Next, NthId, ToInt32, ParseRequest, ParseResponse, RequestFrame, Observed, JobOn;
    hide PipeOk, InTransit, ItemOk, ItemFrames, AnswerFrames, PostedFrames, CallsIn, ErasuresIn, CallIds, ReplyIds;
    hide Subseq, Inv, FifoOrder, RunTask;
    var t := Do(cfg, s, step);
    if step.ClientReads? {
      Pipes.Receive(Down(s), step.count);
      JobsSame(s, t);
    } else if step.ClientUnpacks? {
      RequestsAndReplies(cfg, s);
      TablePart(cfg, s);
      AlwaysDeliverable(cfg, s);
      Take(Down(s));
      FifoResolve(cfg, s, t, Next(s.downBuf).value);
    } else {
      ClientLeavesDown(cfg, s, step);
      JobsSame(s, t);
    }
  }

  lemma TablePart(cfg: Config, s: Sys)
    requires Good(cfg, s)
    ensures TableOk(CoreOf(s))
  {
    hide Encode, Frames, Framed, Next, NthId, ToInt32, ParseRequest, ParseResponse, RequestFrame, Observed, JobOn;
    hide PipeOk, InTransit, ItemOk, ItemFrames, AnswerFrames, PostedFrames, CallsIn, ErasuresIn, CallIds, ReplyIds;
    hide Subseq;
  }

  /** Steps that leave both lines as they are. */
  lemma JobsSame(s: Sys, t: Sys)
    requires FifoOrder(s) && SysOk(t) && InTransit(Down(t)) == InTransit(Down(s)) && t.lost == s.lost
    requires t.server == s.server.(out := t.server.out, reading := t.server.reading)
    requires t.hist.ran == s.hist.ran && t.hist.taken == s.hist.taken && t.hist.resolved == s.hist.resolved
    ensures FifoOrder(t)
  {
    hide Encode, Frames, Framed, Next, NthId, ToInt32, ParseRequest, ParseResponse, RequestFrame, Observed, JobOn;
    hide PipeOk, InTransit, ItemOk, ItemFrames, AnswerFrames, PostedFrames, CallsIn, ErasuresIn, CallIds, ReplyIds;
    hide Subseq;
  }

  predicate Transports(step: Step) {
    || step.ServerReads? || step.ServerSends? || step.ServerWritten? || step.ServerWriteFails?
    || step.ServerCloses?
  }

  lemma TransportMovesNothing(cfg: Config, s: Sys, step: Step)
    requires Good(cfg, s) && Enabled(cfg, s, step) && Transports(step)
    ensures
      var t := Do(cfg, s, step);
      PipeOk(Down(t)) && InTransit(Down(t)) == InTransit(Down(s))
  {
    hide Encode, Frames, Framed, Next, NthId, ToInt32, ParseRequest, ParseResponse, RequestFrame, Observed, JobOn;
    hide PipeOk, InTransit, ItemOk, ItemFrames, AnswerFrames, PostedFrames, CallsIn, ErasuresIn, CallIds, ReplyIds;
    hide Subseq, Inv;
    match step
    case ServerReads(k) => assert Down(Do(cfg, s, step)) == Down(s);
    case ServerSends(k) => Send(Down(s), k);
    case ServerWritten(raced) => Complete(Down(s), raced);
    case ServerWriteFails(broken, raced) =>
      RequestsAndReplies(cfg, s);
      RepliesAreNotForgiven(cfg, s, broken);
      Failing(Down(s), broken, raced);
    case ServerCloses => Shutting(Down(s));
  }

  lemma TransportFrame(cfg: Config, s: Sys, step: Step)
    requires Enabled(cfg, s, step) && Transports(step)
    ensures
      var t := Do(cfg, s, step);
      t == s.(upNet := t.upNet, upBuf := t.upBuf, downNet := t.downNet, server := s.server.(out := t.server.out))
  {
    hide Encode, Frames, Framed, Next, NthId, ToInt32, ParseRequest, ParseResponse, RequestFrame, Observed, JobOn;
    hide PipeOk, InTransit, ItemOk, ItemFrames, AnswerFrames, PostedFrames, CallsIn, ErasuresIn, CallIds, ReplyIds;
    hide Subseq;
  }

  lemma ServerTransportKeepsFifo(cfg: Config, s: Sys, step: Step)
    requires Good(cfg, s) && Enabled(cfg, s, step) && FifoOrder(s) && Good(cfg, Do(cfg, s, step))
    requires Transports(step)
    ensures FifoOrder(Do(cfg, s, step))
  {
    hide Encode, Frames, Framed, Next, NthId, ToInt32, ParseRequest, ParseResponse, RequestFrame, Observed, JobOn;
    hide PipeOk, InTransit, ItemOk, ItemFrames, AnswerFrames, PostedFrames, CallsIn, ErasuresIn, CallIds, ReplyIds;
    hide Subseq, Inv, FifoOrder, Enabled, Do;
    TransportMovesNothing(cfg, s, step);
    TransportFrame(cfg, s, step);
    JobsSame(s, Do(cfg, s, step));
  }

  lemma OneWorkerOnly(s: Sys)
    requires FifoOrder(s)
    ensures |s.server.posting| == 1 && SysOk(s)
  {
    hide SysOk, Follows;
  }

  lemma FifoTaking(cfg: Config, s: Sys, t: Sys)
    requires Good(cfg, s) && FifoOrder(s) && SysOk(t) && Next(s.upBuf).Got?
    requires
      var v: Obj := Next(s.upBuf).value;
      || t == s.(upBuf := Next(s.upBuf).rest, server := s.server.(jobs := s.server.jobs + [v]),
                 hist := s.hist.(taken := s.hist.taken + CallIds([v])))
      || t == s.(upBuf := Next(s.upBuf).rest, server := s.server.(reading := false),
                 lost := s.lost + AsSet(RequestOwner(s.client.ongoing, v)),
                 hist := s.hist.(taken := s.hist.taken + CallIds([v])))
    ensures FifoOrder(t)
  {
    hide Encode, Frames, Framed, Next, NthId, ToInt32, ParseRequest, ParseResponse, RequestFrame, Observed, JobOn;
    hide PipeOk, InTransit, ItemOk, ItemFrames, AnswerFrames, PostedFrames, CallsIn, ErasuresIn, CallIds, ReplyIds;
    hide Subseq, Inv, FifoOrder, RequestOwner;
    var v: Obj := Next(s.upBuf).value;
    TakenUp(s, t);
    if t.server.reading == s.server.reading && t.server.jobs == s.server.jobs + [v] {
      FifoUnpack(s, t, v);
    } else {
      RequestsAndReplies(cfg, s);
      assert v in InTransit(Up(s));
      FifoDiscard(cfg, s, t, v);
    }
  }

  lemma ReadingKeepsFifo(cfg: Config, s: Sys, step: Step)
    requires Good(cfg, s) && Enabled(cfg, s, step) && FifoOrder(s) && Good(cfg, Do(cfg, s, step))
    requires step.ServerUnpacks? || step.ServerDiscards?
    ensures FifoOrder(Do(cfg, s, step))
  {
    hide Encode, Frames, Framed, Next, NthId, ToInt32, ParseRequest, ParseResponse, RequestFrame, Observed, JobOn;
    hide PipeOk, InTransit, ItemOk, ItemFrames, AnswerFrames, PostedFrames, CallsIn, ErasuresIn, CallIds, ReplyIds;
    hide Subseq, SysOk, FifoOrder, Inv, RequestOwner, Possible;
    FifoTaking(cfg, s, Do(cfg, s, step));
  }

  lemma JobKeepsFifo(cfg: Config, s: Sys, i: nat, w: nat, world: World)
    requires Good(cfg, s) && FifoOrder(s) && Enabled(cfg, s, RunJob(i, w, world)) && i == 0
    requires SysOk(Do(cfg, s, RunJob(i, w, world)))
    ensures FifoOrder(Do(cfg, s, RunJob(i, w, world)))
  {
    hide Encode, Frames, Framed, Next, NthId, ToInt32, ParseRequest, ParseResponse, RequestFrame, Observed, JobOn;
    hide PipeOk, InTransit, ItemOk, ItemFrames, AnswerFrames, PostedFrames, CallsIn, ErasuresIn, CallIds, ReplyIds;
    hide Subseq, SysOk, FifoOrder, Inv, JobStep, SessionStep, Possible, DoClient;
    OneWorkerOnly(s);
    FifoRun(cfg, s, Do(cfg, s, RunJob(i, w, world)), world);
  }

  lemma PostingKeepsFifo(cfg: Config, s: Sys, step: Step)
    requires Good(cfg, s) && FifoOrder(s) && Enabled(cfg, s, step) && SysOk(Do(cfg, s, step))
    requires step.WorkerPosts? || step.RunSessionTask?
    ensures FifoOrder(Do(cfg, s, step))
  {
    hide Encode, Frames, Framed, Next, NthId, ToInt32, ParseRequest, ParseResponse, RequestFrame, Observed, JobOn;
    hide PipeOk, InTransit, ItemOk, ItemFrames, AnswerFrames, PostedFrames, CallsIn, ErasuresIn, CallIds, ReplyIds;
    hide Subseq, SysOk, FifoOrder, Inv, JobStep, SessionStep, Possible, DoClient;
    OneWorkerOnly(s);
    var t := Do(cfg, s, step);
    if step.WorkerPosts? {
      FifoWorkerPosts(s, t);
    } else {
      FifoSessionTask(cfg, s, t, step.raced);
    }
  }

  lemma WorkingKeepsFifo(cfg: Config, s: Sys, step: Step)
    requires Good(cfg, s) && Enabled(cfg, s, step) && Fifo(step) && FifoOrder(s) && Good(cfg, Do(cfg, s, step))
    requires step.RunJob? || step.WorkerPosts? || step.RunSessionTask?
    ensures FifoOrder(Do(cfg, s, step))
  {
    hide SysOk, Inv, FifoOrder, Enabled, Do;
    if step.RunJob? {
      JobKeepsFifo(cfg, s, step.i, step.worker, step.world);
    } else {
      PostingKeepsFifo(cfg, s, step);
    }
  }

  lemma ServerKeepsFifo(cfg: Config, s: Sys, step: Step)
    requires Good(cfg, s) && Enabled(cfg, s, step) && ByServer(step) && Fifo(step) && FifoOrder(s)
    requires Good(cfg, Do(cfg, s, step))
    ensures FifoOrder(Do(cfg, s, step))
  {
    hide Encode, Frames, Framed, Next, NthId, ToInt32, ParseRequest, ParseResponse, RequestFrame, Observed, JobOn;
    hide PipeOk, InTransit, ItemOk, ItemFrames, AnswerFrames, PostedFrames, CallsIn, ErasuresIn, CallIds, ReplyIds;
    hide Subseq, Good, FifoOrder, Enabled, Do, Fifo;
    if step.ServerUnpacks? || step.ServerDiscards? {
      ReadingKeepsFifo(cfg, s, step);
    } else if step.RunJob? || step.WorkerPosts? || step.RunSessionTask? {
      WorkingKeepsFifo(cfg, s, step);
    } else {
      ServerTransportKeepsFifo(cfg, s, step);
    }
  }

  lemma {:induction false} FifoAlways(cfg: Config, s: Sys, steps: seq<Step>)
    requires Good(cfg, s) && FifoOrder(s) && Executes(cfg, s, steps)
    requires forall i :: 0 <= i < |steps| ==> Fifo(steps[i])
    ensures FifoOrder(After(cfg, s, steps))
    decreases |steps|
  {
    hide Encode, Frames, Framed, Next, NthId, ToInt32, ParseRequest, ParseResponse, RequestFrame, Observed, JobOn;
    hide PipeOk, InTransit, ItemOk, ItemFrames, AnswerFrames, PostedFrames, CallsIn, ErasuresIn, CallIds, ReplyIds;
    hide Subseq, Good, Enabled, Do, FifoOrder, Fifo;
    if steps != [] {
      var t := Do(cfg, s, steps[0]);
      StepSimulates(cfg, s, steps[0]);
      if ByServer(steps[0]) {
        ServerKeepsFifo(cfg, s, steps[0]);
      } else {
        ClientKeepsFifo(cfg, s, steps[0]);
      }
      FifoAlways(cfg, t, steps[1..]);
    }
  }

  lemma InitialOrder(cfg: Config, left: Locals)
    ensures Good(cfg, Initial([left])) && StrandOrder(Initial([left])) && FifoOrder(Initial([left]))
  {
    hide Good, PipeOk, InTransit, ItemFrames, CallIds, AnswerFrames;
    var s := Initial([left]);
    InitialGood(cfg, [left]);
    InitialIsOk(cfg, s);
    EmptyPipes(s);
    NoIds();
    EmptyAnswers();
    SingleWorker(s.server.posting);
    var none: seq<Obj> := [];
    assert Returning(s) == none + (none + none) == none;
  }

  lemma InitialIsOk(cfg: Config, s: Sys)
    requires Good(cfg, s)
    ensures SysOk(s)
  {
    hide Encode, Frames, Framed, Next, NthId, ToInt32, ParseRequest, ParseResponse, RequestFrame, Observed, JobOn;
    hide PipeOk, InTransit, ItemOk, ItemFrames, AnswerFrames, PostedFrames, CallsIn, ErasuresIn, CallIds, ReplyIds;
    hide Subseq;
  }

  /** With one worker and a FIFO job queue, under any other interleaving, any
      chunking and any faults: the server runs one client's calls, and its
      futures resolve, in the order of the client's strand; and when no call has
      been lost, no call is passed over. */
  lemma OneWorkerIsFifo(cfg: Config, left: Locals, steps: seq<Step>)
    requires Executes(cfg, Initial([left]), steps)
    requires forall i :: 0 <= i < |steps| ==> Fifo(steps[i])
    ensures
      var s := After(cfg, Initial([left]), steps);
      && Subseq(s.hist.ran, s.hist.posted) && Subseq(s.hist.resolved, s.hist.ran)
      && (s.lost == {} ==> s.hist.resolved <= s.hist.ran <= s.hist.posted)
  {
    hide Good, Executes, Fifo, Enabled, Do, Initial;
    hide CallIds, ReplyIds, Returning, InTransit, PipeOk, ItemFrames, StrandIds;
    InitialOrder(cfg, left);
    StrandOrderAlways(cfg, Initial([left]), steps);
    FifoAlways(cfg, Initial([left]), steps);
    Prefixes(cfg, After(cfg, Initial([left]), steps));
  }

  lemma {:induction false} SubseqPrefix(xs: seq<Int32>, zs: seq<Int32>, ys: seq<Int32>)
    requires Subseq(xs + zs, ys)
    ensures Subseq(xs, ys)
    decreases |zs|
  {
    if zs == [] {
      assert xs + zs == xs;
    } else {
      assert xs + zs == xs + ([zs[0]] + zs[1..]);
      SubseqWithout(xs, zs[0], zs[1..], ys);
      SubseqPrefix(xs, zs[1..], ys);
    }
  }

  lemma Prefixes(cfg: Config, s: Sys)
    requires FifoOrder(s) && StrandOrder(s)
    ensures Subseq(s.hist.ran, s.hist.posted) && Subseq(s.hist.resolved, s.hist.ran)
    ensures s.lost == {} ==> s.hist.resolved <= s.hist.ran <= s.hist.posted
  {
    hide Encode, Frames, Framed, Next, NthId, ToInt32, ParseRequest, ParseResponse, RequestFrame, Observed, JobOn;
    hide PipeOk, InTransit, ItemOk, ItemFrames, AnswerFrames, PostedFrames, CallsIn, ErasuresIn, CallIds, ReplyIds;
    hide Subseq, StrandIds;
    SubseqPrefix(s.hist.ran, CallIds(s.server.jobs), s.hist.taken);
    SubseqPrefix(s.hist.resolved, ReplyIds(Returning(s)), s.hist.ran);
    var more := CallIds(ItemFrames(s.client.pending)) + StrandIds(s.client.strand);
    Regroup(s.hist.taken, CallIds(InTransit(Up(s))), more);
    SubseqLonger(s.hist.ran, s.hist.taken, CallIds(InTransit(Up(s))) + more);
  }
}
