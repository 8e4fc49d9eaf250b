/** In which order calls travel: strand order to the server under any schedule,
    and all the way back with one worker and a FIFO job queue. */
module Order {
  import opened MsgPack
  import opened Framing
  import opened Messages
  import opened ThisState
  import opened AsyncWriting
  import opened ServerSessions
  import opened Clients
  import opened Pipes
  import opened Rpc
  import opened Systems
  import opened Simulation
  import opened Guarantees

  function StrandIds(strand: seq<Task>): seq<Int32> {
    if strand == [] then []
    else (if strand[0].DoCall? then [strand[0].id] else []) + StrandIds(strand[1..])
  }

  lemma {:induction false} StrandIdsAppend(xs: seq<Task>, ys: seq<Task>)
    ensures StrandIds(xs + ys) == StrandIds(xs) + StrandIds(ys)
  {
    if xs == [] {
      assert xs + ys == ys;
    } else {
      var zs := xs + ys;
      assert zs[1..] == xs[1..] + ys;
      StrandIdsAppend(xs[1..], ys);
      Regroup(if xs[0].DoCall? then [xs[0].id] else [], StrandIds(xs[1..]), StrandIds(ys));
    }
  }

  lemma {:induction false} CallIdsAppend(xs: seq<Obj>, ys: seq<Obj>)
    ensures CallIds(xs + ys) == CallIds(xs) + CallIds(ys)
  {
    hide ParseRequest;
    if xs == [] {
      assert xs + ys == ys;
    } else {
      var zs := xs + ys;
      assert zs[1..] == xs[1..] + ys;
      CallIdsAppend(xs[1..], ys);
      Regroup(if IsCall(xs[0]) then [ParseRequest(xs[0]).id] else [], CallIds(xs[1..]), CallIds(ys));
    }
  }

  lemma CallIdsOne(f: Obj)
    ensures CallIds([f]) == if IsCall(f) then [ParseRequest(f).id] else []
  {
    hide ParseRequest;
    assert CallIds([f]) == (if IsCall(f) then [ParseRequest(f).id] else []) + CallIds([]);
  }

  lemma NoIds()
    ensures CallIds([]) == [] && ItemFrames([]) == []
  {
  }

  /** The calls posted so far are, in order and each where it belongs, those the
      server has unpacked, those in transit, those pending and those still in
      the strand; the writer was handed exactly the first two groups. */
  ghost predicate StrandOrder(s: Sys)
    requires SysOk(s)
  {
    && s.hist.handed == s.hist.taken + CallIds(InTransit(Up(s)))
    && s.hist.posted == s.hist.handed + (CallIds(ItemFrames(s.client.pending)) + StrandIds(s.client.strand))
  }

  /** The ids x move from those pending or in the strand to the writer. */
  lemma OrderMoved(s: Sys, t: Sys, x: seq<Int32>)
    requires SysOk(s) && SysOk(t) && StrandOrder(s)
    requires t.hist.posted == s.hist.posted && t.hist.taken == s.hist.taken && t.hist.handed == s.hist.handed + x
    requires CallIds(InTransit(Up(t))) == CallIds(InTransit(Up(s))) + x
    requires CallIds(ItemFrames(s.client.pending)) + StrandIds(s.client.strand)
      == x + (CallIds(ItemFrames(t.client.pending)) + StrandIds(t.client.strand))
    ensures StrandOrder(t)
  {
    hide PipeOk, TaskOk, ItemOk, InTransit, ItemFrames, CallIds, StrandIds;
    Regroup(s.hist.taken, CallIds(InTransit(Up(s))), x);
    Regroup(s.hist.handed, x, CallIds(ItemFrames(t.client.pending)) + StrandIds(t.client.strand));
  }

  lemma StrandIdsPop(strand: seq<Task>)
    requires strand != []
    ensures StrandIds(strand) == (if strand[0].DoCall? then [strand[0].id] else []) + StrandIds(strand[1..])
    ensures !strand[0].DoCall? ==> StrandIds(strand) == StrandIds(strand[1..])
  {
    hide StrandIds;
    StrandIdsDef(strand);
    assert [] + StrandIds(strand[1..]) == StrandIds(strand[1..]);
  }

  lemma StrandIdsDef(strand: seq<Task>)
    requires strand != []
    ensures StrandIds(strand) == (if strand[0].DoCall? then [strand[0].id] else []) + StrandIds(strand[1..])
  {
  }

  /** What the handler at the front of the strand leaves behind. */
  lemma PopEffects(s: Sys, t: Sys)
    requires Pops(s, t)
    ensures t.client.strand == s.client.strand[1..]
    ensures
      var p := Up(s).(w := WriteAll(s.client.writer, s.client.pending));
      match s.client.strand[0]
      case DoCall(_, _, buffer) =>
        if s.client.connected then
          t.client.pending == Emptied(s.client.pending) && Up(t) == p.(w := Accept(p.w, buffer, false))
        else t.client.pending == s.client.pending + [buffer] && Up(t) == Up(s)
      case DoNotify(buffer) =>
        t.client.pending == s.client.pending && Up(t) == Up(s).(w := Accept(s.client.writer, buffer, false))
      case Flush => t.client.pending == Emptied(s.client.pending) && Up(t) == p
      case Erase(_) => t.client.pending == s.client.pending && Up(t) == Up(s)
  {
    hide Accept, WriteAll, Emptied;
  }

  lemma CallMoves(p: seq<Int32>, id: Int32, r: seq<Int32>)
    ensures p + ([id] + r) == (p + [id]) + ([] + r)
    ensures p + ([id] + r) == [] + ((p + [id]) + r)
  {
  }

  /** The call handler's own request: its frame and its id. */
  lemma CallTask(s: Sys, n: nat, id: Int32, buffer: Bytes)
    requires TaskOk(s, DoCall(n, id, buffer))
    ensures ItemOk(buffer) && |Frames(buffer)| == 1 && CallIds(Frames(buffer)) == [id]
  {
    hide Encode, Frames, Framed, ItemOk, CallIds, NthId, RequestFrame, ParseRequest;
    var f := RequestFrame(IdOf(n), s.calls[n].name, s.calls[n].args);
    OneFrame(f);
    RequestParses(n, s.calls[n]);
    CallIdsOne(f);
  }

  lemma OrderAfterCall(s: Sys, t: Sys)
    requires SysOk(s) && SysOk(t) && StrandOrder(s) && Pops(s, t) && s.client.strand[0].DoCall?
    requires t.hist == s.hist.(handed := s.hist.handed + CallIds(ItemFrames(HandedBy(s.client, s.client.strand[0]))))
    ensures StrandOrder(t)
  {
    hide Encode, Frames, Framed, Next, ParseRequest, ParseResponse, NotificationFrame, Observed, JobOn;
    hide PipeOk, InTransit, ItemOk, ItemFrames, AnswerFrames, PostedFrames, CallsIn, ErasuresIn, CallIds;
    NoIds();
    var task := s.client.strand[0];
    assert TaskOk(s, task);
    CallTask(s, task.n, task.id, task.buffer);
    PopEffects(s, t);
    StrandIdsPop(s.client.strand);
    hide SysOk, TaskOk, StrandOrder, StrandIds, Pops, WriteAll, Accept, IdOf;
    var pending, f := s.client.pending, Frames(task.buffer);
    ItemFramesAppend(pending, [task.buffer]);
    ItemFramesOne(task.buffer);
    CallIdsAppend(ItemFrames(pending), f);
    CallMoves(CallIds(ItemFrames(pending)), task.id, StrandIds(t.client.strand));
    if s.client.connected {
      CallEntersTransit(s, t, task.buffer, f[0]);
      CallIdsAppend(InTransit(Up(s)), ItemFrames(pending) + f);
      OrderMoved(s, t, CallIds(ItemFrames(pending)) + [task.id]);
    } else {
      assert CallIds(InTransit(Up(s))) + [] == CallIds(InTransit(Up(s)));
      OrderMoved(s, t, []);
    }
  }

  lemma CallEntersTransit(s: Sys, t: Sys, buffer: Bytes, f: Obj)
    requires SysOk(s) && SysOk(t) && Pops(s, t) && s.client.connected && ItemOk(buffer) && Frames(buffer) == [f]
    requires s.client.strand[0].DoCall? && s.client.strand[0].buffer == buffer
    ensures InTransit(Up(t)) == InTransit(Up(s)) + (ItemFrames(s.client.pending) + [f])
    ensures ItemFrames(t.client.pending) == []
  {
    hide Encode, Frames, Framed, Next, ParseRequest, ParseResponse, NotificationFrame, Observed, JobOn;
    hide PipeOk, InTransit, ItemOk, ItemFrames, AnswerFrames, PostedFrames, CallsIn, ErasuresIn, CallIds;
    Flushed(s);
    PopEffects(s, t);
    hide Pops, WriteAll, Accept;
    var p := Up(s).(w := WriteAll(s.client.writer, s.client.pending));
    PushItem(p, buffer, false);
    Regroup(InTransit(Up(s)), ItemFrames(s.client.pending), [f]);
  }

  lemma OrderAfterFlush(s: Sys, t: Sys)
    requires SysOk(s) && SysOk(t) && StrandOrder(s) && Pops(s, t) && s.client.strand[0].Flush?
    requires t.hist == s.hist.(handed := s.hist.handed + CallIds(ItemFrames(s.client.pending)))
    ensures StrandOrder(t)
  {
    hide Encode, Frames, Framed, Next, ParseRequest, ParseResponse, NotificationFrame, Observed, JobOn;
    hide PipeOk, InTransit, ItemOk, ItemFrames, AnswerFrames, PostedFrames, CallsIn, ErasuresIn, CallIds;
    NoIds();
    Flushed(s);
    PopEffects(s, t);
    StrandIdsPop(s.client.strand);
    hide SysOk, StrandOrder, StrandIds, Pops, WriteAll;
    var p, r := CallIds(ItemFrames(s.client.pending)), StrandIds(t.client.strand);
    CallIdsAppend(InTransit(Up(s)), ItemFrames(s.client.pending));
    assert [] + r == r;
    OrderMoved(s, t, p);
  }

  lemma OrderAfterNotify(s: Sys, t: Sys)
    requires SysOk(s) && SysOk(t) && StrandOrder(s) && Pops(s, t) && s.client.strand[0].DoNotify?
    requires t.hist == s.hist.(handed := s.hist.handed + CallIds(ItemFrames([s.client.strand[0].buffer])))
    ensures StrandOrder(t)
  {
    hide Encode, Frames, Framed, Next, ParseRequest, ParseResponse, NotificationFrame, Observed, JobOn;
    hide PipeOk, InTransit, ItemOk, ItemFrames, AnswerFrames, PostedFrames, CallsIn, ErasuresIn, CallIds;
    var buffer := s.client.strand[0].buffer;
    assert TaskOk(s, s.client.strand[0]);
    NotifyTask(buffer);
    PushItem(Up(s), buffer, false);
    PopEffects(s, t);
    StrandIdsPop(s.client.strand);
    hide SysOk, TaskOk, StrandOrder, StrandIds, Pops, Accept;
    CallIdsAppend(InTransit(Up(s)), Frames(buffer));
    var rest := CallIds(ItemFrames(s.client.pending)) + StrandIds(s.client.strand);
    assert [] + rest == rest;
    OrderMoved(s, t, []);
  }

  lemma NotifyTask(buffer: Bytes)
    requires |Frames(buffer)| == 1 && ParseRequest(Frames(buffer)[0]).Notification?
    ensures ItemFrames([buffer]) == Frames(buffer) && CallIds(Frames(buffer)) == []
  {
    hide Frames, ItemFrames, CallIds, ParseRequest;
    ItemFramesOne(buffer);
    CallIdsOne(Frames(buffer)[0]);
    assert Frames(buffer) == [Frames(buffer)[0]];
  }

  /** Steps that move no call between the groups. */
  lemma OrderKept(s: Sys, t: Sys)
    requires SysOk(s) && SysOk(t) && StrandOrder(s)
    requires t.hist.posted == s.hist.posted && t.hist.handed == s.hist.handed && t.hist.taken == s.hist.taken
    requires CallIds(InTransit(Up(t))) == CallIds(InTransit(Up(s)))
    requires CallIds(ItemFrames(t.client.pending)) == CallIds(ItemFrames(s.client.pending))
    requires StrandIds(t.client.strand) == StrandIds(s.client.strand)
    ensures StrandOrder(t)
  {
    hide PipeOk, TaskOk, ItemOk, InTransit, ItemFrames, CallIds, StrandIds;
  }

  lemma OrderAfterTaking(s: Sys, t: Sys)
    requires SysOk(s) && SysOk(t) && StrandOrder(s) && Next(s.upBuf).Got?
    requires InTransit(Up(s)) == [Next(s.upBuf).value] + InTransit(Up(t))
    requires t.client == s.client
    requires t.hist.posted == s.hist.posted && t.hist.handed == s.hist.handed
    requires t.hist.taken == s.hist.taken + CallIds([Next(s.upBuf).value])
    ensures StrandOrder(t)
  {
    hide Encode, Frames, Framed, Next, ParseRequest, ParseResponse, NotificationFrame, Observed, JobOn;
    hide PipeOk, InTransit, ItemOk, ItemFrames, AnswerFrames, PostedFrames, CallsIn, ErasuresIn, CallIds;
    var v: Obj := Next(s.upBuf).value;
    CallIdsAppend([v], InTransit(Up(t)));
    Regroup(s.hist.taken, CallIds([v]), CallIds(InTransit(Up(t))));
  }

  lemma OrderAfterWriteFails(cfg: Config, s: Sys, t: Sys, broken: bool)
    requires SysOk(s) && SysOk(t) && StrandOrder(s) && RequestsOk(CoreOf(s))
    requires Possible(s.client.writer, Fail(broken, false))
    requires t == s.(client := s.client.(writer := Apply(s.client.writer, Fail(broken, false))))
    ensures StrandOrder(t)
  {
    hide Encode, Frames, Framed, Next, ParseRequest, ParseResponse, NotificationFrame, Observed, JobOn;
    hide PipeOk, InTransit, ItemOk, ItemFrames, AnswerFrames, PostedFrames, CallsIn, ErasuresIn, CallIds;
    hide RequestsOk;
    var p := Up(s);
    Failing(p, broken, false);
    if Forgiven(p.w.queue[0], broken) {
      QueueItemsOk(p);
      FailedFront(p.w, broken);
      var f := Frames(p.w.queue[0])[0];
      assert Frames(p.w.queue[0]) == [f];
      DropMiddle(Frames(Wire(p)), f, ItemFrames(p.w.queue[1..]));
      assert f in InTransit(p);
      assert f in CoreOf(s).requests;
      NotACall(CoreOf(s), f);
      CallIdsOne(f);
      CallIdsAppend(Frames(Wire(p)), [f] + ItemFrames(p.w.queue[1..]));
      CallIdsAppend([f], ItemFrames(p.w.queue[1..]));
      CallIdsAppend(Frames(Wire(p)), ItemFrames(p.w.queue[1..]));
      assert [] + CallIds(ItemFrames(p.w.queue[1..])) == CallIds(ItemFrames(p.w.queue[1..]));
    }
    OrderKept(s, t);
  }

  lemma NotACall(c: Core, f: Obj)
    requires RequestsOk(c) && f in c.requests && ArraySize(f) == 3
    ensures !IsCall(f)
  {
  }

  lemma OrderAfterPost(s: Sys, t: Sys, n: nat, buffer: Bytes)
    requires SysOk(s) && SysOk(t) && StrandOrder(s)
    requires t.client.strand == s.client.strand + [DoCall(n, IdOf(n), buffer)]
    requires t.client.pending == s.client.pending && Up(t) == Up(s)
    requires t.hist == s.hist.(posted := s.hist.posted + [IdOf(n)])
    ensures StrandOrder(t)
  {
    hide Encode, Frames, Framed, Next, ParseRequest, ParseResponse, NotificationFrame, Observed, JobOn;
    hide PipeOk, InTransit, ItemOk, ItemFrames, AnswerFrames, PostedFrames, CallsIn, ErasuresIn, CallIds;
    var task := DoCall(n, IdOf(n), buffer);
    StrandIdsAppend(s.client.strand, [task]);
    assert StrandIds([task]) == [IdOf(n)] + StrandIds([]);
    var p, r := CallIds(ItemFrames(s.client.pending)), StrandIds(s.client.strand);
    Regroup(p, r, [IdOf(n)]);
    Regroup(s.hist.handed, p + r, [IdOf(n)]);
  }

  lemma PostingOther(strand: seq<Task>, task: Task)
    requires !task.DoCall?
    ensures StrandIds(strand + [task]) == StrandIds(strand)
  {
    StrandIdsAppend(strand, [task]);
    assert StrandIds([task]) == [] + StrandIds([]);
  }

  lemma StrandStepKeepsOrder(s: Sys, t: Sys)
    requires SysOk(s) && SysOk(t) && StrandOrder(s) && Pops(s, t)
    requires t.hist == s.hist.(handed := s.hist.handed + CallIds(ItemFrames(HandedBy(s.client, s.client.strand[0]))))
    ensures StrandOrder(t)
  {
    hide Encode, Frames, Framed, Next, ParseRequest, ParseResponse, NotificationFrame, Observed, JobOn;
    hide PipeOk, InTransit, ItemOk, ItemFrames, AnswerFrames, PostedFrames, CallsIn, ErasuresIn, CallIds;
    match s.client.strand[0]
    case DoCall(_, _, _) => OrderAfterCall(s, t);
    case DoNotify(_) => OrderAfterNotify(s, t);
    case Flush => OrderAfterFlush(s, t);
    case Erase(_) =>
      NoIds();
      assert StrandIds(s.client.strand) == [] + StrandIds(t.client.strand);
      assert s.hist.handed + [] == s.hist.handed;
      OrderKept(s, t);
  }

  lemma PostingKeepsOrder(cfg: Config, s: Sys, step: Step)
    requires Good(cfg, s) && Enabled(cfg, s, step) && StrandOrder(s) && Good(cfg, Do(cfg, s, step))
    requires step.PostCall? || step.PostNotification? || step.Connects? || step.ClientUnpacks?
    ensures StrandOrder(Do(cfg, s, step))
  {
    hide Encode, Frames, Framed, Next, ParseRequest, ParseResponse, NotificationFrame, Observed, JobOn;
    hide PipeOk, InTransit, ItemOk, ItemFrames, AnswerFrames, PostedFrames, CallsIn, ErasuresIn, CallIds;
    hide Inv;
    var t := Do(cfg, s, step);
    match step
    case PostCall(n) =>
      OrderAfterPost(s, t, n, Encode(RequestFrame(IdOf(n), s.calls[n].name, s.calls[n].args)));
    case PostNotification(name, args) =>
      PostingOther(s.client.strand, DoNotify(Encode(NotificationFrame(name, args))));
      OrderKept(s, t);
    case Connects =>
      PostingOther(s.client.strand, Flush);
      OrderKept(s, t);
    case ClientUnpacks =>
      PostingOther(s.client.strand, Erase(ToInt32(ParseResponse(Next(s.downBuf).value).value.id)));
      OrderKept(s, t);
  }

  lemma OrderAfterSend(s: Sys, t: Sys, k: nat)
    requires SysOk(s) && SysOk(t) && StrandOrder(s) && Possible(s.client.writer, Transmit(k))
    requires t == s.(client := s.client.(writer := Apply(s.client.writer, Transmit(k))),
                     upNet := s.upNet + Leaving(s.client.writer, k))
    ensures StrandOrder(t)
  {
    hide Encode, Frames, Framed, Next, ParseRequest, ParseResponse, NotificationFrame, Observed, JobOn;
    hide PipeOk, InTransit, ItemOk, ItemFrames, AnswerFrames, PostedFrames, CallsIn, ErasuresIn, CallIds;
    Send(Up(s), k);
    OrderKept(s, t);
  }

  lemma OrderAfterWritten(s: Sys, t: Sys)
    requires SysOk(s) && SysOk(t) && StrandOrder(s) && Possible(s.client.writer, Done(false))
    requires t == s.(client := s.client.(writer := Apply(s.client.writer, Done(false))))
    ensures StrandOrder(t)
  {
    hide Encode, Frames, Framed, Next, ParseRequest, ParseResponse, NotificationFrame, Observed, JobOn;
    hide PipeOk, InTransit, ItemOk, ItemFrames, AnswerFrames, PostedFrames, CallsIn, ErasuresIn, CallIds;
    Complete(Up(s), false);
    OrderKept(s, t);
  }

  lemma ClientTransportKeepsOrder(cfg: Config, s: Sys, step: Step)
    requires Good(cfg, s) && Enabled(cfg, s, step) && StrandOrder(s) && Good(cfg, Do(cfg, s, step))
    requires step.ClientSends? || step.ClientWritten? || step.ClientWriteFails?
    ensures StrandOrder(Do(cfg, s, step))
  {
    hide Encode, Frames, Framed, Next, ParseRequest, ParseResponse, NotificationFrame, Observed, JobOn;
    hide PipeOk, InTransit, ItemOk, ItemFrames, AnswerFrames, PostedFrames, CallsIn, ErasuresIn, CallIds;
    hide Inv, SysOk, StrandOrder, Possible, Apply, Leaving, RequestsOk, RepliesOk;
    var t := Do(cfg, s, step);
    match step
    case ClientSends(k) => OrderAfterSend(s, t, k);
    case ClientWritten => OrderAfterWritten(s, t);
    case ClientWriteFails(broken) =>
      RequestsAndReplies(cfg, s);
      OrderAfterWriteFails(cfg, s, t, broken);
  }

  lemma ClientKeepsOrder(cfg: Config, s: Sys, step: Step)
    requires Good(cfg, s) && Enabled(cfg, s, step) && !ByServer(step) && StrandOrder(s)
    requires Good(cfg, Do(cfg, s, step))
    ensures StrandOrder(Do(cfg, s, step))
  {
    hide Encode, Frames, Framed, Next, ParseRequest, ParseResponse, NotificationFrame, Observed, JobOn;
    hide PipeOk, InTransit, ItemOk, ItemFrames, AnswerFrames, PostedFrames, CallsIn, ErasuresIn, CallIds;
    hide Inv, SysOk, StrandOrder, RunTask, Apply, Possible, Leaving;
    if step.PostCall? || step.PostNotification? || step.Connects? || step.ClientUnpacks? {
      PostingKeepsOrder(cfg, s, step);
    } else if step.ClientSends? || step.ClientWritten? || step.ClientWriteFails? {
      ClientTransportKeepsOrder(cfg, s, step);
    } else if step.RunStrand? {
      StrandStepKeepsOrder(s, Do(cfg, s, step));
    } else {
      OrderKept(s, Do(cfg, s, step));
    }
  }

  lemma ServerLeavesUp(cfg: Config, s: Sys, step: Step)
    requires Enabled(cfg, s, step) && ByServer(step)
    requires !step.ServerReads? && !step.ServerUnpacks? && !step.ServerDiscards?
    ensures
      var t := Do(cfg, s, step);
      && t.client == s.client && Up(t) == Up(s)
      && t.hist.posted == s.hist.posted && t.hist.handed == s.hist.handed && t.hist.taken == s.hist.taken
  {
    hide Encode, Frames, Framed, Next, ParseRequest, ParseResponse, NotificationFrame, Observed, JobOn;
    hide PipeOk, InTransit, ItemOk, ItemFrames, AnswerFrames, PostedFrames, CallsIn, ErasuresIn, CallIds;
  }

  lemma ServerKeepsOrder(cfg: Config, s: Sys, step: Step)
    requires Good(cfg, s) && Enabled(cfg, s, step) && ByServer(step) && StrandOrder(s)
    requires Good(cfg, Do(cfg, s, step))
    ensures StrandOrder(Do(cfg, s, step))
  {
    hide Encode, Frames, Framed, Next, ParseRequest, ParseResponse, NotificationFrame, Observed, JobOn;
    hide PipeOk, InTransit, ItemOk, ItemFrames, AnswerFrames, PostedFrames, CallsIn, ErasuresIn, CallIds;
    hide Inv, JobStep, SessionStep;
    var t := Do(cfg, s, step);
    if step.ServerReads? {
      Pipes.Receive(Up(s), step.count);
      OrderKept(s, t);
    } else if step.ServerUnpacks? || step.ServerDiscards? {
      TakenUp(s, t);
      OrderAfterTaking(s, t);
    } else {
      ServerLeavesUp(cfg, s, step);
      OrderKept(s, t);
    }
  }

  /** However the connect handler, its flush, call handlers and completions
      interleave, and although pending buffers are flushed again and again, calls
      reach the writer and then the server in the order of the strand, each once. */
  lemma {:induction false} StrandOrderAlways(cfg: Config, s: Sys, steps: seq<Step>)
    requires Good(cfg, s) && StrandOrder(s) && Executes(cfg, s, steps)
    ensures Good(cfg, After(cfg, s, steps)) && StrandOrder(After(cfg, s, steps))
    decreases |steps|
  {
    hide Encode, Frames, Framed, Next, ParseRequest, ParseResponse, NotificationFrame, Observed, JobOn;
    hide PipeOk, InTransit, ItemOk, ItemFrames, AnswerFrames, PostedFrames, CallsIn, ErasuresIn, CallIds;
    hide Inv, Enabled, Do, StrandOrder;
    if steps != [] {
      var t := Do(cfg, s, steps[0]);
      StepSimulates(cfg, s, steps[0]);
      if ByServer(steps[0]) {
        ServerKeepsOrder(cfg, s, steps[0]);
      } else {
        ClientKeepsOrder(cfg, s, steps[0]);
      }
      StrandOrderAlways(cfg, t, steps[1..]);
    }
  }

  /** From the start, on any number of workers: what the server has unpacked is a
      prefix of what the writer was handed, which is a prefix of what was posted. */
  lemma CallsKeepStrandOrder(cfg: Config, left: seq<Locals>, steps: seq<Step>)
    requires Executes(cfg, Initial(left), steps)
    ensures
      var s := After(cfg, Initial(left), steps);
      && SysOk(s) && StrandOrder(s)
      && s.hist.taken <= s.hist.handed <= s.hist.posted
  {
    hide Executes, After, PipeOk, InTransit, ItemFrames, CallIds, StrandIds, Inv;
    InitialGood(cfg, left);
    InitialStrandOrder(Initial(left));
    StrandOrderAlways(cfg, Initial(left), steps);
  }

  lemma InitialStrandOrder(s: Sys)
    requires SysOk(s) && s == Initial(s.server.locals)
    ensures StrandOrder(s)
  {
    hide PipeOk, InTransit, ItemFrames, CallIds;
    EmptyPipes(s);
    NoIds();
  }
}
