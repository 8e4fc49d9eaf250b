/** Once connected, the system's own steps run out, and where they have run out
    every future is ready. */
module Progress {
  import opened MsgPack
  import opened Framing
  import opened Messages
  import opened ThisState
  import opened AsyncWriting
  import opened Dispatching
  import opened ServerSessions
  import opened Clients
  import opened Pipes
  import opened Rpc
  import opened Systems
  import opened Simulation
  import opened Guarantees

  /** The steps that finish work already begun: no new calls, no connecting, no
      write faults, no closes. */
  predicate Working(step: Step) {
    || step.PostCall? || step.RunStrand? || step.ClientSends? || step.ClientWritten?
    || step.ServerReads? || step.ServerUnpacks? || step.RunJob? || step.WorkerPosts?
    || (step.RunSessionTask? && !step.raced) || step.ServerSends? || (step.ServerWritten? && !step.raced)
    || step.ClientReads? || step.ClientUnpacks?
  }

  // ----------------------------------------------------------------- measure

  /** Four per byte still to leave, one for the completion. */
  function ItemCost(item: Bytes): nat {
    4 * |item| + 1
  }

  function ItemsCost(items: seq<Bytes>): nat {
    if items == [] then 0 else ItemsCost(items[..|items| - 1]) + ItemCost(items[|items| - 1])
  }

  function WriterCost(w: Writer): int {
    ItemsCost(w.queue) - (if w.flight.Idle? then 0 else 4 * w.flight.sent)
  }

  /** A call or a flush writes each of the k pending buffers once more, however
      stale. */
  function HandlerCost(t: Task, k: nat): nat {
    match t
    case DoCall(_, _, buffer) => 1 + k + ItemCost(buffer)
    case DoNotify(buffer) => 1 + ItemCost(buffer)
    case Flush => 1 + k
    case Erase(_) => 0
  }

  function StrandCost(strand: seq<Task>, k: nat): nat {
    if strand == [] then 0 else HandlerCost(strand[0], k) + StrandCost(strand[1..], k)
  }

  /** What is left to do up to the running of the last job. */
  function Outward(s: Sys): int {
    StrandCost(s.client.strand, |s.client.pending|)
    + ItemsCost(s.client.pending) + WriterCost(s.client.writer)
    + 3 * |s.upNet| + 2 * |s.upBuf| + |s.server.jobs|
  }

  function TaskCost(t: SessionTask): nat {
    1 + if t.SendAnswer? then ItemCost(Encode(ResponseFrame(t.answer))) else 0
  }

  function TasksCost(tasks: seq<SessionTask>): nat {
    if tasks == [] then 0 else TaskCost(tasks[0]) + TasksCost(tasks[1..])
  }

  function PostingCost(posting: seq<seq<SessionTask>>): nat {
    if posting == [] then 0 else TasksCost(posting[0]) + |posting[0]| + PostingCost(posting[1..])
  }

  /** What is left to do from the workers back to the promises. */
  function Homeward(s: Sys): int {
    PostingCost(s.server.posting) + TasksCost(s.server.tasks) + WriterCost(s.server.out)
    + 3 * |s.downNet| + 2 * |s.downBuf|
  }

  function Erasures(s: Sys): nat {
    |ErasuresIn(s.client.strand)|
  }

  /** Lexicographic: ids not yet posted, then the way out, the way home, and the
      erasures. */
  predicate Lower(t: Sys, s: Sys) {
    if |t.allotted| != |s.allotted| then |t.allotted| < |s.allotted|
    else if Outward(t) != Outward(s) then Outward(t) < Outward(s)
    else if Homeward(t) != Homeward(s) then Homeward(t) < Homeward(s)
    else Erasures(t) < Erasures(s)
  }

  lemma ItemsCostSnoc(items: seq<Bytes>, item: Bytes)
    ensures ItemsCost(items + [item]) == ItemsCost(items) + ItemCost(item)
  {
    assert (items + [item])[..|items|] == items;
  }

  lemma {:induction false} ItemsCostFront(items: seq<Bytes>)
    requires items != []
    ensures ItemsCost(items) == ItemCost(items[0]) + ItemsCost(items[1..])
  {
    var last, init := items[|items| - 1], items[..|items| - 1];
    if |items| > 1 {
      ItemsCostFront(init);
      assert items[1..][..|items| - 2] == init[1..];
    }
  }

  lemma WriterCostIsNat(w: Writer)
    requires Sound(w)
    ensures WriterCost(w) >= 0
  {
    if !w.flight.Idle? {
      ItemsCostFront(w.queue);
    }
  }

  lemma MeasureIsNat(s: Sys)
    requires SysOk(s)
    ensures Outward(s) >= 0 && Homeward(s) >= 0
  {
    hide Frames, Framed, Next, Encode, ItemOk;
    WriterCostIsNat(s.client.writer);
    WriterCostIsNat(s.server.out);
  }

  lemma AcceptCost(w: Writer, item: Bytes, raced: bool)
    requires Sound(w) && !w.exit
    ensures WriterCost(Accept(w, item, raced)) == WriterCost(w) + ItemCost(item)
  {
    ItemsCostSnoc(w.queue, item);
    assert [] + [item] == [item];
  }

  /** Writing buffers moves their cost to the writer; what stays behind is empty
      and costs one apiece. */
  lemma {:induction false} WriteAllCost(w: Writer, items: seq<Bytes>)
    requires Sound(w) && !w.exit
    ensures WriterCost(WriteAll(w, items)) == WriterCost(w) + ItemsCost(items)
    decreases |items|
  {
    if items != [] {
      var init, last := items[..|items| - 1], items[|items| - 1];
      WriteAllOpen(w, init);
      WriteAllCost(w, init);
      AcceptCost(WriteAll(w, init), last, false);
    }
  }

  lemma {:induction false} EmptiedCost(items: seq<Bytes>)
    requires forall i :: 0 <= i < |items| ==> items[i] == []
    ensures ItemsCost(items) == |items|
  {
    if items != [] {
      EmptiedCost(items[..|items| - 1]);
    }
  }

  lemma PopCost(w: Writer, raced: bool)
    requires Sound(w) && Possible(w, Done(raced))
    ensures WriterCost(PopFront(w, raced)) == WriterCost(w) - 1
  {
    ItemsCostFront(w.queue);
  }

  lemma {:induction false} StrandCostAppend(strand: seq<Task>, t: Task, k: nat)
    ensures StrandCost(strand + [t], k) == StrandCost(strand, k) + HandlerCost(t, k)
  {
    if strand == [] {
      assert strand + [t] == [t];
      assert StrandCost([t], k) == HandlerCost(t, k) + StrandCost([], k);
    } else {
      assert (strand + [t])[1..] == strand[1..] + [t];
      StrandCostAppend(strand[1..], t, k);
    }
  }

  lemma {:induction false} TasksCostAppend(tasks: seq<SessionTask>, t: SessionTask)
    ensures TasksCost(tasks + [t]) == TasksCost(tasks) + TaskCost(t)
  {
    hide TaskCost;
    if tasks == [] {
      assert tasks + [t] == [t];
      assert TasksCost([t]) == TaskCost(t) + TasksCost([]);
    } else {
      assert (tasks + [t])[1..] == tasks[1..] + [t];
      TasksCostAppend(tasks[1..], t);
    }
  }

  lemma {:induction false} PostingCostUpdate(posting: seq<seq<SessionTask>>, w: nat, tasks: seq<SessionTask>)
    requires w < |posting|
    ensures PostingCost(posting[w := tasks]) + TasksCost(posting[w]) + |posting[w]|
      == PostingCost(posting) + TasksCost(tasks) + |tasks|
  {
    hide TasksCost;
    var after := posting[w := tasks];
    if w == 0 {
      assert after[1..] == posting[1..];
    } else {
      assert after[1..] == posting[1..][w - 1 := tasks];
      PostingCostUpdate(posting[1..], w - 1, tasks);
    }
  }

  // -------------------------------------------------- every step lowers it

  /** Writing the pending buffers once more costs what the handler was charged. */
  lemma FlushCost(c: Client)
    requires Sound(c.writer) && !c.writer.exit
    ensures
      var d := FlushPending(c);
      && WriterCost(d.writer) + ItemsCost(d.pending) == WriterCost(c.writer) + ItemsCost(c.pending) + |c.pending|
      && |d.pending| == |c.pending| && Sound(d.writer) && !d.writer.exit
  {
    WriteAllCost(c.writer, c.pending);
    WriteAllOpen(c.writer, c.pending);
    EmptiedCost(Emptied(c.pending));
  }

  lemma StrandLowers(s: Sys, t: Sys)
    requires SysOk(s) && s.client.connected && Pops(s, t)
    ensures Lower(t, s) && t.client.connected
  {
    hide Frames, Framed, Next, Encode, ItemOk, InTransit, ItemsCost, WriteAll, PostingCost, TasksCost;
    var c, task := s.client, s.client.strand[0];
    assert StrandCost(c.strand, |c.pending|) == HandlerCost(task, |c.pending|) + StrandCost(c.strand[1..], |c.pending|);
    var c1 := c.(strand := c.strand[1..]);
    match task
    case DoCall(n, id, buffer) =>
      var c2 := c1.(ongoing := c1.ongoing[id := Of(n)]);
      FlushCost(c2);
      AcceptCost(FlushPending(c2).writer, buffer, false);
    case DoNotify(buffer) => AcceptCost(c.writer, buffer, false);
    case Flush => FlushCost(c1);
    case Erase(_) => assert ErasuresIn(c.strand) == [task.id] + ErasuresIn(c.strand[1..]);
  }

  lemma PostCallLowers(s: Sys, t: Sys, n: nat)
    requires n in s.allotted && t.allotted == s.allotted - {n}
    ensures Lower(t, s)
  {
    hide Outward, Homeward, Erasures;
    assert s.allotted == t.allotted + {n};
  }

  lemma ClientWriterLowers(s: Sys, t: Sys, done: bool, k: nat)
    requires SysOk(s) && Possible(s.client.writer, if done then Done(false) else Transmit(k))
    requires
      if done then t == s.(client := s.client.(writer := Apply(s.client.writer, Done(false))))
      else t == s.(client := s.client.(writer := Apply(s.client.writer, Transmit(k))),
                   upNet := s.upNet + Leaving(s.client.writer, k))
    ensures Lower(t, s)
  {
    hide PipeOk, TaskOk, ItemOk, ItemsCost, StrandCost, PostingCost, TasksCost, ErasuresIn;
    if done {
      WriterOk(Up(s));
      PopCost(s.client.writer, false);
    }
  }

  lemma WriterOk(p: Pipe)
    requires PipeOk(p)
    ensures Sound(p.w)
  {
    hide Frames, Framed, ItemOk;
  }

  lemma ResolvingLowers(s: Sys, t: Sys, id: Int32)
    requires |t.downBuf| < |s.downBuf| && t.client.strand == s.client.strand + [Erase(id)]
    requires t.allotted == s.allotted && t.client.pending == s.client.pending && t.client.writer == s.client.writer
    requires Up(t) == Up(s) && t.downNet == s.downNet && t.server == s.server
    ensures Lower(t, s)
  {
    hide ItemsCost, StrandCost, PostingCost, TasksCost, ErasuresIn;
    StrandCostAppend(s.client.strand, Erase(id), |s.client.pending|);
  }

  lemma ReadingLowers(s: Sys, t: Sys, k: nat)
    requires
      || (0 < k <= |s.upNet| && t == s.(upNet := s.upNet[k..], upBuf := s.upBuf + s.upNet[..k]))
      || (0 < k <= |s.downNet| && t == s.(downNet := s.downNet[k..], downBuf := s.downBuf + s.downNet[..k]))
    ensures Lower(t, s)
  {
    hide ItemsCost, StrandCost, PostingCost, TasksCost, ErasuresIn;
  }

  lemma UnpackingLowers(s: Sys, t: Sys, v: Obj)
    requires |t.upBuf| < |s.upBuf|
    requires t == s.(upBuf := t.upBuf, server := s.server.(jobs := s.server.jobs + [v]), hist := t.hist)
    ensures Lower(t, s)
  {
    hide ItemsCost, StrandCost, PostingCost, TasksCost, ErasuresIn;
  }

  lemma JobLowers(cfg: Config, s: Sys, t: Sys, i: nat, w: nat, world: World)
    requires Runs(cfg, s, t, i, w, world)
    ensures Lower(t, s) && t.client == s.client
  {
    hide ItemsCost, StrandCost, PostingCost, TasksCost, ErasuresIn, JobOn, RequestOwner, CallIds;
    assert |t.server.jobs| == |s.server.jobs| - 1;
  }

  lemma ServerWriterLowers(s: Sys, t: Sys, done: bool, k: nat)
    requires SysOk(s) && Possible(s.server.out, if done then Done(false) else Transmit(k))
    requires
      if done then t == s.(server := s.server.(out := Apply(s.server.out, Done(false))))
      else t == s.(server := s.server.(out := Apply(s.server.out, Transmit(k))),
                   downNet := s.downNet + Leaving(s.server.out, k))
    ensures Lower(t, s)
  {
    hide PipeOk, TaskOk, ItemOk, ItemsCost, StrandCost, PostingCost, TasksCost, ErasuresIn;
    if done {
      WriterOk(Down(s));
      PopCost(s.server.out, false);
    }
  }

  lemma PostingLowers(s: Sys, t: Sys, w: nat)
    requires w < |s.server.posting| && s.server.posting[w] != []
    requires
      var rest := s.server.posting[w];
      t == s.(server := s.server.(posting := s.server.posting[w := rest[1..]], tasks := s.server.tasks + [rest[0]]))
    ensures Lower(t, s)
  {
    hide ItemsCost, StrandCost, ErasuresIn, TaskCost, PostingCost;
    var rest := s.server.posting[w];
    TasksCostAppend(s.server.tasks, rest[0]);
    PostingCostUpdate(s.server.posting, w, rest[1..]);
    assert TasksCost(rest) == TaskCost(rest[0]) + TasksCost(rest[1..]);
  }

  lemma SessionTaskLowers(s: Sys, t: Sys)
    requires SysOk(s) && s.server.tasks != [] && t == SessionStep(s, false)
    ensures Lower(t, s) && t.client == s.client
  {
    hide Encode, PipeOk, TaskOk, ItemOk, ItemsCost, StrandCost, ErasuresIn, PostingCost;
    hide ResponseFrame, ReplyOwner;
    var task := s.server.tasks[0];
    assert TasksCost(s.server.tasks) == TaskCost(task) + TasksCost(s.server.tasks[1..]);
    if task.SendAnswer? && !s.server.out.exit {
      WriterOk(Down(s));
      AcceptCost(s.server.out, Encode(ResponseFrame(task.answer)), false);
    }
  }

  lemma ClientWorkLowers(cfg: Config, s: Sys, step: Step)
    requires SysOk(s) && s.client.connected && Enabled(cfg, s, step) && Working(step) && !ByServer(step)
    ensures Lower(Do(cfg, s, step), s) && Do(cfg, s, step).client.connected
  {
    hide Encode, Frames, Framed, Next, SysOk, ItemsCost, StrandCost, Lower, NthId, RequestFrame, Leaving, CallIds;
    hide HandedBy;
    var t := Do(cfg, s, step);
    match step
    case PostCall(n) => PostCallLowers(s, t, n);
    case RunStrand => StrandLowers(s, t);
    case ClientSends(k) => ClientWriterLowers(s, t, false, k);
    case ClientWritten => ClientWriterLowers(s, t, true, 0);
    case ClientReads(k) => ReadingLowers(s, t, k);
    case ClientUnpacks => ResolvingLowers(s, t, ToInt32(ParseResponse(Next(s.downBuf).value).value.id));
  }

  lemma ServerWorkLowers(cfg: Config, s: Sys, step: Step)
    requires SysOk(s) && Enabled(cfg, s, step) && Working(step) && ByServer(step)
    ensures Lower(Do(cfg, s, step), s) && Do(cfg, s, step).client == s.client
  {
    hide Encode, Frames, Framed, Next, SysOk, Lower, JobStep, SessionStep, Leaving, CallIds, JobOn;
    var t := Do(cfg, s, step);
    match step
    case ServerReads(k) => ReadingLowers(s, t, k);
    case ServerUnpacks => UnpackingLowers(s, t, Next(s.upBuf).value);
    case RunJob(i, w, world) => JobLowers(cfg, s, t, i, w, world);
    case WorkerPosts(w) => PostingLowers(s, t, w);
    case RunSessionTask(_) => SessionTaskLowers(s, t);
    case ServerSends(k) => ServerWriterLowers(s, t, false, k);
    case ServerWritten(_) => ServerWriterLowers(s, t, true, 0);
  }

  /** Every working step lowers the measure, whatever state the session is in. */
  lemma WorkLowers(cfg: Config, s: Sys, step: Step)
    requires Good(cfg, s) && s.client.connected && Enabled(cfg, s, step) && Working(step)
    ensures Lower(Do(cfg, s, step), s) && Do(cfg, s, step).client.connected
  {
    hide SysOk, Inv, Enabled, Do, Working, Lower;
    if ByServer(step) {
      ServerWorkLowers(cfg, s, step);
    } else {
      ClientWorkLowers(cfg, s, step);
    }
  }

  /** So no schedule keeps the system working for ever. */
  lemma WorkEnds(cfg: Config, states: nat -> Sys, steps: nat -> Step, i: nat)
    requires Good(cfg, states(i)) && states(i).client.connected
    requires forall j: nat :: Enabled(cfg, states(j), steps(j)) && Working(steps(j))
    requires forall j: nat :: states(j + 1) == Do(cfg, states(j), steps(j))
    ensures false
    decreases |states(i).allotted|, Outward(states(i)), Homeward(states(i)), Erasures(states(i))
  {
    hide Encode, Frames, Framed, Next, PipeOk, ItemOk, InTransit, ItemsCost, StrandCost, ErasuresIn, PostingCost;
    hide Inv, SysOk, Enabled, Do, Working, Outward, Homeward, Erasures;
    WorkLowers(cfg, states(i), steps(i));
    StepSimulates(cfg, states(i), steps(i));
    GoodMeasure(cfg, states(i));
    GoodMeasure(cfg, states(i + 1));
    WorkEnds(cfg, states, steps, i + 1);
  }

  lemma GoodMeasure(cfg: Config, s: Sys)
    requires Good(cfg, s)
    ensures Outward(s) >= 0 && Homeward(s) >= 0
  {
    hide Inv;
    MeasureIsNat(s);
  }

  /** Nothing is left to do but what users and the environment choose to. */
  ghost predicate Quiescent(cfg: Config, s: Sys) {
    forall step :: Working(step) ==> !Enabled(cfg, s, step)
  }

  predicate AllWorking(steps: seq<Step>) {
    forall i :: 0 <= i < |steps| ==> Working(steps[i])
  }

  lemma Prepend(cfg: Config, s: Sys, step: Step, rest: seq<Step>)
    requires Enabled(cfg, s, step) && Executes(cfg, Do(cfg, s, step), rest)
    ensures Executes(cfg, s, [step] + rest)
    ensures After(cfg, s, [step] + rest) == After(cfg, Do(cfg, s, step), rest)
  {
    hide Enabled, Do;
    assert ([step] + rest)[1..] == rest;
  }

  lemma NoSteps(cfg: Config, s: Sys)
    ensures Executes(cfg, s, []) && After(cfg, s, []) == s && AllWorking([])
  {
  }

  lemma OneMore(step: Step, rest: seq<Step>)
    requires Working(step) && AllWorking(rest)
    ensures AllWorking([step] + rest)
  {
    hide Working;
  }

  lemma SomeWork(cfg: Config, s: Sys) returns (step: Step)
    requires !Quiescent(cfg, s)
    ensures Working(step) && Enabled(cfg, s, step)
  {
    hide Enabled, Working;
    step :| Working(step) && Enabled(cfg, s, step);
  }

  /** And work can always be finished: from any connected state working steps lead
      to one where no work is left. */
  lemma {:induction false} WorkCanFinish(cfg: Config, s: Sys) returns (steps: seq<Step>)
    requires Good(cfg, s) && s.client.connected
    ensures Executes(cfg, s, steps) && AllWorking(steps)
    ensures
      var t := After(cfg, s, steps);
      Good(cfg, t) && t.client.connected && Quiescent(cfg, t)
    decreases |s.allotted|, Outward(s), Homeward(s), Erasures(s)
  {
    hide Good, Enabled, Do, Working, Outward, Homeward, Erasures, Quiescent, Executes, After, AllWorking;
    steps := [];
    NoSteps(cfg, s);
    if !Quiescent(cfg, s) {
      var step := SomeWork(cfg, s);
      WorkLowers(cfg, s, step);
      StepSimulates(cfg, s, step);
      GoodMeasure(cfg, s);
      GoodMeasure(cfg, Do(cfg, s, step));
      var rest := WorkCanFinish(cfg, Do(cfg, s, step));
      Prepend(cfg, s, step, rest);
      OneMore(step, rest);
      steps := [step] + rest;
    }
  }

  // -------------------------------------------------------------- quiescence

  /** Pending buffers that still hold a frame have a flush coming. */
  predicate FlushComes(s: Sys) {
    s.client.connected ==>
      Flush in s.client.strand || forall i :: 0 <= i < |s.client.pending| ==> s.client.pending[i] == []
  }

  lemma StrandTaskFlushes(s: Sys, t: Sys)
    requires FlushComes(s) && Pops(s, t)
    ensures FlushComes(t)
  {
    hide Encode, Next, Accept, WriteAll;
    assert s.client.strand == [s.client.strand[0]] + s.client.strand[1..];
  }

  lemma LongerStrandFlushes(s: Sys, t: Sys)
    requires FlushComes(s) && s.client.strand <= t.client.strand && t.client.pending == s.client.pending
    requires t.client.connected ==> s.client.connected || Flush in t.client.strand
    ensures FlushComes(t)
  {
    if Flush in s.client.strand {
      var i :| 0 <= i < |s.client.strand| && s.client.strand[i] == Flush;
      assert t.client.strand[i] == Flush;
    }
  }

  lemma FlushStillComes(cfg: Config, s: Sys, step: Step)
    requires FlushComes(s) && Enabled(cfg, s, step)
    ensures FlushComes(Do(cfg, s, step))
  {
    hide Encode, Next, RequestFrame, NotificationFrame, NthId, JobOn, Accept, WriteAll, ParseResponse, DoServer;
    hide CallIds, ItemFrames, PopFront, FlushComes, RunTask, HandedBy, Leaving, Apply;
    var t := Do(cfg, s, step);
    if ByServer(step) {
      ServerLeavesClient(cfg, s, step);
      LongerStrandFlushes(s, t);
    } else if step.RunStrand? {
      StrandTaskFlushes(s, t);
    } else {
      if step.Connects? {
        assert t.client.strand[|s.client.strand|] == Flush;
      }
      LongerStrandFlushes(s, t);
    }
  }

  lemma {:induction false} FlushAlwaysComes(cfg: Config, s: Sys, steps: seq<Step>)
    requires FlushComes(s) && Executes(cfg, s, steps)
    ensures FlushComes(After(cfg, s, steps))
    decreases |steps|
  {
    hide FlushComes, Enabled, Do;
    if steps != [] {
      FlushStillComes(cfg, s, steps[0]);
      FlushAlwaysComes(cfg, Do(cfg, s, steps[0]), steps[1..]);
    }
  }

  /** No fault so far: no write has failed and the session is open. */
  predicate Healthy(s: Sys) {
    && !s.client.writer.flight.Failed? && !s.server.out.flight.Failed?
    && !s.server.out.exit && s.server.reading
  }

  /** Some world lets the handler of a queued job end without an escaping exception. */
  ghost predicate CanRun(cfg: Config, msg: Obj) {
    exists world :: JobOn(cfg, Cleared(cfg.session), msg, world).JobPosts?
  }

  /** Whatever it reads, the function lets an exception escape. */
  ghost predicate AlwaysBreaks(cfg: Config, name: Text, args: Args) {
    forall world :: Observed(cfg, name, args, world).Breaks?
  }

  lemma CallCanRun(cfg: Config, id: Int32, name: Text, args: Args)
    ensures CanRun(cfg, RequestFrame(id, name, args)) <==> !AlwaysBreaks(cfg, name, args)
  {
    hide JobOn, Observed, RequestFrame;
    var f := RequestFrame(id, name, args);
    forall world
      ensures JobOn(cfg, Cleared(cfg.session), f, world).JobPosts? <==> !Observed(cfg, name, args, world).Breaks?
    {
      CallDecision(cfg, Cleared(cfg.session), id, name, args, world);
    }
  }

  /** Call n waits in the job queue for a handler that cannot but break the worker. */
  ghost predicate Stuck(cfg: Config, s: Sys, n: nat) {
    && n < |s.calls| && InTable(s.client.ongoing, n)
    && RequestFrame(IdOf(n), s.calls[n].name, s.calls[n].args) in s.server.jobs
    && AlwaysBreaks(cfg, s.calls[n].name, s.calls[n].args)
  }

  lemma QuietStep(cfg: Config, s: Sys, step: Step)
    requires Quiescent(cfg, s) && Working(step)
    ensures !Enabled(cfg, s, step)
  {
  }

  /** With exceptions suppressed any message that converts can run. */
  lemma SuppressedJobRuns(cfg: Config, msg: Obj)
    requires cfg.suppress && !ParseRequest(msg).BadMessage?
    ensures CanRun(cfg, msg)
  {
    assert JobOn(cfg, Cleared(cfg.session), msg, 0).JobPosts?;
  }

  lemma QuietWriter(w: Writer)
    requires Sound(w) && !w.exit && !w.flight.Failed?
    requires !Possible(w, Transmit(1)) && !Possible(w, Done(false))
    ensures w.queue == [] && w.flight.Idle?
  {
  }

  lemma QuietClient(cfg: Config, s: Sys)
    requires SysOk(s) && s.client.connected && FlushComes(s) && Healthy(s) && Quiescent(cfg, s)
    ensures s.client.strand == [] && s.client.writer.queue == [] && s.client.writer.flight.Idle?
    ensures forall i :: 0 <= i < |s.client.pending| ==> s.client.pending[i] == []
  {
    hide PipeOk, TaskOk, ItemOk, WindowOpen, Quiescent;
    WriterOk(Up(s));
    QuietStep(cfg, s, RunStrand);
    QuietStep(cfg, s, ClientSends(1));
    QuietStep(cfg, s, ClientWritten);
    QuietWriter(s.client.writer);
  }

  /** On the way out nothing remains. */
  lemma QuietOutward(cfg: Config, s: Sys)
    requires SysOk(s) && s.client.connected && FlushComes(s) && Healthy(s) && Quiescent(cfg, s)
    ensures s.client.strand == [] && s.client.writer.queue == [] && s.upNet == [] && s.upBuf == []
    ensures forall i :: 0 <= i < |s.client.pending| ==> s.client.pending[i] == []
    ensures InTransit(Up(s)) == []
  {
    hide PipeOk, TaskOk, ItemOk, WindowOpen, Quiescent, FlushComes, InTransit;
    QuietClient(cfg, s);
    QuietStep(cfg, s, ServerReads(|s.upNet|));
    QuietStep(cfg, s, ServerUnpacks);
    NothingStuck(Up(s));
    NoItemFrames();
  }

  lemma NoItemFrames()
    ensures ItemFrames([]) == []
  {
  }

  lemma QuietWorkers(cfg: Config, s: Sys)
    requires Good(cfg, s) && Healthy(s) && Quiescent(cfg, s) && |s.server.posting| > 0
    ensures s.server.tasks == []
    ensures forall w :: 0 <= w < |s.server.posting| ==> s.server.posting[w] == []
    ensures forall i :: 0 <= i < |s.server.jobs| ==> !CanRun(cfg, s.server.jobs[i])
  {
    hide Good, JobOn, Quiescent, CanRun, Enabled, Healthy;
    QuietPosts(cfg, s);
    HasWorker(cfg, s);
    forall i: nat | i < |s.server.jobs| ensures !CanRun(cfg, s.server.jobs[i]) {
      QuietJob(cfg, s, i);
    }
  }

  lemma HasWorker(cfg: Config, s: Sys)
    requires Good(cfg, s)
    ensures |s.server.locals| == |s.server.posting|
  {
    hide Inv, PipeOk, TaskOk, ItemOk;
  }

  lemma QuietPosts(cfg: Config, s: Sys)
    requires Quiescent(cfg, s)
    ensures s.server.tasks == []
    ensures forall w :: 0 <= w < |s.server.posting| ==> s.server.posting[w] == []
  {
    hide Quiescent;
    forall w: nat | w < |s.server.posting| ensures s.server.posting[w] == [] {
      QuietStep(cfg, s, WorkerPosts(w));
    }
    QuietStep(cfg, s, RunSessionTask(false));
  }

  lemma QuietJob(cfg: Config, s: Sys, i: nat)
    requires Quiescent(cfg, s) && i < |s.server.jobs|
    requires |s.server.posting| > 0 && |s.server.locals| > 0 && s.server.posting[0] == []
    ensures !CanRun(cfg, s.server.jobs[i])
  {
    hide JobOn, Quiescent;
    forall world ensures !JobOn(cfg, Cleared(cfg.session), s.server.jobs[i], world).JobPosts? {
      LeftoversDoNotMatter(cfg, s.server.locals[0], s.server.jobs[i], world);
      QuietStep(cfg, s, RunJob(i, 0, world));
    }
  }

  lemma QuietHomeward(cfg: Config, s: Sys)
    requires Good(cfg, s) && Healthy(s) && Quiescent(cfg, s)
    ensures s.server.out.queue == [] && s.downNet == [] && s.downBuf == [] && InTransit(Down(s)) == []
  {
    hide Inv, PipeOk, TaskOk, ItemOk, WindowOpen, Quiescent, InTransit;
    WriterOk(Down(s));
    QuietStep(cfg, s, ServerSends(1));
    QuietStep(cfg, s, ServerWritten(false));
    QuietWriter(s.server.out);
    QuietStep(cfg, s, ClientReads(|s.downNet|));
    QuietReader(cfg, s);
    NothingStuck(Down(s));
    NoItemFrames();
  }

  lemma QuietReader(cfg: Config, s: Sys)
    requires Good(cfg, s) && Quiescent(cfg, s)
    ensures !Next(s.downBuf).Got?
  {
    hide Inv, SysOk, Next, Quiescent;
    QuietStep(cfg, s, ClientUnpacks);
    if Next(s.downBuf).Got? {
      ResponsesFindTheirCalls(cfg, s);
      assert false;
    }
  }

  lemma NothingAllotted(cfg: Config, s: Sys)
    requires Good(cfg, s) && Quiescent(cfg, s)
    ensures s.allotted == {}
  {
    hide Encode, Frames, Framed, ItemOk, NthId, RequestFrame, InTransit, PipeOk, RequestsOk, RepliesOk;
    forall n | n in s.allotted ensures false {
      assert Waits(CoreOf(s), n) ==> Untouched(CoreOf(s), n);
      QuietStep(cfg, s, PostCall(n));
      assert false;
    }
  }

  /** Where a connected, healthy system with a worker has nothing left to do:
      every call's future is ready, unless its handler disabled the response (or
      an earlier session step lost it) or is stuck; the table holds exactly those;
      only jobs that cannot run are queued; no pending buffer holds a frame. */
  lemma QuiescentIsDone(cfg: Config, s: Sys)
    requires Good(cfg, s) && s.client.connected && FlushComes(s)
    requires Healthy(s) && |s.server.posting| > 0
    requires Quiescent(cfg, s)
    ensures forall n: nat :: n < |s.calls| ==> (n !in s.client.promises <==> n in s.lost || Stuck(cfg, s, n))
    ensures s.client.ongoing.Keys == set n: nat | n < |s.calls| && (n in s.lost || Stuck(cfg, s, n)) :: IdOf(n)
    ensures forall i :: 0 <= i < |s.server.jobs| ==> !CanRun(cfg, s.server.jobs[i])
    ensures forall i :: 0 <= i < |s.client.pending| ==> s.client.pending[i] == []
  {
    hide Encode, Frames, Framed, ItemOk, NthId, RequestFrame, InTransit, PipeOk, JobOn, Quiescent, Stuck, CanRun;
    hide Inv, Healthy, FlushComes, ItemFrames, PostedFrames, AnswerFrames, Enabled, ReplyFrame;
    QuietOutward(cfg, s);
    QuietWorkers(cfg, s);
    QuietHomeward(cfg, s);
    NothingAllotted(cfg, s);
    EmptiedFrames(s.client.pending);
    NothingPosted(s.server.posting);
    EmptyAnswers();
    assert Requests(s) == multiset(s.server.jobs) && ReplyFrames(s) == multiset{};
    forall n: nat | n < |s.calls| ensures n !in s.client.promises <==> n in s.lost || Stuck(cfg, s, n) {
      if n in s.client.promises || n in s.lost {
        OpenOrNot(cfg, s, n);
      } else {
        OnePlace(cfg, CoreOf(s), n);
        QueuedIsStuck(cfg, s, n);
      }
    }
    OnlyLostRemain(cfg, s);
  }

  /** A stuck call is not resolved; nor is a lost one. */
  lemma OpenOrNot(cfg: Config, s: Sys, n: nat)
    requires Good(cfg, s) && n < |s.calls|
    ensures n in s.lost || Stuck(cfg, s, n) ==> n !in s.client.promises && InTable(s.client.ongoing, n)
  {
    hide Encode, Frames, Framed, Next, NthId, ItemOk, RequestFrame, InTransit, PipeOk, ParseRequest, Observed;
    hide WaitingOk, TableOk, ErasingOk, RequestsOk, RepliesOk, AllAccounted, AlwaysBreaks;
    var c := CoreOf(s);
    assert n in c.lost ==> n !in c.promises;
    if Stuck(cfg, s, n) {
      RequestParses(n, s.calls[n]);
      assert RequestOf(c, n) in c.requests;
      InFlightIsGood(c, RequestOf(c, n));
    }
  }

  lemma QueuedIsStuck(cfg: Config, s: Sys, n: nat)
    requires Good(cfg, s) && n < |s.calls| && n !in s.client.promises && n !in s.lost
    requires RequestFrame(IdOf(n), s.calls[n].name, s.calls[n].args) in s.server.jobs
    requires s.allotted == {} && s.client.strand == []
    requires forall i :: 0 <= i < |s.server.jobs| ==> !CanRun(cfg, s.server.jobs[i])
    ensures Stuck(cfg, s, n)
  {
    hide Inv, SysOk, CanRun, AlwaysBreaks, RequestFrame, NthId;
    CallCanRun(cfg, IdOf(n), s.calls[n].name, s.calls[n].args);
    InTableUntilErased(cfg, s, n);
  }

  lemma OnlyLostRemain(cfg: Config, s: Sys)
    requires Good(cfg, s) && s.client.strand == []
    requires forall n: nat :: n < |s.calls| ==> (n !in s.client.promises <==> n in s.lost || Stuck(cfg, s, n))
    ensures s.client.ongoing.Keys == set n: nat | n < |s.calls| && (n in s.lost || Stuck(cfg, s, n)) :: IdOf(n)
  {
    hide Encode, Frames, Framed, ItemOk, NthId, RequestFrame, InTransit, PipeOk, JobOn, RequestsOk, RepliesOk;
    hide AllAccounted, WaitingOk, Stuck;
    var c := CoreOf(s);
    var left := set n: nat | n < |s.calls| && (n in s.lost || Stuck(cfg, s, n)) :: IdOf(n);
    forall id | id in s.client.ongoing ensures id in left {
      assert id in c.ongoing && id !in c.erasing;
      var n := c.ongoing[id].n;
      assert n !in c.promises && IdOf(n) == id;
    }
    forall id | id in left ensures id in s.client.ongoing {
      var n: nat :| n < |s.calls| && (n in s.lost || Stuck(cfg, s, n)) && IdOf(n) == id;
      OpenOrNot(cfg, s, n);
    }
  }

  // -------------------------------------------------------------- calm runs

  /** No write fails and nothing closes the session. */
  predicate Calm(s: Sys, step: Step) {
    match step
    case ClientWriteFails(_) => false
    case ServerWriteFails(_, _) => false
    case ServerCloses => false
    case RunSessionTask(raced) => !raced && s.server.tasks != [] && s.server.tasks[0].SendAnswer?
    case ServerWritten(raced) => !raced
    case _ => true
  }

  ghost predicate CalmRun(cfg: Config, s: Sys, steps: seq<Step>)
    requires Executes(cfg, s, steps)
    decreases |steps|
  {
    steps == [] || (Calm(s, steps[0]) && CalmRun(cfg, Do(cfg, s, steps[0]), steps[1..]))
  }

  /** The handler of call n ran and disabled its response. */
  ghost predicate Silenced(cfg: Config, s: Sys, n: nat) {
    && n < |s.calls| && n in s.runs
    && Observed(cfg, s.calls[n].name, s.calls[n].args, s.runs[n]).Silent?
  }

  ghost predicate Serene(cfg: Config, s: Sys) {
    && Healthy(s) && s.server.posting != []
    && forall n :: n in s.lost ==> Silenced(cfg, s, n)
  }

  lemma CalmServer(cfg: Config, s: Sys, step: Step)
    requires Healthy(s) && Enabled(cfg, s, step) && Calm(s, step) && ByServer(step)
    ensures Healthy(Do(cfg, s, step))
    ensures |Do(cfg, s, step).server.posting| == |s.server.posting|
  {
    hide Encode, Next, RequestFrame, NotificationFrame, NthId, JobOn, WriteAll, ParseResponse, RequestOwner, ReplyOwner;
    hide CallIds, ItemFrames, HandedBy, Leaving, WindowOpen, DoClient;
    ServerLeavesClient(cfg, s, step);
  }

  lemma CalmClient(cfg: Config, s: Sys, step: Step)
    requires Healthy(s) && Enabled(cfg, s, step) && Calm(s, step) && !ByServer(step)
    ensures Healthy(Do(cfg, s, step)) && Do(cfg, s, step).server == s.server
  {
    hide Encode, Next, RequestFrame, NotificationFrame, NthId, JobOn, WriteAll, ParseResponse, RequestOwner, ReplyOwner;
    hide CallIds, ItemFrames, HandedBy, Leaving, WindowOpen, DoServer;
    if step.RunStrand? {
      StrandNeverFails(s, Do(cfg, s, step));
    }
  }

  lemma CalmIsHealthy(cfg: Config, s: Sys, step: Step)
    requires Healthy(s) && Enabled(cfg, s, step) && Calm(s, step)
    ensures Healthy(Do(cfg, s, step))
    ensures |Do(cfg, s, step).server.posting| == |s.server.posting|
  {
    hide Healthy, Enabled, Calm, Do;
    if ByServer(step) {
      CalmServer(cfg, s, step);
    } else {
      CalmClient(cfg, s, step);
    }
  }

  lemma StrandNeverFails(s: Sys, t: Sys)
    requires !s.client.writer.flight.Failed? && Pops(s, t)
    ensures !t.client.writer.flight.Failed?
  {
    hide Encode;
    WritingNeverFails(s.client.writer, s.client.pending);
  }

  lemma {:induction false} WritingNeverFails(w: Writer, items: seq<Bytes>)
    requires !w.flight.Failed?
    ensures !WriteAll(w, items).flight.Failed?
    decreases |items|
  {
    if items != [] {
      WritingNeverFails(w, items[..|items| - 1]);
    }
  }

  lemma SilenceSpreads(cfg: Config, s: Sys, step: Step)
    requires Good(cfg, s) && Serene(cfg, s) && Enabled(cfg, s, step)
    ensures forall n :: n in Do(cfg, s, step).lost ==> Silenced(cfg, Do(cfg, s, step), n)
  {
    hide Good, Enabled, Do, Observed, RequestOwner;
    StepGrows(cfg, s, step);
    var t := Do(cfg, s, step);
    if t.lost != s.lost {
      LossNeedsACause(cfg, s, step);
      JobLost(cfg, s, step);
    }
    assert forall n :: Silenced(cfg, s, n) ==> Silenced(cfg, t, n);
  }

  lemma JobLost(cfg: Config, s: Sys, step: Step)
    requires Enabled(cfg, s, step) && step.RunJob?
    ensures
      var t, n := Do(cfg, s, step), RequestOwner(s.client.ongoing, s.server.jobs[step.i]);
      && t.calls == s.calls
      && forall m :: m in t.lost ==> m in s.lost || (n == Some(m) && m in t.runs && t.runs[m] == step.world)
  {
    hide JobOn, RequestOwner, CallIds;
  }

  lemma {:induction false} CalmStaysSerene(cfg: Config, s: Sys, steps: seq<Step>)
    requires Good(cfg, s) && Serene(cfg, s) && Executes(cfg, s, steps) && CalmRun(cfg, s, steps)
    ensures Serene(cfg, After(cfg, s, steps))
    decreases |steps|
  {
    hide Good, Enabled, Do, Calm, Healthy, Silenced;
    if steps != [] {
      CalmIsHealthy(cfg, s, steps[0]);
      SilenceSpreads(cfg, s, steps[0]);
      StepSimulates(cfg, s, steps[0]);
      CalmStaysSerene(cfg, Do(cfg, s, steps[0]), steps[1..]);
    }
  }

  /** After any calm run of a server that has a worker: once the client has
      connected and no work is left, every call ever issued has its future ready,
      except exactly those whose own handler disabled the response and those
      queued for a handler that breaks its worker whatever it reads; nothing else
      is left in the table, and nothing is pending. */
  lemma EveryCallSettles(cfg: Config, left: seq<Locals>, steps: seq<Step>)
    requires left != []
    requires Executes(cfg, Initial(left), steps) && CalmRun(cfg, Initial(left), steps)
    requires After(cfg, Initial(left), steps).client.connected && Quiescent(cfg, After(cfg, Initial(left), steps))
    ensures
      var s := After(cfg, Initial(left), steps);
      && (forall n: nat :: n < |s.calls| ==>
            (n !in s.client.promises <==> Silenced(cfg, s, n) || Stuck(cfg, s, n)))
      && (forall id :: id in s.client.ongoing ==>
            exists n: nat :: IdOf(n) == id && (Silenced(cfg, s, n) || Stuck(cfg, s, n)))
      && (forall i :: 0 <= i < |s.client.pending| ==> s.client.pending[i] == [])
  {
    hide Executes, After, CalmRun, Quiescent, Observed, Good, Healthy, FlushComes, IdOf, Stuck, CanRun;
    CalmIsSerene(cfg, left, steps);
    FuturesHoldOwnOutcomes(cfg, left, steps);
    QuiescentIsDone(cfg, After(cfg, Initial(left), steps));
  }

  lemma CalmIsSerene(cfg: Config, left: seq<Locals>, steps: seq<Step>)
    requires left != [] && Executes(cfg, Initial(left), steps) && CalmRun(cfg, Initial(left), steps)
    ensures
      var s := After(cfg, Initial(left), steps);
      Good(cfg, s) && Serene(cfg, s) && FlushComes(s)
  {
    hide Executes, After, CalmRun, Good, Serene, FlushComes;
    InitialGood(cfg, left);
    AlwaysGood(cfg, Initial(left), steps);
    StartsSerene(cfg, left);
    CalmStaysSerene(cfg, Initial(left), steps);
    FlushAlwaysComes(cfg, Initial(left), steps);
  }

  /** With exceptions suppressed no call is stuck. */
  lemma SuppressedCallsSettle(cfg: Config, left: seq<Locals>, steps: seq<Step>)
    requires left != [] && cfg.suppress
    requires Executes(cfg, Initial(left), steps) && CalmRun(cfg, Initial(left), steps)
    requires After(cfg, Initial(left), steps).client.connected && Quiescent(cfg, After(cfg, Initial(left), steps))
    ensures
      var s := After(cfg, Initial(left), steps);
      && (forall n: nat :: n < |s.calls| ==> (n !in s.client.promises <==> Silenced(cfg, s, n)))
      && (forall id :: id in s.client.ongoing ==> exists n: nat :: IdOf(n) == id && Silenced(cfg, s, n))
      && (forall i :: 0 <= i < |s.client.pending| ==> s.client.pending[i] == [])
  {
    hide Executes, After, CalmRun, Quiescent, Silenced, IdOf, InTable;
    EveryCallSettles(cfg, left, steps);
    forall name: Text, args: Args ensures !AlwaysBreaks(cfg, name, args) {
      assert !Observed(cfg, name, args, 0).Breaks?;
    }
  }

  lemma StartsSerene(cfg: Config, left: seq<Locals>)
    requires left != []
    ensures Serene(cfg, Initial(left)) && FlushComes(Initial(left))
  {
  }
}
