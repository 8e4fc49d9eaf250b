/** Connecting and closing in the composed system: which runs end with a connected
    client, an open session, a session that still reads. */
module Lifecycle {
  import opened MsgPack
  import opened Framing
  import opened Messages
  import opened ThisState
  import opened AsyncWriting
  import opened Dispatching
  import opened ServerSessions
  import opened Clients
  import opened Pipes
  import opened Rpc
  import opened Systems
  import opened Simulation
  import opened Guarantees
  import opened Progress

  // -------------------------------------------------------------- connecting

  lemma ConnectingStep(cfg: Config, s: Sys, step: Step)
    requires Enabled(cfg, s, step)
    ensures Do(cfg, s, step).client.connected <==> s.client.connected || step == Connects
  {
    hide Encode, Next, RequestFrame, NotificationFrame, NthId, ParseResponse, DoServer, WindowOpen, JobOn;
    hide CallIds, ItemFrames, HandedBy, Leaving, Apply, Possible, WriteAll, Accept, Emptied;
    if ByServer(step) {
      ServerLeavesClient(cfg, s, step);
    }
  }

  /** The client is connected exactly if its connect handler has run. */
  lemma {:induction false} ConnectedExactly(cfg: Config, s: Sys, steps: seq<Step>)
    requires Executes(cfg, s, steps)
    ensures After(cfg, s, steps).client.connected <==> s.client.connected || Connects in steps
    decreases |steps|
  {
    hide Enabled, Do;
    if steps != [] {
      ConnectingStep(cfg, s, steps[0]);
      ConnectedExactly(cfg, Do(cfg, s, steps[0]), steps[1..]);
    }
  }

  // ----------------------------------------------------------------- closing

  predicate AsksClose(tasks: seq<SessionTask>) {
    exists i :: 0 <= i < |tasks| && !tasks[i].SendAnswer?
  }

  predicate WorkerAsks(posting: seq<seq<SessionTask>>) {
    exists w :: 0 <= w < |posting| && AsksClose(posting[w])
  }

  /** The session is closed, or a request to close it is on its way. */
  predicate Closing(s: Sys) {
    s.server.out.exit || AsksClose(s.server.tasks) || WorkerAsks(s.server.posting)
  }

  /** The step runs a handler that asks to close the session or the server. */
  ghost predicate Asks(cfg: Config, s: Sys, step: Step)
    requires Enabled(cfg, s, step)
  {
    step.RunJob? && AsksClose(JobOn(cfg, s.server.locals[step.worker], s.server.jobs[step.i], step.world).tasks)
  }

  /** Another thread closes the session, before or within the step. */
  predicate Forces(step: Step) {
    || step.ServerCloses? || (step.RunSessionTask? && step.raced)
    || (step.ServerWritten? && step.raced) || (step.ServerWriteFails? && step.raced)
  }

  /** A close request that runs closes the session, whichever it is. */
  lemma CloseTaskCloses(cfg: Config, s: Sys, raced: bool)
    requires s.server.tasks != [] && !s.server.tasks[0].SendAnswer?
    ensures Do(cfg, s, RunSessionTask(raced)).server.out.exit
  {
  }

  /** Only a write closes a writer, and only when another thread did meanwhile. */
  lemma WriterExit(w: Writer, e: Event)
    requires Possible(w, e) && !e.Close?
    ensures w.exit ==> Apply(w, e).exit
    ensures Apply(w, e).exit ==> w.exit || (e.Write? && e.raced) || (e.Done? && e.raced) || (e.Fail? && e.raced)
  {
    hide ElementCount;
  }

  /** What the step does to the exit flag alone. */
  lemma ExitStep(cfg: Config, s: Sys, step: Step)
    requires Enabled(cfg, s, step)
    ensures s.server.out.exit ==> Do(cfg, s, step).server.out.exit
    ensures Do(cfg, s, step).server.out.exit ==>
      || s.server.out.exit || Forces(step)
      || (step.RunSessionTask? && !s.server.tasks[0].SendAnswer?)
  {
    if !ByServer(step) {
      ClientLeavesServer(cfg, s, step);
    } else {
      ServerExitStep(cfg, s, step);
    }
    hide Enabled, Do, Forces;
  }

  lemma ServerExitStep(cfg: Config, s: Sys, step: Step)
    requires Enabled(cfg, s, step) && ByServer(step)
    ensures s.server.out.exit ==> Do(cfg, s, step).server.out.exit
    ensures Do(cfg, s, step).server.out.exit ==>
      || s.server.out.exit || Forces(step)
      || (step.RunSessionTask? && !s.server.tasks[0].SendAnswer?)
  {
    hide Encode, Next, RequestOwner, ReplyOwner, JobOn, CallIds, Leaving, DoClient, ResponseFrame, Apply, Possible;
    hide SessionStep, JobStep;
    var w := s.server.out;
    match step
    case ServerSends(k) => WriterExit(w, Transmit(k));
    case ServerWritten(raced) => WriterExit(w, Done(raced));
    case ServerWriteFails(broken, raced) => WriterExit(w, Fail(broken, raced));
    case RunJob(i, worker, world) => JobLeavesWriter(cfg, s, i, worker, world);
    case RunSessionTask(raced) => TaskExit(s, raced);
    case _ =>
  }

  lemma JobLeavesWriter(cfg: Config, s: Sys, i: nat, w: nat, world: World)
    requires Enabled(cfg, s, RunJob(i, w, world))
    ensures JobStep(cfg, s, i, w, world).server.out == s.server.out
  {
    hide JobOn, RequestOwner, CallIds, Without;
  }

  lemma TaskExit(s: Sys, raced: bool)
    requires s.server.tasks != []
    ensures s.server.out.exit ==> SessionStep(s, raced).server.out.exit
    ensures SessionStep(s, raced).server.out.exit ==> s.server.out.exit || raced || !s.server.tasks[0].SendAnswer?
  {
    hide Encode, ResponseFrame, ReplyOwner;
  }

  lemma ClientLeavesServer(cfg: Config, s: Sys, step: Step)
    requires Enabled(cfg, s, step) && !ByServer(step)
    ensures
      var t := Do(cfg, s, step);
      t.server == s.server && t.upBuf == s.upBuf && t.hist.taken == s.hist.taken
  {
    hide Encode, Next, Accept, Apply, JobOn, RequestOwner, ReplyOwner, CallIds, Leaving, DoServer, HandedBy;
  }

  lemma PostingAsks(posting: seq<seq<SessionTask>>, w: nat, tasks: seq<SessionTask>)
    requires w < |posting|
    ensures WorkerAsks(posting[w := tasks]) <==>
      AsksClose(tasks) || exists v :: 0 <= v < |posting| && v != w && AsksClose(posting[v])
  {
    var after := posting[w := tasks];
    if AsksClose(tasks) {
      assert AsksClose(after[w]);
    }
    forall v | 0 <= v < |posting| && v != w && AsksClose(posting[v])
      ensures WorkerAsks(after)
    {
      assert AsksClose(after[v]);
    }
    forall v | 0 <= v < |posting| && AsksClose(after[v])
      ensures AsksClose(tasks) || exists u :: 0 <= u < |posting| && u != w && AsksClose(posting[u])
    {
      assert v != w ==> after[v] == posting[v];
    }
  }

  lemma AsksFront(tasks: seq<SessionTask>)
    requires tasks != []
    ensures AsksClose(tasks) <==> !tasks[0].SendAnswer? || AsksClose(tasks[1..])
  {
    forall i | 0 < i < |tasks| && !tasks[i].SendAnswer? ensures AsksClose(tasks[1..]) {
      assert tasks[1..][i - 1] == tasks[i];
    }
  }

  lemma AsksBack(tasks: seq<SessionTask>, t: SessionTask)
    ensures AsksClose(tasks + [t]) <==> AsksClose(tasks) || !t.SendAnswer?
  {
    var all := tasks + [t];
    if !t.SendAnswer? {
      assert !all[|tasks|].SendAnswer?;
    }
    forall i | 0 <= i < |tasks| && !tasks[i].SendAnswer? ensures AsksClose(all) {
      assert !all[i].SendAnswer?;
    }
  }

  lemma WorkerPostsCloses(s: Sys, t: Sys, w: nat)
    requires w < |s.server.posting| && s.server.posting[w] != []
    requires
      var rest := s.server.posting[w];
      t == s.(server := s.server.(posting := s.server.posting[w := rest[1..]], tasks := s.server.tasks + [rest[0]]))
    ensures Closing(t) <==> Closing(s)
  {
    hide AsksClose;
    var posting, rest := s.server.posting, s.server.posting[w];
    AsksFront(rest);
    AsksBack(s.server.tasks, rest[0]);
    PostingAsks(posting, w, rest[1..]);
    PostingAsks(posting, w, rest);
    assert posting[w := rest] == posting;
  }

  lemma JobCloses(cfg: Config, s: Sys, t: Sys, i: nat, w: nat, world: World)
    requires Runs(cfg, s, t, i, w, world)
    ensures Closing(t) <==>
      Closing(s) || AsksClose(JobOn(cfg, s.server.locals[w], s.server.jobs[i], world).tasks)
  {
    hide JobOn, RequestOwner, CallIds, AsksClose;
    var posting, tasks := s.server.posting, JobOn(cfg, s.server.locals[w], s.server.jobs[i], world).tasks;
    PostingAsks(posting, w, tasks);
    PostingAsks(posting, w, []);
    assert posting[w := []] == posting;
    NothingAsked();
    assert t.server.posting == posting[w := tasks] && t.server.tasks == s.server.tasks;
  }

  lemma NothingAsked()
    ensures !AsksClose([])
  {
  }

  lemma SessionTaskCloses(cfg: Config, s: Sys, raced: bool)
    requires s.server.tasks != []
    ensures
      var t := SessionStep(s, raced);
      && (Closing(s) ==> Closing(t)) && (Closing(t) ==> Closing(s) || raced)
  {
    hide Encode, AsksClose, ResponseFrame, ReplyOwner;
    AsksFront(s.server.tasks);
  }

  /** One step: a request to close is never lost, and none is made up. */
  lemma ClosingStep(cfg: Config, s: Sys, step: Step)
    requires Enabled(cfg, s, step)
    ensures Closing(s) || Asks(cfg, s, step) ==> Closing(Do(cfg, s, step))
    ensures Closing(Do(cfg, s, step)) ==> Closing(s) || Asks(cfg, s, step) || Forces(step)
  {
    hide Encode, Next, RequestFrame, NotificationFrame, NthId, ParseResponse, RequestOwner, ReplyOwner, JobOn;
    hide CallIds, ItemFrames, HandedBy, WindowOpen, DoClient, ResponseFrame, AsksClose, JobStep, SessionStep;
    hide Apply, Possible, Leaving;
    var t := Do(cfg, s, step);
    match step
    case RunJob(i, w, world) => JobCloses(cfg, s, t, i, w, world);
    case WorkerPosts(w) => WorkerPostsCloses(s, t, w);
    case RunSessionTask(raced) => SessionTaskCloses(cfg, s, raced);
    case _ => OtherCloses(cfg, s, step);
  }

  lemma OtherCloses(cfg: Config, s: Sys, step: Step)
    requires Enabled(cfg, s, step) && !step.RunJob? && !step.WorkerPosts? && !step.RunSessionTask?
    ensures
      var t := Do(cfg, s, step);
      && (Closing(s) ==> Closing(t)) && (Closing(t) ==> Closing(s) || Forces(step))
  {
    hide Enabled, Do, Forces, AsksClose, WorkerAsks;
    ExitStep(cfg, s, step);
    OtherPosts(cfg, s, step);
  }

  lemma OtherPosts(cfg: Config, s: Sys, step: Step)
    requires Enabled(cfg, s, step) && !step.RunJob? && !step.WorkerPosts? && !step.RunSessionTask?
    ensures
      var t := Do(cfg, s, step);
      t.server.tasks == s.server.tasks && t.server.posting == s.server.posting
  {
    hide Encode, Next, NthId, ParseResponse, RequestOwner, CallIds, Apply, Possible, Leaving, DoClient;
    if !ByServer(step) {
      ClientLeavesServer(cfg, s, step);
    }
  }

  ghost predicate Asked(cfg: Config, s: Sys, steps: seq<Step>)
    requires Executes(cfg, s, steps)
    decreases |steps|
  {
    steps != [] && (Asks(cfg, s, steps[0]) || Asked(cfg, Do(cfg, s, steps[0]), steps[1..]))
  }

  /** Once a handler has asked to close, the request is on its way or the session
      is closed; and when no other thread closes it, only then. */
  lemma {:induction false} ClosedExactly(cfg: Config, s: Sys, steps: seq<Step>)
    requires Executes(cfg, s, steps)
    ensures Closing(s) || Asked(cfg, s, steps) ==> Closing(After(cfg, s, steps))
    ensures Closing(After(cfg, s, steps)) ==>
      Closing(s) || Asked(cfg, s, steps) || exists i :: 0 <= i < |steps| && Forces(steps[i])
    decreases |steps|
  {
    hide Enabled, Do, Closing, Asks, Forces;
    if steps != [] {
      ClosingStep(cfg, s, steps[0]);
      var t := Do(cfg, s, steps[0]);
      ClosedExactly(cfg, t, steps[1..]);
      forall i | 0 <= i < |steps[1..]| && Forces(steps[1..][i])
        ensures exists j :: 0 <= j < |steps| && Forces(steps[j])
      {
        assert Forces(steps[i + 1]);
      }
    }
  }

  /** From a new server: where no work is left, the session is closed if a handler
      asked for it; and only then, unless another thread closed it. */
  lemma CloseRequestsAreCarriedOut(cfg: Config, left: seq<Locals>, steps: seq<Step>)
    requires Executes(cfg, Initial(left), steps) && Quiescent(cfg, After(cfg, Initial(left), steps))
    ensures Asked(cfg, Initial(left), steps) ==> After(cfg, Initial(left), steps).server.out.exit
    ensures After(cfg, Initial(left), steps).server.out.exit ==>
      Asked(cfg, Initial(left), steps) || exists i :: 0 <= i < |steps| && Forces(steps[i])
  {
    hide Executes, After, Quiescent, Asked, Forces, AsksClose;
    ClosedExactly(cfg, Initial(left), steps);
    NothingAsked();
    QuietPosts(cfg, After(cfg, Initial(left), steps));
  }

  // ------------------------------------------------------------ the read chain

  lemma ReadingStep(cfg: Config, s: Sys, step: Step)
    requires Enabled(cfg, s, step)
    ensures Do(cfg, s, step).server.reading <==> s.server.reading && step != ServerDiscards
    ensures !s.server.reading ==>
      Do(cfg, s, step).upBuf == s.upBuf && Do(cfg, s, step).hist.taken == s.hist.taken
  {
    hide Encode, Next, RequestFrame, NotificationFrame, NthId, ParseResponse, RequestOwner, ReplyOwner, JobOn;
    hide CallIds, WindowOpen, ResponseFrame, Apply, Possible, Leaving, Accept, DoClient;
    if !ByServer(step) {
      ClientLeavesServer(cfg, s, step);
    }
  }

  /** A closed session's read chain ends with the one frame it discards: nothing is
      unpacked afterwards. */
  lemma {:induction false} ReadingEndsExactly(cfg: Config, s: Sys, steps: seq<Step>)
    requires Executes(cfg, s, steps)
    ensures After(cfg, s, steps).server.reading <==> s.server.reading && ServerDiscards !in steps
    ensures !s.server.reading ==>
      After(cfg, s, steps).upBuf == s.upBuf && After(cfg, s, steps).hist.taken == s.hist.taken
    decreases |steps|
  {
    hide Enabled, Do;
    if steps != [] {
      ReadingStep(cfg, s, steps[0]);
      ReadingEndsExactly(cfg, Do(cfg, s, steps[0]), steps[1..]);
    }
  }

  /** Only unpacking adds a job, only a worker takes one. */
  lemma JobsStay(cfg: Config, s: Sys, step: Step)
    requires Enabled(cfg, s, step) && !step.RunJob? && !step.ServerUnpacks?
    ensures Do(cfg, s, step).server.jobs == s.server.jobs
  {
    hide Encode, Next, RequestOwner, ReplyOwner, CallIds, ResponseFrame, Apply, Possible, Leaving, Accept, DoClient;
    if !ByServer(step) {
      ClientLeavesServer(cfg, s, step);
    }
  }

  lemma JobTaken(cfg: Config, s: Sys, i: nat, w: nat, world: World)
    requires Enabled(cfg, s, RunJob(i, w, world))
    ensures Do(cfg, s, RunJob(i, w, world)).server.jobs == Without(s.server.jobs, i)
  {
    hide JobOn, RequestOwner, CallIds, Without, DoClient;
  }

  lemma BagShrinks(cfg: Config, s: Sys, step: Step)
    requires Enabled(cfg, s, step) && s.server.out.exit
    ensures multiset(Do(cfg, s, step).server.jobs) <= multiset(s.server.jobs)
  {
    if step.RunJob? {
      JobTaken(cfg, s, step.i, step.worker, step.world);
      WithoutIs(s.server.jobs, step.i);
    } else if !step.ServerUnpacks? {
      JobsStay(cfg, s, step);
    }
    hide Do, Without;
  }

  /** A closed session stays closed and takes no job any more; those queued may
      still run. */
  lemma {:induction false} ClosedTakesNoJobs(cfg: Config, s: Sys, steps: seq<Step>)
    requires Executes(cfg, s, steps) && s.server.out.exit
    ensures After(cfg, s, steps).server.out.exit
    ensures multiset(After(cfg, s, steps).server.jobs) <= multiset(s.server.jobs)
    decreases |steps|
  {
    hide Enabled, Do, Forces;
    if steps != [] {
      ExitStep(cfg, s, steps[0]);
      BagShrinks(cfg, s, steps[0]);
      ClosedTakesNoJobs(cfg, Do(cfg, s, steps[0]), steps[1..]);
    }
  }

  // -------------------------------------------------------------- the workers

  /** A job leaves its worker with the state its handler made of the cleared one,
      and the other workers with theirs. */
  lemma WorkerKeepsState(cfg: Config, s: Sys, i: nat, w: nat, world: World, id: Int32, name: Text, args: Args)
    requires Enabled(cfg, s, RunJob(i, w, world))
    requires s.server.jobs[i] == RequestFrame(id, name, args) || s.server.jobs[i] == NotificationFrame(name, args)
    ensures
      Do(cfg, s, RunJob(i, w, world)).server.locals == s.server.locals[w := Afterwards(cfg, name, args, world)]
  {
    hide JobOn, RequestFrame, NotificationFrame, RequestOwner, CallIds, Afterwards;
    if s.server.jobs[i] == RequestFrame(id, name, args) {
      CallPosts(cfg, s.server.locals[w], id, name, args, world);
    } else {
      NotificationDecision(cfg, s.server.locals[w], name, args, world);
    }
  }

  // ---------------------------------------------------------- the environment

  /** A started write of a non-empty buffer may send any part of what is left,
      complete once all has left, and fail with an error of either kind, unless it
      would give up a notification half sent. */
  lemma ClientWritesFreely(cfg: Config, s: Sys, k: nat, broken: bool)
    requires s.client.writer.flight.Sending? && s.client.writer.queue != [] && s.client.writer.queue[0] != []
    ensures
      var item, sent := s.client.writer.queue[0], s.client.writer.flight.sent;
      && (0 < k <= |item| - sent ==> Enabled(cfg, s, ClientSends(k)))
      && (sent == |item| ==> Enabled(cfg, s, ClientWritten))
      && (!broken || sent == 0 || !SizeThree(item) ==> Enabled(cfg, s, ClientWriteFails(broken)))
  {
    hide JobOn, Next, WindowOpen;
  }

  lemma ServerWritesFreely(cfg: Config, s: Sys, k: nat, broken: bool, raced: bool)
    requires s.server.out.flight.Sending? && s.server.out.queue != [] && s.server.out.queue[0] != []
    ensures
      var item, sent := s.server.out.queue[0], s.server.out.flight.sent;
      && (0 < k <= |item| - sent ==> Enabled(cfg, s, ServerSends(k)))
      && (sent == |item| ==> Enabled(cfg, s, ServerWritten(raced)))
      && (!broken || sent == 0 || !SizeThree(item) ==> Enabled(cfg, s, ServerWriteFails(broken, raced)))
  {
    hide JobOn, Next, WindowOpen;
  }

  /** The session may be closed at any time and the client connected once; users
      may post; any part of what the network holds may be read. */
  lemma EndpointsAreFree(cfg: Config, s: Sys, k: nat, n: nat, name: Text, args: Args)
    ensures Enabled(cfg, s, ServerCloses) && (Enabled(cfg, s, Connects) <==> !s.client.connected)
    ensures Enabled(cfg, s, PostNotification(name, args))
    ensures n in s.allotted && n < |s.calls| ==> Enabled(cfg, s, PostCall(n))
    ensures 0 < k <= |s.downNet| ==> Enabled(cfg, s, ClientReads(k))
    ensures s.server.reading && 0 < k <= |s.upNet| ==> Enabled(cfg, s, ServerReads(k))
    ensures s.server.reading && Next(s.upBuf).Got? ==>
      Enabled(cfg, s, if s.server.out.exit then ServerDiscards else ServerUnpacks)
  {
    hide JobOn, Next, WindowOpen;
  }

  /** Any queued job may go to any idle worker, in any world in which it ends. */
  lemma JobsAreFree(cfg: Config, s: Sys, i: nat, w: nat, world: World)
    requires i < |s.server.jobs| && w < |s.server.posting| && w < |s.server.locals| && s.server.posting[w] == []
    requires JobOn(cfg, s.server.locals[w], s.server.jobs[i], world).JobPosts?
    ensures Enabled(cfg, s, RunJob(i, w, world))
  {
    hide JobOn, Next, WindowOpen;
  }
}
