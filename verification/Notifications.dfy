/** What becomes of notifications: none is made, doubled or lost without a trace
    between the user's thread and a handler. */
module Notifications {
  import opened MsgPack
  import opened Framing
  import opened Messages
  import opened ThisState
  import opened Dispatching
  import opened AsyncWriting
  import opened ServerSessions
  import opened Clients
  import opened Pipes
  import opened Rpc
  import opened Systems
  import opened Simulation
  import opened Guarantees
  import opened Progress

  /** How many handlers in the strand are to write the notification f. */
  function Notes(strand: seq<Task>, f: Obj): nat {
    if strand == [] then 0 else Count(WritesNote(strand[0], f)) + Notes(strand[1..], f)
  }

  predicate WritesNote(t: Task, f: Obj) {
    t.DoNotify? && TheFrame(t.buffer) == f
  }

  /** How often the frame f is found: in the client's strand, pending, in its write
      queue, among the request bytes, in the job queue. */
  function Underway(s: Sys, f: Obj): nat
    requires PipeOk(Up(s))
  {
    Notes(s.client.strand, f)
    + multiset(ItemFrames(s.client.pending))[f]
    + multiset(ItemFrames(Waiting(s.client.writer)))[f]
    + multiset(Frames(Wire(Up(s))))[f]
    + multiset(s.server.jobs)[f]
  }

  /** What a step may do to a notification: notify posts it, a worker runs its
      handler, or a fault drops it: broken_pipe on the client, or a read by a
      session that is closed. */
  datatype Fate = Posted | Executed | Dropped

  ghost predicate Meets(s: Sys, step: Step, f: Obj, fate: Fate) {
    match fate
    case Posted => step.PostNotification? && NotificationFrame(step.name, step.args) == f
    case Executed => step.RunJob? && step.i < |s.server.jobs| && s.server.jobs[step.i] == f
    case Dropped =>
      || (step.ClientWriteFails? && s.client.writer.queue != []
          && Forgiven(s.client.writer.queue[0], step.broken) && TheFrame(s.client.writer.queue[0]) == f)
      || (step.ServerDiscards? && Next(s.upBuf).Got? && Next(s.upBuf).value == f)
  }

  /** How often that happens to f along a run. */
  ghost function Times(cfg: Config, s: Sys, steps: seq<Step>, f: Obj, fate: Fate): nat
    requires Executes(cfg, s, steps)
    decreases |steps|
  {
    if steps == [] then 0
    else Count(Meets(s, steps[0], f, fate)) + Times(cfg, Do(cfg, s, steps[0]), steps[1..], f, fate)
  }

  // ---------------------------------------------------------------- one step

  lemma {:induction false} NotesAppend(strand: seq<Task>, t: Task, f: Obj)
    ensures Notes(strand + [t], f) == Notes(strand, f) + Count(WritesNote(t, f))
  {
    hide WritesNote;
    if strand == [] {
      assert strand + [t] == [t];
      assert Notes([t], f) == Count(WritesNote(t, f)) + Notes([], f);
    } else {
      assert (strand + [t])[1..] == strand[1..] + [t];
      NotesAppend(strand[1..], t, f);
    }
  }

  /** The strand handler that runs writes f. */
  predicate Writes(s: Sys, step: Step, f: Obj) {
    step.RunStrand? && s.client.strand != [] && WritesNote(s.client.strand[0], f)
  }

  lemma PopNotes(s: Sys, t: Sys, f: Obj)
    requires Pops(s, t)
    ensures Notes(t.client.strand, f) + Count(WritesNote(s.client.strand[0], f)) == Notes(s.client.strand, f)
  {
    hide WritesNote, Accept, WriteAll, Emptied;
    assert t.client.strand == s.client.strand[1..];
  }

  lemma PostedNote(name: Text, args: Args, f: Obj)
    ensures WritesNote(DoNotify(Encode(NotificationFrame(name, args))), f) <==> NotificationFrame(name, args) == f
  {
    hide Encode, Frames, NotificationFrame;
    OneFrame(NotificationFrame(name, args));
  }

  lemma StrandNotes(cfg: Config, s: Sys, step: Step, f: Obj)
    requires Enabled(cfg, s, step)
    ensures Notes(Do(cfg, s, step).client.strand, f) + Count(Writes(s, step, f))
      == Notes(s.client.strand, f) + Count(Meets(s, step, f, Posted))
  {
    hide Encode, Next, RequestFrame, NotificationFrame, NthId, ParseResponse, DoServer, Notes, Forgiven, TheFrame;
    hide CallIds, ItemFrames, HandedBy, Leaving, Apply, Possible, RunTask, WindowOpen, JobOn;
    var strand := s.client.strand;
    if ByServer(step) {
      ServerLeavesClient(cfg, s, step);
    } else {
      match step
      case RunStrand => PopNotes(s, Do(cfg, s, step), f);
      case PostNotification(name, args) =>
        PostedNote(name, args, f);
        NotesAppend(strand, DoNotify(Encode(NotificationFrame(name, args))), f);
      case PostCall(n) =>
        NotesAppend(strand, DoCall(n, IdOf(n), Encode(RequestFrame(IdOf(n), s.calls[n].name, s.calls[n].args))), f);
      case Connects => NotesAppend(strand, Flush, f);
      case ClientUnpacks =>
        NotesAppend(strand, Erase(ToInt32(ParseResponse(Next(s.downBuf).value).value.id)), f);
      case _ =>
    }
  }

  /** The action takes one f out of the requests. */
  predicate Takes(a: Action, f: Obj) {
    (a.DropRequest? && a.f == f) || (a.Handle? && a.f == f)
  }

  lemma HandledMoves(cfg: Config, c: Core, g: Obj, world: World, f: Obj)
    requires Can(cfg, c, Handle(g, world))
    ensures Act(cfg, c, Handle(g, world)).requests[f] + Count(g == f) == c.requests[f]
  {
    hide RequestOwner, ObservedOf, ReplyFrame, IdOf;
  }

  lemma OthersMove(cfg: Config, c: Core, a: Action, f: Obj)
    requires Can(cfg, c, a) && !a.Handle? && !a.Register?
    ensures Act(cfg, c, a).requests[f] + Count(Takes(a, f)) == c.requests[f] + Count(a == Notify(f))
  {
    hide ToInt32, ParseRequest, ParseResponse, RequestOwner, ReplyOwner, AsSet, WindowOpen, ReplyOf, Handled;
    match a
    case Issue(_, _) =>
    case Post(_) =>
    case Notify(_) =>
    case DropRequest(_) =>
    case DropReply(_) =>
    case Resolve(_) =>
    case Forget(_) =>
    case Stutter =>
  }

  lemma ActMoves(cfg: Config, c: Core, a: Action, f: Obj)
    requires Can(cfg, c, a) && ParseRequest(f).Notification?
    ensures Act(cfg, c, a).requests[f] + Count(Takes(a, f)) == c.requests[f] + Count(a == Notify(f))
  {
    hide ParseRequest, RequestFrame, IdOf;
    match a
    case Register(n) =>
      RequestParses(n, c.calls[n]);
      hide Handled;
    case Handle(g, world) =>
      HandledMoves(cfg, c, g, world, f);
      hide Handled;
    case _ =>
      OthersMove(cfg, c, a, f);
      hide Act, Can, Takes;
  }

  lemma ActionMeets(cfg: Config, s: Sys, step: Step, f: Obj)
    requires Enabled(cfg, s, step)
    ensures Takes(ActionOf(s, step), f) <==> Meets(s, step, f, Executed) || Meets(s, step, f, Dropped)
    ensures !(Meets(s, step, f, Executed) && Meets(s, step, f, Dropped))
    ensures ActionOf(s, step) == Notify(f) <==> Writes(s, step, f)
  {
    hide Encode, Next, TheFrame, JobOn, Possible, Forgiven, WindowOpen, ResponseFrame;
  }

  lemma UnderwayIs(s: Sys, f: Obj)
    requires SysOk(s)
    ensures Underway(s, f) == Notes(s.client.strand, f) + CoreOf(s).requests[f]
  {
    hide Frames, Framed, ItemOk, ItemFrames, Notes, Wire, CallsIn, ErasuresIn;
    var up := Up(s);
    assert multiset(InTransit(up)) == multiset(Frames(Wire(up))) + multiset(ItemFrames(Waiting(up.w)));
  }

  lemma NoteStep(cfg: Config, s: Sys, step: Step, f: Obj)
    requires Good(cfg, s) && Enabled(cfg, s, step) && ParseRequest(f).Notification?
    ensures SysOk(s) && SysOk(Do(cfg, s, step))
    ensures Underway(Do(cfg, s, step), f) + Count(Meets(s, step, f, Executed)) + Count(Meets(s, step, f, Dropped))
      == Underway(s, f) + Count(Meets(s, step, f, Posted))
  {
    hide Inv, PipeOk, TaskOk, ItemOk, Enabled, Do, ActionOf, Can, Act, Meets, Writes, Takes, Underway, Notes;
    hide ParseRequest, CoreOf;
    StepSimulates(cfg, s, step);
    StrandNotes(cfg, s, step, f);
    ActMoves(cfg, CoreOf(s), ActionOf(s, step), f);
    ActionMeets(cfg, s, step, f);
    UnderwayIs(s, f);
    UnderwayIs(Do(cfg, s, step), f);
  }

  // --------------------------------------------------------------- whole runs

  lemma {:induction false} NotesConserved(cfg: Config, s: Sys, steps: seq<Step>, f: Obj)
    requires Good(cfg, s) && Executes(cfg, s, steps) && ParseRequest(f).Notification?
    ensures SysOk(s) && SysOk(After(cfg, s, steps))
    ensures Underway(After(cfg, s, steps), f) + Times(cfg, s, steps, f, Executed) + Times(cfg, s, steps, f, Dropped)
      == Underway(s, f) + Times(cfg, s, steps, f, Posted)
    decreases |steps|
  {
    hide Inv, SysOk, Enabled, Do, Meets, Underway, ParseRequest;
    if steps != [] {
      NoteStep(cfg, s, steps[0], f);
      StepSimulates(cfg, s, steps[0]);
      NotesConserved(cfg, Do(cfg, s, steps[0]), steps[1..], f);
    }
  }

  lemma NothingUnderway(s: Sys, f: Obj)
    requires SysOk(s) && s == Initial(s.server.locals)
    ensures Underway(s, f) == 0
  {
    hide PipeOk, InTransit, Frames;
    EmptyPipes(s);
    assert Wire(Up(s)) == [];
    NoFrames();
  }

  /** After any run, every posted notification is underway in exactly one place, or
      a worker has run its handler once, or a fault has dropped it once. */
  lemma NotificationsAreConserved(cfg: Config, left: seq<Locals>, steps: seq<Step>, name: Text, args: Args)
    requires Executes(cfg, Initial(left), steps)
    ensures
      var f, s := NotificationFrame(name, args), After(cfg, Initial(left), steps);
      && SysOk(s)
      && Times(cfg, Initial(left), steps, f, Posted)
           == Underway(s, f)
              + Times(cfg, Initial(left), steps, f, Executed) + Times(cfg, Initial(left), steps, f, Dropped)
  {
    hide Inv, SysOk, Executes, After, Times, Underway, NotificationFrame, Initial;
    InitialGood(cfg, left);
    RequestRoundTrip(0, name, args, []);
    NotesConserved(cfg, Initial(left), steps, NotificationFrame(name, args));
    StartsEmpty(left, NotificationFrame(name, args));
  }

  lemma StartsEmpty(left: seq<Locals>, f: Obj)
    requires SysOk(Initial(left))
    ensures Underway(Initial(left), f) == 0
  {
    hide Underway, SysOk;
    NothingUnderway(Initial(left), f);
  }

  /** Without faults nothing is dropped. */
  lemma {:induction false} CalmDropsNothing(cfg: Config, s: Sys, steps: seq<Step>, f: Obj)
    requires Good(cfg, s) && Serene(cfg, s) && Executes(cfg, s, steps) && CalmRun(cfg, s, steps)
    ensures Times(cfg, s, steps, f, Dropped) == 0
    decreases |steps|
  {
    hide Good, Do, Healthy, Silenced, Next;
    if steps != [] {
      CalmMeets(cfg, s, steps[0], f);
      hide Enabled, Calm, Meets;
      CalmIsHealthy(cfg, s, steps[0]);
      SilenceSpreads(cfg, s, steps[0]);
      StepSimulates(cfg, s, steps[0]);
      CalmDropsNothing(cfg, Do(cfg, s, steps[0]), steps[1..], f);
    }
  }

  lemma CalmMeets(cfg: Config, s: Sys, step: Step, f: Obj)
    requires Healthy(s) && Enabled(cfg, s, step) && Calm(s, step)
    ensures !Meets(s, step, f, Dropped)
  {
    hide Next;
  }

  /** After a calm run with no work left, every posted notification whose function
      can end without breaking its worker has been handled, exactly as often as it
      was posted; of the others at most those still queued have not. */
  lemma EveryNotificationIsHandled(cfg: Config, left: seq<Locals>, steps: seq<Step>, name: Text, args: Args)
    requires left != []
    requires Executes(cfg, Initial(left), steps) && CalmRun(cfg, Initial(left), steps)
    requires After(cfg, Initial(left), steps).client.connected && Quiescent(cfg, After(cfg, Initial(left), steps))
    ensures
      var f, s := NotificationFrame(name, args), After(cfg, Initial(left), steps);
      && Times(cfg, Initial(left), steps, f, Posted)
           == Times(cfg, Initial(left), steps, f, Executed) + multiset(s.server.jobs)[f]
      && (CanRun(cfg, f) || cfg.suppress ==> multiset(s.server.jobs)[f] == 0)
  {
    hide Good, SysOk, Executes, After, Times, CalmRun, Quiescent, Serene, Healthy, FlushComes, CanRun;
    hide NotificationFrame, ParseRequest;
    var f, s := NotificationFrame(name, args), After(cfg, Initial(left), steps);
    NotificationsAreConserved(cfg, left, steps, name, args);
    CalmIsSerene(cfg, left, steps);
    InitialGood(cfg, left);
    StartsSerene(cfg, left);
    CalmDropsNothing(cfg, Initial(left), steps, f);
    OnlyJobsLeft(cfg, s, f);
    RequestRoundTrip(0, name, args, []);
    if cfg.suppress {
      SuppressedJobRuns(cfg, f);
    }
  }

  lemma OnlyJobsLeft(cfg: Config, s: Sys, f: Obj)
    requires Good(cfg, s) && Serene(cfg, s) && s.client.connected && FlushComes(s) && Quiescent(cfg, s)
    ensures SysOk(s) && Underway(s, f) == multiset(s.server.jobs)[f]
    ensures CanRun(cfg, f) ==> multiset(s.server.jobs)[f] == 0
  {
    hide Inv, PipeOk, TaskOk, ItemOk, Quiescent, Healthy, FlushComes, CanRun, ItemFrames, InTransit, Silenced;
    QuietOutward(cfg, s);
    QuietWorkers(cfg, s);
    EmptiedFrames(s.client.pending);
    UnderwayIs(s, f);
    assert f in s.server.jobs ==> !CanRun(cfg, f);
  }
}
