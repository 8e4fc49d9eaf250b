/** One connection on the server: the unpack loop, the job run by any worker,
    and what a client sees of every way a handler can end. */
module ServerSessions {
  import opened MsgPack
  import opened Framing
  import opened Messages
  import opened ThisState
  import opened AsyncWriting
  import opened Dispatching

  datatype Config = Config(funcs: Functions, suppress: bool, session: int)

  /** What a job posts to the session's write strand. */
  datatype SessionTask = SendAnswer(answer: Answer) | CloseThis | CloseAll

  datatype JobEnd = JobEscapes | JobPosts(tasks: seq<SessionTask>, locals: Locals)

  /** The job body, on a worker whose thread-local state is whatever the last
      job left there. */
  function JobOn(cfg: Config, left: Locals, msg: Obj, world: World): JobEnd {
    var handlerCleared := left.(resp := Nil, error := Nil, enabled := true);
    var sessionCleared := handlerCleared.(exit := false).(session := cfg.session);
    match Dispatch(cfg.funcs, cfg.suppress, msg, world, sessionCleared.(stopping := false))
    case Escapes => JobEscapes
    case Answers(answer, locals) => JobPosts(Posts(answer, locals), locals)
  }

  /** A disabled response leaves before everything else; then an error set by
      the handler, then a special result; the exit and stop requests come last. */
  function Posts(answer: Answer, l: Locals): seq<SessionTask> {
    if !l.enabled then []
    else
      var captured :=
        if !l.error.Nil? then answer.(error := Some(l.error))
        else if !l.resp.Nil? then answer.(result := Some(l.resp))
        else answer;
      (if captured.empty then [] else [SendAnswer(captured)])
      + (if l.exit then [CloseThis] else [])
      + (if l.stopping then [CloseAll] else [])
  }

  // ---------------------------------------------------- worker independence

  datatype Job = Job(worker: nat, msg: Obj, world: World)

  /** Jobs taken one after another by the given workers, each leaving its
      thread-local state to the next job on the same worker. */
  function RunJobs(cfg: Config, left: map<nat, Locals>, jobs: seq<Job>): seq<JobEnd>
    decreases |jobs|
  {
    if jobs == [] then []
    else
      var j := jobs[0];
      var start := if j.worker in left then left[j.worker] else Cleared(0);
      var end := JobOn(cfg, start, j.msg, j.world);
      [end] + RunJobs(cfg, if end.JobPosts? then left[j.worker := end.locals] else left, jobs[1..])
  }

  lemma LeftoversDoNotMatter(cfg: Config, left: Locals, msg: Obj, world: World)
    ensures JobOn(cfg, left, msg, world) == JobOn(cfg, Cleared(cfg.session), msg, world)
  {
  }

  /** Whoever runs a job and whatever ran there before, its posts are a function
      of the message and of the world its handler reads. */
  lemma {:induction false} WorkersAreIndependent(cfg: Config, left: map<nat, Locals>, jobs: seq<Job>)
    ensures |RunJobs(cfg, left, jobs)| == |jobs|
    ensures forall i :: 0 <= i < |jobs| ==>
      RunJobs(cfg, left, jobs)[i] == JobOn(cfg, Cleared(cfg.session), jobs[i].msg, jobs[i].world)
    decreases |jobs|
  {
    if jobs != [] {
      var j := jobs[0];
      var start := if j.worker in left then left[j.worker] else Cleared(0);
      var end := JobOn(cfg, start, j.msg, j.world);
      LeftoversDoNotMatter(cfg, start, j.msg, j.world);
      WorkersAreIndependent(cfg, if end.JobPosts? then left[j.worker := end.locals] else left, jobs[1..]);
    }
  }

  // ------------------------------------------------- what the client observes

  /** How a call's future ends: an RpcError carrying a value, or a value. */
  datatype Reply = Fails(error: Obj) | Yields(value: Obj)

  /** do_read: any error in the frame wins. */
  function ReplyOf(a: Answer): Reply {
    if a.error.Some? then Fails(a.error.value) else Yields(OrNil(a.result))
  }

  /** Breaks: an exception escapes the worker. Silent: no frame is sent. */
  datatype Verdict = Replies(reply: Reply) | Silent | Breaks

  /** The decision, by cause rather than by code path. */
  function Observed(cfg: Config, name: Text, args: Args, world: World): Verdict {
    if name !in cfg.funcs then Replies(Fails(ErrorText(NotFoundTag)))
    else
      var f := cfg.funcs[name];
      if |args| != f.arity then Replies(Fails(ErrorText(ClientErrorTag)))
      else if args != [] && !f.accepts(args) then
        if cfg.suppress then Replies(Fails(ErrorText(ExceptionTag))) else Breaks
      else Settled(f, f.body(world, Cleared(cfg.session), args), cfg.suppress)
  }

  function Settled(f: Function, run: Run, suppress: bool): Verdict {
    if (run.end.ThrowsException? || run.end.ThrowsOther?) && !suppress then Breaks
    else if !run.locals.enabled then Silent
    else if run.locals.error != Nil then Replies(Fails(run.locals.error))
    else match run.end
      case Returns(v) =>
        Replies(Yields(if run.locals.resp != Nil then run.locals.resp else if f.isVoid then Nil else v))
      case ThrowsMarker(_) => Replies(Fails(ErrorText(NotFoundTag)))
      case ThrowsClientError => Replies(Fails(ErrorText(ClientErrorTag)))
      case ThrowsException => Replies(Fails(ErrorText(ExceptionTag)))
      case ThrowsOther => Replies(Fails(ErrorText(UnknownTag)))
  }

  predicate NoAnswer(tasks: seq<SessionTask>) {
    forall t :: t in tasks ==> !t.SendAnswer?
  }

  /** The frame a client gets for a call: it reads back under the call's id with
      the given reply. */
  predicate Carries(a: Answer, id: Int32, reply: Reply) {
    var parsed := ParseResponse(ResponseFrame(a));
    !a.empty && parsed.Some? && ToInt32(parsed.value.id) == id && ReplyOf(parsed.value) == reply
  }

  /** A call's job escapes, sends nothing and posts nothing, or sends exactly one
      frame, first, which the client reads as the observed reply. */
  lemma CallDecision(cfg: Config, left: Locals, id: Int32, name: Text, args: Args, world: World)
    ensures
      var end := JobOn(cfg, left, RequestFrame(id, name, args), world);
      match Observed(cfg, name, args, world)
      case Breaks => end.JobEscapes?
      case Silent => end.JobPosts? && end.tasks == []
      case Replies(reply) =>
        && end.JobPosts? && end.tasks != []
        && end.tasks[0].SendAnswer? && Carries(end.tasks[0].answer, id, reply)
        && NoAnswer(end.tasks[1..])
  {
    LeftoversDoNotMatter(cfg, left, RequestFrame(id, name, args), world);
    RequestRoundTrip(id, name, args, []);
    DispatchDecision(cfg, id, name, args, world);
    var d := DispatchCall(cfg.funcs, cfg.suppress, id, name, Array(args), world, Cleared(cfg.session));
    if d.Answers? && d.locals.enabled {
      ReadBack(Posts(d.answer, d.locals)[0].answer, id);
    }
  }

  lemma ReadBack(a: Answer, id: Int32)
    requires !a.empty && a.id == ToUint32(id)
    ensures Carries(a, id, ReplyOf(Normalised(a)))
  {
    IdSurvives(id);
    ResponseRoundTrip(a, []);
  }

  /** What precedence makes of an answer when the response is enabled. */
  lemma AnswerDecision(a: Answer, l: Locals)
    requires !a.empty && l.enabled
    ensures
      var tasks := Posts(a, l);
      && tasks != [] && tasks[0].SendAnswer? && NoAnswer(tasks[1..])
      && !tasks[0].answer.empty && tasks[0].answer.id == a.id
      && ReplyOf(Normalised(tasks[0].answer)) ==
           (if l.error != Nil then Fails(l.error)
            else if OrNil(a.error) != Nil then Fails(a.error.value)
            else Yields(if l.resp != Nil then l.resp else OrNil(a.result)))
  {
    var tasks := Posts(a, l);
    assert tasks[1..] == (if l.exit then [CloseThis] else []) + (if l.stopping then [CloseAll] else []);
  }

  /** The same decision before the frame is packed. */
  lemma DispatchDecision(cfg: Config, id: Int32, name: Text, args: Args, world: World)
    ensures
      match DispatchCall(cfg.funcs, cfg.suppress, id, name, Array(args), world, Cleared(cfg.session))
      case Escapes => Observed(cfg, name, args, world).Breaks?
      case Answers(a, l) =>
        if !l.enabled then Observed(cfg, name, args, world).Silent?
        else
          var tasks := Posts(a, l);
          && tasks != [] && tasks[0].SendAnswer? && NoAnswer(tasks[1..])
          && !tasks[0].answer.empty && tasks[0].answer.id == ToUint32(id)
          && Observed(cfg, name, args, world) == Replies(ReplyOf(Normalised(tasks[0].answer)))
  {
    var d := DispatchCall(cfg.funcs, cfg.suppress, id, name, Array(args), world, Cleared(cfg.session));
    if d.Answers? && d.locals.enabled {
      AnswerDecision(d.answer, d.locals);
    }
    hide Posts, NoAnswer, Normalised, ReplyOf, ToUint32;
  }

  /** Nothing but a call ever yields a frame, whatever its handler sets. */
  lemma OnlyCallsAreAnswered(cfg: Config, left: Locals, msg: Obj, world: World)
    requires !ParseRequest(msg).Call?
    ensures
      var end := JobOn(cfg, left, msg, world);
      end.JobPosts? ==> NoAnswer(end.tasks)
  {
  }

  /** The handler is run: the name is bound, the count matches, the arguments
      convert. */
  predicate RunsHandler(cfg: Config, name: Text, args: Args) {
    name in cfg.funcs && |args| == cfg.funcs[name].arity && (args != [] ==> cfg.funcs[name].accepts(args))
  }

  /** The thread-local state when the handler is over: what it made of the cleared
      one, or the cleared one if it did not run. */
  function Afterwards(cfg: Config, name: Text, args: Args, world: World): Locals {
    if RunsHandler(cfg, name, args) then cfg.funcs[name].body(world, Cleared(cfg.session), args).locals
    else Cleared(cfg.session)
  }

  /** A disabled response suppresses the close requests too; else the session's own
      comes before the server's. */
  function CloseRequests(l: Locals): seq<SessionTask> {
    if !l.enabled then []
    else if l.exit && l.stopping then [CloseThis, CloseAll]
    else if l.exit then [CloseThis]
    else if l.stopping then [CloseAll]
    else []
  }

  /** A notification: its handler runs on a cleared state; an exception that is no
      marker breaks the worker unless suppressed, also the one for a wrong count
      or wrong arguments; otherwise nothing is posted but what the handler asked
      to close. */
  lemma NotificationDecision(cfg: Config, left: Locals, name: Text, args: Args, world: World)
    ensures
      var end := JobOn(cfg, left, NotificationFrame(name, args), world);
      var l := Afterwards(cfg, name, args, world);
      var fails :=
        if RunsHandler(cfg, name, args) then
          !cfg.funcs[name].body(world, Cleared(cfg.session), args).end.Returns?
          && !cfg.funcs[name].body(world, Cleared(cfg.session), args).end.ThrowsMarker?
        else name in cfg.funcs;
      end == if fails && !cfg.suppress then JobEscapes else JobPosts(CloseRequests(l), l)
  {
    LeftoversDoNotMatter(cfg, left, NotificationFrame(name, args), world);
    RequestRoundTrip(0, name, args, []);
    hide Encode, Next;
  }

  /** A call's job that does not break the worker leaves the handler's state behind
      and posts, after its answer if it has one, just the close requests. */
  lemma CallPosts(cfg: Config, left: Locals, id: Int32, name: Text, args: Args, world: World)
    requires JobOn(cfg, left, RequestFrame(id, name, args), world).JobPosts?
    ensures
      var end := JobOn(cfg, left, RequestFrame(id, name, args), world);
      var l := Afterwards(cfg, name, args, world);
      && end.locals == l
      && (if l.enabled then end.tasks != [] && end.tasks[0].SendAnswer? && end.tasks[1..] == CloseRequests(l)
          else end.tasks == [])
  {
    LeftoversDoNotMatter(cfg, left, RequestFrame(id, name, args), world);
    RequestRoundTrip(id, name, args, []);
    hide Encode, Next;
  }

  /** Messages no client of this library sends. By the size field alone: neither 3
      nor 4 means no answer; 3 or 4 that does not convert breaks the worker,
      whether exceptions are suppressed or not. */
  lemma ForeignMessage(cfg: Config, left: Locals, msg: Obj, world: World)
    requires ParseRequest(msg).BadMessage?
    ensures JobOn(cfg, left, msg, world)
      == if ArraySize(msg) == 3 || ArraySize(msg) == 4 then JobEscapes else JobPosts([], Cleared(cfg.session))
  {
  }

  /** Arguments that are no array: the size field is compared all the same; with a
      match, a function of no arguments runs, and any other fails to convert. */
  lemma ForeignArguments(f: Function, args: Obj, world: World, l: Locals)
    requires !args.Arr?
    ensures Adapt(f, args, world, l) ==
      if ArraySize(args) != f.arity then Run(ThrowsClientError, l)
      else if f.arity > 0 then Run(ThrowsException, l)
      else Adapt(f, Arr([]), world, l)
  {
  }

  /** Exit and stop requests follow the answer, and count only if the response
      was not disabled. */
  lemma RequestsAfterAnswer(cfg: Config, left: Locals, msg: Obj, world: World)
    requires JobOn(cfg, left, msg, world).JobPosts?
    ensures
      var end := JobOn(cfg, left, msg, world);
      && (CloseThis in end.tasks <==> end.locals.enabled && end.locals.exit)
      && (CloseAll in end.tasks <==> end.locals.enabled && end.locals.stopping)
      && (forall i :: 0 <= i < |end.tasks| && end.tasks[i].SendAnswer? ==> i == 0)
      && (forall i, j :: 0 <= i < |end.tasks| && 0 <= j < |end.tasks| ==>
            end.tasks[i].CloseThis? && end.tasks[j].CloseAll? ==> i < j)
  {
  }

  /** respond(x) in a call does not reach the caller: the frame carries x as its
      result and the "could not find function" error beside it, and the caller
      gets the error. */
  lemma RespondLosesToError(cfg: Config, id: Int32, name: Text, args: Args, world: World, x: Obj)
    requires name in cfg.funcs && |args| == cfg.funcs[name].arity
    requires args != [] ==> cfg.funcs[name].accepts(args)
    requires cfg.funcs[name].body(world, Cleared(cfg.session), args)
      == Run(ThrowsMarker(SpecialResponse), Cleared(cfg.session).(resp := x))
    requires x != Nil
    ensures
      var end := JobOn(cfg, Cleared(cfg.session), RequestFrame(id, name, args), world);
      && end == JobPosts(
           [SendAnswer(Answer(ToUint32(id), Some(ErrorText(NotFoundTag)), Some(x), false))],
           Cleared(cfg.session).(resp := x))
      && Observed(cfg, name, args, world) == Replies(Fails(ErrorText(NotFoundTag)))
  {
    CallDecision(cfg, Cleared(cfg.session), id, name, args, world);
  }

  /** Exactly when a special result reaches the caller: the handler has to set it
      and still return, with its response enabled and no error set. */
  lemma SpecialResultReachesCaller(cfg: Config, left: Locals, id: Int32, name: Text, args: Args, world: World)
    requires name in cfg.funcs && |args| == cfg.funcs[name].arity
    requires args != [] ==> cfg.funcs[name].accepts(args)
    requires cfg.funcs[name].body(world, Cleared(cfg.session), args).locals.resp != Nil
    ensures
      var end := JobOn(cfg, left, RequestFrame(id, name, args), world);
      var run := cfg.funcs[name].body(world, Cleared(cfg.session), args);
      (end.JobPosts? && end.tasks != [] && end.tasks[0].SendAnswer?
       && Carries(end.tasks[0].answer, id, Yields(run.locals.resp)))
      <==> (run.end.Returns? && run.locals.enabled && run.locals.error == Nil)
  {
    CallDecision(cfg, left, id, name, args, world);
  }

  /** respond(1), in a function of no arguments: the caller gets an error. */
  lemma RespondExample(cfg: Config, name: Text, world: World)
    requires cfg.funcs == map[name := Function(0, _ => true,
      (w, l: Locals, args) => Run(ThrowsMarker(SpecialResponse), l.(resp := Int(1))), false)]
    ensures Observed(cfg, name, [], world) == Replies(Fails(ErrorText(NotFoundTag)))
  {
    RespondLosesToError(cfg, 1, name, [], world, Int(1));
  }

  // ------------------------------------------------------------------ class

  datatype ReadCode = ReadOk | Eof | ConnectionReset | OtherReadError

  class ServerSession {
    const unpac: Unpacker
    const writer: AsyncWriter
    const disp: Dispatcher
    const suppress: bool
    const id: int
    var jobs: seq<Obj>                 // posted to the io context
    var writeStrand: seq<SessionTask>  // posted to the write strand
    var removal: nat                   // posts of close_session to the server

    constructor (disp: Dispatcher, suppress: bool, id: int)
      ensures this.disp == disp && this.suppress == suppress && this.id == id
      ensures jobs == [] && writeStrand == [] && removal == 0
      ensures fresh(unpac) && fresh(writer) && fresh(writer.exit)
      ensures unpac.buf == [] && writer.View() == FRESH && writer.exit.shared
    {
      this.disp, this.suppress, this.id := disp, suppress, id;
      unpac := new Unpacker();
      writer := new AsyncWriter(true);
      jobs, writeStrand, removal := [], [], 0;
    }

    ghost function Cfg(): Config
      reads disp
    {
      Config(disp.funcs, suppress, id)
    }

    method Close()
      modifies this`removal, writer.exit
      ensures writer.exit.value
      ensures removal == old(removal) + 1
    {
      writer.Close();
      removal := removal + 1;
    }

    /** while(next && !closed): every frame becomes a job, until none is left,
        the session is closed, or next() throws. */
    method Unpack() returns (escaped: bool, ghost posted: seq<Obj>, ghost dropped: seq<Obj>)
      requires !writer.exit.value
      modifies this`jobs, unpac, writer.exit
      ensures posted <= Frames(old(unpac.buf)) && jobs == old(jobs) + posted
      ensures Frames(old(unpac.buf)) == posted + (dropped + Frames(unpac.buf))
      ensures Held(old(unpac.buf)) == Held(unpac.buf)
      ensures |dropped| <= 1 && (dropped == [] ==> Frames(unpac.buf) == [])
      ensures escaped ==> dropped == []
      ensures !writer.exit.value ==>
        && posted == Frames(old(unpac.buf))
        && unpac.buf == Held(old(unpac.buf))
        && escaped == Next(unpac.buf).Bad?
    {
      hide Frames, Held, Next;
      posted, dropped := [], [];
      var closed := false;
      var found := unpac.TakeNext();
      if found.Got? {
        closed := writer.exit.Load();
      }
      while found.Got? && !closed
        invariant found.Got? ==> Frames(old(unpac.buf)) == posted + ([found.value] + Frames(unpac.buf))
        invariant !found.Got? ==>
          Frames(old(unpac.buf)) == posted && Frames(unpac.buf) == [] && Held(unpac.buf) == unpac.buf
        invariant !found.Got? ==> (found.Bad? <==> Next(unpac.buf).Bad?)
        invariant Held(old(unpac.buf)) == Held(unpac.buf)
        invariant posted <= Frames(old(unpac.buf))
        invariant jobs == old(jobs) + posted
        invariant closed ==> writer.exit.value
        decreases |unpac.buf| + (if found.Got? then 1 else 0)
      {
        jobs := jobs + [found.value];
        Regroup(posted, [found.value], Frames(unpac.buf));
        posted := posted + [found.value];
        found := unpac.TakeNext();
        if found.Got? {
          closed := writer.exit.Load();
        }
      }
      escaped := found.Bad?;
      if found.Got? {
        dropped := [found.value];
      }
    }

    /** The read handler. again: the next read was issued. escaped: next() threw
        on malformed bytes. While the session stays open every complete frame
        becomes a job, in order, and only an incomplete one is held back; a
        session closed during the loop posts a prefix of them and drops the next
        one; a session seen closed at the start ignores the read. */
    method OnRead(ec: ReadCode, chunk: Bytes)
      returns (again: bool, escaped: bool, ghost posted: seq<Obj>, ghost dropped: seq<Obj>, ghost ignored: bool)
      modifies this`jobs, this`removal, unpac, writer.exit
      ensures jobs == old(jobs) + posted
      ensures posted <= if ec.ReadOk? && !old(writer.exit.value) then Frames(old(unpac.buf) + chunk) else []
      ensures ec.ReadOk? && !writer.exit.value ==>
        && posted == Frames(old(unpac.buf) + chunk)
        && unpac.buf == Held(old(unpac.buf) + chunk)
        && escaped == Next(unpac.buf).Bad? && again == !escaped
      ensures !ec.ReadOk? || old(writer.exit.value) ==> unpac.buf == old(unpac.buf) && !again && !escaped
      ensures old(writer.exit.value) || ec in {Eof, ConnectionReset} ==> writer.exit.value
      ensures old(writer.exit.value) ==> ignored
      ensures ignored ==> writer.exit.value && posted == [] && unpac.buf == old(unpac.buf) && !again && !escaped
      ensures removal == old(removal) + if !ignored && ec in {Eof, ConnectionReset} then 1 else 0
      ensures !ignored && ec.ReadOk? ==>
        && Frames(old(unpac.buf) + chunk) == posted + (dropped + Frames(unpac.buf))
        && |dropped| <= 1 && (dropped == [] ==> Frames(unpac.buf) == [])
        && (again <==> !escaped && !writer.exit.value)
    {
      again, escaped, posted, dropped := false, false, [], [];
      var closed := writer.exit.Load();
      ignored := closed;
      if closed {
        return;
      }
      if ec.ReadOk? {
        unpac.BufferConsumed(chunk);
        escaped, posted, dropped := Unpack();
        if !escaped {
          closed := writer.exit.Load();
          again := !closed;
        }
      } else if ec.Eof? || ec.ConnectionReset? {
        Close();
      }
    }

    /** One job on any worker, in whatever state that worker was left. */
    method RunJob(msg: Obj, world: World, worker: Worker) returns (escaped: bool)
      modifies this`writeStrand, worker.handler, worker.session, worker.server
      ensures
        match JobOn(Cfg(), old(worker.View()), msg, world)
        case JobEscapes => escaped && writeStrand == old(writeStrand)
        case JobPosts(tasks, locals) =>
          !escaped && worker.View() == locals && writeStrand == old(writeStrand) + tasks
    {
      worker.Prepare(id);
      var d := Dispatch(disp.funcs, suppress, msg, world, worker.View());
      escaped := d.Escapes?;
      if !escaped {
        worker.Leave(d.locals);
        PostAnswer(d.answer, worker);
      }
    }

    /** The rest of the job body, after dispatch returned. */
    method PostAnswer(answer: Answer, worker: Worker)
      modifies this`writeStrand
      ensures writeStrand == old(writeStrand) + Posts(answer, worker.View())
    {
      if !worker.handler.enabled {
        return;
      }
      var resp := new Response.Copy(answer);
      if !worker.handler.error.Nil? {
        resp.CaptureError(worker.handler.error);
      } else if !worker.handler.resp.Nil? {
        resp.CaptureResult(worker.handler.resp);
      }
      if !resp.isEmpty {
        writeStrand := writeStrand + [SendAnswer(resp.View())];
      }
      if worker.session.exit {
        writeStrand := writeStrand + [CloseThis];
      }
      if worker.server.stopping {
        writeStrand := writeStrand + [CloseAll];
      }
    }
  }
}
