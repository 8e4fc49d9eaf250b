/** One client and one server session, composed: every handler of either side is
    one step, byte transfer and completion are steps of the environment, and
    steps interleave freely. */
module Systems {
  import opened MsgPack
  import opened Framing
  import opened Messages
  import opened ThisState
  import opened AsyncWriting
  import opened Dispatching
  import opened ServerSessions
  import opened Clients
  import opened Pipes
  import opened Rpc

  /** posting: what each worker's current job has still to post. */
  datatype Server = Server(
    reading: bool,
    jobs: seq<Obj>,
    posting: seq<seq<SessionTask>>,
    locals: seq<Locals>,
    tasks: seq<SessionTask>,
    out: Writer)

  /** Ids of calls, in the order they were posted to the strand, handed to the
      client's writer, unpacked by the server, run by a worker, and resolved. */
  datatype Hist = Hist(
    posted: seq<Int32>, handed: seq<Int32>, taken: seq<Int32>, ran: seq<Int32>, resolved: seq<Int32>)

  datatype Sys = Sys(
    calls: seq<Issued>,
    allotted: set<nat>,
    client: Client,
    upNet: Bytes, upBuf: Bytes,
    server: Server,
    downNet: Bytes, downBuf: Bytes,
    runs: map<nat, World>,
    lost: set<nat>,
    hist: Hist)

  /** A server with one worker per element of left, the thread-local state each
      of them starts from. */
  function Initial(left: seq<Locals>): Sys {
    Sys([], {}, NEW_CLIENT, [], [],
        Server(true, [], seq(|left|, _ => []), left, [], FRESH), [], [],
        map[], {}, Hist([], [], [], [], []))
  }

  datatype Step =
    | IssueCall(name: Text, args: Args)
    | PostCall(n: nat)
    | PostNotification(name: Text, args: Args)
    | GiveUp(n: nat)
    | Connects
    | RunStrand
    | ClientSends(count: nat)
    | ClientWritten
    | ClientWriteFails(broken: bool)
    | ServerReads(count: nat)
    | ServerUnpacks
    | ServerDiscards
    | RunJob(i: nat, worker: nat, world: World)
    | WorkerPosts(worker: nat)
    | RunSessionTask(raced: bool)
    | ServerSends(count: nat)
    | ServerWritten(raced: bool)
    | ServerWriteFails(broken: bool, raced: bool)
    | ServerCloses
    | ClientReads(count: nat)
    | ClientUnpacks

  function CallsIn(strand: seq<Task>): seq<nat> {
    if strand == [] then []
    else (if strand[0].DoCall? then [strand[0].n] else []) + CallsIn(strand[1..])
  }

  function ErasuresIn(strand: seq<Task>): seq<Int32> {
    if strand == [] then []
    else (if strand[0].Erase? then [strand[0].id] else []) + ErasuresIn(strand[1..])
  }

  function CallIds(frames: seq<Obj>): seq<Int32> {
    if frames == [] then []
    else (if IsCall(frames[0]) then [ParseRequest(frames[0]).id] else []) + CallIds(frames[1..])
  }

  /** The buffers a strand handler hands to the writer. */
  function HandedBy(c: Client, t: Task): seq<Bytes> {
    match t
    case DoCall(_, _, buffer) => if c.connected then c.pending + [buffer] else []
    case DoNotify(buffer) => [buffer]
    case Flush => c.pending
    case Erase(_) => []
  }

  ghost predicate Enabled(cfg: Config, s: Sys, step: Step) {
    match step
    case IssueCall(_, _) =>
      WindowOpen(|s.calls|, s.allotted, multiset(CallsIn(s.client.strand)), s.client.ongoing)
    case PostCall(n) => n in s.allotted && n < |s.calls|
    case PostNotification(_, _) => true
    case GiveUp(n) => n < |s.calls|
    case Connects => !s.client.connected
    case RunStrand => s.client.strand != []
    case ClientSends(k) => Possible(s.client.writer, Transmit(k))
    case ClientWritten => Possible(s.client.writer, Done(false))
    case ClientWriteFails(broken) => Possible(s.client.writer, Fail(broken, false))
    case ServerReads(k) => s.server.reading && 0 < k <= |s.upNet|
    case ServerUnpacks => s.server.reading && !s.server.out.exit && Next(s.upBuf).Got?
    case ServerDiscards => s.server.reading && s.server.out.exit && Next(s.upBuf).Got?
    case RunJob(i, w, world) =>
      && i < |s.server.jobs| && w < |s.server.posting| && w < |s.server.locals| && s.server.posting[w] == []
      && JobOn(cfg, s.server.locals[w], s.server.jobs[i], world).JobPosts?
    case WorkerPosts(w) => w < |s.server.posting| && s.server.posting[w] != []
    case RunSessionTask(_) => s.server.tasks != []
    case ServerSends(k) => Possible(s.server.out, Transmit(k))
    case ServerWritten(raced) => Possible(s.server.out, Done(raced))
    case ServerWriteFails(broken, raced) => Possible(s.server.out, Fail(broken, raced))
    case ServerCloses => true
    case ClientReads(k) => 0 < k <= |s.downNet|
    case ClientUnpacks => Next(s.downBuf).Got? && Deliverable(s.client, Next(s.downBuf).value)
  }

  function Leaving(w: Writer, k: nat): Bytes
    requires Possible(w, Transmit(k))
  {
    w.queue[0][w.flight.sent..w.flight.sent + k]
  }

  function Without<T>(xs: seq<T>, i: nat): seq<T>
    requires i < |xs|
  {
    xs[..i] + xs[i + 1..]
  }

  function JobStep(cfg: Config, s: Sys, i: nat, w: nat, world: World): Sys
    requires i < |s.server.jobs| && w < |s.server.posting| && w < |s.server.locals|
    requires JobOn(cfg, s.server.locals[w], s.server.jobs[i], world).JobPosts?
  {
    var end := JobOn(cfg, s.server.locals[w], s.server.jobs[i], world);
    var server := s.server.(
      jobs := Without(s.server.jobs, i),
      posting := s.server.posting[w := end.tasks],
      locals := s.server.locals[w := end.locals]);
    var hist := s.hist.(ran := s.hist.ran + CallIds([s.server.jobs[i]]));
    match RequestOwner(s.client.ongoing, s.server.jobs[i])
    case None => s.(server := server, hist := hist)
    case Some(n) =>
      s.(server := server, hist := hist, runs := s.runs[n := world],
         lost := s.lost + (if end.tasks == [] || !end.tasks[0].SendAnswer? then {n} else {}))
  }

  function SessionStep(s: Sys, raced: bool): Sys
    requires s.server.tasks != []
  {
    var server := s.server.(tasks := s.server.tasks[1..]);
    match s.server.tasks[0]
    case SendAnswer(a) =>
      s.(server := server.(out := Accept(s.server.out, Encode(ResponseFrame(a)), raced)),
         lost := s.lost +
           (if s.server.out.exit then AsSet(ReplyOwner(s.client.ongoing, ResponseFrame(a))) else {}))
    case _ => s.(server := server.(out := s.server.out.(exit := true)))
  }

  predicate ByServer(step: Step) {
    || step.ServerReads? || step.ServerUnpacks? || step.ServerDiscards? || step.RunJob? || step.WorkerPosts?
    || step.RunSessionTask? || step.ServerSends? || step.ServerWritten? || step.ServerWriteFails?
    || step.ServerCloses?
  }

  ghost function Do(cfg: Config, s: Sys, step: Step): Sys
    requires Enabled(cfg, s, step)
  {
    if ByServer(step) then DoServer(cfg, s, step) else DoClient(cfg, s, step)
  }

  ghost function DoClient(cfg: Config, s: Sys, step: Step): Sys
    requires Enabled(cfg, s, step) && !ByServer(step)
  {
    match step
    case IssueCall(name, args) =>
      s.(calls := s.calls + [Issued(name, args)], allotted := s.allotted + {|s.calls|})
    case PostCall(n) =>
      var buffer := Encode(RequestFrame(IdOf(n), s.calls[n].name, s.calls[n].args));
      s.(allotted := s.allotted - {n},
         client := s.client.(strand := s.client.strand + [DoCall(n, IdOf(n), buffer)]),
         hist := s.hist.(posted := s.hist.posted + [IdOf(n)]))
    case PostNotification(name, args) =>
      s.(client := s.client.(strand := s.client.strand + [DoNotify(Encode(NotificationFrame(name, args)))]))
    case Connects => s.(client := Connect(s.client))
    case RunStrand =>
      var t := s.client.strand[0];
      s.(client := RunTask(s.client.(strand := s.client.strand[1..]), t),
         hist := s.hist.(handed := s.hist.handed + CallIds(ItemFrames(HandedBy(s.client, t)))))
    case ClientSends(k) =>
      s.(client := s.client.(writer := Apply(s.client.writer, Transmit(k))),
         upNet := s.upNet + Leaving(s.client.writer, k))
    case ClientWritten => s.(client := s.client.(writer := Apply(s.client.writer, Done(false))))
    case ClientWriteFails(broken) =>
      s.(client := s.client.(writer := Apply(s.client.writer, Fail(broken, false))))
    case ClientReads(k) => s.(downNet := s.downNet[k..], downBuf := s.downBuf + s.downNet[..k])
    case ClientUnpacks =>
      var v: Obj := Next(s.downBuf).value;
      s.(downBuf := Next(s.downBuf).rest, client := Deliver(s.client, v),
         hist := s.hist.(resolved := s.hist.resolved + [ToInt32(ParseResponse(v).value.id)]))
    case _ => s
  }

  ghost function DoServer(cfg: Config, s: Sys, step: Step): Sys
    requires Enabled(cfg, s, step) && ByServer(step)
  {
    match step
    case ServerReads(k) => s.(upNet := s.upNet[k..], upBuf := s.upBuf + s.upNet[..k])
    case ServerUnpacks =>
      var v: Obj := Next(s.upBuf).value;
      s.(upBuf := Next(s.upBuf).rest, server := s.server.(jobs := s.server.jobs + [v]),
         hist := s.hist.(taken := s.hist.taken + CallIds([v])))
    case ServerDiscards =>
      var v: Obj := Next(s.upBuf).value;
      s.(upBuf := Next(s.upBuf).rest, server := s.server.(reading := false),
         lost := s.lost + AsSet(RequestOwner(s.client.ongoing, v)),
         hist := s.hist.(taken := s.hist.taken + CallIds([v])))
    case RunJob(i, w, world) => JobStep(cfg, s, i, w, world)
    case WorkerPosts(w) =>
      var rest := s.server.posting[w];
      s.(server := s.server.(posting := s.server.posting[w := rest[1..]], tasks := s.server.tasks + [rest[0]]))
    case RunSessionTask(raced) => SessionStep(s, raced)
    case ServerSends(k) =>
      s.(server := s.server.(out := Apply(s.server.out, Transmit(k))),
         downNet := s.downNet + Leaving(s.server.out, k))
    case ServerWritten(raced) => s.(server := s.server.(out := Apply(s.server.out, Done(raced))))
    case ServerWriteFails(broken, raced) =>
      s.(server := s.server.(out := Apply(s.server.out, Fail(broken, raced))))
    case _ => s.(server := s.server.(out := s.server.out.(exit := true)))
  }

  // ------------------------------------------------------ the state abstracted

  function Up(s: Sys): Pipe {
    Pipe(s.client.writer, s.upNet, s.upBuf)
  }

  function Down(s: Sys): Pipe {
    Pipe(s.server.out, s.downNet, s.downBuf)
  }

  function AnswerFrames(tasks: seq<SessionTask>): seq<Obj> {
    if tasks == [] then []
    else (if tasks[0].SendAnswer? then [ResponseFrame(tasks[0].answer)] else []) + AnswerFrames(tasks[1..])
  }

  function PostedFrames(posting: seq<seq<SessionTask>>): seq<Obj> {
    if posting == [] then [] else AnswerFrames(posting[0]) + PostedFrames(posting[1..])
  }

  predicate TaskOk(s: Sys, t: Task) {
    match t
    case DoCall(n, id, buffer) =>
      && n < |s.calls| && id == IdOf(n)
      && buffer == Encode(RequestFrame(id, s.calls[n].name, s.calls[n].args))
    case DoNotify(buffer) =>
      ItemOk(buffer) && |Frames(buffer)| == 1 && ParseRequest(Frames(buffer)[0]).Notification?
    case _ => true
  }

  /** Both directions carry whole frames only, and what waits to be written is
      one frame or nothing per buffer. */
  predicate SysOk(s: Sys) {
    && PipeOk(Up(s)) && PipeOk(Down(s))
    && !s.client.writer.exit
    && (forall i :: 0 <= i < |s.client.pending| ==> ItemOk(s.client.pending[i]))
    && (forall i :: 0 <= i < |s.client.strand| ==> TaskOk(s, s.client.strand[i]))
    && |s.server.posting| == |s.server.locals|
  }

  /** Requests waiting for the connection, in transit, or in the job queue. */
  function Requests(s: Sys): multiset<Obj>
    requires PipeOk(Up(s))
  {
    multiset(ItemFrames(s.client.pending)) + multiset(InTransit(Up(s))) + multiset(s.server.jobs)
  }

  function ReplyFrames(s: Sys): multiset<Obj>
    requires PipeOk(Down(s))
  {
    multiset(PostedFrames(s.server.posting)) + multiset(AnswerFrames(s.server.tasks)) + multiset(InTransit(Down(s)))
  }

  function CoreOf(s: Sys): Core
    requires PipeOk(Up(s)) && PipeOk(Down(s))
  {
    Core(s.calls, s.allotted, multiset(CallsIn(s.client.strand)), s.client.ongoing,
         multiset(ErasuresIn(s.client.strand)), Requests(s), ReplyFrames(s),
         s.runs, s.client.promises, s.lost)
  }
}
