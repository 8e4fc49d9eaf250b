/** Every step of the composed system is one action of the abstract machine on
    bags of frames, or none. */
module Simulation {
  import opened MsgPack
  import opened Framing
  import opened Messages
  import opened ThisState
  import opened AsyncWriting
  import opened Dispatching
  import opened ServerSessions
  import opened Clients
  import opened Pipes
  import opened Rpc
  import opened Systems

  ghost predicate Simulates(cfg: Config, s: Sys, t: Sys, a: Action) {
    && SysOk(s) && SysOk(t)
    && Can(cfg, CoreOf(s), a) && CoreOf(t) == Act(cfg, CoreOf(s), a)
  }

  // ------------------------------------------------------------- bookkeeping

  lemma {:induction false} CallsAppend(xs: seq<Task>, ys: seq<Task>)
    ensures CallsIn(xs + ys) == CallsIn(xs) + CallsIn(ys)
  {
    if xs == [] {
      assert xs + ys == ys;
    } else {
      var zs := xs + ys;
      assert zs[1..] == xs[1..] + ys;
      CallsAppend(xs[1..], ys);
      Regroup(if xs[0].DoCall? then [xs[0].n] else [], CallsIn(xs[1..]), CallsIn(ys));
    }
  }

  lemma {:induction false} ErasuresAppend(xs: seq<Task>, ys: seq<Task>)
    ensures ErasuresIn(xs + ys) == ErasuresIn(xs) + ErasuresIn(ys)
  {
    if xs == [] {
      assert xs + ys == ys;
    } else {
      var zs := xs + ys;
      assert zs[1..] == xs[1..] + ys;
      ErasuresAppend(xs[1..], ys);
      Regroup(if xs[0].Erase? then [xs[0].id] else [], ErasuresIn(xs[1..]), ErasuresIn(ys));
    }
  }

  lemma StrandOne(t: Task)
    ensures CallsIn([t]) == if t.DoCall? then [t.n] else []
    ensures ErasuresIn([t]) == if t.Erase? then [t.id] else []
  {
    assert [t][1..] == [];
  }

  lemma {:induction false} AnswersAppend(xs: seq<SessionTask>, ys: seq<SessionTask>)
    ensures AnswerFrames(xs + ys) == AnswerFrames(xs) + AnswerFrames(ys)
  {
    hide ResponseFrame;
    if xs == [] {
      assert xs + ys == ys;
    } else {
      var zs := xs + ys;
      assert zs[1..] == xs[1..] + ys;
      AnswersAppend(xs[1..], ys);
      Regroup(if xs[0].SendAnswer? then [ResponseFrame(xs[0].answer)] else [],
              AnswerFrames(xs[1..]), AnswerFrames(ys));
    }
  }

  lemma {:induction false} NoAnswerFrames(tasks: seq<SessionTask>)
    requires NoAnswer(tasks)
    ensures AnswerFrames(tasks) == []
  {
    if tasks != [] {
      NoAnswerFrames(tasks[1..]);
    }
  }

  lemma {:induction false} PostedUpdate(posting: seq<seq<SessionTask>>, w: nat, tasks: seq<SessionTask>)
    requires w < |posting|
    ensures multiset(PostedFrames(posting[w := tasks])) + multiset(AnswerFrames(posting[w]))
      == multiset(PostedFrames(posting)) + multiset(AnswerFrames(tasks))
  {
    hide AnswerFrames;
    var after, rest := posting[w := tasks], posting[1..];
    assert PostedFrames(after) == AnswerFrames(after[0]) + PostedFrames(after[1..]);
    assert PostedFrames(posting) == AnswerFrames(posting[0]) + PostedFrames(rest);
    if w == 0 {
      assert after[1..] == rest;
    } else {
      assert after[1..] == rest[w - 1 := tasks] && rest[w - 1] == posting[w];
      PostedUpdate(rest, w - 1, tasks);
      Shift(multiset(AnswerFrames(posting[0])), multiset(PostedFrames(after[1..])), multiset(AnswerFrames(posting[w])),
            multiset(PostedFrames(rest)), multiset(AnswerFrames(tasks)));
    }
  }

  lemma Shift(a: multiset<Obj>, b: multiset<Obj>, c: multiset<Obj>, d: multiset<Obj>, e: multiset<Obj>)
    requires b + c == d + e
    ensures (a + b) + c == (a + d) + e
  {
    assert (a + b) + c == a + (b + c);
  }

  lemma WithoutIs<T>(xs: seq<T>, i: nat)
    requires i < |xs|
    ensures multiset(Without(xs, i)) == multiset(xs) - multiset{xs[i]}
  {
    assert xs == xs[..i] + ([xs[i]] + xs[i + 1..]);
  }

  lemma {:induction false} EmptiedFrames(items: seq<Bytes>)
    requires forall i :: 0 <= i < |items| ==> items[i] == []
    ensures ItemFrames(items) == []
  {
    NoFrames();
    if items != [] {
      EmptiedFrames(items[1..]);
    }
  }

  /** Flushing moves the pending frames to the end of those in transit. */
  lemma {:induction false} FlushMoves(p: Pipe, items: seq<Bytes>)
    requires PipeOk(p) && !p.w.exit
    requires forall i :: 0 <= i < |items| ==> ItemOk(items[i])
    ensures
      var q := p.(w := WriteAll(p.w, items));
      PipeOk(q) && !q.w.exit && InTransit(q) == InTransit(p) + ItemFrames(items)
    decreases |items|
  {
    hide ItemOk, PipeOk, InTransit;
    if items == [] {
      assert InTransit(p) + [] == InTransit(p);
    } else {
      var before, last := items[..|items| - 1], items[|items| - 1];
      FlushMoves(p, before);
      var q := p.(w := WriteAll(p.w, before));
      PushItem(q, last, false);
      assert items == before + [last];
      ItemFramesAppend(before, [last]);
      ItemFramesOne(last);
      Regroup(InTransit(p), ItemFrames(before), Frames(last));
    }
  }

  /** A step that moves frames along, or touches none, changes nothing the
      abstract machine sees. */
  lemma SameCore(cfg: Config, s: Sys, t: Sys)
    requires SysOk(s) && SysOk(t)
    requires t.calls == s.calls && t.allotted == s.allotted && t.runs == s.runs && t.lost == s.lost
    requires t.client.ongoing == s.client.ongoing && t.client.promises == s.client.promises
    requires CallsIn(t.client.strand) == CallsIn(s.client.strand)
    requires ErasuresIn(t.client.strand) == ErasuresIn(s.client.strand)
    requires Requests(t) == Requests(s) && ReplyFrames(t) == ReplyFrames(s)
    ensures Simulates(cfg, s, t, Stutter)
  {
    hide Encode, Frames, Framed, Next, NthId, ParseRequest, ParseResponse, RequestFrame, NotificationFrame;
    hide Observed, JobOn, PipeOk, InTransit, ItemOk, ItemFrames, AnswerFrames, PostedFrames;
  }

  /** A handler posted to the strand. */
  lemma Posting(s: Sys, task: Task)
    ensures
      var strand := s.client.strand + [task];
      && CallsIn(strand) == CallsIn(s.client.strand) + (if task.DoCall? then [task.n] else [])
      && ErasuresIn(strand) == ErasuresIn(s.client.strand) + (if task.Erase? then [task.id] else [])
  {
    CallsAppend(s.client.strand, [task]);
    ErasuresAppend(s.client.strand, [task]);
    StrandOne(task);
  }

  lemma BagMinus(a: multiset<Obj>, b: multiset<Obj>, f: Obj)
    requires a == b + multiset{f}
    ensures b == a - multiset{f} && f in a
  {
  }

  lemma BagOne(f: Obj)
    ensures multiset([f]) == multiset{f}
    ensures var none: seq<Obj> := []; multiset(none) == multiset{}
  {
  }

  // ------------------------------------------------------------ client steps

  lemma SimIssue(cfg: Config, s: Sys, t: Sys, name: Text, args: Args)
    requires SysOk(s) && WindowOpen(|s.calls|, s.allotted, multiset(CallsIn(s.client.strand)), s.client.ongoing)
    requires t == s.(calls := s.calls + [Issued(name, args)], allotted := s.allotted + {|s.calls|})
    ensures Simulates(cfg, s, t, Issue(name, args))
  {
    hide Encode, Frames, Framed, Next, NthId, ParseRequest, ParseResponse, RequestFrame, NotificationFrame;
    hide Observed, JobOn, PipeOk, InTransit, ItemOk, ItemFrames, AnswerFrames, PostedFrames;
    hide CallsIn, ErasuresIn, Handled, RequestOwner, ReplyOwner, ReplyFrame;
    assert Up(t) == Up(s) && Down(t) == Down(s);
  }

  lemma SimPost(cfg: Config, s: Sys, t: Sys, n: nat)
    requires SysOk(s) && n in s.allotted && n < |s.calls|
    requires
      var task := DoCall(n, IdOf(n), Encode(RequestFrame(IdOf(n), s.calls[n].name, s.calls[n].args)));
      t == s.(allotted := s.allotted - {n}, client := s.client.(strand := s.client.strand + [task]), hist := t.hist)
    ensures Simulates(cfg, s, t, Action.Post(n))
  {
    hide Encode, Frames, Framed, Next, NthId, ParseRequest, ParseResponse, RequestFrame, NotificationFrame;
    hide Observed, JobOn, PipeOk, InTransit, ItemOk, ItemFrames, AnswerFrames, PostedFrames;
    Posting(s, DoCall(n, IdOf(n), Encode(RequestFrame(IdOf(n), s.calls[n].name, s.calls[n].args))));
    assert Up(t) == Up(s) && Down(t) == Down(s);
  }

  lemma SimPostNotification(cfg: Config, s: Sys, t: Sys, name: Text, args: Args)
    requires SysOk(s)
    requires
      var task := DoNotify(Encode(NotificationFrame(name, args)));
      t == s.(client := s.client.(strand := s.client.strand + [task]))
    ensures Simulates(cfg, s, t, Stutter)
  {
    hide Encode, Frames, Framed, Next, NthId, ParseRequest, ParseResponse, RequestFrame, NotificationFrame;
    hide Observed, JobOn, PipeOk, InTransit, ItemOk, ItemFrames, AnswerFrames, PostedFrames;
    var f := NotificationFrame(name, args);
    OneFrame(f);
    RequestRoundTrip(0, name, args, []);
    assert TaskOk(s, DoNotify(Encode(f)));
    Posting(s, DoNotify(Encode(f)));
    assert Up(t) == Up(s) && Down(t) == Down(s);
    SameCore(cfg, s, t);
  }

  lemma SimConnect(cfg: Config, s: Sys, t: Sys)
    requires SysOk(s) && t == s.(client := Connect(s.client))
    ensures Simulates(cfg, s, t, Stutter)
  {
    hide Encode, Frames, Framed, Next, NthId, ParseRequest, ParseResponse, RequestFrame, NotificationFrame;
    hide Observed, JobOn, PipeOk, InTransit, ItemOk, ItemFrames, AnswerFrames, PostedFrames;
    Posting(s, Flush);
    assert Up(t) == Up(s) && Down(t) == Down(s);
    SameCore(cfg, s, t);
  }

  /** The handler at the front of the strand, taken off. */
  lemma Popping(strand: seq<Task>)
    requires strand != []
    ensures multiset(CallsIn(strand[1..])) ==
      if strand[0].DoCall? then multiset(CallsIn(strand)) - multiset{strand[0].n} else multiset(CallsIn(strand))
    ensures multiset(ErasuresIn(strand[1..])) ==
      if strand[0].Erase? then multiset(ErasuresIn(strand)) - multiset{strand[0].id}
      else multiset(ErasuresIn(strand))
    ensures strand[0].DoCall? ==> strand[0].n in CallsIn(strand)
    ensures strand[0].Erase? ==> strand[0].id in ErasuresIn(strand)
    ensures !strand[0].DoCall? ==> CallsIn(strand[1..]) == CallsIn(strand)
    ensures !strand[0].Erase? ==> ErasuresIn(strand[1..]) == ErasuresIn(strand)
  {
    var t, rest := strand[0], strand[1..];
    if t.DoCall? {
      assert CallsIn(strand) == [t.n] + CallsIn(rest);
    } else {
      assert CallsIn(strand) == [] + CallsIn(rest) == CallsIn(rest);
    }
    if t.Erase? {
      assert ErasuresIn(strand) == [t.id] + ErasuresIn(rest);
    } else {
      assert ErasuresIn(strand) == [] + ErasuresIn(rest) == ErasuresIn(rest);
    }
  }

  ghost predicate Pops(s: Sys, t: Sys) {
    && s.client.strand != []
    && t == s.(client := RunTask(s.client.(strand := s.client.strand[1..]), s.client.strand[0]), hist := t.hist)
  }

  /** What the pending buffers and the writer hold after the pending ones have
      been written once more. */
  lemma Flushed(s: Sys)
    requires SysOk(s)
    ensures
      var p := Up(s).(w := WriteAll(s.client.writer, s.client.pending));
      && PipeOk(p) && !p.w.exit
      && InTransit(p) == InTransit(Up(s)) + ItemFrames(s.client.pending)
      && ItemFrames(Emptied(s.client.pending)) == [] && ItemOk([])
  {
    hide Encode, Frames, Framed, Next, NthId, ParseRequest, ParseResponse, RequestFrame, NotificationFrame;
    hide Observed, JobOn, PipeOk, InTransit, ItemOk, ItemFrames, AnswerFrames, PostedFrames;
    hide CallsIn, ErasuresIn, Handled, RequestOwner, ReplyOwner, ReplyFrame;
    FlushMoves(Up(s), s.client.pending);
    EmptiedFrames(Emptied(s.client.pending));
    NoFrames();
  }

  lemma SimFlush(cfg: Config, s: Sys, t: Sys)
    requires SysOk(s) && Pops(s, t) && s.client.strand[0].Flush?
    ensures Simulates(cfg, s, t, Stutter)
  {
    hide Encode, Frames, Framed, Next, NthId, ParseRequest, ParseResponse, RequestFrame, NotificationFrame;
    hide Observed, JobOn, PipeOk, InTransit, ItemOk, ItemFrames, AnswerFrames, PostedFrames;
    hide CallsIn, ErasuresIn, Handled, RequestOwner, ReplyOwner, ReplyFrame;
    Popping(s.client.strand);
    Flushed(s);
    assert Up(t) == Up(s).(w := WriteAll(s.client.writer, s.client.pending)) && Down(t) == Down(s);
    SameCore(cfg, s, t);
  }

  lemma SimErase(cfg: Config, s: Sys, t: Sys)
    requires SysOk(s) && Pops(s, t) && s.client.strand[0].Erase?
    ensures Simulates(cfg, s, t, Forget(s.client.strand[0].id))
  {
    hide Encode, Frames, Framed, Next, NthId, ParseRequest, ParseResponse, RequestFrame, NotificationFrame;
    hide Observed, JobOn, PipeOk, InTransit, ItemOk, ItemFrames, AnswerFrames, PostedFrames;
    hide CallsIn, ErasuresIn, Handled, RequestOwner, ReplyOwner, ReplyFrame;
    Popping(s.client.strand);
    assert Up(t) == Up(s) && Down(t) == Down(s);
  }

  lemma SimNotify(cfg: Config, s: Sys, t: Sys)
    requires SysOk(s) && Pops(s, t) && s.client.strand[0].DoNotify?
    ensures |Frames(s.client.strand[0].buffer)| == 1
    ensures Simulates(cfg, s, t, Notify(Frames(s.client.strand[0].buffer)[0]))
  {
    hide Encode, Frames, Framed, Next, NthId, ParseRequest, ParseResponse, RequestFrame, NotificationFrame;
    hide Observed, JobOn, PipeOk, InTransit, ItemOk, ItemFrames, AnswerFrames, PostedFrames;
    hide CallsIn, ErasuresIn, Handled, RequestOwner, ReplyOwner, ReplyFrame;
    Popping(s.client.strand);
    var buffer := s.client.strand[0].buffer;
    assert TaskOk(s, s.client.strand[0]);
    PushItem(Up(s), buffer, false);
    assert Up(t) == Up(s).(w := Accept(s.client.writer, buffer, false)) && Down(t) == Down(s);
    var f := Frames(buffer)[0];
    assert Frames(buffer) == [f];
    RequestEnters(s, t, [], [f], f);
    assert ReplyFrames(t) == ReplyFrames(s);
  }

  /** A request joins those pending (xs) or, after those, the ones in transit (ys). */
  lemma RequestEnters(s: Sys, t: Sys, xs: seq<Obj>, ys: seq<Obj>, f: Obj)
    requires PipeOk(Up(s)) && PipeOk(Up(t)) && t.server == s.server && xs + ys == [f]
    requires
      || (ItemFrames(t.client.pending) == ItemFrames(s.client.pending) + xs
          && InTransit(Up(t)) == InTransit(Up(s)) + ys)
      || (ItemFrames(t.client.pending) == xs == []
          && InTransit(Up(t)) == (InTransit(Up(s)) + ItemFrames(s.client.pending)) + ys)
    ensures Requests(t) == Requests(s) + multiset{f}
  {
    hide Encode, Frames, Framed, Next, NthId, ParseRequest, ParseResponse, RequestFrame, NotificationFrame;
    hide Observed, JobOn, PipeOk, InTransit, ItemOk, ItemFrames, AnswerFrames, PostedFrames;
    hide CallsIn, ErasuresIn, Handled, RequestOwner, ReplyOwner, ReplyFrame;
    BagOne(f);
    assert multiset(xs + ys) == multiset(xs) + multiset(ys);
    var none: seq<Obj> := [];
    assert multiset(none) == multiset{};
  }

  lemma SimCall(cfg: Config, s: Sys, t: Sys)
    requires SysOk(s) && Pops(s, t) && s.client.strand[0].DoCall?
    ensures Simulates(cfg, s, t, Register(s.client.strand[0].n))
  {
    hide Encode, Frames, Framed, Next, NthId, ParseRequest, ParseResponse, RequestFrame, NotificationFrame;
    hide Observed, JobOn, PipeOk, InTransit, ItemOk, ItemFrames, AnswerFrames, PostedFrames;
    hide CallsIn, ErasuresIn, Handled, RequestOwner, ReplyOwner, ReplyFrame;
    assert TaskOk(s, s.client.strand[0]);
    var n, buffer := s.client.strand[0].n, s.client.strand[0].buffer;
    var f := RequestFrame(IdOf(n), s.calls[n].name, s.calls[n].args);
    OneFrame(f);
    if s.client.connected {
      CallConnected(s, t, buffer, f);
    } else {
      CallPending(s, t, buffer, f);
    }
    SimRegister(cfg, s, t, n);
  }

  lemma CallPending(s: Sys, t: Sys, buffer: Bytes, f: Obj)
    requires SysOk(s) && Pops(s, t) && !s.client.connected && ItemOk(buffer) && Frames(buffer) == [f]
    requires s.client.strand[0].DoCall? && s.client.strand[0].buffer == buffer
    ensures SysOk(t) && Requests(t) == Requests(s) + multiset{f} && Down(t) == Down(s)
  {
    hide Encode, Frames, Framed, Next, NthId, ParseRequest, ParseResponse, RequestFrame, NotificationFrame;
    hide Observed, JobOn, PipeOk, InTransit, ItemOk, ItemFrames, AnswerFrames, PostedFrames;
    hide CallsIn, ErasuresIn, Handled, RequestOwner, ReplyOwner, ReplyFrame;
    assert Up(t) == Up(s) && Down(t) == Down(s);
    ItemFramesAppend(s.client.pending, [buffer]);
    ItemFramesOne(buffer);
    assert InTransit(Up(s)) + [] == InTransit(Up(s));
    RequestEnters(s, t, [f], [], f);
  }

  lemma CallConnected(s: Sys, t: Sys, buffer: Bytes, f: Obj)
    requires SysOk(s) && Pops(s, t) && s.client.connected && ItemOk(buffer) && Frames(buffer) == [f]
    requires s.client.strand[0].DoCall? && s.client.strand[0].buffer == buffer
    ensures SysOk(t) && Requests(t) == Requests(s) + multiset{f} && Down(t) == Down(s)
  {
    hide Encode, Frames, Framed, Next, NthId, ParseRequest, ParseResponse, RequestFrame, NotificationFrame;
    hide Observed, JobOn, PipeOk, InTransit, ItemOk, ItemFrames, AnswerFrames, PostedFrames;
    hide CallsIn, ErasuresIn, Handled, RequestOwner, ReplyOwner, ReplyFrame;
    Flushed(s);
    var p := Up(s).(w := WriteAll(s.client.writer, s.client.pending));
    PushItem(p, buffer, false);
    assert Up(t) == p.(w := Accept(p.w, buffer, false)) && Down(t) == Down(s);
    RequestEnters(s, t, [], [f], f);
  }

  lemma SimRegister(cfg: Config, s: Sys, t: Sys, n: nat)
    requires SysOk(s) && SysOk(t) && Pops(s, t) && n < |s.calls| && Down(t) == Down(s)
    requires s.client.strand[0].DoCall? && s.client.strand[0].n == n && s.client.strand[0].id == IdOf(n)
    requires Requests(t) == Requests(s) + multiset{RequestFrame(IdOf(n), s.calls[n].name, s.calls[n].args)}
    ensures Simulates(cfg, s, t, Register(n))
  {
    hide Encode, Frames, Framed, Next, NthId, ParseRequest, ParseResponse, RequestFrame, NotificationFrame;
    hide Observed, JobOn, PipeOk, InTransit, ItemOk, ItemFrames, AnswerFrames, PostedFrames;
    hide CallsIn, ErasuresIn, Handled, RequestOwner, ReplyOwner, ReplyFrame;
    Popping(s.client.strand);
    assert ReplyFrames(t) == ReplyFrames(s);
    hide Requests, ReplyFrames;
  }

  // -------------------------------------------------------- client transport

  lemma SimClientSends(cfg: Config, s: Sys, t: Sys, k: nat)
    requires SysOk(s) && Possible(s.client.writer, Transmit(k))
    requires t == s.(client := s.client.(writer := Apply(s.client.writer, Transmit(k))),
                     upNet := s.upNet + Leaving(s.client.writer, k))
    ensures Simulates(cfg, s, t, Stutter)
  {
    hide Encode, Frames, Framed, Next, NthId, ParseRequest, ParseResponse, RequestFrame, NotificationFrame;
    hide Observed, JobOn, PipeOk, InTransit, ItemOk, ItemFrames, AnswerFrames, PostedFrames;
    hide CallsIn, ErasuresIn, Handled, RequestOwner, ReplyOwner, ReplyFrame;
    Send(Up(s), k);
    assert Down(t) == Down(s);
    SameCore(cfg, s, t);
  }

  lemma SimClientWritten(cfg: Config, s: Sys, t: Sys)
    requires SysOk(s) && Possible(s.client.writer, Done(false))
    requires t == s.(client := s.client.(writer := Apply(s.client.writer, Done(false))))
    ensures Simulates(cfg, s, t, Stutter)
  {
    hide Encode, Frames, Framed, Next, NthId, ParseRequest, ParseResponse, RequestFrame, NotificationFrame;
    hide Observed, JobOn, PipeOk, InTransit, ItemOk, ItemFrames, AnswerFrames, PostedFrames;
    hide CallsIn, ErasuresIn, Handled, RequestOwner, ReplyOwner, ReplyFrame;
    Complete(Up(s), false);
    assert Down(t) == Down(s);
    SameCore(cfg, s, t);
  }

  /** The buffer of a failed write holds one frame. */
  lemma FailedFront(w: Writer, broken: bool)
    requires Possible(w, Fail(broken, false)) && ItemOk(w.queue[0])
    ensures |Frames(w.queue[0])| == 1
    ensures Forgiven(w.queue[0], broken) ==> ArraySize(Frames(w.queue[0])[0]) == 3
  {
    FramedHasNext(w.queue[0]);
  }

  lemma SimForgiven(cfg: Config, s: Sys, t: Sys, f: Obj)
    requires SysOk(s) && SysOk(t) && Down(t) == Down(s) && t == s.(client := s.client.(writer := t.client.writer))
    requires Requests(s) == Requests(t) + multiset{f}
    requires RequestsOk(CoreOf(s)) && ArraySize(f) == 3
    ensures Simulates(cfg, s, t, DropRequest(f))
  {
    hide Encode, Frames, Framed, Next, NthId, ParseRequest, ParseResponse, RequestFrame, NotificationFrame;
    hide Observed, JobOn, PipeOk, InTransit, ItemOk, ItemFrames, AnswerFrames, PostedFrames;
    hide CallsIn, ErasuresIn, Handled, RequestOwner, ReplyOwner, ReplyFrame;
    hide RequestsOk, Requests, ArraySize;
    BagMinus(Requests(s), Requests(t), f);
    ThreeIsNoCall(CoreOf(s), f);
    assert s.lost + {} == s.lost;
  }

  lemma WriterLosesOne(s: Sys, t: Sys, f: Obj)
    requires SysOk(s) && SysOk(t) && t == s.(client := s.client.(writer := t.client.writer))
    requires multiset(InTransit(Up(s))) == multiset(InTransit(Up(t))) + multiset{f}
    ensures Requests(s) == Requests(t) + multiset{f}
  {
    hide Encode, Frames, Framed, Next, NthId, ParseRequest, ParseResponse, RequestFrame, NotificationFrame;
    hide Observed, JobOn, PipeOk, InTransit, ItemOk, ItemFrames, AnswerFrames, PostedFrames;
    hide CallsIn, ErasuresIn, Handled, RequestOwner, ReplyOwner, ReplyFrame;
  }

  lemma SimClientWriteFails(cfg: Config, s: Sys, t: Sys, broken: bool)
    requires SysOk(s) && Possible(s.client.writer, Fail(broken, false))
    requires t == s.(client := s.client.(writer := Apply(s.client.writer, Fail(broken, false))))
    requires RequestsOk(CoreOf(s))
    ensures |Frames(s.client.writer.queue[0])| == 1
    ensures Simulates(cfg, s, t,
      if Forgiven(s.client.writer.queue[0], broken) then DropRequest(Frames(s.client.writer.queue[0])[0]) else Stutter)
  {
    hide Encode, Frames, Framed, Next, NthId, ParseRequest, ParseResponse, RequestFrame, NotificationFrame;
    hide Observed, JobOn, PipeOk, InTransit, ItemOk, ItemFrames, AnswerFrames, PostedFrames;
    hide CallsIn, ErasuresIn, Handled, RequestOwner, ReplyOwner, ReplyFrame;
    hide RequestsOk;
    var p := Up(s);
    Failing(p, broken, false);
    assert Down(t) == Down(s);
    QueueItemsOk(p);
    FailedFront(p.w, broken);
    if Forgiven(p.w.queue[0], broken) {
      var f := Frames(p.w.queue[0])[0];
      assert Frames(p.w.queue[0]) == [f];
      DropMiddle(Frames(Wire(p)), f, ItemFrames(p.w.queue[1..]));
      WriterLosesOne(s, t, f);
      SimForgiven(cfg, s, t, f);
    } else {
      SameCore(cfg, s, t);
    }
  }

  lemma QueueItemsOk(p: Pipe)
    requires PipeOk(p)
    ensures forall i :: 0 <= i < |p.w.queue| ==> ItemOk(p.w.queue[i])
    ensures Sound(p.w)
  {
    hide ItemOk;
  }

  lemma DropMiddle(xs: seq<Obj>, f: Obj, ys: seq<Obj>)
    ensures multiset(xs + ([f] + ys)) == multiset(xs + ys) + multiset{f}
  {
  }

  lemma ThreeIsNoCall(c: Core, f: Obj)
    requires RequestsOk(c) && f in c.requests && ArraySize(f) == 3
    ensures RequestOwner(c.ongoing, f) == None
  {
  }

  lemma SimClientReads(cfg: Config, s: Sys, t: Sys, k: nat)
    requires SysOk(s) && k <= |s.downNet|
    requires t == s.(downNet := s.downNet[k..], downBuf := s.downBuf + s.downNet[..k])
    ensures Simulates(cfg, s, t, Stutter)
  {
    hide Encode, Frames, Framed, Next, NthId, ParseRequest, ParseResponse, RequestFrame, NotificationFrame;
    hide Observed, JobOn, PipeOk, InTransit, ItemOk, ItemFrames, AnswerFrames, PostedFrames;
    hide CallsIn, ErasuresIn, Handled, RequestOwner, ReplyOwner, ReplyFrame;
    Pipes.Receive(Down(s), k);
    assert Up(t) == Up(s);
    SameCore(cfg, s, t);
  }

  // ------------------------------------------------------------ server steps

  lemma SimServerReads(cfg: Config, s: Sys, t: Sys, k: nat)
    requires SysOk(s) && k <= |s.upNet|
    requires t == s.(upNet := s.upNet[k..], upBuf := s.upBuf + s.upNet[..k])
    ensures Simulates(cfg, s, t, Stutter)
  {
    hide Encode, Frames, Framed, Next, NthId, ParseRequest, ParseResponse, RequestFrame, NotificationFrame;
    hide Observed, JobOn, PipeOk, InTransit, ItemOk, ItemFrames, AnswerFrames, PostedFrames;
    hide CallsIn, ErasuresIn, Handled, RequestOwner, ReplyOwner, ReplyFrame;
    Pipes.Receive(Up(s), k);
    assert Down(t) == Down(s);
    SameCore(cfg, s, t);
  }

  /** Unpacking on the server takes the oldest request off the stream. */
  lemma TakenUp(s: Sys, t: Sys)
    requires SysOk(s) && Next(s.upBuf).Got?
    requires t == s.(upBuf := Next(s.upBuf).rest, server := t.server, lost := t.lost, hist := t.hist)
    requires t.server.out == s.server.out && |t.server.posting| == |t.server.locals|
    ensures SysOk(t) && InTransit(Up(s)) == [Next(s.upBuf).value] + InTransit(Up(t))
    ensures Up(t).w == Up(s).w && Down(t) == Down(s)
  {
    hide Encode, Frames, Framed, Next, NthId, ParseRequest, ParseResponse, RequestFrame, NotificationFrame;
    hide Observed, JobOn, PipeOk, InTransit, ItemOk, ItemFrames, AnswerFrames, PostedFrames;
    hide CallsIn, ErasuresIn, Handled, RequestOwner, ReplyOwner, ReplyFrame;
    Take(Up(s));
    assert Down(t) == Down(s);
  }

  lemma SimServerUnpacks(cfg: Config, s: Sys, t: Sys)
    requires SysOk(s) && Next(s.upBuf).Got?
    requires t == s.(upBuf := Next(s.upBuf).rest,
                     server := s.server.(jobs := s.server.jobs + [Next(s.upBuf).value]), hist := t.hist)
    ensures Simulates(cfg, s, t, Stutter)
  {
    hide Encode, Frames, Framed, Next, NthId, ParseRequest, ParseResponse, RequestFrame, NotificationFrame;
    hide Observed, JobOn, PipeOk, InTransit, ItemOk, ItemFrames, AnswerFrames, PostedFrames;
    hide CallsIn, ErasuresIn, Handled, RequestOwner, ReplyOwner, ReplyFrame;
    TakenUp(s, t);
    SameCore(cfg, s, t);
  }

  lemma RepliesSame(s: Sys, t: Sys)
    requires PipeOk(Down(s)) && Down(t) == Down(s)
    requires t.server.posting == s.server.posting && t.server.tasks == s.server.tasks
    ensures ReplyFrames(t) == ReplyFrames(s)
  {
  }

  lemma RequestLeaves(s: Sys, t: Sys, v: Obj)
    requires PipeOk(Up(s)) && PipeOk(Up(t)) && InTransit(Up(s)) == [v] + InTransit(Up(t))
    requires t.client.pending == s.client.pending && t.server.jobs == s.server.jobs
    ensures Requests(s) == Requests(t) + multiset{v}
  {
    hide PipeOk, InTransit, ItemFrames;
    BagOne(v);
  }

  lemma SimServerDiscards(cfg: Config, s: Sys, t: Sys)
    requires SysOk(s) && Next(s.upBuf).Got?
    requires
      var v: Obj := Next(s.upBuf).value;
      t == s.(upBuf := Next(s.upBuf).rest, server := s.server.(reading := false),
              lost := s.lost + AsSet(RequestOwner(s.client.ongoing, v)), hist := t.hist)
    ensures Simulates(cfg, s, t, DropRequest(Next(s.upBuf).value))
  {
    hide Encode, Frames, Framed, Next, NthId, ParseRequest, ParseResponse, RequestFrame, NotificationFrame;
    hide Observed, JobOn, PipeOk, InTransit, ItemOk, ItemFrames, AnswerFrames, PostedFrames;
    hide CallsIn, ErasuresIn, Handled, RequestOwner, ReplyOwner, ReplyFrame;
    hide Requests, ReplyFrames, AsSet, WindowOpen;
    TakenUp(s, t);
    var v: Obj := Next(s.upBuf).value;
    RequestLeaves(s, t, v);
    BagMinus(Requests(s), Requests(t), v);
    RepliesSame(s, t);
  }

  lemma SimWorkerPosts(cfg: Config, s: Sys, t: Sys, w: nat)
    requires SysOk(s) && w < |s.server.posting| && s.server.posting[w] != []
    requires
      var rest := s.server.posting[w];
      t == s.(server := s.server.(posting := s.server.posting[w := rest[1..]], tasks := s.server.tasks + [rest[0]]))
    ensures Simulates(cfg, s, t, Stutter)
  {
    hide Encode, Frames, Framed, Next, NthId, ParseRequest, ParseResponse, RequestFrame, NotificationFrame;
    hide Observed, JobOn, PipeOk, InTransit, ItemOk, ItemFrames, AnswerFrames, PostedFrames;
    hide CallsIn, ErasuresIn, Handled, RequestOwner, ReplyOwner, ReplyFrame;
    var rest := s.server.posting[w];
    assert rest == [rest[0]] + rest[1..];
    AnswersAppend([rest[0]], rest[1..]);
    AnswersAppend(s.server.tasks, [rest[0]]);
    PostedUpdate(s.server.posting, w, rest[1..]);
    assert Up(t) == Up(s) && Down(t) == Down(s);
    PostMoves(multiset(PostedFrames(s.server.posting)), multiset(PostedFrames(t.server.posting)),
              multiset(AnswerFrames([rest[0]])), multiset(AnswerFrames(rest[1..])),
              multiset(AnswerFrames(s.server.tasks)), multiset(InTransit(Down(s))));
    SameCore(cfg, s, t);
  }

  lemma PostMoves(posted: multiset<Obj>, after: multiset<Obj>, first: multiset<Obj>, rest: multiset<Obj>,
                  tasks: multiset<Obj>, down: multiset<Obj>)
    requires after + (first + rest) == posted + rest
    ensures after + (tasks + first) + down == posted + tasks + down
  {
    forall x ensures after[x] + first[x] == posted[x] {
      assert (after + (first + rest))[x] == (posted + rest)[x];
    }
    assert after + first == posted;
    assert after + (tasks + first) == (after + first) + tasks;
  }

  lemma SimServerSends(cfg: Config, s: Sys, t: Sys, k: nat)
    requires SysOk(s) && Possible(s.server.out, Transmit(k))
    requires t == s.(server := s.server.(out := Apply(s.server.out, Transmit(k))),
                     downNet := s.downNet + Leaving(s.server.out, k))
    ensures Simulates(cfg, s, t, Stutter)
  {
    hide Encode, Frames, Framed, Next, NthId, ParseRequest, ParseResponse, RequestFrame, NotificationFrame;
    hide Observed, JobOn, PipeOk, InTransit, ItemOk, ItemFrames, AnswerFrames, PostedFrames;
    hide CallsIn, ErasuresIn, Handled, RequestOwner, ReplyOwner, ReplyFrame;
    Send(Down(s), k);
    assert Up(t) == Up(s);
    SameCore(cfg, s, t);
  }

  lemma SimServerWritten(cfg: Config, s: Sys, t: Sys, raced: bool)
    requires SysOk(s) && Possible(s.server.out, Done(raced))
    requires t == s.(server := s.server.(out := Apply(s.server.out, Done(raced))))
    ensures Simulates(cfg, s, t, Stutter)
  {
    hide Encode, Frames, Framed, Next, NthId, ParseRequest, ParseResponse, RequestFrame, NotificationFrame;
    hide Observed, JobOn, PipeOk, InTransit, ItemOk, ItemFrames, AnswerFrames, PostedFrames;
    hide CallsIn, ErasuresIn, Handled, RequestOwner, ReplyOwner, ReplyFrame;
    Complete(Down(s), raced);
    assert Up(t) == Up(s);
    SameCore(cfg, s, t);
  }

  lemma SimServerCloses(cfg: Config, s: Sys, t: Sys)
    requires SysOk(s) && t == s.(server := s.server.(out := s.server.out.(exit := true)))
    ensures Simulates(cfg, s, t, Stutter)
  {
    hide Encode, Frames, Framed, Next, NthId, ParseRequest, ParseResponse, RequestFrame, NotificationFrame;
    hide Observed, JobOn, PipeOk, InTransit, ItemOk, ItemFrames, AnswerFrames, PostedFrames;
    hide CallsIn, ErasuresIn, Handled, RequestOwner, ReplyOwner, ReplyFrame;
    Shutting(Down(s));
    assert Up(t) == Up(s);
    SameCore(cfg, s, t);
  }

  lemma RepliesHaveFour(cfg: Config, c: Core)
    requires RepliesOk(cfg, c)
    ensures forall f :: f in c.replies ==> ArraySize(f) == 4
  {
    hide Observed, JobOn, NthId, ReplyFrame;
    forall f | f in c.replies ensures ArraySize(f) == 4 {
      assert GoodReply(cfg, c, f);
    }
  }

  /** What broken_pipe would drop from the session's queue is a reply. */
  lemma ForgivenReply(s: Sys, broken: bool)
    requires SysOk(s) && Possible(s.server.out, Fail(broken, false)) && Forgiven(s.server.out.queue[0], broken)
    ensures |Frames(s.server.out.queue[0])| == 1
    ensures
      var f := Frames(s.server.out.queue[0])[0];
      ArraySize(f) == 3 && f in ReplyFrames(s)
  {
    hide Encode, Frames, Framed, Next, NthId, ParseRequest, ParseResponse, RequestFrame, NotificationFrame;
    hide Observed, JobOn, PipeOk, InTransit, ItemOk, ItemFrames, AnswerFrames, PostedFrames;
    hide CallsIn, ErasuresIn, Handled, RequestOwner, ReplyOwner, ReplyFrame;
    var p := Down(s);
    Failing(p, broken, false);
    QueueItemsOk(p);
    FailedFront(p.w, broken);
    assert Frames(p.w.queue[0])[0] in InTransit(p);
  }

  /** Replies have four elements, so broken_pipe never drops one. */
  lemma RepliesAreNotForgiven(cfg: Config, s: Sys, broken: bool)
    requires SysOk(s) && RepliesOk(cfg, CoreOf(s)) && Possible(s.server.out, Fail(broken, false))
    ensures !Forgiven(s.server.out.queue[0], broken)
  {
    hide Encode, Frames, Framed, Next, NthId, ParseRequest, ParseResponse, RequestFrame, NotificationFrame;
    hide Observed, JobOn, PipeOk, InTransit, ItemOk, ItemFrames, AnswerFrames, PostedFrames;
    hide CallsIn, ErasuresIn, Handled, RequestOwner, ReplyOwner, ReplyFrame;
    hide RepliesOk, Forgiven, ArraySize;
    RepliesHaveFour(cfg, CoreOf(s));
    if Forgiven(s.server.out.queue[0], broken) {
      ForgivenReply(s, broken);
      assert false;
    }
  }

  lemma SimServerWriteFails(cfg: Config, s: Sys, t: Sys, broken: bool, raced: bool)
    requires SysOk(s) && Possible(s.server.out, Fail(broken, raced))
    requires t == s.(server := s.server.(out := Apply(s.server.out, Fail(broken, raced))))
    requires RepliesOk(cfg, CoreOf(s))
    ensures Simulates(cfg, s, t, Stutter)
  {
    hide Encode, Frames, Framed, Next, NthId, ParseRequest, ParseResponse, RequestFrame, NotificationFrame;
    hide Observed, JobOn, PipeOk, InTransit, ItemOk, ItemFrames, AnswerFrames, PostedFrames;
    hide CallsIn, ErasuresIn, Handled, RequestOwner, ReplyOwner, ReplyFrame;
    hide RepliesOk;
    RepliesAreNotForgiven(cfg, s, broken);
    Failing(Down(s), broken, raced);
    assert Up(t) == Up(s);
    SameCore(cfg, s, t);
  }

  // ------------------------------------------------- jobs and session tasks

  /** The frames a job's posts carry: the call's reply, if it has one. */
  lemma JobFrames(cfg: Config, left: Locals, id: Int32, call: Issued, world: World)
    requires JobOn(cfg, left, RequestFrame(id, call.name, call.args), world).JobPosts?
    ensures
      var tasks := JobOn(cfg, left, RequestFrame(id, call.name, call.args), world).tasks;
      var v := Observed(cfg, call.name, call.args, world);
      && !v.Breaks?
      && (v.Replies? <==> tasks != [] && tasks[0].SendAnswer?)
      && AnswerFrames(tasks) == if v.Replies? then [ReplyFrame(cfg, id, call, world)] else []
  {
    hide Observed, JobOn, RequestFrame, ResponseFrame;
    CallDecision(cfg, left, id, call.name, call.args, world);
    LeftoversDoNotMatter(cfg, left, RequestFrame(id, call.name, call.args), world);
    var tasks := JobOn(cfg, left, RequestFrame(id, call.name, call.args), world).tasks;
    if tasks != [] {
      NoAnswerFrames(tasks[1..]);
    }
  }

  ghost predicate Runs(cfg: Config, s: Sys, t: Sys, i: nat, w: nat, world: World) {
    && i < |s.server.jobs| && w < |s.server.posting| && w < |s.server.locals| && s.server.posting[w] == []
    && JobOn(cfg, s.server.locals[w], s.server.jobs[i], world).JobPosts?
    && t == JobStep(cfg, s, i, w, world)
  }

  /** What a job does to the bags: its request leaves, its answer enters. */
  lemma JobMoves(cfg: Config, s: Sys, t: Sys, i: nat, w: nat, world: World)
    requires SysOk(s) && Runs(cfg, s, t, i, w, world)
    ensures SysOk(t) && s.server.jobs[i] in Requests(s)
    ensures Requests(t) == Requests(s) - multiset{s.server.jobs[i]}
    ensures
      var end := JobOn(cfg, s.server.locals[w], s.server.jobs[i], world);
      ReplyFrames(t) == ReplyFrames(s) + multiset(AnswerFrames(end.tasks))
  {
    hide Encode, Frames, Framed, Next, NthId, ParseRequest, ParseResponse, RequestFrame, NotificationFrame;
    hide Observed, JobOn, PipeOk, InTransit, ItemOk, ItemFrames, AnswerFrames, PostedFrames;
    hide CallsIn, ErasuresIn, Handled, RequestOwner, ReplyOwner, ReplyFrame;
    hide Requests, ReplyFrames;
    assert Up(t) == Up(s) && Down(t) == Down(s);
    JobTakesRequest(s, t, i);
    var end := JobOn(cfg, s.server.locals[w], s.server.jobs[i], world);
    JobAddsAnswer(s, t, w, end.tasks);
  }

  lemma JobTakesRequest(s: Sys, t: Sys, i: nat)
    requires PipeOk(Up(s)) && Up(t) == Up(s) && t.client == s.client
    requires i < |s.server.jobs| && t.server.jobs == Without(s.server.jobs, i)
    ensures s.server.jobs[i] in Requests(s)
    ensures Requests(t) == Requests(s) - multiset{s.server.jobs[i]}
  {
    hide Encode, Frames, Framed, Next, NthId, ParseRequest, ParseResponse, RequestFrame, NotificationFrame;
    hide Observed, JobOn, PipeOk, InTransit, ItemOk, ItemFrames, AnswerFrames, PostedFrames;
    hide CallsIn, ErasuresIn, Handled, RequestOwner, ReplyOwner, ReplyFrame;
    WithoutIs(s.server.jobs, i);
  }

  lemma JobAddsAnswer(s: Sys, t: Sys, w: nat, tasks: seq<SessionTask>)
    requires PipeOk(Down(s)) && Down(t) == Down(s) && t.server.tasks == s.server.tasks
    requires w < |s.server.posting| && s.server.posting[w] == []
    requires t.server.posting == s.server.posting[w := tasks]
    ensures ReplyFrames(t) == ReplyFrames(s) + multiset(AnswerFrames(tasks))
  {
    hide Encode, Frames, Framed, Next, NthId, ParseRequest, ParseResponse, RequestFrame, NotificationFrame;
    hide Observed, JobOn, PipeOk, InTransit, ItemOk, ItemFrames, AnswerFrames, PostedFrames;
    hide CallsIn, ErasuresIn, Handled, RequestOwner, ReplyOwner, ReplyFrame;
    PostedUpdate(s.server.posting, w, tasks);
    EmptyAnswers();
    assert multiset(PostedFrames(t.server.posting))
      == multiset(PostedFrames(s.server.posting)) + multiset(AnswerFrames(tasks));
  }

  lemma EmptyAnswers()
    ensures AnswerFrames([]) == []
  {
  }

  lemma SimRunJob(cfg: Config, s: Sys, t: Sys, i: nat, w: nat, world: World)
    requires SysOk(s) && RequestsOk(CoreOf(s)) && Runs(cfg, s, t, i, w, world)
    ensures Simulates(cfg, s, t, Handle(s.server.jobs[i], world))
  {
    var c, f := CoreOf(s), s.server.jobs[i];
    JobMoves(cfg, s, t, i, w, world);
    InFlightIsGood(c, f);
    if RequestOwner(c.ongoing, f).Some? {
      SimRunCall(cfg, s, t, i, w, world, RequestOwner(c.ongoing, f).value);
    } else {
      SimRunOther(cfg, s, t, i, w, world);
    }
  }

  lemma CallRan(cfg: Config, s: Sys, t: Sys, i: nat, w: nat, world: World, n: nat)
    requires Runs(cfg, s, t, i, w, world) && RequestOwner(s.client.ongoing, s.server.jobs[i]) == Some(n)
    ensures
      var end := JobOn(cfg, s.server.locals[w], s.server.jobs[i], world);
      var answered := end.tasks != [] && end.tasks[0].SendAnswer?;
      && t == s.(server := t.server, hist := t.hist, runs := s.runs[n := world],
                 lost := if answered then s.lost else s.lost + {n})
      && t.server.out == s.server.out
  {
    hide JobOn, RequestOwner, CallIds;
    assert s.lost + {} == s.lost;
  }

  lemma RanCall(cfg: Config, s: Sys, t: Sys, i: nat, w: nat, world: World, n: nat)
    requires SysOk(s) && SysOk(t) && i < |s.server.jobs| && w < |s.server.locals|
    requires RequestOwner(s.client.ongoing, s.server.jobs[i]) == Some(n) && n < |s.calls|
    requires s.server.jobs[i] == RequestFrame(IdOf(n), s.calls[n].name, s.calls[n].args)
    requires s.server.jobs[i] in Requests(s)
    requires Requests(t) == Requests(s) - multiset{s.server.jobs[i]}
    requires
      var end := JobOn(cfg, s.server.locals[w], s.server.jobs[i], world);
      && end.JobPosts? && ReplyFrames(t) == ReplyFrames(s) + multiset(AnswerFrames(end.tasks))
      && t == s.(server := t.server, hist := t.hist, runs := s.runs[n := world],
                 lost := if end.tasks != [] && end.tasks[0].SendAnswer? then s.lost else s.lost + {n})
    ensures Simulates(cfg, s, t, Handle(s.server.jobs[i], world))
  {
    hide Encode, Frames, Framed, Next, NthId, ParseRequest, ParseResponse, RequestFrame, Observed, JobOn;
    hide PipeOk, InTransit, ItemOk, ItemFrames, AnswerFrames, PostedFrames;
    hide CallsIn, ErasuresIn, RequestOwner, ReplyOwner, ReplyFrame, Requests, ReplyFrames, SysOk;
    JobFrames(cfg, s.server.locals[w], IdOf(n), s.calls[n], world);
    BagOne(ReplyFrame(cfg, IdOf(n), s.calls[n], world));
  }

  lemma SimRunCall(cfg: Config, s: Sys, t: Sys, i: nat, w: nat, world: World, n: nat)
    requires SysOk(s) && SysOk(t) && Runs(cfg, s, t, i, w, world)
    requires RequestOwner(s.client.ongoing, s.server.jobs[i]) == Some(n) && n < |s.calls|
    requires s.server.jobs[i] == RequestFrame(IdOf(n), s.calls[n].name, s.calls[n].args)
    requires s.server.jobs[i] in Requests(s)
    requires Requests(t) == Requests(s) - multiset{s.server.jobs[i]}
    requires
      var end := JobOn(cfg, s.server.locals[w], s.server.jobs[i], world);
      ReplyFrames(t) == ReplyFrames(s) + multiset(AnswerFrames(end.tasks))
    ensures Simulates(cfg, s, t, Handle(s.server.jobs[i], world))
  {
    hide Encode, Frames, Framed, Next, NthId, ParseRequest, ParseResponse, RequestFrame, Observed, JobOn;
    hide PipeOk, InTransit, ItemOk, ItemFrames, AnswerFrames, PostedFrames;
    hide CallsIn, ErasuresIn, RequestOwner, ReplyOwner, ReplyFrame, Requests, ReplyFrames, SysOk, Simulates, JobStep;
    CallRan(cfg, s, t, i, w, world, n);
    RanCall(cfg, s, t, i, w, world, n);
  }

  lemma SimRunOther(cfg: Config, s: Sys, t: Sys, i: nat, w: nat, world: World)
    requires SysOk(s) && SysOk(t) && Runs(cfg, s, t, i, w, world)
    requires RequestOwner(s.client.ongoing, s.server.jobs[i]) == None && !IsCall(s.server.jobs[i])
    requires s.server.jobs[i] in Requests(s)
    requires Requests(t) == Requests(s) - multiset{s.server.jobs[i]}
    requires
      var end := JobOn(cfg, s.server.locals[w], s.server.jobs[i], world);
      ReplyFrames(t) == ReplyFrames(s) + multiset(AnswerFrames(end.tasks))
    ensures Simulates(cfg, s, t, Handle(s.server.jobs[i], world))
  {
    hide Encode, Frames, Framed, Next, NthId, ParseRequest, ParseResponse, RequestFrame, Observed, JobOn;
    hide PipeOk, InTransit, ItemOk, ItemFrames, AnswerFrames, PostedFrames;
    hide CallsIn, ErasuresIn, RequestOwner, ReplyOwner, ReplyFrame, Requests, ReplyFrames, SysOk;
    OnlyCallsAreAnswered(cfg, s.server.locals[w], s.server.jobs[i], world);
    NoAnswerFrames(JobOn(cfg, s.server.locals[w], s.server.jobs[i], world).tasks);
  }

  lemma SimSessionClose(cfg: Config, s: Sys, t: Sys, raced: bool)
    requires SysOk(s) && s.server.tasks != [] && !s.server.tasks[0].SendAnswer? && t == SessionStep(s, raced)
    ensures Simulates(cfg, s, t, Stutter)
  {
    hide Encode, Frames, Framed, Next, NthId, ParseRequest, ParseResponse, RequestFrame, NotificationFrame;
    hide Observed, JobOn, PipeOk, InTransit, ItemOk, ItemFrames, AnswerFrames, PostedFrames;
    hide CallsIn, ErasuresIn, Handled, RequestOwner, ReplyOwner, ReplyFrame;
    FirstAnswer(s.server.tasks);
    Shutting(Down(s));
    assert Up(t) == Up(s);
    SameCore(cfg, s, t);
  }

  lemma FirstAnswer(tasks: seq<SessionTask>)
    requires tasks != []
    ensures AnswerFrames(tasks)
      == (if tasks[0].SendAnswer? then [ResponseFrame(tasks[0].answer)] else []) + AnswerFrames(tasks[1..])
  {
  }

  lemma SimSessionSend(cfg: Config, s: Sys, t: Sys, raced: bool)
    requires SysOk(s) && s.server.tasks != [] && s.server.tasks[0].SendAnswer? && t == SessionStep(s, raced)
    ensures Simulates(cfg, s, t,
      if s.server.out.exit then DropReply(ResponseFrame(s.server.tasks[0].answer)) else Stutter)
  {
    hide Encode, Frames, Framed, Next, NthId, ParseRequest, ParseResponse, RequestFrame, NotificationFrame;
    hide Observed, JobOn, PipeOk, InTransit, ItemOk, ItemFrames, AnswerFrames, PostedFrames;
    hide CallsIn, ErasuresIn, Handled, RequestOwner, ReplyOwner, ReplyFrame;
    hide ResponseFrame;
    var f := ResponseFrame(s.server.tasks[0].answer);
    FirstAnswer(s.server.tasks);
    OneFrame(f);
    PushItem(Down(s), Encode(f), raced);
    assert Up(t) == Up(s);
    BagOne(f);
    if s.server.out.exit {
      SimReplyDropped(cfg, s, t, f);
    } else {
      SimReplyWritten(cfg, s, t, f);
    }
  }

  lemma ReplyLeaves(s: Sys, t: Sys, f: Obj)
    requires PipeOk(Down(s)) && PipeOk(Down(t)) && InTransit(Down(t)) == InTransit(Down(s)) + []
    requires multiset(AnswerFrames(s.server.tasks)) == multiset{f} + multiset(AnswerFrames(t.server.tasks))
    requires t.server.posting == s.server.posting
    ensures ReplyFrames(s) == ReplyFrames(t) + multiset{f}
  {
    hide PipeOk, InTransit, AnswerFrames, PostedFrames;
  }

  lemma SimReplyDropped(cfg: Config, s: Sys, t: Sys, f: Obj)
    requires SysOk(s) && SysOk(t) && InTransit(Down(t)) == InTransit(Down(s)) + [] && Up(t) == Up(s)
    requires multiset(AnswerFrames(s.server.tasks)) == multiset{f} + multiset(AnswerFrames(t.server.tasks))
    requires t == s.(server := s.server.(tasks := t.server.tasks, out := t.server.out),
                     lost := s.lost + AsSet(ReplyOwner(s.client.ongoing, f)))
    ensures Simulates(cfg, s, t, DropReply(f))
  {
    hide Encode, Frames, Framed, Next, NthId, ParseRequest, ParseResponse, RequestFrame, NotificationFrame;
    hide Observed, JobOn, PipeOk, InTransit, ItemOk, ItemFrames, AnswerFrames, PostedFrames;
    hide CallsIn, ErasuresIn, Handled, RequestOwner, ReplyOwner, ReplyFrame, ReplyFrames;
    ReplyLeaves(s, t, f);
    BagMinus(ReplyFrames(s), ReplyFrames(t), f);
  }

  lemma SimReplyWritten(cfg: Config, s: Sys, t: Sys, f: Obj)
    requires SysOk(s) && SysOk(t) && InTransit(Down(t)) == InTransit(Down(s)) + [f] && Up(t) == Up(s)
    requires multiset(AnswerFrames(s.server.tasks)) == multiset{f} + multiset(AnswerFrames(t.server.tasks))
    requires t == s.(server := s.server.(tasks := t.server.tasks, out := t.server.out), lost := s.lost + {})
    ensures Simulates(cfg, s, t, Stutter)
  {
    hide Encode, Frames, Framed, Next, NthId, ParseRequest, ParseResponse, RequestFrame, NotificationFrame;
    hide Observed, JobOn, PipeOk, InTransit, ItemOk, ItemFrames, AnswerFrames, PostedFrames;
    hide CallsIn, ErasuresIn, Handled, RequestOwner, ReplyOwner, ReplyFrame;
    assert ReplyFrames(t) == ReplyFrames(s);
    assert s.lost + {} == s.lost;
    SameCore(cfg, s, t);
  }

  // ------------------------------------------------------- the client's reply

  /** Every frame the client unpacks is for an entry of its table whose promise
      is still unset. */
  lemma AlwaysDeliverable(cfg: Config, s: Sys)
    requires SysOk(s) && RepliesOk(cfg, CoreOf(s)) && TableOk(CoreOf(s)) && Next(s.downBuf).Got?
    ensures
      var v: Obj := Next(s.downBuf).value;
      && v in ReplyFrames(s)
      && ReplyOwner(s.client.ongoing, v).Some?
      && ReplyOwner(s.client.ongoing, v).value !in s.client.promises
      && ParseResponse(v).Some? && ToInt32(ParseResponse(v).value.id) in s.client.ongoing
      && Deliverable(s.client, v)
  {
    hide Encode, Frames, Framed, Next, NthId, ParseRequest, ParseResponse, RequestFrame, Observed, JobOn;
    hide PipeOk, InTransit, ItemOk, ItemFrames, AnswerFrames, PostedFrames, CallsIn, ErasuresIn, ReplyFrame;
    var v: Obj := Next(s.downBuf).value;
    Take(Down(s));
    assert v in InTransit(Down(s));
    assert v in CoreOf(s).replies;
    assert GoodReply(cfg, CoreOf(s), v);
  }

  lemma ReplyArrives(s: Sys, t: Sys, v: Obj)
    requires PipeOk(Down(s)) && PipeOk(Down(t)) && InTransit(Down(s)) == [v] + InTransit(Down(t))
    requires t.server.posting == s.server.posting && t.server.tasks == s.server.tasks
    ensures ReplyFrames(s) == ReplyFrames(t) + multiset{v}
  {
    hide PipeOk, InTransit, AnswerFrames, PostedFrames;
    BagOne(v);
  }

  lemma RequestsSame(s: Sys, t: Sys)
    requires PipeOk(Up(s)) && Up(t) == Up(s)
    requires t.client.pending == s.client.pending && t.server.jobs == s.server.jobs
    ensures Requests(t) == Requests(s)
  {
  }

  lemma SimClientUnpacks(cfg: Config, s: Sys, t: Sys)
    requires SysOk(s) && RepliesOk(cfg, CoreOf(s)) && TableOk(CoreOf(s)) && Next(s.downBuf).Got?
    requires Deliverable(s.client, Next(s.downBuf).value)
    requires t ==
      s.(downBuf := Next(s.downBuf).rest, client := Deliver(s.client, Next(s.downBuf).value), hist := t.hist)
    ensures Simulates(cfg, s, t, Resolve(Next(s.downBuf).value))
  {
    hide Encode, Frames, Framed, Next, NthId, ParseRequest, ParseResponse, RequestFrame, Observed, JobOn;
    hide PipeOk, InTransit, ItemOk, ItemFrames, AnswerFrames, PostedFrames;
    hide CallsIn, ErasuresIn, Handled, RequestOwner, ReplyFrame, RepliesOk, TableOk;
    var v: Obj := Next(s.downBuf).value;
    AlwaysDeliverable(cfg, s);
    Take(Down(s));
    Posting(s, Erase(ToInt32(ParseResponse(v).value.id)));
    assert Up(t) == Up(s);
    ReplyArrives(s, t, v);
    RequestsSame(s, t);
    hide Requests, ReplyFrames, SysOk;
    BagMinus(ReplyFrames(s), ReplyFrames(t), v);
  }
}
