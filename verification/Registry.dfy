/** The server's list of sessions: accepted, closed from three places, erased by
    handlers posted later. One worker; close_sessions is one step. */
module Registries {
  import opened ThisState
  import opened Dispatching
  import opened ServerSessions

  /** Sessions are numbered as they are accepted; closed and pending hold, for
      each of them, whether it is closed and how many removals are posted. */
  datatype Registry = Registry(sessions: seq<nat>, closed: seq<bool>, pending: seq<nat>, accepting: bool)

  const NEW_REGISTRY: Registry := Registry([], [], [], true)

  /** CloseOne is the end of the stream or a handler's exit request; stopping is
      the flag of the thread that runs the accept handler. */
  datatype Event = Accepted(ok: bool, stopping: bool) | CloseOne(id: nat) | CloseAll | Removal(id: nat)

  predicate Formed(r: Registry) {
    |r.pending| == |r.closed| && forall i :: 0 <= i < |r.sessions| ==> r.sessions[i] < |r.closed|
  }

  predicate Possible(r: Registry, e: Event)
    requires Formed(r)
  {
    match e
    case Accepted(_, _) => r.accepting
    case CloseOne(id) => id < |r.closed|
    case CloseAll => true
    case Removal(id) => id < |r.pending| && r.pending[id] > 0
  }

  function Close(r: Registry, id: nat): Registry
    requires id < |r.closed| == |r.pending|
  {
    r.(closed := r.closed[id := true], pending := r.pending[id := r.pending[id] + 1])
  }

  function CloseEach(r: Registry, ids: seq<nat>): (s: Registry)
    requires |r.closed| == |r.pending| && forall i :: 0 <= i < |ids| ==> ids[i] < |r.closed|
    ensures |s.closed| == |s.pending| == |r.closed| && s.sessions == r.sessions && s.accepting == r.accepting
  {
    if ids == [] then r else Close(CloseEach(r, ids[..|ids| - 1]), ids[|ids| - 1])
  }

  predicate Ascending(ids: seq<nat>) {
    forall i, j :: 0 <= i < j < |ids| ==> ids[i] < ids[j]
  }

  /** erase(find(id)): the first occurrence, if there is one. */
  function Erase(ids: seq<nat>, id: nat): (rest: seq<nat>)
    ensures forall x :: x in rest ==> x in ids
    ensures forall i :: 0 <= i < |rest| ==> rest[i] in ids
  {
    if ids == [] then [] else if ids[0] == id then ids[1..] else [ids[0]] + Erase(ids[1..], id)
  }

  function Apply(r: Registry, e: Event): (s: Registry)
    requires Formed(r) && Possible(r, e)
    ensures Formed(s)
  {
    match e
    case Accepted(ok, stopping) =>
      (if ok then r.(sessions := r.sessions + [|r.closed|], closed := r.closed + [false], pending := r.pending + [0])
       else r).(accepting := !stopping)
    case CloseOne(id) => Close(r, id)
    case CloseAll => CloseEach(r.(sessions := []), r.sessions)
    case Removal(id) => r.(sessions := Erase(r.sessions, id), pending := r.pending[id := r.pending[id] - 1])
  }

  /** The list is in order of acceptance and without duplicates; it has every
      open session, and a closed one only while its removal is pending. */
  predicate Ok(r: Registry) {
    && Formed(r)
    && Ascending(r.sessions)
    && (forall id :: 0 <= id < |r.closed| && !r.closed[id] ==> id in r.sessions && r.pending[id] == 0)
    && (forall id :: id in r.sessions && r.closed[id] ==> r.pending[id] > 0)
  }

  lemma AscendingCons(x: nat, ids: seq<nat>)
    requires Ascending(ids) && forall y :: y in ids ==> x < y
    ensures Ascending([x] + ids)
  {
    assert forall i :: 0 <= i < |ids| ==> ids[i] in ids;
  }

  lemma AscendingSnoc(ids: seq<nat>, x: nat)
    requires Ascending(ids) && forall y :: y in ids ==> y < x
    ensures Ascending(ids + [x])
  {
    assert forall i :: 0 <= i < |ids| ==> ids[i] in ids;
  }

  lemma AscendingTail(ids: seq<nat>)
    requires Ascending(ids) && ids != []
    ensures Ascending(ids[1..]) && forall y :: y in ids[1..] ==> ids[0] < y
    ensures forall y :: y in ids <==> y == ids[0] || y in ids[1..]
  {
  }

  lemma {:induction false} EraseRemoves(ids: seq<nat>, id: nat)
    requires Ascending(ids)
    ensures Ascending(Erase(ids, id))
    ensures forall x :: x in Erase(ids, id) <==> x in ids && x != id
  {
    if ids != [] {
      var tail := ids[1..];
      AscendingTail(ids);
      EraseRemoves(tail, id);
      if ids[0] != id {
        var rest := Erase(tail, id);
        assert forall x :: x in [ids[0]] + rest <==> x == ids[0] || x in rest;
        AscendingCons(ids[0], rest);
      }
    }
  }

  lemma {:induction false} CloseEachIs(r: Registry, ids: seq<nat>)
    requires |r.closed| == |r.pending| && forall i :: 0 <= i < |ids| ==> ids[i] < |r.closed|
    ensures
      var s := CloseEach(r, ids);
      && (forall id :: 0 <= id < |r.closed| ==> s.closed[id] == (r.closed[id] || id in ids))
      && (forall id :: 0 <= id < |r.closed| ==> s.pending[id] >= r.pending[id])
  {
    if ids != [] {
      var init := ids[..|ids| - 1];
      CloseEachIs(r, init);
      assert ids == init + [ids[|ids| - 1]];
    }
  }

  lemma EveryoneClosed(r: Registry)
    requires Ok(r)
    ensures
      var s := Apply(r, Event.CloseAll);
      Ok(s) && s.sessions == [] && forall id :: 0 <= id < |s.closed| ==> s.closed[id]
  {
    var none := r.(sessions := []);
    CloseEachIs(none, r.sessions);
    var s := CloseEach(none, r.sessions);
    assert s == Apply(r, Event.CloseAll);
    forall id | 0 <= id < |s.closed| ensures s.closed[id] {
      assert r.closed[id] || id in r.sessions;
    }
  }

  lemma OkStep(r: Registry, e: Event)
    requires Ok(r) && Possible(r, e)
    ensures Ok(Apply(r, e))
  {
    match e
    case CloseAll => EveryoneClosed(r);
    case Removal(id) => EraseRemoves(r.sessions, id);
    case Accepted(ok, _) =>
      var s := Apply(r, e);
      if ok {
        assert forall id :: id in s.sessions <==> id in r.sessions || id == |r.closed|;
      }
    case CloseOne(_) =>
  }

  predicate PossibleRun(r: Registry, es: seq<Event>)
    requires Formed(r)
    decreases |es|
  {
    es == [] || (Possible(r, es[0]) && PossibleRun(Apply(r, es[0]), es[1..]))
  }

  function Run(r: Registry, es: seq<Event>): (s: Registry)
    requires Formed(r) && PossibleRun(r, es)
    ensures Formed(s)
    decreases |es|
  {
    if es == [] then r else Run(Apply(r, es[0]), es[1..])
  }

  /** In every state between handlers. */
  lemma {:induction false} RegistryAlwaysOk(r: Registry, es: seq<Event>)
    requires Ok(r) && PossibleRun(r, es)
    ensures Ok(Run(r, es))
    decreases |es|
  {
    if es != [] {
      OkStep(r, es[0]);
      RegistryAlwaysOk(Apply(r, es[0]), es[1..]);
    }
  }

  /** The numbers of the open sessions, in order of acceptance. */
  function OpenIds(closed: seq<bool>): seq<nat> {
    if closed == [] then []
    else
      var last := |closed| - 1;
      OpenIds(closed[..last]) + if closed[last] then [] else [last]
  }

  lemma {:induction false} OpenIdsAre(closed: seq<bool>)
    ensures Ascending(OpenIds(closed))
    ensures forall id :: id in OpenIds(closed) <==> 0 <= id < |closed| && !closed[id]
  {
    if closed != [] {
      var last := |closed| - 1;
      var ids, rest := OpenIds(closed[..last]), if closed[last] then [] else [last];
      OpenIdsAre(closed[..last]);
      assert OpenIds(closed) == ids + rest;
      assert forall id :: id in ids + rest <==> id in ids || id in rest;
      if closed[last] {
        assert ids + rest == ids;
      } else {
        AscendingSnoc(ids, last);
      }
    }
  }

  /** Two ascending lists with the same members are the same list. */
  lemma {:induction false} AscendingUnique(xs: seq<nat>, ys: seq<nat>)
    requires Ascending(xs) && Ascending(ys) && forall x :: x in xs <==> x in ys
    ensures xs == ys
  {
    assert ys == [] || ys[0] in xs;
    if xs != [] {
      assert xs[0] in ys;
      AscendingTail(xs);
      AscendingTail(ys);
      assert xs[0] == ys[0];
      AscendingUnique(xs[1..], ys[1..]);
      assert xs == [xs[0]] + xs[1..] && ys == [ys[0]] + ys[1..];
    }
  }

  /** Closing is idempotent: however often, from where and in what order sessions
      were closed and removed, once no removal is pending the list is exactly the
      open sessions in order of acceptance. */
  lemma ClosesAreIdempotent(es: seq<Event>)
    requires PossibleRun(NEW_REGISTRY, es)
    requires forall i :: 0 <= i < |Run(NEW_REGISTRY, es).pending| ==> Run(NEW_REGISTRY, es).pending[i] == 0
    ensures Run(NEW_REGISTRY, es).sessions == OpenIds(Run(NEW_REGISTRY, es).closed)
  {
    RegistryAlwaysOk(NEW_REGISTRY, es);
    var r := Run(NEW_REGISTRY, es);
    OpenIdsAre(r.closed);
    AscendingUnique(r.sessions, OpenIds(r.closed));
  }

  /** close_sessions misses no session: everything accepted so far is closed. */
  lemma CloseAllClosesAll(es: seq<Event>)
    requires PossibleRun(NEW_REGISTRY, es)
    ensures Possible(Run(NEW_REGISTRY, es), Event.CloseAll)
    ensures
      var r := Apply(Run(NEW_REGISTRY, es), Event.CloseAll);
      r.sessions == [] && forall id :: 0 <= id < |r.closed| ==> r.closed[id]
  {
    RegistryAlwaysOk(NEW_REGISTRY, es);
    EveryoneClosed(Run(NEW_REGISTRY, es));
  }

  predicate InRange(r: Registry, ids: seq<nat>) {
    |r.closed| == |r.pending| && forall i :: 0 <= i < |ids| ==> ids[i] < |r.closed|
  }

  function CloseFirst(r: Registry, ids: seq<nat>, i: nat): Registry
    requires InRange(r, ids) && i <= |ids|
  {
    CloseEach(r, ids[..i])
  }

  lemma CloseNone(r: Registry, ids: seq<nat>)
    requires InRange(r, ids)
    ensures CloseFirst(r, ids, 0) == r && CloseFirst(r, ids, |ids|) == CloseEach(r, ids)
  {
    assert ids[..|ids|] == ids;
  }

  lemma CloseNext(r: Registry, ids: seq<nat>, i: nat)
    requires InRange(r, ids) && i < |ids|
    ensures
      var done := CloseFirst(r, ids, i);
      |done.closed| == |done.pending| && ids[i] < |done.closed| && CloseFirst(r, ids, i + 1) == Close(done, ids[i])
  {
    assert ids[..i + 1][..i] == ids[..i];
  }

  /** The accept is re-armed by every accept handler but one that finds the stop
      request; after that nobody is accepted any more. */
  lemma {:induction false} AcceptsUntilStopping(r: Registry, es: seq<Event>)
    requires Formed(r) && PossibleRun(r, es)
    ensures Run(r, es).accepting <==>
      r.accepting && forall i :: 0 <= i < |es| && es[i].Accepted? ==> !es[i].stopping
    ensures !r.accepting ==> |Run(r, es).closed| == |r.closed|
    decreases |es|
  {
    if es != [] {
      AcceptsUntilStopping(Apply(r, es[0]), es[1..]);
      assert forall i :: 0 <= i < |es[1..]| ==> es[1..][i] == es[i + 1];
      if forall i :: 0 <= i < |es[1..]| && es[1..][i].Accepted? ==> !es[1..][i].stopping {
        forall i | 0 <= i < |es| && es[i].Accepted? && i > 0 ensures !es[i].stopping {
          assert es[i] == es[1..][i - 1];
        }
      }
    }
  }

  /** How often the event posts a removal of session id. */
  function PostsRemoval(r: Registry, e: Event, id: nat): nat
  {
    match e
    case CloseOne(i) => if i == id then 1 else 0
    case CloseAll => if id in r.sessions then 1 else 0
    case _ => 0
  }

  lemma {:induction false} CloseEachPosts(r: Registry, ids: seq<nat>, id: nat)
    requires |r.closed| == |r.pending| && forall i :: 0 <= i < |ids| ==> ids[i] < |r.closed|
    requires Ascending(ids) && id < |r.closed|
    ensures CloseEach(r, ids).pending[id] == r.pending[id] + if id in ids then 1 else 0
  {
    if ids != [] {
      var init, last := ids[..|ids| - 1], ids[|ids| - 1];
      CloseEachPosts(r, init, id);
      assert ids == init + [last];
      assert last !in init;
    }
  }

  /** Every close posts one removal and every removal that runs uses one up. */
  lemma RemovalsBalance(r: Registry, e: Event, id: nat)
    requires Ok(r) && Possible(r, e) && id < |r.closed|
    ensures Apply(r, e).pending[id] + (if e == Removal(id) then 1 else 0)
      == r.pending[id] + PostsRemoval(r, e, id)
  {
    if e.CloseAll? {
      CloseEachPosts(r.(sessions := []), r.sessions, id);
    }
  }

  function Total(pending: seq<nat>): nat {
    if pending == [] then 0 else Total(pending[..|pending| - 1]) + pending[|pending| - 1]
  }

  lemma {:induction false} TotalLess(pending: seq<nat>, id: nat)
    requires id < |pending| && pending[id] > 0
    ensures Total(pending[id := pending[id] - 1]) == Total(pending) - 1
  {
    var last := |pending| - 1;
    var after := pending[id := pending[id] - 1];
    if id == last {
      assert after[..last] == pending[..last];
    } else {
      assert after[..last] == pending[..last][id := pending[id] - 1];
      TotalLess(pending[..last], id);
    }
  }

  lemma {:induction false} TotalZero(pending: seq<nat>)
    requires Total(pending) == 0
    ensures forall i :: 0 <= i < |pending| ==> pending[i] == 0
  {
    if pending != [] {
      TotalZero(pending[..|pending| - 1]);
    }
  }

  lemma {:induction false} SomePending(pending: seq<nat>) returns (id: nat)
    requires Total(pending) > 0
    ensures id < |pending| && pending[id] > 0
  {
    id := |pending| - 1;
    if pending[id] == 0 {
      id := SomePending(pending[..id]);
    }
  }

  lemma NothingPending(r: Registry)
    requires Ok(r) && Total(r.pending) == 0
    ensures r.sessions == OpenIds(r.closed)
  {
    TotalZero(r.pending);
    OpenIdsAre(r.closed);
    AscendingUnique(r.sessions, OpenIds(r.closed));
  }

  lemma OneRemoval(r: Registry) returns (id: nat)
    requires Ok(r) && Total(r.pending) > 0
    ensures Possible(r, Removal(id)) && Ok(Apply(r, Removal(id)))
    ensures
      var s := Apply(r, Removal(id));
      s.closed == r.closed && Total(s.pending) == Total(r.pending) - 1
  {
    hide Total, Erase, Ok;
    id := SomePending(r.pending);
    OkStep(r, Removal(id));
    TotalLess(r.pending, id);
  }

  lemma RunCons(r: Registry, e: Event, rest: seq<Event>)
    requires Formed(r) && Possible(r, e) && PossibleRun(Apply(r, e), rest)
    ensures PossibleRun(r, [e] + rest) && Run(r, [e] + rest) == Run(Apply(r, e), rest)
  {
    assert ([e] + rest)[1..] == rest;
  }

  lemma FormedOk(r: Registry)
    requires Ok(r)
    ensures Formed(r)
  {
  }

  /** The posted removals can be run, in exactly as many handlers; then the list is
      exactly the open sessions. */
  lemma {:induction false} RemovalsDrain(r: Registry) returns (es: seq<Event>)
    requires Ok(r)
    ensures |es| == Total(r.pending) && (forall i :: 0 <= i < |es| ==> es[i].Removal?)
    ensures PossibleRun(r, es)
    ensures Run(r, es).closed == r.closed && Run(r, es).sessions == OpenIds(r.closed)
    decreases Total(r.pending)
  {
    es := [];
    if Total(r.pending) == 0 {
      NothingPending(r);
    } else {
      FormedOk(r);
      hide Ok, Formed, Possible, Apply, PossibleRun, Run, Total, OpenIds;
      var id := OneRemoval(r);
      var rest := RemovalsDrain(Apply(r, Removal(id)));
      RunCons(r, Removal(id), rest);
      es := [Removal(id)] + rest;
    }
  }

  lemma DropAt(ids: seq<nat>, i: nat)
    requires 0 < i < |ids|
    ensures ids[..i] + ids[i + 1..] == [ids[0]] + (ids[1..][..i - 1] + ids[1..][i..])
  {
  }

  lemma NotBefore(ids: seq<nat>, id: nat, i: nat)
    requires 0 < i <= |ids| && id !in ids[..i]
    ensures ids[0] != id && id !in ids[1..][..i - 1]
  {
    assert ids[..i] == [ids[0]] + ids[1..][..i - 1];
  }

  lemma {:induction false} EraseAt(ids: seq<nat>, id: nat, i: nat)
    requires i <= |ids| && id !in ids[..i] && (i < |ids| ==> ids[i] == id)
    ensures Erase(ids, id) == if i < |ids| then ids[..i] + ids[i + 1..] else ids
  {
    if ids != [] {
      if i == 0 {
        assert ids[..0] + ids[1..] == ids[1..];
      } else {
        NotBefore(ids, id, i);
        EraseAt(ids[1..], id, i - 1);
        if i < |ids| {
          DropAt(ids, i);
        } else {
          assert ids == [ids[0]] + ids[1..];
        }
      }
    }
  }

  // ------------------------------------------------------------------ class

  ghost predicate IsAt(all: seq<ServerSession>, s: ServerSession) {
    0 <= s.id < |all| && all[s.id] == s
  }

  /** Every session has its number and its own closed flag. */
  ghost predicate Numbered(all: seq<ServerSession>, count: nat) {
    && count == |all| && (forall i :: 0 <= i < |all| ==> all[i].id == i)
    && (forall i, j :: 0 <= i < j < |all| ==> all[i].writer.exit != all[j].writer.exit)
  }

  ghost predicate Covered(all: seq<ServerSession>, repr: set<object>) {
    forall i :: 0 <= i < |all| ==> all[i] in repr && all[i].writer.exit in repr
  }

  ghost predicate Listed(ss: seq<ServerSession>, all: seq<ServerSession>) {
    forall i :: 0 <= i < |ss| ==> IsAt(all, ss[i])
  }

  ghost function Ids(ss: seq<ServerSession>): (ids: seq<nat>)
    requires forall i :: 0 <= i < |ss| ==> ss[i].id >= 0
    ensures |ids| == |ss| && forall i :: 0 <= i < |ss| ==> ids[i] == ss[i].id
  {
    seq(|ss|, i requires 0 <= i < |ss| => ss[i].id)
  }

  ghost function Flags(ss: seq<ServerSession>, repr: set<object>): (flags: seq<bool>)
    requires Covered(ss, repr)
    reads repr
    ensures |flags| == |ss| && forall i :: 0 <= i < |ss| ==> flags[i] == ss[i].writer.exit.value
  {
    if ss == [] then [] else Flags(ss[..|ss| - 1], repr) + [ss[|ss| - 1].writer.exit.value]
  }

  ghost function Counts(ss: seq<ServerSession>, repr: set<object>): (counts: seq<nat>)
    requires Covered(ss, repr)
    reads repr
    ensures |counts| == |ss| && forall i :: 0 <= i < |ss| ==> counts[i] == ss[i].removal
  {
    if ss == [] then [] else Counts(ss[..|ss| - 1], repr) + [ss[|ss| - 1].removal]
  }

  lemma IdsErased(ss: seq<ServerSession>, all: seq<ServerSession>, id: nat, i: nat)
    requires Listed(ss, all)
    requires i <= |ss| && (forall j :: 0 <= j < i ==> ss[j].id != id) && (i < |ss| ==> ss[i].id == id)
    ensures
      var rest := if i < |ss| then ss[..i] + ss[i + 1..] else ss;
      Listed(rest, all) && Erase(Ids(ss), id) == Ids(rest)
  {
    EraseAt(Ids(ss), id, i);
    if i < |ss| {
      assert Ids(ss[..i] + ss[i + 1..]) == Ids(ss)[..i] + Ids(ss)[i + 1..];
    }
  }

  lemma FlagsAppended(all: seq<ServerSession>, repr: set<object>, s: ServerSession, wider: set<object>)
    requires Covered(all, repr) && Covered(all + [s], wider)
    ensures Flags(all + [s], wider) == Flags(all, repr) + [s.writer.exit.value]
    ensures Counts(all + [s], wider) == Counts(all, repr) + [s.removal]
  {
  }

  lemma IdsAppended(ss: seq<ServerSession>, s: ServerSession)
    requires s.id >= 0 && forall j :: 0 <= j < |ss| ==> ss[j].id >= 0
    ensures Ids(ss + [s]) == Ids(ss) + [s.id]
  {
  }

  lemma StillValid(all: seq<ServerSession>, ss: seq<ServerSession>, repr: set<object>, s: ServerSession)
    requires Numbered(all, |all|) && Listed(ss, all) && Covered(all, repr)
    requires s.id == |all| && s.writer.exit !in repr
    ensures Numbered(all + [s], |all| + 1) && Listed(ss + [s], all + [s])
    ensures Covered(all + [s], repr + {s, s.writer.exit})
  {
  }

  class ServerImpl {
    var sessions: seq<ServerSession>
    var accepting: bool
    const worker: ThisServer
    var count: nat                      // numbers stand for the sessions' addresses
    ghost var all: seq<ServerSession>   // every session accepted, by number
    ghost var repr: set<object>         // the sessions and their closed flags

    constructor ()
      ensures Valid() && View() == NEW_REGISTRY && repr == {} && fresh(worker)
    {
      sessions, all, repr, accepting, count := [], [], {}, true, 0;
      worker := new ThisServer();
    }

    ghost predicate Valid()
      reads this
    {
      && Numbered(all, count) && Listed(sessions, all) && Covered(all, repr)
      && this !in repr && worker !in repr
    }

    ghost predicate Known(s: ServerSession)
      reads `all
    {
      IsAt(all, s)
    }

    ghost function View(): (r: Registry)
      requires Valid()
      reads this, repr
      ensures Formed(r)
    {
      Registry(Ids(sessions), Flags(all, repr), Counts(all, repr), accepting)
    }

    /** The accept handler. */
    method OnAccept(ok: bool, disp: Dispatcher, suppress: bool)
      requires Valid() && accepting
      modifies this
      ensures Valid() && View() == Apply(old(View()), Accepted(ok, worker.stopping))
    {
      if ok {
        Append(disp, suppress);
      }
      accepting := !worker.stopping;
    }

    method Append(disp: Dispatcher, suppress: bool)
      requires Valid()
      modifies this`sessions, this`all, this`count, this`repr
      ensures Valid()
      ensures
        var r := old(View());
        View() == r.(sessions := r.sessions + [|r.closed|], closed := r.closed + [false], pending := r.pending + [0])
    {
      var session := new ServerSession(disp, suppress, count);
      Add(session);
    }

    method Add(s: ServerSession)
      requires Valid() && s.id == count && s.writer.exit !in repr && !s.writer.exit.value && s.removal == 0
      modifies this`sessions, this`all, this`count, this`repr
      ensures Valid()
      ensures repr == old(repr) + {s, s.writer.exit}
      ensures
        var r := old(View());
        View() == r.(sessions := r.sessions + [|r.closed|], closed := r.closed + [false], pending := r.pending + [0])
    {
      ghost var wider := repr + {s, s.writer.exit};
      IdsAppended(sessions, s);
      StillValid(all, sessions, repr, s);
      FlagsAppended(all, repr, s, wider);
      hide Ids, Flags, Counts, Listed, Numbered, Covered;
      count := count + 1;
      all, repr := all + [s], wider;
      sessions := sessions + [s];
    }

    /** cancel: the outstanding accept was cancelled, which shows up as one that
        failed. */
    method CloseSessions() returns (cancel: bool)
      requires Valid()
      modifies this`sessions, repr
      ensures Valid() && View() == Apply(old(View()), Event.CloseAll)
      ensures cancel == worker.stopping
    {
      var copy := TakeAll();
      assert this !in repr && worker !in repr;
      hide View, Valid, CloseEach, InRange, Copied;
      CloseCopy(copy, old(View()).sessions);
      cancel := worker.stopping;
    }

    method CloseCopy(copy: seq<ServerSession>, ghost ids: seq<nat>)
      requires Valid() && Copied(copy, ids) && InRange(View(), ids)
      modifies repr
      ensures Valid() && View() == CloseEach(old(View()), ids)
    {
      assert this !in repr;
      hide View, Valid, CloseEach, CloseFirst, Close, InRange, Copied, Known;
      ghost var start := View();
      CloseNone(start, ids);
      var i := 0;
      while i < |copy|
        invariant 0 <= i <= |copy| && Valid() && Copied(copy, ids)
        invariant InRange(start, ids) && i <= |ids|
        invariant View() == CloseFirst(start, ids, i)
      {
        CopiedAt(copy, ids, i);
        CloseNext(start, ids, i);
        CloseOne(copy[i]);
        i := i + 1;
      }
      CopiedAll(copy, ids);
    }

    ghost predicate Copied(copy: seq<ServerSession>, ids: seq<nat>)
      reads `all
    {
      |copy| == |ids| && forall j :: 0 <= j < |copy| ==> Known(copy[j]) && copy[j].id == ids[j]
    }

    lemma CopiedAt(copy: seq<ServerSession>, ids: seq<nat>, i: nat)
      requires Copied(copy, ids) && i < |copy| && Valid()
      ensures |ids| == |copy| && Known(copy[i]) && copy[i].id == ids[i]
      ensures copy[i] in repr && copy[i].writer.exit in repr
    {
    }

    lemma CopiedAll(copy: seq<ServerSession>, ids: seq<nat>)
      requires Copied(copy, ids)
      ensures |ids| == |copy|
    {
    }

    /** Copy and clear, under the lock. */
    method TakeAll() returns (copy: seq<ServerSession>)
      requires Valid()
      modifies this`sessions
      ensures Valid() && View() == old(View()).(sessions := [])
      ensures |copy| == |old(View()).sessions| && Copied(copy, old(View()).sessions)
      ensures InRange(View(), old(View()).sessions)
    {
      copy := sessions;
      sessions := [];
    }

    method CloseOne(s: ServerSession)
      requires Valid() && Known(s)
      modifies s, s.writer.exit
      ensures Valid() && View() == Apply(old(View()), Event.CloseOne(s.id))
    {
      s.Close();
    }

    /** The handler that close() posted. */
    method RunRemoval(s: ServerSession)
      requires Valid() && Known(s) && s.removal > 0
      modifies this`sessions, s`removal
      ensures Valid() && View() == Apply(old(View()), Removal(s.id))
    {
      hide View, Valid, Known, Erase;
      ghost var start := View();
      Dequeue(s);
      CloseSession(s);
      assert View() == Apply(start, Removal(s.id));
    }

    method Dequeue(s: ServerSession)
      requires Valid() && Known(s) && s.removal > 0
      modifies s`removal
      ensures Valid() && Known(s)
      ensures
        var r := old(View());
        0 <= s.id < |r.pending| && r.pending[s.id] > 0
        && View() == r.(pending := r.pending[s.id := r.pending[s.id] - 1])
    {
      s.removal := s.removal - 1;
    }

    /** close_session: erase the session if it is listed. */
    method CloseSession(s: ServerSession)
      requires Valid() && Known(s)
      modifies this`sessions
      ensures Valid() && View() == old(View()).(sessions := Erase(old(View()).sessions, s.id))
    {
      var i := Find(s);
      var rest := if i < |sessions| then sessions[..i] + sessions[i + 1..] else sessions;
      IdsErased(sessions, all, s.id, i);
      Relist(rest);
    }

    method Relist(ss: seq<ServerSession>)
      requires Valid() && Listed(ss, all)
      modifies this`sessions
      ensures Valid() && View() == old(View()).(sessions := Ids(ss))
    {
      hide Ids, Flags, Counts, Listed, Numbered, Covered;
      sessions := ss;
    }

    method Find(s: ServerSession) returns (i: nat)
      requires Valid() && Known(s)
      ensures i <= |sessions| && (i < |sessions| ==> sessions[i] == s)
      ensures forall j :: 0 <= j < i ==> sessions[j].id != s.id
    {
      i := 0;
      while i < |sessions| && sessions[i] != s
        invariant i <= |sessions| && forall j :: 0 <= j < i ==> sessions[j].id != s.id
      {
        i := i + 1;
      }
    }
  }
}
