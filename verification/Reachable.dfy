/** The guarantees over whole runs: from a new client and a new server with any
    number of workers, through any steps in any order. */
module Reachable {
  import opened MsgPack
  import opened Messages
  import opened ThisState
  import opened Dispatching
  import opened ServerSessions
  import opened Clients
  import opened Rpc
  import opened Systems
  import opened Guarantees
  import opened Progress

  lemma ReachedIsGood(cfg: Config, left: seq<Locals>, steps: seq<Step>)
    requires Executes(cfg, Initial(left), steps)
    ensures Good(cfg, After(cfg, Initial(left), steps))
  {
    hide Good, Executes, After;
    InitialGood(cfg, left);
    AlwaysGood(cfg, Initial(left), steps);
  }

  lemma GoodHasShape(cfg: Config, s: Sys)
    requires Good(cfg, s)
    ensures SysOk(s)
  {
    hide Inv, SysOk;
  }

  /** Every run is a run of the atomic map: it starts with no call, and each
      further step makes a call, answers one unanswered call with what its own
      function does on its own arguments, or changes nothing. */
  lemma RunsRefineAtomicMap(cfg: Config, left: seq<Locals>, steps: seq<Step>, step: Step)
    requires Executes(cfg, Initial(left), steps) && Enabled(cfg, After(cfg, Initial(left), steps), step)
    ensures MapOf(Initial(left)) == RpcMap([], map[])
    ensures
      var s := After(cfg, Initial(left), steps);
      AtomicMove(cfg, MapOf(s), MapOf(Do(cfg, s, step)))
  {
    hide Good, Executes, After, Enabled, Do, AtomicMove;
    ReachedIsGood(cfg, left, steps);
    RefinesAtomicMap(cfg, After(cfg, Initial(left), steps), step);
  }

  /** A future that is ready stays as it is, and so does the one run recorded for
      its call, whatever follows. */
  lemma FuturesNeverChange(cfg: Config, left: seq<Locals>, steps: seq<Step>, more: seq<Step>)
    requires Executes(cfg, Initial(left), steps) && Executes(cfg, After(cfg, Initial(left), steps), more)
    ensures
      var s := After(cfg, Initial(left), steps);
      var t := After(cfg, s, more);
      && (forall n :: n in s.client.promises ==>
            n in t.client.promises && t.client.promises[n] == s.client.promises[n])
      && (forall n :: n in s.runs ==> n in t.runs && t.runs[n] == s.runs[n])
  {
    hide Good, Executes, After;
    ReachedIsGood(cfg, left, steps);
    RunsGrow(cfg, After(cfg, Initial(left), steps), more);
  }

  /** After any run, a job that would run a call's handler is for a registered call
      whose handler has not run; afterwards it has. */
  lemma NoCallRunsTwice(cfg: Config, left: seq<Locals>, steps: seq<Step>, i: nat, w: nat, world: World)
    requires Executes(cfg, Initial(left), steps)
    requires Enabled(cfg, After(cfg, Initial(left), steps), RunJob(i, w, world))
    requires IsCall(After(cfg, Initial(left), steps).server.jobs[i])
    ensures
      var s := After(cfg, Initial(left), steps);
      var n := RequestOwner(s.client.ongoing, s.server.jobs[i]);
      && n.Some? && n.value < |s.calls| && n.value !in s.runs
      && s.server.jobs[i] == RequestFrame(IdOf(n.value), s.calls[n.value].name, s.calls[n.value].args)
      && Do(cfg, s, RunJob(i, w, world)).runs == s.runs[n.value := world]
  {
    hide Good, Executes, After, IsCall, RequestOwner, RequestFrame, JobOn, CallIds;
    ReachedIsGood(cfg, left, steps);
    HandlersRunOnce(cfg, After(cfg, Initial(left), steps), i);
  }

  /** Conservation: after any run each call is resolved or in exactly one place,
      and in that place once; a resolved call is in none. */
  lemma CallsAreConserved(cfg: Config, left: seq<Locals>, steps: seq<Step>, n: nat)
    requires Executes(cfg, Initial(left), steps) && n < |After(cfg, Initial(left), steps).calls|
    ensures
      var s := After(cfg, Initial(left), steps);
      && SysOk(s)
      && (n !in s.client.promises ==> Places(cfg, s, n) == 1)
      && (n in s.client.promises ==>
            && n !in s.allotted && n !in CallsIn(s.client.strand) && n !in s.lost
            && (forall f :: f in Requests(s) && IsCall(f) ==> RequestOwner(s.client.ongoing, f) != Some(n))
            && (forall f :: f in ReplyFrames(s) ==> ReplyOwner(s.client.ongoing, f) != Some(n)))
  {
    hide Good, SysOk, Executes, After, Requests, ReplyFrames, RequestOwner, ReplyOwner, Places, CallsIn;
    ReachedIsGood(cfg, left, steps);
    var s := After(cfg, Initial(left), steps);
    GoodHasShape(cfg, s);
    if n in s.client.promises {
      ResolvedIsNowhereElse(cfg, s, n);
    } else {
      ExactlyOnePlace(cfg, s, n);
    }
  }

  /** After any run a call past its strand step is in the table while its promise
      is unset; a resolved one is there exactly while its erasure is in the
      strand, and no erasure there is without the entry of a resolved call. */
  lemma TableHoldsTheUnresolved(cfg: Config, left: seq<Locals>, steps: seq<Step>, n: nat)
    requires Executes(cfg, Initial(left), steps) && n < |After(cfg, Initial(left), steps).calls|
    requires n !in After(cfg, Initial(left), steps).allotted
    requires n !in CallsIn(After(cfg, Initial(left), steps).client.strand)
    ensures
      var s := After(cfg, Initial(left), steps);
      && (n !in s.client.promises ==> InTable(s.client.ongoing, n))
      && (InTable(s.client.ongoing, n) ==> (n in s.client.promises <==> IdOf(n) in ErasuresIn(s.client.strand)))
      && (forall id :: id in ErasuresIn(s.client.strand) ==>
            && id in s.client.ongoing && s.client.ongoing[id].Of?
            && IdOf(s.client.ongoing[id].n) == id && s.client.ongoing[id].n in s.client.promises
            && multiset(ErasuresIn(s.client.strand))[id] == 1)
  {
    hide Good, Executes, After, InTable, CallsIn, ErasuresIn;
    ReachedIsGood(cfg, left, steps);
    InTableUntilErased(cfg, After(cfg, Initial(left), steps), n);
  }

  /** After any run the next step changes the table only by running a call's
      handler, which adds its entry under an id not there, or an erasure, which
      takes away an entry that is. */
  lemma EntriesComeAndGoOnTheStrand(cfg: Config, left: seq<Locals>, steps: seq<Step>, step: Step)
    requires Executes(cfg, Initial(left), steps) && Enabled(cfg, After(cfg, Initial(left), steps), step)
    ensures
      var s := After(cfg, Initial(left), steps);
      var t := Do(cfg, s, step);
      && (forall id :: id in t.client.ongoing && id !in s.client.ongoing ==>
            step.RunStrand? && exists n, buffer :: s.client.strand[0] == DoCall(n, id, buffer) && id == IdOf(n))
      && (forall id :: id in s.client.ongoing && id !in t.client.ongoing ==>
            step.RunStrand? && s.client.strand[0] == Erase(id))
      && (forall id :: id in s.client.ongoing && id in t.client.ongoing ==>
            t.client.ongoing[id] == s.client.ongoing[id])
  {
    hide Good, Executes, After, Do;
    ReachedIsGood(cfg, left, steps);
    var s := After(cfg, Initial(left), steps);
    TableChangesOnTheStrand(cfg, s, step);
    if step.RunStrand? && s.client.strand[0].DoCall? {
      assert s.client.strand[0] == DoCall(s.client.strand[0].n, s.client.strand[0].id, s.client.strand[0].buffer);
    }
  }

  /** After any run, a response the client can unpack is for a registered call
      whose promise is unset, and delivering it sets that promise alone. */
  lemma RepliesFindTheirCalls(cfg: Config, left: seq<Locals>, steps: seq<Step>)
    requires Executes(cfg, Initial(left), steps) && Next(After(cfg, Initial(left), steps).downBuf).Got?
    ensures
      var s := After(cfg, Initial(left), steps);
      && Enabled(cfg, s, ClientUnpacks)
      && var t := Do(cfg, s, ClientUnpacks);
      && t.client.ongoing == s.client.ongoing
      && exists n :: n !in s.client.promises && InTable(s.client.ongoing, n)
           && t.client.promises.Keys == s.client.promises.Keys + {n}
  {
    hide Good, Executes, After, Enabled, Do, Next, InTable;
    ReachedIsGood(cfg, left, steps);
    ResponsesFindTheirCalls(cfg, After(cfg, Initial(left), steps));
  }

  /** However a connected system was reached, its own work ends: no schedule goes
      on for ever with working steps. */
  lemma WorkRunsOut(cfg: Config, left: seq<Locals>, steps: seq<Step>, states: nat -> Sys, work: nat -> Step)
    requires Executes(cfg, Initial(left), steps) && states(0) == After(cfg, Initial(left), steps)
    requires states(0).client.connected
    requires forall j: nat :: Enabled(cfg, states(j), work(j)) && Working(work(j)) ==>
      states(j + 1) == Do(cfg, states(j), work(j))
    ensures exists j: nat :: !(Enabled(cfg, states(j), work(j)) && Working(work(j)))
  {
    hide Good, Executes, After, Enabled, Do, Working;
    ReachedIsGood(cfg, left, steps);
    if forall j: nat :: Enabled(cfg, states(j), work(j)) && Working(work(j)) {
      WorkEnds(cfg, states, work, 0);
    }
  }

  /** And from there it can be finished: some working steps lead to a state in which
      no work is left. */
  lemma WorkCanBeFinished(cfg: Config, left: seq<Locals>, steps: seq<Step>)
    requires Executes(cfg, Initial(left), steps) && After(cfg, Initial(left), steps).client.connected
    ensures
      var s := After(cfg, Initial(left), steps);
      exists more :: Executes(cfg, s, more) && AllWorking(more) && Quiescent(cfg, After(cfg, s, more))
  {
    hide Good, Executes, After, Quiescent, AllWorking;
    ReachedIsGood(cfg, left, steps);
    var more := WorkCanFinish(cfg, After(cfg, Initial(left), steps));
  }
}
