/**
 * The pieces of runs with one client: one session, one streamed write, one
 * predicted call.
 */
module Scenarios {
  import opened Common
  import opened Caches
  import opened WritePaths
  import opened Sessions
  import opened Daemons
  import opened Coherence
  import opened Runs

  const PLAIN := Settings(false, true, true, None)

  /** A world of session "a" on repository "r" and nothing else, `active` its open brackets. */
  function Alone(fs: map<string, FS>, s: Session, active: map<MutationId, Mutation>, mids: MutationId,
                 joins: map<nat, Join>): World {
    World(Daemon(map[0 := s], map["a" := 0], if active == map[] then map[] else map["r" := active], 1, mids),
          fs, joins, |joins|)
  }

  lemma StartAlone(fs: map<string, FS>)
    ensures Next(Start(fs), StartSession("a", "r", PLAIN)) == Alone(fs, NewSession("a", "r", PLAIN), map[], 0, map[])
  {
    hide NewSession;
  }

  lemma BlankNames()
    ensures var s := Invalidate(NewSession("a", "r", PLAIN), 0.0); s.sid == "a" && s.repo == "r" && s.settings == PLAIN
  {
  }

  /* The chain a feed starts */

  /** The session once the write has been fed to a blank one, under `fed` or under nothing. */
  function Fed(write: Write, call: Call, fed: Option<MutationId>, fs: FS): Session {
    StartChain(Invalidate(NewSession("a", "r", PLAIN), 0.0), write, fed, Some(call), true, 0.0, fs)
  }

  /** The session holds the one-hop chain of `write` and nobody has asked for the hop yet. */
  ghost predicate Ready(s: Session, write: Write, call: Call) {
    var job := Job(call, 0, 1, 0.0, None, None, false, false);
    && s.sid == "a" && s.repo == "r" && s.settings == PLAIN
    && s.chain.Some? && s.chain.value.id == 0 && s.chain.value.write == write && s.chain.value.hops == [call]
    && s.claim == None && s.chainSpecIds == [0] && s.realHops == [] && 0 in s.tasks
    && s.cache == Caches.EMPTY.(epoch := 1, n := 1, ledger := s.cache.ledger, objs := map[0 := job],
                                jobs := map[KeyOf(job) := 0], puts := map[Slot(call, 1) := 1])
    && s.cache.ledger.terminated == {}
  }

  lemma FedIs(write: Write, call: Call, fed: Option<MutationId>, fs: FS)
    requires ValidateWritePath(write.path).Some?
    ensures var s := Fed(write, call, fed, fs);
            && Ready(s, write, call) && s.cursor == 0 && s.chain.value.future == Some(Pending)
            && s.tasks == map[0 := Task(InFork(write, fed), {fs}, true)]
            && s.chainMutation == fed && s.completed == map[]
  {
    hide ValidateWritePath;
    BlankSession();
    var t := Invalidate(NewSession("a", "r", PLAIN), 0.0);
    assert Cleared(t, fed).cache == t.cache;
  }

  lemma BlankSession()
    ensures Invalidate(NewSession("a", "r", PLAIN), 0.0)
            == NewSession("a", "r", PLAIN).(cache := Caches.EMPTY.(epoch := 1))
  {
    assert BumpEpoch(Caches.EMPTY, 0.0).objs == map[] && BumpEpoch(Caches.EMPTY, 0.0).jobs == map[];
  }

  /** The edit is answered at once and moves the cursor to the predicted hop. */
  lemma EditStep(s: Session, write: Write, call: Call)
    requires Ready(s, write, call) && s.cursor == 0
    ensures ResolveStart(s, Call("edit", WriteArgs(write)), false) == Answered(s.(cursor := 1), Edited(write.contents))
  {
  }

  /** The predicted call joins the chain's job. */
  lemma AskStep(s: Session, write: Write, call: Call)
    requires Ready(s, write, call) && s.cursor == 1 && KindPolicy(call.kind) == Free
    ensures var r := ResolveStart(s, call, false);
            && r.Joining? && r.job == Some(0) && r.claim == Some(ChainClaim(0, 0, 0))
            && r.s == s.(cursor := 2, realHops := [call], claim := r.claim, cache := r.s.cache)
            && r.s.cache == s.cache.(serves := r.s.cache.serves)
  {
    assert s.realHops + [call] == [call];
    assert LongestPrefix([call], [call]) == 1;
    assert Key(Slot(call, 1), 0) in s.cache.jobs;
    assert Stop(s.cache, Slot(call, 1)) == 0;
    assert ClaimedId(s.cache, call) == Some(0);
  }

  /** The worker's result reaches the job, and the second half of `resolve` publishes it. */
  lemma FinishStep(s: Session, write: Write, call: Call, result: Output)
    requires Ready(s, write, call) && s.cursor == 1 && KindPolicy(call.kind) == Free
    ensures var t := ResolveStart(s, call, false).s;
            && 0 in t.tasks && t.sid == "a" && t.repo == "r" && t.tasks == s.tasks && 0 in t.cache.objs && t.cache.objs[0].call == call
            && var u := WorkerCompletes(t, 0, result, 0.0);
            && u.sid == "a" && u.repo == "r"
            && FinishChainClaim(u, ChainClaim(0, 0, 0), true, true, false, 0.0).reply == Served(true, result)
  {
    hide ResolveStart;
    AskStep(s, write, call);
    var t := ResolveStart(s, call, false).s;
    assert Resident(t.cache, 0);
    assert Resident(WorkerCompletes(t, 0, result, 0.0).cache, 0);
  }

  /* Steps of a lone session */

  lemma AskAlone(fs: map<string, FS>, s: Session, mids: MutationId, call: Call)
    ensures var r := ResolveStart(s, call, false);
            Next(Alone(fs, s, map[], mids, map[]), Ask("a", call, 0.0))
            == Alone(fs, r.s, map[], mids, if r.Joining? then map[0 := Join(0, call, r.job, r.claim, 0.0)] else map[])
  {
    hide ResolveStart;
    var r := ResolveStart(s, call, false);
    assert map[0 := s][0 := r.s] == map[0 := r.s];
    assert !Open(Alone(fs, s, map[], mids, map[]).d, s.repo);
    if r.Joining? {
      var joins: map<nat, Join> := map[0 := Join(0, call, r.job, r.claim, 0.0)];
      assert joins.Keys == {0} && |joins.Keys| == |joins|;
    }
  }

  lemma EditWorld(fs: map<string, FS>, s: Session, mids: MutationId, write: Write, call: Call)
    requires Ready(s, write, call) && s.cursor == 0 && KindPolicy(call.kind) == Free
    ensures Next(Alone(fs, s, map[], mids, map[]), Ask("a", Call("edit", WriteArgs(write)), 0.0))
            == Alone(fs, s.(cursor := 1), map[], mids, map[])
  {
    hide Ready, ResolveStart, Alone, Next;
    EditStep(s, write, call);
    AskAlone(fs, s, mids, Call("edit", WriteArgs(write)));
  }

  /** The session has let `call` join its chain's job, and nobody else waits. */
  function Joined(fs: map<string, FS>, s: Session, mids: MutationId, call: Call): World {
    Alone(fs, ResolveStart(s, call, false).s, map[], mids,
          map[0 := Join(0, call, Some(0), Some(ChainClaim(0, 0, 0)), 0.0)])
  }

  lemma JoinWorld(fs: map<string, FS>, s: Session, mids: MutationId, write: Write, call: Call)
    requires Ready(s, write, call) && s.cursor == 1 && KindPolicy(call.kind) == Free
    ensures Next(Alone(fs, s, map[], mids, map[]), Ask("a", call, 0.0)) == Joined(fs, s, mids, call)
  {
    hide Ready, ResolveStart, Alone, Next;
    AskStep(s, write, call);
    AskAlone(fs, s, mids, call);
  }

  lemma JoinedIs(fs: map<string, FS>, s: Session, mids: MutationId, write: Write, call: Call)
    requires Ready(s, write, call) && s.cursor == 1 && KindPolicy(call.kind) == Free
    ensures var w := Joined(fs, s, mids, call);
            && 0 in w.d.store && w.d.store[0].tasks == s.tasks
            && 0 in w.d.store[0].cache.objs && w.d.store[0].cache.objs[0].call == call
  {
    hide Ready, ResolveStart;
    FinishStep(s, write, call, Output("", "", 0));
  }

  /** What the join is served once its worker has come back. */
  lemma ServedAlone(fs: map<string, FS>, s: Session, mids: MutationId, write: Write, call: Call, result: Output)
    requires Ready(s, write, call) && s.cursor == 1 && KindPolicy(call.kind) == Free
    requires 0 in s.tasks && s.tasks[0].running
    ensures var w := Next(Joined(fs, s, mids, call), Completes(0, 0, result, 0.0));
            && w.fs == fs && 0 in w.joins && w.joins[0] == Join(0, call, Some(0), Some(ChainClaim(0, 0, 0)), 0.0)
            && 0 in w.d.store && w.d.store[0].repo == "r"
            && FinishResolve(w.d, w.joins[0], true).reply == Served(true, result)
  {
    hide Ready, ResolveStart, WorkerCompletes, FinishChainClaim;
    FinishStep(s, write, call, result);
    var t := ResolveStart(s, call, false).s;
    assert map[0 := t][0 := WorkerCompletes(t, 0, result, 0.0)] == map[0 := WorkerCompletes(t, 0, result, 0.0)];
  }

  lemma StillReady(s: Session, write: Write, call: Call)
    requires Ready(s, write, call)
    ensures Ready(s.(cursor := 1), write, call)
  {
  }

  /* Runs */

  lemma NothingYet(w: World, steps: seq<Step>)
    ensures After(w, steps[..0]) == w
  {
  }

  lemma NothingUnfair(exec: Exec, w: World, steps: seq<Step>)
    ensures FairRun(Some(exec), w, steps[..0])
  {
  }

  /** Steps there is nothing to be fair about leave a run as fair as it was. */
  lemma {:induction false} OnlyClients(exec: Exec, w: World, steps: seq<Step>, lo: nat, hi: nat)
    requires lo <= hi <= |steps| && FairRun(Some(exec), w, steps[..lo])
    requires forall i :: lo <= i < hi ==> !steps[i].Changes? && !steps[i].Completes?
    ensures FairRun(Some(exec), w, steps[..hi])
    decreases hi
  {
    hide FairRun, After;
    if lo < hi {
      OnlyClients(exec, w, steps, lo, hi - 1);
      FairLonger(exec, w, steps, hi - 1);
    }
  }

  lemma FairLonger(exec: Exec, w: World, steps: seq<Step>, i: nat)
    requires i < |steps| && FairRun(Some(exec), w, steps[..i]) && Fair(Some(exec), After(w, steps[..i]), steps[i])
    ensures FairRun(Some(exec), w, steps[..i + 1])
  {
    hide Fair;
    assert steps[..i + 1][..i] == steps[..i];
  }

  /** A result computed in a copy of one state the repository has been in is a fair one. */
  lemma ForkResultIsFair(exec: Exec, w: World, write: Write, fed: Option<MutationId>, call: Call, copy: FS, result: Output)
    requires 0 in w.d.store && 0 in w.d.store[0].tasks && 0 in w.d.store[0].cache.objs
    requires w.d.store[0].tasks[0].lane == InFork(write, fed) && copy in w.d.store[0].tasks[0].seen
    requires w.d.store[0].cache.objs[0].call == call && result == exec(Applied(write, copy), call)
    ensures Fair(Some(exec), w, Completes(0, 0, result, 0.0))
  {
    hide Applied;
    CopyIsMixed(w.d.store[0].tasks[0].seen, copy);
  }

  lemma CopyIsMixed(seen: set<FS>, copy: FS)
    requires copy in seen
    ensures Mixed(seen, copy)
  {
    forall p: seq<string>
      ensures CopiedAt(seen, copy, p)
    {
      assert copy in seen && SameAt(copy, copy, p);
    }
  }
}
