/**
 * The read lane: what the second half of `resolve` answers a join outside a
 * chain (src/sfx/daemon.py:582-605), and a run in which it answers one.
 */
module ReadLanes {
  import opened Common
  import opened Caches
  import opened Sessions
  import opened SessionInvariants
  import opened Daemons
  import opened Coherence
  import opened Runs
  import opened RunSteps
  import opened Lossless
  import opened Fences
  import opened Scenarios
  import L = Ledgers

  /* What a delivery answers */

  /** The table holds job `id`, completed, of the current epoch and not ended. */
  predicate Ripe(c: Cache, id: SpecId) {
    && id in c.objs
    && var j := c.objs[id];
    var key := Key(Slot(j.call, j.epoch), j.occurrence);
    && key in c.jobs && c.jobs[key] == id
    && j.done && j.epoch == c.epoch && id !in c.ledger.terminated
  }

  /** The time a hit saves: nothing on the request's own thread, otherwise the shorter of run and head start. */
  function Saving(j: Job, ask: real): real
    requires j.duration.Some?
  {
    if j.synchronous || j.duration.value < 0.0 || ask < j.launch then 0.0
    else if j.duration.value <= ask - j.launch then j.duration.value
    else ask - j.launch
  }

  /** `after` is `before` with one hit of job `id`, "completed" if the job was done by the ask. */
  ghost predicate OneHit(before: L.State, after: L.State, id: SpecId, j: Job, ask: real)
    requires j.duration.Some?
  {
    var hit := if j.launch + j.duration.value <= ask then L.HitCompleted else L.HitPromoted;
    && after.records == before.records + [L.End(id, hit, Saving(j, ask), 0.0)]
    && after.terminated == before.terminated + {id}
    && after.saved == before.saved + Saving(j, ask) && after.wasted == before.wasted && after.raised == before.raised
  }

  /** The join's session is still the one its id names, and no bracket is open on its repository. */
  predicate Unfenced(d: Daemon, uid: Uid)
    requires uid in d.store
  {
    var s := d.store[uid];
    && s.sid in d.sessions && d.sessions[s.sid] == uid
    && (s.repo !in d.mutations || d.mutations[s.repo] == map[])
  }

  /**
   * A plain join is delivered: exactly if its session is unfenced and its job
   * ripe, it is served the job's result, "completed" exactly if the job was
   * done by the ask, and the ledger gains that one hit. Otherwise it is
   * declined and nothing changes. Either way nobody waits on the ticket.
   */
  ghost predicate PlainAnswer(w: World, v: World, ticket: nat, reply: Reply)
    requires ticket in w.joins && w.joins[ticket].uid in w.d.store
  {
    var j := w.joins[ticket];
    var s := w.d.store[j.uid];
    && v.joins == w.joins - {ticket} && v.fs == w.fs && v.tickets == w.tickets
    && if Unfenced(w.d, j.uid) && j.job.Some? && Ripe(s.cache, j.job.value) then
         var job := s.cache.objs[j.job.value];
         && job.result.Some? && job.duration.Some?
         && reply == Served(job.launch + job.duration.value <= j.ask, job.result.value)
         && j.uid in v.d.store && OneHit(s.cache.ledger, v.d.store[j.uid].cache.ledger, j.job.value, job, j.ask)
         && v.d == w.d.(store := w.d.store[j.uid := s.(cache := s.cache.(ledger := v.d.store[j.uid].cache.ledger))])
       else reply == Declined && v.d == w.d
  }

  /** What every delivery of a plain join does, in every run. */
  lemma PlainAnswers(fs: map<string, FS>, steps: seq<Step>, ticket: nat, completed: bool)
    requires var w := After(Start(fs), steps);
             ticket in w.joins && w.joins[ticket].claim == None && w.joins[ticket].uid in w.d.store
    ensures var w := After(Start(fs), steps);
            PlainAnswer(w, Next(w, Deliver(ticket, completed)), ticket, Delivered(w, ticket, completed))
  {
    hide Invariant, After, SessionInvariants.Valid, Caches.Valid, Next, Delivered, PlainAnswer;
    AnyRunKeeps(fs, steps);
    var w := After(Start(fs), steps);
    SessionOf(None, w, w.joins[ticket].uid);
    DoneHasResult(w.d.store[w.joins[ticket].uid]);
    PlainStep(w, ticket, completed);
  }

  /** What is done has something to show for it. */
  ghost predicate Fulfilled(c: Cache) {
    forall id :: id in c.objs && Ripe(c, id) ==> c.objs[id].result.Some? && c.objs[id].duration.Some?
  }

  lemma DoneHasResult(s: Session)
    requires SessionInvariants.Valid(s)
    ensures Fulfilled(s.cache)
  {
  }

  lemma RipeIs(c: Cache, id: SpecId)
    ensures Ripe(c, id) <==> id in c.objs && Resident(c, id) && c.objs[id].done && c.objs[id].epoch == c.epoch
                             && id !in c.ledger.terminated
  {
  }

  lemma PlainStep(w: World, ticket: nat, completed: bool)
    requires ticket in w.joins && w.joins[ticket].claim == None && w.joins[ticket].uid in w.d.store
    requires Fulfilled(w.d.store[w.joins[ticket].uid].cache)
    ensures PlainAnswer(w, Next(w, Deliver(ticket, completed)), ticket, Delivered(w, ticket, completed))
  {
    var j := w.joins[ticket];
    if j.job.Some? {
      RipeIs(w.d.store[j.uid].cache, j.job.value);
    }
    hide Resident, Ripe;
  }

  /* The same for a hop of a chain */

  /** What is left of a job of a chain that was given up: it is over, and ended as discarded if it was not before. */
  ghost predicate GivenUp(c: Cache, d: Cache, id: SpecId, owned: bool) {
    && id in d.ledger.terminated
    && (id in c.ledger.terminated ==> d.ledger == c.ledger)
    && (id !in c.ledger.terminated ==> d.ledger.records == c.ledger.records + [L.End(id, L.Discarded, 0.0, 0.0)])
    && (!owned || id !in c.ledger.terminated ==> forall key :: key in d.jobs ==> d.jobs[key] != id)
    && (forall key :: key in c.jobs && c.jobs[key] != id ==> key in d.jobs && d.jobs[key] == c.jobs[key])
  }

  /**
   * What a session answers a chain join, `joined` saying that the wait was not
   * in vain and nothing fences the session: exactly if the join still owns the
   * chain and its job is ripe it is served like a plain one, and the chain is
   * used up. Otherwise it is declined and its job given up, and with it the
   * chain if the join owned it; a chain that is not its own stays.
   */
  ghost predicate HopAnswer(s: Session, t: Session, claim: ChainClaim, joined: bool, ask: real, reply: Reply) {
    var owned := s.chain.Some? && s.chain.value.id == claim.chain && s.claim == Some(claim);
    && t.claim == (if s.claim == Some(claim) then None else s.claim)
    && t.tasks == s.tasks && t.cache.epoch == s.cache.epoch
    && if owned && joined && Ripe(s.cache, claim.job) then
         var job := s.cache.objs[claim.job];
         && job.result.Some? && job.duration.Some?
         && reply == Served(job.launch + job.duration.value <= ask, job.result.value)
         && OneHit(s.cache.ledger, t.cache.ledger, claim.job, job, ask)
         && t == s.(chain := None, claim := None, cache := s.cache.(ledger := t.cache.ledger))
       else
         && reply == Declined && GivenUp(s.cache, t.cache, claim.job, owned)
         && t.chain == if owned then None else s.chain
  }

  ghost predicate ChainAnswer(w: World, v: World, ticket: nat, completed: bool, reply: Reply)
    requires ticket in w.joins && w.joins[ticket].uid in w.d.store && w.joins[ticket].claim.Some?
  {
    var j := w.joins[ticket];
    && v.joins == w.joins - {ticket} && v.fs == w.fs && v.tickets == w.tickets
    && j.uid in v.d.store && v.d == w.d.(store := w.d.store[j.uid := v.d.store[j.uid]])
    && HopAnswer(w.d.store[j.uid], v.d.store[j.uid], j.claim.value, completed && Unfenced(w.d, j.uid), j.ask, reply)
  }

  /** What every delivery of a chain join does, in every run. */
  lemma ChainAnswers(fs: map<string, FS>, steps: seq<Step>, ticket: nat, completed: bool)
    requires var w := After(Start(fs), steps);
             ticket in w.joins && w.joins[ticket].claim.Some? && w.joins[ticket].uid in w.d.store
    ensures var w := After(Start(fs), steps);
            ChainAnswer(w, Next(w, Deliver(ticket, completed)), ticket, completed, Delivered(w, ticket, completed))
  {
    hide Invariant, After, SessionInvariants.Valid, Caches.Valid, Next, Delivered, ChainAnswer;
    AnyRunKeeps(fs, steps);
    var w := After(Start(fs), steps);
    var j := w.joins[ticket];
    SessionOf(None, w, j.uid);
    DoneHasResult(w.d.store[j.uid]);
    JoinOf(None, w, ticket);
    OneHopLeft(w.d.store[j.uid]);
    TableKeys(w.d.store[j.uid]);
    ChainStep(w, ticket, completed);
  }

  /** A claimed chain has the claimed hop and no other. */
  ghost predicate OneHopClaimed(s: Session) {
    s.chain.Some? && s.claim.Some? ==>
      s.claim.value.hop == 0 && s.chainSpecIds == [s.claim.value.job] && |s.chain.value.hops| == 1
  }

  lemma OneHopLeft(s: Session)
    requires SessionInvariants.Valid(s)
    ensures OneHopClaimed(s)
  {
    hide Caches.Valid;
  }

  /** A key holds the job that goes by it. */
  ghost predicate Keyed(c: Cache) {
    forall key :: key in c.jobs ==> c.jobs[key] in c.objs && KeyOf(c.objs[c.jobs[key]]) == key
  }

  lemma TableKeys(s: Session)
    requires SessionInvariants.Valid(s)
    ensures Keyed(s.cache)
  {
  }

  lemma RemovedThere(c: Cache, id: SpecId)
    requires Keyed(c)
    ensures var d := DiscardSpec(c, id);
            && d.ledger == c.ledger && d.epoch == c.epoch
            && (forall key :: key in d.jobs ==> d.jobs[key] != id)
            && (forall key :: key in c.jobs && c.jobs[key] != id ==> key in d.jobs && d.jobs[key] == c.jobs[key])
  {
  }

  lemma OwnerGivesUp(c: Cache, ids: seq<SpecId>, id: SpecId)
    requires Keyed(c) && ids == [id]
    ensures GivenUp(c, DiscardIds(c, From(ids, 0)), id, true) && DiscardIds(c, From(ids, 0)).epoch == c.epoch
  {
    hide DiscardSpec;
    assert From(ids, 0) == [id] && ids[1..] == [];
    assert DiscardIds(c, [id]) == DiscardIds(DiscardOne(c, id), []);
    RemovedThere(c.(ledger := L.Terminate(c.ledger, id, L.Discarded, 0.0, 0.0)), id);
  }

  lemma StrangerGivesUp(c: Cache, id: SpecId)
    requires Keyed(c)
    ensures var l := if id in c.ledger.terminated then c.ledger else L.Terminate(c.ledger, id, L.Discarded, 0.0, 0.0);
            var d := DiscardSpec(c.(ledger := l), id);
            GivenUp(c, d, id, false) && d.epoch == c.epoch
  {
    hide DiscardSpec;
    RemovedThere(c, id);
    RemovedThere(c.(ledger := L.Terminate(c.ledger, id, L.Discarded, 0.0, 0.0)), id);
  }

  lemma HopServed(s: Session, claim: ChainClaim, ask: real)
    requires Fulfilled(s.cache) && OneHopClaimed(s) && claim.job in s.cache.objs
    requires Owned(s, claim) && Ripe(s.cache, claim.job)
    ensures var f := FinishChainClaim(s, claim, true, true, false, ask);
            HopAnswer(s, f.s, claim, true, ask, f.reply)
  {
    RipeIs(s.cache, claim.job);
    hide Resident, DiscardIds, DiscardSpec, GivenUp;
  }

  lemma HopDeclined(s: Session, claim: ChainClaim, completed: bool, current: bool, open: bool, ask: real)
    requires OneHopClaimed(s) && Keyed(s.cache) && claim.job in s.cache.objs
    requires !(Owned(s, claim) && completed && current && !open && Ripe(s.cache, claim.job))
    ensures var f := FinishChainClaim(s, claim, completed, current, open, ask);
            HopAnswer(s, f.s, claim, completed && current && !open, ask, f.reply)
  {
    RipeIs(s.cache, claim.job);
    hide Resident, Ripe, DiscardIds, DiscardSpec, GivenUp, Keyed, Fulfilled;
    StrangerGivesUp(s.cache, claim.job);
    if Owned(s, claim) {
      OwnerGivesUp(s.cache, s.chainSpecIds, claim.job);
    }
  }

  lemma ChainStep(w: World, ticket: nat, completed: bool)
    requires ticket in w.joins && w.joins[ticket].claim.Some? && w.joins[ticket].uid in w.d.store
    requires var s, j := w.d.store[w.joins[ticket].uid], w.joins[ticket];
             && Fulfilled(s.cache) && OneHopClaimed(s) && Keyed(s.cache) && j.claim.value.job in s.cache.objs
    ensures ChainAnswer(w, Next(w, Deliver(ticket, completed)), ticket, completed, Delivered(w, ticket, completed))
  {
    hide Ripe, FinishChainClaim, HopAnswer, Keyed, Fulfilled, OneHopClaimed;
    var j := w.joins[ticket];
    var s := w.d.store[j.uid];
    if Owned(s, j.claim.value) && completed && Current(w.d, j.uid) && !Open(w.d, s.repo) && Ripe(s.cache, j.claim.value.job) {
      HopServed(s, j.claim.value, j.ask);
    } else {
      HopDeclined(s, j.claim.value, completed, Current(w.d, j.uid), Open(w.d, s.repo), j.ask);
    }
  }

  /* A run in which a read is served */

  /** A client has a read speculated, the worker comes back after `duration`, and the client asks for it at `ask`. */
  function ReadRun(call: Call, result: Output, duration: real, ask: real): seq<Step> {
    [StartSession("a", "r", PLAIN),
     Launch("a", call, 0.0),
     Completes(0, 0, result, duration),
     Ask("a", call, ask)]
  }

  function Launched(call: Call, fs: FS): Session {
    Speculate(NewSession("a", "r", PLAIN), call, 0.0, fs)
  }

  lemma LaunchedIs(call: Call, fs: FS)
    ensures var s, job := Launched(call, fs), Job(call, 0, 0, 0.0, None, None, false, false);
            && s.sid == "a" && s.repo == "r" && s.settings == PLAIN && s.chain == None && s.claim == None
            && s.tasks == map[0 := Task(OnRepo, {fs}, true)]
            && s.cache == Caches.EMPTY.(n := 1, ledger := s.cache.ledger, objs := map[0 := job],
                                        jobs := map[KeyOf(job) := 0], puts := map[Slot(call, 0) := 1])
            && s.cache.ledger.terminated == {}
  {
  }

  lemma LaunchAlone(fs: map<string, FS>, call: Call)
    requires KindPolicy(call.kind) == Free
    ensures Next(Alone(fs, NewSession("a", "r", PLAIN), map[], 0, map[]), Launch("a", call, 0.0))
            == Alone(fs, Launched(call, GetOr(fs, "r", map[])), map[], 0, map[])
  {
    var s, t := NewSession("a", "r", PLAIN), Launched(call, GetOr(fs, "r", map[]));
    hide Speculate;
    assert map[0 := s][0 := t] == map[0 := t];
  }

  lemma BackAlone(fs: map<string, FS>, s: Session, result: Output, duration: real)
    requires 0 in s.tasks && s.tasks[0].running
    ensures Next(Alone(fs, s, map[], 0, map[]), Completes(0, 0, result, duration))
            == Alone(fs, WorkerCompletes(s, 0, result, duration), map[], 0, map[])
  {
    hide WorkerCompletes;
    var t := WorkerCompletes(s, 0, result, duration);
    assert map[0 := s][0 := t] == map[0 := t];
  }

  /** The session that asks: its read is back. */
  function Back(call: Call, fs: FS, result: Output, duration: real): (s: Session)
    ensures s.sid == "a" && s.repo == "r"
  {
    LaunchedIs(call, fs);
    WorkerCompletes(Launched(call, fs), 0, result, duration)
  }

  /** It joins the read, and the read is ripe. */
  lemma BackAsks(call: Call, fs: FS, result: Output, duration: real)
    requires KindPolicy(call.kind) == Free
    ensures var r := ResolveStart(Back(call, fs, result, duration), call, false);
            && r.Joining? && r.job == Some(0) && r.claim == None && r.s.sid == "a" && r.s.repo == "r"
            && Ripe(r.s.cache, 0) && !r.s.cache.objs[0].synchronous && r.s.cache.objs[0].launch == 0.0
            && r.s.cache.objs[0].duration == Some(duration) && r.s.cache.objs[0].result == Some(result)
            && Fulfilled(r.s.cache)
  {
    hide Launched;
    LaunchedIs(call, fs);
    var s := Back(call, fs, result, duration);
    assert Resident(Launched(call, fs).cache, 0);
    assert Key(Slot(call, 0), 0) in s.cache.jobs;
    assert Stop(s.cache, Slot(call, 0)) == 0;
    assert ClaimedId(s.cache, call) == Some(0);
  }

  lemma AskAt(fs: map<string, FS>, s: Session, call: Call, ask: real)
    requires ResolveStart(s, call, false).Joining?
    ensures var r := ResolveStart(s, call, false);
            Next(Alone(fs, s, map[], 0, map[]), Ask("a", call, ask))
            == Alone(fs, r.s, map[], 0, map[0 := Join(0, call, r.job, r.claim, ask)])
  {
    hide ResolveStart;
    var r := ResolveStart(s, call, false);
    assert map[0 := s][0 := r.s] == map[0 := r.s];
    assert !Open(Alone(fs, s, map[], 0, map[]).d, s.repo);
    var joins: map<nat, Join> := map[0 := Join(0, call, r.job, r.claim, ask)];
    assert joins.Keys == {0} && |joins.Keys| == |joins|;
  }

  lemma ReadWorlds(call: Call, fs: map<string, FS>, result: Output, duration: real, ask: real)
    requires KindPolicy(call.kind) == Free
    ensures var repo := GetOr(fs, "r", map[]);
            var steps := ReadRun(call, result, duration, ask);
            var r := ResolveStart(Back(call, repo, result, duration), call, false);
            && After(Start(fs), steps[..2]) == Alone(fs, Launched(call, repo), map[], 0, map[])
            && After(Start(fs), steps) == Alone(fs, r.s, map[], 0, map[0 := Join(0, call, Some(0), None, ask)])
  {
    hide After, Next, Alone, Launched, ResolveStart, WorkerCompletes;
    var repo := GetOr(fs, "r", map[]);
    var steps := ReadRun(call, result, duration, ask);
    NothingYet(Start(fs), steps);
    AfterNext(Start(fs), steps, 0);
    AfterNext(Start(fs), steps, 1);
    AfterNext(Start(fs), steps, 2);
    AfterNext(Start(fs), steps, 3);
    assert steps[..4] == steps;
    StartAlone(fs);
    LaunchAlone(fs, call);
    LaunchedIs(call, repo);
    BackAlone(fs, Launched(call, repo), result, duration);
    BackAsks(call, repo, result, duration);
    AskAt(fs, Back(call, repo, result, duration), call, ask);
  }

  lemma ReadIsFair(exec: Exec, call: Call, fs: map<string, FS>, duration: real, ask: real)
    requires KindPolicy(call.kind) == Free
    ensures FairRun(Some(exec), Start(fs), ReadRun(call, exec(GetOr(fs, "r", map[]), call), duration, ask))
  {
    hide After, FairRun, Launched;
    var repo := GetOr(fs, "r", map[]);
    var steps := ReadRun(call, exec(repo, call), duration, ask);
    ReadWorlds(call, fs, exec(repo, call), duration, ask);
    LaunchedIs(call, repo);
    NothingUnfair(exec, Start(fs), steps);
    OnlyClients(exec, Start(fs), steps, 0, 2);
    FairLonger(exec, Start(fs), steps, 2);
    OnlyClients(exec, Start(fs), steps, 3, 4);
    assert steps[..4] == steps;
  }

  /**
   * For every read, way to execute commands, duration and time of asking there
   * is a fair run in which the read is served from the cache what running it
   * returns, "completed" exactly if it took no longer than until the ask.
   */
  lemma ReadServes(exec: Exec, call: Call, fs: map<string, FS>, duration: real, ask: real)
    requires KindPolicy(call.kind) == Free
    ensures var repo := GetOr(fs, "r", map[]);
            var steps := ReadRun(call, exec(repo, call), duration, ask);
            var w := After(Start(fs), steps);
            && FairRun(Some(exec), Start(fs), steps) && Bracketed(steps)
            && 0 in w.joins && w.joins[0] == Join(0, call, Some(0), None, ask) && 0 in w.d.store
            && Repo(w, "r") == repo && Delivered(w, 0, true) == Served(duration <= ask, exec(repo, call))
  {
    hide After, FairRun, ResolveStart, Next, Fulfilled, Delivered, Back;
    var repo := GetOr(fs, "r", map[]);
    var result := exec(repo, call);
    ReadIsFair(exec, call, fs, duration, ask);
    ReadWorlds(call, fs, result, duration, ask);
    BackAsks(call, repo, result, duration);
    PlainStep(After(Start(fs), ReadRun(call, result, duration, ask)), 0, true);
  }
}
