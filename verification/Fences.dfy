/**
 * Mutation brackets over whole runs (src/sfx/daemon.py:230-290): nothing
 * stale crosses the unlocked wait of `resolve`, nothing but the bracket's own
 * chain lives inside it, and a kept chain's bracket overlapped nothing.
 */
module Fences {
  import opened Common
  import opened Caches
  import opened WritePaths
  import opened Sessions
  import opened SessionInvariants
  import opened Daemons
  import opened Coherence
  import opened Evolution
  import opened Runs
  import opened RunSteps
  import opened Lossless

  /* The epoch fence */

  /** A report that finds no streamed write of its own counts as a change. */
  predicate ReportChanges(d: Daemon, sid: string, policy: Policy, args: Args, mid: Option<MutationId>)
    requires Reportable(d, sid, mid)
  {
    var s := d.store[d.sessions[sid]];
    mid == None && policy != Free
    && !(s.streamedWrite && s.chain.Some? && args == WriteArgs(s.chain.value.write))
  }

  /** The steps that conflict every open bracket on `repo`. */
  predicate Conflicting(w: World, st: Step, repo: string) {
    match st
    case Begin(sid, writeArgs, _) => Beginnable(w.d, sid, writeArgs) && w.d.store[w.d.sessions[sid]].repo == repo
    case Noticed(sid, _) => Known(w.d, sid) && w.d.store[w.d.sessions[sid]].repo == repo
    case Reported(sid, policy, args, mid, _) =>
      Reportable(w.d, sid, mid) && w.d.store[w.d.sessions[sid]].repo == repo && ReportChanges(w.d, sid, policy, args, mid)
    case FeedWrite(sid, write, mid, pred, _, _) =>
      && Feedable(w.d, sid, write, mid) && w.d.store[w.d.sessions[sid]].repo == repo && mid == None
      && (pred.Some? ==> KindPolicy(pred.value.kind) == Free)
    case _ => false
  }

  /** The steps after which nothing session `uid` had reserved may be served. */
  predicate Invalidating(w: World, st: Step, uid: Uid)
    requires uid in w.d.store
  {
    || Conflicting(w, st, w.d.store[uid].repo)
    || (st.End? && Endable(w.d, st.sid, st.mid) && w.d.store[w.d.sessions[st.sid]].repo == w.d.store[uid].repo
        && !(Preserves(w.d, st.sid, st.mid, st.success, Committed(w, st.sid, st.mid)) && uid == w.d.sessions[st.sid]))
    || st.StopDaemon?
    || (st.EndSession? && st.sid == w.d.store[uid].sid && Removable(w.d, st.sid))
  }

  lemma InvalidateBumps(d: Daemon, repo: string, preserve: Option<Uid>, now: real, uid: Uid)
    requires uid in d.store && Affected(d, uid, repo, preserve)
    ensures uid in InvalidateRepo(d, repo, preserve, now).store
    ensures InvalidateRepo(d, repo, preserve, now).store[uid].cache.epoch == d.store[uid].cache.epoch + 1
  {
    hide DiscardIds;
    DiscardIdsEpoch(d.store[uid].cache, From(d.store[uid].chainSpecIds, 0));
  }

  lemma DiscardIdsEpoch(c: Cache, ids: seq<SpecId>)
    ensures DiscardIds(c, ids).epoch == c.epoch
    decreases |ids|
  {
    if ids != [] {
      DiscardIdsEpoch(DiscardOne(c, ids[0]), ids[1..]);
    }
  }

  lemma OnFsChangeBumps(d: Daemon, repo: string, now: real, uid: Uid)
    requires Current(d, uid) && d.store[uid].repo == repo
    ensures uid in OnFsChange(d, repo, now).store
    ensures OnFsChange(d, repo, now).store[uid].cache.epoch == d.store[uid].cache.epoch + 1
  {
    hide InvalidateRepo, Conflict;
    var e := if repo in d.mutations then d.(mutations := d.mutations[repo := Conflict(d.mutations[repo])]) else d;
    InvalidateBumps(e, repo, None, now, uid);
  }

  lemma EndBumps(d: Daemon, sid: string, mid: MutationId, success: bool, committed: bool, now: real, uid: Uid)
    requires Endable(d, sid, mid) && Current(d, uid) && d.store[uid].repo == d.store[d.sessions[sid]].repo
    requires !(Preserves(d, sid, mid, success, committed) && uid == d.sessions[sid])
    ensures uid in MutationEnd(d, sid, mid, success, committed, now).store
    ensures MutationEnd(d, sid, mid, success, committed, now).store[uid].cache.epoch == d.store[uid].cache.epoch + 1
  {
    hide InvalidateRepo, Preserves;
    var u := d.sessions[sid];
    var repo := d.store[u].repo;
    var active := Active(d, repo) - {mid};
    var b := d.(mutations := if active == map[] then d.mutations - {repo} else d.mutations[repo := active]);
    var preserve := if Preserves(d, sid, mid, success, committed) then Some(u) else None;
    assert Current(b, uid);
    InvalidateBumps(b, repo, preserve, now, uid);
  }

  lemma BeginBumps(d: Daemon, sid: string, writeArgs: Option<Write>, now: real, uid: Uid)
    requires Beginnable(d, sid, writeArgs) && Current(d, uid) && d.store[uid].repo == d.store[d.sessions[sid]].repo
    ensures uid in MutationBegin(d, sid, writeArgs, now).store
    ensures MutationBegin(d, sid, writeArgs, now).store[uid].cache.epoch == d.store[uid].cache.epoch + 1
  {
    hide InvalidateRepo, Conflict, ValidateWritePath;
    var repo := d.store[d.sessions[sid]].repo;
    var active := Active(d, repo);
    var e := d.(mutations := d.mutations[repo := Conflict(active)[d.mids := Mutation(sid, writeArgs, active != map[])]],
                mids := d.mids + 1);
    InvalidateBumps(e, repo, None, now, uid);
  }

  /** Every invalidating step moves the session to a later epoch. */
  lemma InvalidatingBumps(exec: Option<Exec>, w: World, st: Step, uid: Uid)
    requires Invariant(exec, w) && uid in w.d.store && Current(w.d, uid) && Invalidating(w, st, uid)
    ensures uid in Next(w, st).d.store
    ensures w.d.store[uid].cache.epoch < Next(w, st).d.store[uid].cache.epoch
  {
    hide Invariant, MutationBegin, MutationEnd, OnFsChange, Preserves, Beginnable, StartChain, Landed, Removable;
    var s := w.d.store[uid];
    match st
    case Begin(sid, writeArgs, now) => BeginBumps(w.d, sid, writeArgs, now, uid);
    case Noticed(_, now) => OnFsChangeBumps(w.d, s.repo, now, uid);
    case Reported(_, _, _, _, now) => OnFsChangeBumps(w.d, s.repo, now, uid);
    case FeedWrite(sid, write, mid, pred, substrate, now) =>
      OnFsChangeBumps(w.d, s.repo, now, uid);
      OnFsChangeHolds(w.d, s.repo, now, w.d.sessions[sid]);
      FeedEpoch(OnFsChange(w.d, s.repo, now), w.d.sessions[sid], write, mid, pred, substrate, now,
                Repo(w, w.d.store[w.d.sessions[sid]].repo), uid);
    case End(sid, mid, success, now) => EndBumps(w.d, sid, mid, success, Committed(w, sid, mid), now, uid);
    case StopDaemon(now) =>
    case EndSession(sid, now) => KnownIsCurrent(exec, w, sid);
  }

  lemma FeedEpoch(d: Daemon, at: Uid, w: Write, fed: Option<MutationId>, pred: Option<Call>, substrate: bool,
                  now: real, fs: FS, uid: Uid)
    requires uid in d.store && at in d.store
    ensures var t := StartChain(d.store[at], w, fed, pred, substrate, now, fs);
            Put(d, at, t).store[uid].cache.epoch == d.store[uid].cache.epoch
  {
    hide DiscardIds;
    DiscardIdsEpoch(d.store[at].cache, From(d.store[at].chainSpecIds, 0));
  }

  /** A session object that lost its id never gets it back. */
  lemma CurrentBefore(w: World, st: Step, uid: Uid)
    requires Invariant(None, w) && uid in w.d.store && Current(Next(w, st).d, uid)
    ensures Current(w.d, uid)
  {
    hide Invariant, Next;
    AnyStepKeeps(w, st);
    NamesKept(w, st);
    SessionOf(None, w, uid);
  }

  /** Only a new session takes over an id, and only ending one frees it. */
  lemma NamesKept(w: World, st: Step)
    ensures forall sid :: sid in Next(w, st).d.sessions ==>
              || Next(w, st).d.sessions[sid] == w.d.uids
              || (sid in w.d.sessions && Next(w, st).d.sessions[sid] == w.d.sessions[sid])
  {
    hide Invalidate, StartChain, Speculate, ResolveStart, FinishPlain, FinishChainClaim, WorkerCompletes, WorkerFails,
      Settle, Preempt, Retire, Conflict, Preserves, Committed;
  }

  lemma {:induction false} AfterSplit(w: World, a: seq<Step>, b: seq<Step>)
    ensures After(w, a + b) == After(After(w, a), b)
    decreases |b|
  {
    hide Next;
    if b == [] {
      assert a + b == a;
    } else {
      assert (a + b)[..|a + b| - 1] == a + b[..|b| - 1];
      AfterSplit(w, a, b[..|b| - 1]);
    }
  }

  lemma {:induction false} CurrentThroughout(w: World, steps: seq<Step>, uid: Uid)
    requires Invariant(None, w) && uid in w.d.store && Current(After(w, steps).d, uid)
    ensures Current(w.d, uid)
    decreases |steps|
  {
    hide Invariant, Next, Fair, WorldEvolves, Current;
    if steps != [] {
      var before := steps[..|steps| - 1];
      RunKeeps(None, w, before) by {
        AnythingGoes(w, before);
      }
      EvolvesHolds(w.d, After(w, before).d, uid);
      CurrentBefore(After(w, before), steps[|steps| - 1], uid);
      CurrentThroughout(w, before, uid);
    }
  }

  lemma {:induction false} AnythingGoes(w: World, steps: seq<Step>)
    ensures FairRun(None, w, steps)
    decreases |steps|
  {
    if steps != [] {
      AnythingGoes(w, steps[..|steps| - 1]);
    }
  }

  lemma EvolvesHolds(d: Daemon, e: Daemon, uid: Uid)
    requires WorldEvolves(d, e) && uid in d.store
    ensures uid in e.store && Evolves(d.store[uid], e.store[uid])
  {
    hide Evolves;
  }

  /** The world after the first `i` steps evolves into the last one, step by step. */
  lemma RunAt(fs: map<string, FS>, steps: seq<Step>, i: nat)
    requires i < |steps|
    ensures var w, v := After(Start(fs), steps[..i]), After(Start(fs), steps[..i + 1]);
            && Invariant(None, w) && Invariant(None, After(Start(fs), steps))
            && v == Next(w, steps[i])
            && WorldEvolves(w.d, v.d) && WorldEvolves(v.d, After(Start(fs), steps).d)
            && After(Start(fs), steps) == After(w, steps[i..])
  {
    hide Invariant, Next, WorldEvolves, After;
    var w := After(Start(fs), steps[..i]);
    AfterNext(Start(fs), steps, i);
    AnyRunKeeps(fs, steps[..i]);
    AnyRunKeeps(fs, steps);
    AnyStepKeeps(w, steps[i]);
    AnyRunEvolves(Next(w, steps[i]), steps[i + 1..]);
    CutAt(Start(fs), steps, i);
    CutAt(Start(fs), steps, i + 1);
  }

  /** Every world of every run is a good one. */
  lemma AnyRunKeeps(fs: map<string, FS>, steps: seq<Step>)
    ensures Invariant(None, After(Start(fs), steps))
  {
    hide Invariant, After;
    StartOk(None, fs);
    AnyRunEvolves(Start(fs), steps);
  }

  lemma AnyRunEvolves(w: World, steps: seq<Step>)
    requires Invariant(None, w)
    ensures Invariant(None, After(w, steps)) && WorldEvolves(w.d, After(w, steps).d)
  {
    hide Invariant, After, FairRun, WorldEvolves;
    AnythingGoes(w, steps);
    RunKeeps(None, w, steps);
  }

  lemma CutAt(w: World, steps: seq<Step>, i: nat)
    requires i <= |steps|
    ensures After(w, steps) == After(After(w, steps[..i]), steps[i..])
  {
    hide After;
    assert steps[..i] + steps[i..] == steps;
    AfterSplit(w, steps[..i], steps[i..]);
  }

  lemma AnyStepKeeps(w: World, st: Step)
    requires Invariant(None, w)
    ensures Invariant(None, Next(w, st)) && WorldEvolves(w.d, Next(w, st).d)
  {
    hide Invariant, Next, WorldEvolves;
    StepKeeps(None, w, st);
  }

  lemma AfterNext(w: World, steps: seq<Step>, i: nat)
    requires i < |steps|
    ensures After(w, steps[..i + 1]) == Next(After(w, steps[..i]), steps[i])
  {
    hide Next;
    assert steps[..i + 1][..i] == steps[..i];
  }

  lemma EpochsBelow(s: Session, id: SpecId)
    requires SessionInvariants.Valid(s) && id in s.cache.objs
    ensures s.cache.objs[id].epoch <= s.cache.epoch
  {
  }

  lemma EvolvesEpochs(s: Session, t: Session, id: SpecId)
    requires Evolves(s, t)
    ensures s.cache.epoch <= t.cache.epoch
    ensures id in s.cache.objs ==> id in t.cache.objs && t.cache.objs[id].epoch == s.cache.objs[id].epoch
  {
    hide Resident;
  }

  /**
   * The epoch fence across the unlocked wait, in every run whatever the
   * workers answer and however the repository changes: when a join is served,
   * no bracket is open, and since its job was reserved no step invalidated the
   * session or ended it.
   */
  lemma EpochFence(fs: map<string, FS>, steps: seq<Step>, ticket: nat, completed: bool, i: nat)
    requires var w := After(Start(fs), steps);
             ticket in w.joins && w.joins[ticket].uid in w.d.store && Delivered(w, ticket, completed).Served?
    requires i < |steps|
    requires var w, v := After(Start(fs), steps), After(Start(fs), steps[..i]);
             var j := w.joins[ticket];
             j.uid in v.d.store && j.job.Some? && j.job.value in v.d.store[j.uid].cache.objs
    ensures var w, v := After(Start(fs), steps), After(Start(fs), steps[..i]);
            var uid := w.joins[ticket].uid;
            && Current(v.d, uid) && !Invalidating(v, steps[i], uid)
            && Current(w.d, uid) && !Open(w.d, w.d.store[uid].repo)
  {
    hide Invariant, WorldEvolves, Evolves, FinishResolve, Next, After, Invalidating, Current, Open, SessionInvariants.Valid;
    var w, v := After(Start(fs), steps), After(Start(fs), steps[..i]);
    var j := w.joins[ticket];
    var id := j.job.value;
    RunAt(fs, steps, i);
    JoinOf(None, w, ticket);
    ServedWasDeliverable(w.d, j, completed);
    CurrentThroughout(v, steps[i..], j.uid);
    if Invalidating(v, steps[i], j.uid) {
      var u := Next(v, steps[i]);
      SessionOf(None, v, j.uid);
      EpochsBelow(v.d.store[j.uid], id);
      InvalidatingBumps(None, v, steps[i], j.uid);
      EvolvesHolds(v.d, u.d, j.uid);
      EvolvesHolds(u.d, w.d, j.uid);
      EvolvesEpochs(v.d.store[j.uid], u.d.store[j.uid], id);
      EvolvesEpochs(u.d.store[j.uid], w.d.store[j.uid], id);
      assert false;
    }
  }

  /* Fence occupancy */

  /**
   * While a bracket is open the only job a session of that repository can hold
   * is the chain job fed under the bracket, which is then the only one open
   * and unconflicted. In particular no read was reserved inside it.
   */
  lemma FenceOccupancy(fs: map<string, FS>, steps: seq<Step>, uid: Uid, id: SpecId)
    requires var w := After(Start(fs), steps);
             && uid in w.d.store && Current(w.d, uid) && Open(w.d, w.d.store[uid].repo)
             && id in w.d.store[uid].tasks && Resident(w.d.store[uid].cache, id)
    ensures var d := After(Start(fs), steps).d;
            var s := d.store[uid];
            var lane := s.tasks[id].lane;
            && s.chain.Some? && s.chainSpecIds == [id] && id !in s.cache.ledger.terminated
            && lane.InFork? && lane.fed.Some? && Active(d, s.repo).Keys == {lane.fed.value}
            && Active(d, s.repo)[lane.fed.value] == Mutation(s.sid, Some(lane.write), false)
  {
    hide Invariant, Coherent, SessionInvariants.Valid, After, Resident;
    AnyRunKeeps(fs, steps);
    var w := After(Start(fs), steps);
    SessionOf(None, w, uid);
    ResidentInBracket(None, w.d.store[uid], id, Repo(w, w.d.store[uid].repo), Active(w.d, w.d.store[uid].repo));
  }

  /* Preservation */

  /** What a step does to the brackets open on `repo`. */
  lemma BracketsNext(w: World, st: Step, repo: string)
    ensures var before, after := Active(w.d, repo), Active(Next(w, st).d, repo);
            if Conflicting(w, st, repo) then
              if st.Begin? then
                after == Conflict(before)[w.d.mids := Mutation(st.sid, st.writeArgs, before != map[])]
              else after == Conflict(before)
            else forall m :: m in after ==> m in before && after[m] == before[m]
    ensures w.d.mids <= Next(w, st).d.mids
    ensures Next(w, st).d.mids == w.d.mids || (st.Begin? && Next(w, st).d.mids == w.d.mids + 1)
  {
    hide MutationBegin, MutationEnd, OnFsChange, Feed, Report, Next, Active, Conflict, Committed, Preserves;
    if st.Begin? || st.End? {
      OwnBrackets(w, st, repo);
    } else if st.Noticed? || st.Reported? || st.FeedWrite? {
      ChangedBrackets(w, st, repo);
    } else {
      OtherBrackets(w, st, repo);
    }
  }

  lemma OtherBrackets(w: World, st: Step, repo: string)
    requires !st.Begin? && !st.End? && !st.Noticed? && !st.Reported? && !st.FeedWrite?
    ensures Active(Next(w, st).d, repo) == if st.StopDaemon? then map[] else Active(w.d, repo)
    ensures Next(w, st).d.mids == w.d.mids
  {
    hide Next, Active;
    if st.Completes? || st.Fails? || st.Settles? || st.Preempts? || st.Changes? {
      WorkerBrackets(w, st, repo);
    } else {
      SessionBrackets(w, st, repo);
    }
  }

  lemma WorkerBrackets(w: World, st: Step, repo: string)
    requires st.Completes? || st.Fails? || st.Settles? || st.Preempts? || st.Changes?
    ensures Active(Next(w, st).d, repo) == Active(w.d, repo) && Next(w, st).d.mids == w.d.mids
  {
    hide WorkerCompletes, WorkerFails, Settle, Preempt, Observe;
  }

  lemma SessionBrackets(w: World, st: Step, repo: string)
    requires st.StartSession? || st.EndSession? || st.StopDaemon? || st.Launch? || st.Ask? || st.Deliver?
    ensures Active(Next(w, st).d, repo) == if st.StopDaemon? then map[] else Active(w.d, repo)
    ensures Next(w, st).d.mids == w.d.mids
  {
    hide Speculate, ResolveStart, FinishResolve, Retire, NewSession, Removable, Speculable;
  }

  lemma OwnBrackets(w: World, st: Step, repo: string)
    requires st.Begin? || st.End?
    ensures var before, after := Active(w.d, repo), Active(Next(w, st).d, repo);
            if Conflicting(w, st, repo) then
              after == Conflict(before)[w.d.mids := Mutation(st.sid, st.writeArgs, before != map[])]
            else forall m :: m in after ==> m in before && after[m] == before[m]
    ensures w.d.mids <= Next(w, st).d.mids
    ensures Next(w, st).d.mids == w.d.mids || (st.Begin? && Next(w, st).d.mids == w.d.mids + 1)
  {
    hide Invalidate, Preserves, Committed, ValidateWritePath, Conflict;
  }

  lemma ChangedBrackets(w: World, st: Step, repo: string)
    requires st.Noticed? || st.Reported? || st.FeedWrite?
    ensures var before := Active(w.d, repo);
            Active(Next(w, st).d, repo) == if Conflicting(w, st, repo) then Conflict(before) else before
    ensures Next(w, st).d.mids == w.d.mids
  {
    hide StartChain, ValidateWritePath, Conflict, OnFsChange;
    if st.Reported? && Reportable(w.d, st.sid, st.under) {
      ReportBrackets(w.d, st, repo);
    } else if !st.Reported? && Known(w.d, st.sid) {
      OnFsChangeBrackets(w.d, w.d.store[w.d.sessions[st.sid]].repo, st.now, repo);
    }
  }

  lemma ReportBrackets(d: Daemon, st: Step, repo: string)
    requires st.Reported? && Reportable(d, st.sid, st.under)
    ensures var changed := ReportChanges(d, st.sid, st.policy, st.args, st.under) && d.store[d.sessions[st.sid]].repo == repo;
            var e := Report(d, st.sid, st.policy, st.args, st.under, st.now);
            && Active(e, repo) == (if changed then Conflict(Active(d, repo)) else Active(d, repo))
            && e.mids == d.mids
  {
    hide Conflict, OnFsChange;
    OnFsChangeBrackets(d, d.store[d.sessions[st.sid]].repo, st.now, repo);
  }

  lemma OnFsChangeBrackets(d: Daemon, at: string, now: real, repo: string)
    ensures Active(OnFsChange(d, at, now), repo) == if repo == at then Conflict(Active(d, repo)) else Active(d, repo)
    ensures OnFsChange(d, at, now).mids == d.mids
  {
    hide Invalidate;
    assert Conflict(map[]) == map[];
  }

  /** An unconflicted bracket was unconflicted, and alone, for as long as it has been open. */
  lemma StillAlone(w: World, st: Step, repo: string, mid: MutationId)
    requires Invariant(None, w)
    requires mid in Active(Next(w, st).d, repo) && !Active(Next(w, st).d, repo)[mid].conflicted
    ensures mid in Active(w.d, repo) ==>
              && Active(w.d, repo)[mid] == Active(Next(w, st).d, repo)[mid]
              && Active(w.d, repo).Keys == {mid}
              && !Conflicting(w, st, repo)
    ensures mid !in Active(w.d, repo) ==>
              && st.Begin? && Active(w.d, repo) == map[] && mid == w.d.mids
              && Active(Next(w, st).d, repo)[mid] == Mutation(st.sid, st.writeArgs, false)
  {
    hide Invariant, Next, Conflicting;
    BracketsNext(w, st, repo);
    BracketsOf(None, w, repo);
  }

  /** The bracket `mid` was opened by step `b` and has been alone ever since. */
  ghost predicate AloneSince(fs: map<string, FS>, steps: seq<Step>, repo: string, mid: MutationId, b: nat) {
    && b < |steps| && steps[b].Begin?
    && Active(After(Start(fs), steps[..b]).d, repo) == map[]
    && forall i :: b < i < |steps| ==>
         && Active(After(Start(fs), steps[..i]).d, repo).Keys == {mid}
         && !Conflicting(After(Start(fs), steps[..i]), steps[i], repo)
  }

  lemma {:induction false} OpenedAlone(fs: map<string, FS>, steps: seq<Step>, repo: string, mid: MutationId)
      returns (b: nat)
    requires var active := Active(After(Start(fs), steps).d, repo); mid in active && !active[mid].conflicted
    ensures AloneSince(fs, steps, repo, mid, b)
    ensures Active(After(Start(fs), steps).d, repo)[mid] == Mutation(steps[b].sid, steps[b].writeArgs, false)
    decreases |steps|
  {
    hide Invariant, Next, Conflicting, Fair, WorldEvolves, AloneSince;
    assert steps != [];
    var before := steps[..|steps| - 1];
    var w := After(Start(fs), before);
    AnyRunKeeps(fs, before);
    StillAlone(w, steps[|steps| - 1], repo, mid);
    if mid in Active(w.d, repo) {
      b := OpenedAlone(fs, before, repo, mid);
      AloneLonger(fs, steps, repo, mid, b);
    } else {
      b := |steps| - 1;
      JustOpened(fs, steps, repo, mid);
    }
  }

  lemma AloneLonger(fs: map<string, FS>, steps: seq<Step>, repo: string, mid: MutationId, b: nat)
    requires steps != [] && AloneSince(fs, steps[..|steps| - 1], repo, mid, b)
    requires Active(After(Start(fs), steps[..|steps| - 1]).d, repo).Keys == {mid}
    requires !Conflicting(After(Start(fs), steps[..|steps| - 1]), steps[|steps| - 1], repo)
    ensures AloneSince(fs, steps, repo, mid, b) && steps[b] == steps[..|steps| - 1][b]
  {
    hide Conflicting, After;
    var before := steps[..|steps| - 1];
    assert before[..b] == steps[..b];
    forall i | b < i < |steps|
      ensures Active(After(Start(fs), steps[..i]).d, repo).Keys == {mid}
      ensures !Conflicting(After(Start(fs), steps[..i]), steps[i], repo)
    {
      if i < |before| {
        assert before[..i] == steps[..i] && before[i] == steps[i];
      }
    }
  }

  lemma JustOpened(fs: map<string, FS>, steps: seq<Step>, repo: string, mid: MutationId)
    requires steps != [] && steps[|steps| - 1].Begin?
    requires Active(After(Start(fs), steps[..|steps| - 1]).d, repo) == map[]
    ensures AloneSince(fs, steps, repo, mid, |steps| - 1)
  {
  }

  /**
   * A chain that survives the end of its bracket: the bracket was alone on the
   * repository from its begin to its end, nothing else was reported to change
   * meanwhile, and the written file holds exactly the chain's contents.
   */
  lemma PreservationSound(fs: map<string, FS>, steps: seq<Step>, sid: string, mid: MutationId, success: bool)
      returns (b: nat)
    requires var w := After(Start(fs), steps);
             Endable(w.d, sid, mid) && Preserves(w.d, sid, mid, success, Committed(w, sid, mid))
    ensures var w := After(Start(fs), steps);
            var s := w.d.store[w.d.sessions[sid]];
            && AloneSince(fs, steps, s.repo, mid, b)
            && steps[b].sid == sid && steps[b].writeArgs == Some(s.chain.value.write)
            && Active(w.d, s.repo).Keys == {mid}
    ensures var w := After(Start(fs), steps);
            var s := w.d.store[w.d.sessions[sid]];
            var target := ValidateWritePath(s.chain.value.write.path);
            && target.Some? && target.value in Repo(w, s.repo)
            && Repo(w, s.repo)[target.value] == s.chain.value.write.contents
  {
    hide Invariant, AloneSince, After, ValidateWritePath;
    var w := After(Start(fs), steps);
    var repo := w.d.store[w.d.sessions[sid]].repo;
    b := OpenedAlone(fs, steps, repo, mid);
    AnyRunKeeps(fs, steps);
    BracketsOf(None, w, repo);
  }

  /** `mutation_end` keeps the chain exactly when it reports that it does. */
  lemma EndKeepsChain(d: Daemon, sid: string, mid: MutationId, success: bool, committed: bool, now: real)
    requires Endable(d, sid, mid) && Current(d, d.sessions[sid])
    ensures var e := MutationEnd(d, sid, mid, success, committed, now);
            var uid := d.sessions[sid];
            && uid in e.store
            && (e.store[uid].chain.Some? <==> Preserves(d, sid, mid, success, committed))
            && (e.store[uid].chain.Some? ==> e.store[uid].chain == d.store[uid].chain && e.store[uid].cache == d.store[uid].cache)
            && mid in e.store[uid].completed
            && e.store[uid].completed[mid] == e.store[uid].chain.Some?
  {
    hide DiscardIds, BumpEpoch;
  }
}
