/**
 * Whatever `resolve` serves is what running the command would have returned
 * (src/sfx/daemon.py:558-605), and exactly when an unbracketed feed spoils it.
 */
module Lossless {
  import opened Common
  import opened Caches
  import opened WritePaths
  import opened Sessions
  import opened SessionInvariants
  import opened Daemons
  import opened Coherence
  import opened Runs
  import opened RunSteps
  import opened StepFrames
  import Q = CacheQueues

  /** What the delivery of a waiting join answers in world `w`. */
  function Delivered(w: World, ticket: nat, completed: bool): Reply
    requires ticket in w.joins && w.joins[ticket].uid in w.d.store
  {
    FinishResolve(w.d, w.joins[ticket], completed).reply
  }

  lemma ServedWasDeliverable(d: Daemon, j: Join, completed: bool)
    requires j.uid in d.store && FinishResolve(d, j, completed).reply.Served?
    ensures Current(d, j.uid) && !Open(d, d.store[j.uid].repo)
    ensures var c := d.store[j.uid].cache;
            j.claim.Some? ==>
              && Deliverable(c, j.claim.value.job)
              && FinishResolve(d, j, completed).reply.output == c.objs[j.claim.value.job].result.value
    ensures var c := d.store[j.uid].cache;
            j.claim == None ==>
              && j.job.Some? && Deliverable(c, j.job.value)
              && FinishResolve(d, j, completed).reply.output == c.objs[j.job.value].result.value
  {
    hide DiscardChain, Finish, DiscardSpec;
  }

  lemma JobIsRight(exec: Exec, s: Session, id: SpecId, fs: FS, active: map<MutationId, Mutation>)
    requires Coherent(Some(exec), s, fs, active) && id in s.tasks && Deliverable(s.cache, id) && active == map[]
    ensures match s.tasks[id].lane
            case OnRepo => s.cache.objs[id].result.value == exec(fs, s.cache.objs[id].call)
            case InFork(write, fed) =>
              && s.cache.objs[id].result.value == exec(Applied(write, fs), s.cache.objs[id].call)
              && (fed.Some? ==> Landed(write, fs))
  {
    hide Applied, Landed, Resident;
    assert JobOk(Some(exec), s, id, fs, active);
  }

  /**
   * In every fair run, with or without unbracketed feeds: a plain join is
   * served the output on the repository as it stands at delivery, a chain join
   * the output on the repository with the chain's write applied, and a write
   * fed under a bracket has landed by then.
   */
  lemma DeliveredIsExecuted(exec: Exec, fs: map<string, FS>, steps: seq<Step>, ticket: nat, completed: bool)
    requires FairRun(Some(exec), Start(fs), steps)
    requires var w := After(Start(fs), steps);
             ticket in w.joins && w.joins[ticket].uid in w.d.store && Delivered(w, ticket, completed).Served?
    ensures var w := After(Start(fs), steps);
            var j := w.joins[ticket];
            var s := w.d.store[j.uid];
            && j.job.Some? && j.job.value in s.tasks
            && match s.tasks[j.job.value].lane
               case OnRepo => j.claim == None && Delivered(w, ticket, completed).output == exec(Repo(w, s.repo), j.call)
               case InFork(write, fed) =>
                 && j.claim.Some?
                 && Delivered(w, ticket, completed).output == exec(Applied(write, Repo(w, s.repo)), j.call)
                 && (fed.Some? ==> Landed(write, Repo(w, s.repo)))
  {
    hide Invariant, Coherent, SessionInvariants.Valid, Applied, Landed, FinishResolve, Resident;
    StartOk(Some(exec), fs);
    RunKeeps(Some(exec), Start(fs), steps);
    var w := After(Start(fs), steps);
    var j := w.joins[ticket];
    SessionOf(Some(exec), w, j.uid);
    JoinOf(Some(exec), w, ticket);
    ServedWasDeliverable(w.d, j, completed);
    JobIsRight(exec, w.d.store[j.uid], j.job.value, Repo(w, w.d.store[j.uid].repo), map[]);
  }

  /* Runs whose every feed is bracketed */

  ghost predicate Bracketed(steps: seq<Step>) {
    forall st :: st in steps && st.FeedWrite? ==> st.under.Some?
  }

  /** The chain and every fork task carry their bracket's id. */
  ghost predicate SessionFed(s: Session) {
    && (forall id :: id in s.tasks && s.tasks[id].lane.InFork? ==> s.tasks[id].lane.fed.Some?)
    && (s.chain.Some? ==> s.chain.value.fed.Some?)
  }

  ghost predicate AllFed(d: Daemon) {
    forall uid :: uid in d.store ==> SessionFed(d.store[uid])
  }

  lemma InvariantFreshIds(exec: Option<Exec>, w: World)
    requires Invariant(exec, w)
    ensures FreshIds(w.d)
  {
    hide SessionInvariants.Valid;
    forall uid | uid in w.d.store
      ensures Unnumbered(w.d.store[uid])
    {
      assert SessionInvariants.Valid(w.d.store[uid]);
      NextIdIsFresh(w.d.store[uid]);
    }
  }

  lemma NextIdIsFresh(s: Session)
    requires SessionInvariants.Valid(s)
    ensures Unnumbered(s)
  {
  }

  lemma StayFed(d: Daemon, e: Daemon, st: Step)
    requires AllFed(d) && Framed(d, e, st) && (st.FeedWrite? ==> st.under.Some?)
    ensures AllFed(e)
  {
    hide Moves, KeepsClaim;
    forall uid | uid in e.store
      ensures SessionFed(e.store[uid])
    {
      if uid in d.store {
        StaysFed(d.store[uid], e.store[uid], FedBy(st), st.Deliver?);
      }
    }
  }

  lemma StaysFed(s: Session, t: Session, fed: set<Option<MutationId>>, hit: bool)
    requires SessionFed(s) && Moves(s, t, fed, hit) && None !in fed
    ensures SessionFed(t)
  {
    hide Q.Later;
  }

  lemma {:induction false} BracketedAllFed(exec: Option<Exec>, fs: map<string, FS>, steps: seq<Step>)
    requires FairRun(exec, Start(fs), steps) && Bracketed(steps)
    ensures AllFed(After(Start(fs), steps).d)
    decreases |steps|
  {
    hide Invariant, FreshIds, Next, AllFed, Framed, Fair;
    if steps == [] {
      NoneFed(fs);
    } else {
      var before := steps[..|steps| - 1];
      BracketedAllFed(exec, fs, before);
      StartOk(exec, fs);
      RunKeeps(exec, Start(fs), before);
      InvariantFreshIds(exec, After(Start(fs), before));
      NextFramed(After(Start(fs), before), steps[|steps| - 1]);
      StayFed(After(Start(fs), before).d, After(Start(fs), steps).d, steps[|steps| - 1]);
    }
  }

  lemma NoneFed(fs: map<string, FS>)
    ensures AllFed(Start(fs).d)
  {
  }

  /**
   * End-to-end losslessness. The repository changes only inside open brackets,
   * a declared write touches only its path, every feed carries its bracket's
   * id: then every output `resolve` serves equals running the command now.
   */
  lemma Lossless(exec: Exec, fs: map<string, FS>, steps: seq<Step>, ticket: nat, completed: bool)
    requires FairRun(Some(exec), Start(fs), steps) && Bracketed(steps)
    requires var w := After(Start(fs), steps);
             ticket in w.joins && w.joins[ticket].uid in w.d.store && Delivered(w, ticket, completed).Served?
    ensures var w := After(Start(fs), steps);
            var j := w.joins[ticket];
            Delivered(w, ticket, completed).output == exec(Repo(w, w.d.store[j.uid].repo), j.call)
  {
    hide FairRun, Delivered, After, Applied, Landed;
    DeliveredIsExecuted(exec, fs, steps, ticket, completed);
    BracketedAllFed(Some(exec), fs, steps);
    var w := After(Start(fs), steps);
    var s := w.d.store[w.joins[ticket].uid];
    if s.tasks[w.joins[ticket].job.value].lane.InFork? {
      LandedIsApplied(s.tasks[w.joins[ticket].job.value].lane.write, Repo(w, s.repo));
    }
  }

  /* The streamed edit itself */

  /**
   * An edit that `resolve` answers in advance is answered with the chain's own
   * contents, which in a bracketed run the repository holds at that path.
   */
  lemma EditedIsWritten(exec: Exec, fs: map<string, FS>, steps: seq<Step>, sid: string, call: Call)
    requires FairRun(Some(exec), Start(fs), steps) && Bracketed(steps)
    requires var w := After(Start(fs), steps);
             Known(w.d, sid) && StartResolve(w.d, sid, call).Answered? && StartResolve(w.d, sid, call).reply.Edited?
    ensures var w := After(Start(fs), steps);
            var s := w.d.store[w.d.sessions[sid]];
            && s.chain.Some? && call == Call("edit", WriteArgs(s.chain.value.write))
            && var target := ValidateWritePath(s.chain.value.write.path);
            && target.Some? && target.value in Repo(w, s.repo)
            && Repo(w, s.repo)[target.value] == StartResolve(w.d, sid, call).reply.contents
  {
    hide Invariant, SessionInvariants.Valid, Caches.Claim, ClaimedId, DiscardChain, LongestPrefix, FairRun, After;
    StartOk(Some(exec), fs);
    RunKeeps(Some(exec), Start(fs), steps);
    BracketedAllFed(Some(exec), fs, steps);
    var w := After(Start(fs), steps);
    KnownIsCurrent(Some(exec), w, sid);
    SessionOf(Some(exec), w, w.d.sessions[sid]);
  }
}
