/**
 * The agent of `LiveAgents` among the steps of `Runs`: a run that performs a
 * balanced trace is a bracketed one, whatever other clients and pool threads
 * do in between and however late its calls arrive, so what it is served is
 * lossless.
 */
module AgentRuns {
  import opened Common
  import opened Caches
  import opened WritePaths
  import opened Sessions
  import opened Daemons
  import opened Coherence
  import opened Runs
  import opened RunSteps
  import opened Lossless
  import opened Fences
  import opened Scenarios
  import opened KeptChains
  import A = LiveAgents

  type Ids = map<nat, MutationId>

  /** The session an agent talks through, and the repository it works on. */
  datatype Post = Post(sid: string, repo: string)

  /**
   * What others may do: anything but end the agent's brackets, feed outside a
   * bracket, change a repository that has none open, and stop the daemon while
   * the agent has one open. A begin whose answer never reached the agent is
   * somebody else's.
   */
  predicate Background(w: World, st: Step, at: Post) {
    match st
    case StopDaemon(_) => forall m :: m in Active(w.d, at.repo) ==> Active(w.d, at.repo)[m].sid != at.sid
    case End(sid, _, _, _) => sid != at.sid
    case FeedWrite(_, _, under, _, _, _) => under.Some?
    case Changes(repo, _) => Open(w.d, repo)
    case _ => true
  }

  /** The step in which the daemon opens the bracket `t` for the agent; `ids` are the ids the agent was told. */
  predicate Opens(w: World, st: Step, t: nat, ids: Ids, at: Post) {
    && st.Begin? && st.sid == at.sid && Beginnable(w.d, st.sid, st.writeArgs)
    && w.d.store[w.d.sessions[st.sid]].repo == at.repo && t in ids && ids[t] == w.d.mids
  }

  /** The step in which the agent's call `e` reaches the daemon. */
  predicate Reaches(st: Step, e: A.Effect, ids: Ids, at: Post) {
    match e
    case Began(_) => false
    case Ended(t) => st.End? && st.sid == at.sid && t in ids && st.mid == ids[t]
    case Fed(t) => st.FeedWrite? && st.sid == at.sid && t in ids && st.under == Some(ids[t])
    case Executed(_, _) => false
    case Resolved => st.Ask? && st.sid == at.sid
    case Reported(t) => st.Reported? && st.sid == at.sid && t in ids && st.under == Some(ids[t])
  }

  ghost predicate Arrives(st: Step, trace: seq<A.Effect>, ids: Ids, at: Post) {
    exists i :: 0 <= i < |trace| && Reaches(st, trace[i], ids, at)
  }

  /**
   * `steps` is a run in which the agent does what `trace` says: a begin it was
   * answered takes effect as it is made; any other call, once made, may arrive
   * at any time, in any order, more than once or never. The agent's commands
   * change its repository while they execute, and others step in between.
   */
  ghost predicate Performs(fs: map<string, FS>, steps: seq<Step>, trace: seq<A.Effect>, ids: Ids, at: Post)
    decreases |steps| + |trace|
  {
    || (steps == [] && trace == [])
    || (steps != [] && Performs(fs, steps[..|steps| - 1], trace, ids, at)
        && (|| Background(After(Start(fs), steps[..|steps| - 1]), steps[|steps| - 1], at)
            || Executes(steps[|steps| - 1], trace, at)
            || Arrives(steps[|steps| - 1], trace, ids, at)))
    || (steps != [] && trace != [] && trace[|trace| - 1].Began?
        && Opens(After(Start(fs), steps[..|steps| - 1]), steps[|steps| - 1], trace[|trace| - 1].token, ids, at)
        && Performs(fs, steps[..|steps| - 1], trace[..|trace| - 1], ids, at))
    || (trace != [] && !trace[|trace| - 1].Began? && Performs(fs, steps, trace[..|trace| - 1], ids, at))
  }

  /** The command the agent is executing changes its repository. */
  predicate Executes(st: Step, trace: seq<A.Effect>, at: Post) {
    st.Changes? && st.repo == at.repo && trace != [] && trace[|trace| - 1].Executed?
  }

  /** The agent's bracket `mid` is open on its repository. */
  predicate Holds(w: World, mid: MutationId, at: Post) {
    mid in Active(w.d, at.repo) && Active(w.d, at.repo)[mid].sid == at.sid
  }

  lemma ConflictHolds(active: map<MutationId, Mutation>, mid: MutationId)
    requires mid in active
    ensures mid in Conflict(active) && Conflict(active)[mid].sid == active[mid].sid
  {
  }

  lemma EndHolds(w: World, st: Step, mid: MutationId, at: Post)
    requires st.End? && Holds(w, mid, at) && (st.sid != at.sid || st.mid != mid)
    ensures Holds(Next(w, st), mid, at)
  {
    hide Invalidate, Preserves, Committed;
  }

  lemma BeginHolds(w: World, st: Step, mid: MutationId, at: Post)
    requires st.Begin? && Holds(w, mid, at) && mid < w.d.mids
    ensures Holds(Next(w, st), mid, at)
  {
    hide Next, Conflict, MutationBegin, ValidateWritePath;
    ConflictHolds(Active(w.d, at.repo), mid);
    BeginBrackets(w, st, at.repo);
  }

  lemma BeginBrackets(w: World, st: Step, repo: string)
    requires st.Begin?
    ensures var before, after := Active(w.d, repo), Active(Next(w, st).d, repo);
            if Conflicting(w, st, repo) then
              after == Conflict(before)[w.d.mids := Mutation(st.sid, st.writeArgs, before != map[])]
            else after == before
  {
    hide Invalidate, ValidateWritePath, Conflict;
  }

  /** Nothing but the agent's own end takes its bracket away. */
  lemma StillHolds(w: World, st: Step, mid: MutationId, at: Post)
    requires Invariant(None, w) && Holds(w, mid, at)
    requires !st.StopDaemon? && (st.End? ==> st.sid != at.sid || st.mid != mid)
    ensures Holds(Next(w, st), mid, at)
  {
    hide Invariant, Next, Conflicting;
    BracketsOf(None, w, at.repo);
    if st.Begin? {
      BeginHolds(w, st, mid, at);
    } else if st.End? {
      EndHolds(w, st, mid, at);
    } else if st.Noticed? || st.Reported? || st.FeedWrite? {
      ChangedBrackets(w, st, at.repo);
      ConflictHolds(Active(w.d, at.repo), mid);
    } else {
      OtherBrackets(w, st, at.repo);
    }
  }

  lemma BegunHolds(w: World, st: Step, t: nat, ids: Ids, at: Post)
    requires Opens(w, st, t, ids, at)
    ensures t in ids && Holds(Next(w, st), ids[t], at)
    ensures ids[t] == w.d.mids && Next(w, st).d.mids == w.d.mids + 1
  {
    hide Next, Conflict;
    BeginBrackets(w, st, at.repo);
    BeginNumbers(w, st);
  }

  lemma BeginNumbers(w: World, st: Step)
    requires st.Begin? && Beginnable(w.d, st.sid, st.writeArgs)
    ensures Next(w, st).d.mids == w.d.mids + 1
  {
    hide Invalidate, ValidateWritePath, Conflict;
  }

  /** A balanced trace was balanced before its last effect. */
  lemma BalancedBefore(trace: seq<A.Effect>, open: Option<nat>, next: nat) returns (openBefore: Option<nat>, nextBefore: nat)
    requires A.Balanced(trace, open, next) && trace != []
    ensures A.Balanced(trace[..|trace| - 1], openBefore, nextBefore)
    ensures match trace[|trace| - 1]
            case Began(t) => open == Some(t) && nextBefore == t && next == t + 1
            case Ended(t) => open == None && openBefore == Some(t) && nextBefore == next
            case _ => openBefore == open && nextBefore == next
  {
    match trace[|trace| - 1]
    case Began(t) => return None, t;
    case Ended(t) => return Some(t), next;
    case _ => return open, next;
  }

  /** Every token begun so far has an id of its own, older than any the daemon will give. */
  ghost predicate Told(ids: Ids, next: nat, mids: MutationId) {
    && (forall u: nat :: u < next ==> u in ids && ids[u] < mids)
    && (forall u: nat, v: nat :: u < v < next ==> ids[u] < ids[v])
  }

  lemma {:induction false} IdsAreTold(fs: map<string, FS>, steps: seq<Step>, trace: seq<A.Effect>, ids: Ids, at: Post,
                                      open: Option<nat>, next: nat)
    requires Performs(fs, steps, trace, ids, at) && A.Balanced(trace, open, next)
    ensures Told(ids, next, After(Start(fs), steps).d.mids)
    decreases |steps| + |trace|
  {
    hide Opens, Background, Executes, Arrives, Next, A.Balanced, Told;
    if trace != [] && !trace[|trace| - 1].Began? && Performs(fs, steps, trace[..|trace| - 1], ids, at) {
      var openBefore, nextBefore := BalancedBefore(trace, open, next);
      IdsAreTold(fs, steps, trace[..|trace| - 1], ids, at, openBefore, nextBefore);
    } else if steps == [] {
      NothingTold(trace, ids, open, next);
    } else {
      var before, st := steps[..|steps| - 1], steps[|steps| - 1];
      var w := After(Start(fs), before);
      if Performs(fs, before, trace, ids, at) {
        IdsAreTold(fs, before, trace, ids, at, open, next);
        BracketsNext(w, st, at.repo);
        ToldLonger(ids, next, w.d.mids, Next(w, st).d.mids);
      } else {
        var openBefore, nextBefore := BalancedBefore(trace, open, next);
        IdsAreTold(fs, before, trace[..|trace| - 1], ids, at, openBefore, nextBefore);
        BegunHolds(w, st, trace[|trace| - 1].token, ids, at);
        ToldNext(ids, nextBefore, w.d.mids);
      }
    }
  }

  lemma NothingTold(trace: seq<A.Effect>, ids: Ids, open: Option<nat>, next: nat)
    requires A.Balanced(trace, open, next) && trace == []
    ensures Told(ids, next, 0)
  {
  }

  lemma ToldLonger(ids: Ids, next: nat, mids: MutationId, later: MutationId)
    requires Told(ids, next, mids) && mids <= later
    ensures Told(ids, next, later)
  {
  }

  lemma ToldNext(ids: Ids, next: nat, mids: MutationId)
    requires Told(ids, next, mids) && next in ids && ids[next] == mids
    ensures Told(ids, next + 1, mids + 1)
  {
  }

  /** A token whose end has been sent is not the open one. */
  lemma {:induction false} EndSent(trace: seq<A.Effect>, open: Option<nat>, next: nat, i: nat)
    requires A.Balanced(trace, open, next) && i < |trace| && trace[i].Ended?
    ensures trace[i].token < next && open != Some(trace[i].token)
    decreases |trace|
  {
    if i < |trace| - 1 {
      var openBefore, nextBefore := BalancedBefore(trace, open, next);
      EndSent(trace[..|trace| - 1], openBefore, nextBefore, i);
    }
  }

  /** Only the end of another bracket of the agent can still be under way. */
  lemma LateEnd(st: Step, trace: seq<A.Effect>, ids: Ids, at: Post, t: nat, next: nat, mids: MutationId)
    requires Arrives(st, trace, ids, at) && A.Balanced(trace, Some(t), next) && Told(ids, next, mids)
    ensures !st.StopDaemon? && t in ids && (st.End? ==> st.mid != ids[t])
  {
    hide A.Balanced;
    A.EachEndedOnce(trace, Some(t), next, t);
    var i :| 0 <= i < |trace| && Reaches(st, trace[i], ids, at);
    if trace[i].Ended? {
      EndSent(trace, Some(t), next, i);
    }
  }

  lemma BackgroundHolds(w: World, st: Step, mid: MutationId, at: Post)
    requires Background(w, st, at) && Holds(w, mid, at)
    ensures !st.StopDaemon? && (st.End? ==> st.sid != at.sid)
  {
  }

  /** The bracket a trace has open is open in the daemon. */
  lemma {:induction false} OpenInDaemon(fs: map<string, FS>, steps: seq<Step>, trace: seq<A.Effect>, ids: Ids, at: Post,
                                        t: nat, next: nat)
    requires Performs(fs, steps, trace, ids, at) && A.Balanced(trace, Some(t), next)
    ensures t in ids && Holds(After(Start(fs), steps), ids[t], at)
    decreases |steps| + |trace|
  {
    hide Holds, Opens, Background, Executes, Arrives, Invariant, Next, A.Balanced, Told;
    assert trace != [] by {
      NothingOpen(trace, t, next);
    }
    var openBefore, nextBefore := BalancedBefore(trace, Some(t), next);
    if !trace[|trace| - 1].Began? && Performs(fs, steps, trace[..|trace| - 1], ids, at) {
      OpenInDaemon(fs, steps, trace[..|trace| - 1], ids, at, t, nextBefore);
    } else {
      var before, st := steps[..|steps| - 1], steps[|steps| - 1];
      var w := After(Start(fs), before);
      if Performs(fs, before, trace, ids, at)
         && (Background(w, st, at) || Executes(st, trace, at) || Arrives(st, trace, ids, at)) {
        OpenInDaemon(fs, before, trace, ids, at, t, next);
        IdsAreTold(fs, before, trace, ids, at, Some(t), next);
        StepHolds(w, st, trace, ids, at, t, next) by {
          AnyRunKeeps(fs, before);
        }
      } else {
        BegunHolds(w, st, t, ids, at);
      }
    }
  }

  lemma StepHolds(w: World, st: Step, trace: seq<A.Effect>, ids: Ids, at: Post, t: nat, next: nat)
    requires Background(w, st, at) || Executes(st, trace, at) || Arrives(st, trace, ids, at)
    requires Invariant(None, w) && A.Balanced(trace, Some(t), next) && Told(ids, next, w.d.mids)
    requires t in ids && Holds(w, ids[t], at)
    ensures Holds(Next(w, st), ids[t], at)
  {
    hide Holds, Background, Arrives, Invariant, Next, A.Balanced, Told;
    if Background(w, st, at) {
      BackgroundHolds(w, st, ids[t], at);
    } else if Arrives(st, trace, ids, at) {
      LateEnd(st, trace, ids, at, t, next, w.d.mids);
    }
    StillHolds(w, st, ids[t], at);
  }

  lemma NothingOpen(trace: seq<A.Effect>, t: nat, next: nat)
    requires A.Balanced(trace, Some(t), next)
    ensures trace != []
  {
  }

  /* A tame world around the agent */

  /**
   * What is asked of the world beyond the agent's own brackets: a command run
   * under a bracket that declared its write, and that nothing overlaps, writes
   * that file alone, and pool threads return what the states they saw allow.
   */
  ghost predicate TameStep(exec: Exec, w: World, st: Step) {
    match st
    case Changes(repo, next) => Active(w.d, repo) != map[] ==> Disciplined(Active(w.d, repo), Repo(w, repo), next)
    case _ => Fair(Some(exec), w, st)
  }

  ghost predicate Tame(exec: Exec, fs: map<string, FS>, steps: seq<Step>) {
    steps == []
    || (Tame(exec, fs, steps[..|steps| - 1])
        && TameStep(exec, After(Start(fs), steps[..|steps| - 1]), steps[|steps| - 1]))
  }

  lemma TameIsFair(exec: Exec, w: World, st: Step)
    requires TameStep(exec, w, st) && (st.Changes? ==> Active(w.d, st.repo) != map[])
    ensures Fair(Some(exec), w, st)
  {
    hide Legal;
  }

  lemma Extended(exec: Exec, fs: map<string, FS>, steps: seq<Step>)
    requires steps != [] && Tame(exec, fs, steps)
    requires FairRun(Some(exec), Start(fs), steps[..|steps| - 1]) && Bracketed(steps[..|steps| - 1])
    requires steps[|steps| - 1].Changes? ==>
               Active(After(Start(fs), steps[..|steps| - 1]).d, steps[|steps| - 1].repo) != map[]
    requires steps[|steps| - 1].FeedWrite? ==> steps[|steps| - 1].under.Some?
    ensures FairRun(Some(exec), Start(fs), steps) && Bracketed(steps)
  {
    hide Fair, TameStep;
    TameIsFair(exec, After(Start(fs), steps[..|steps| - 1]), steps[|steps| - 1]);
    assert forall st :: st in steps ==> st in steps[..|steps| - 1] || st == steps[|steps| - 1];
  }

  lemma HeldIsOpen(w: World, mid: MutationId, at: Post)
    requires Holds(w, mid, at)
    ensures Active(w.d, at.repo) != map[]
  {
  }

  /** What the agent does is what losslessness asks for: every feed and every change lies inside a bracket. */
  lemma {:induction false} AgentIsBracketed(exec: Exec, fs: map<string, FS>, steps: seq<Step>, trace: seq<A.Effect>,
                                            ids: Ids, at: Post, open: Option<nat>, next: nat)
    requires Performs(fs, steps, trace, ids, at) && A.Balanced(trace, open, next) && Tame(exec, fs, steps)
    ensures FairRun(Some(exec), Start(fs), steps) && Bracketed(steps)
    decreases |steps| + |trace|
  {
    hide Fair, TameStep, Opens, Background, Arrives, After, A.Balanced, Holds;
    if trace != [] && !trace[|trace| - 1].Began? && Performs(fs, steps, trace[..|trace| - 1], ids, at) {
      var openBefore, nextBefore := BalancedBefore(trace, open, next);
      AgentIsBracketed(exec, fs, steps, trace[..|trace| - 1], ids, at, openBefore, nextBefore);
    } else if steps != [] {
      var before, st := steps[..|steps| - 1], steps[|steps| - 1];
      var w := After(Start(fs), before);
      if Performs(fs, before, trace, ids, at)
         && (Background(w, st, at) || Executes(st, trace, at) || Arrives(st, trace, ids, at)) {
        AgentIsBracketed(exec, fs, before, trace, ids, at, open, next);
        if Executes(st, trace, at) {
          ExecutingIsOpen(trace, open, next);
          OpenInDaemon(fs, before, trace, ids, at, open.value, next);
          HeldIsOpen(w, ids[open.value], at);
        } else {
          OthersAreBracketed(w, st, trace, ids, at);
        }
      } else {
        var openBefore, nextBefore := BalancedBefore(trace, open, next);
        AgentIsBracketed(exec, fs, before, trace[..|trace| - 1], ids, at, openBefore, nextBefore);
        OpensQuietly(w, st, trace[|trace| - 1].token, ids, at);
      }
      Extended(exec, fs, steps);
    }
  }

  lemma OthersAreBracketed(w: World, st: Step, trace: seq<A.Effect>, ids: Ids, at: Post)
    requires Background(w, st, at) || Arrives(st, trace, ids, at)
    ensures (st.Changes? ==> Active(w.d, st.repo) != map[]) && (st.FeedWrite? ==> st.under.Some?)
  {
  }

  lemma OpensQuietly(w: World, st: Step, t: nat, ids: Ids, at: Post)
    requires Opens(w, st, t, ids, at)
    ensures !st.Changes? && !st.FeedWrite?
  {
  }

  lemma ExecutingIsOpen(trace: seq<A.Effect>, open: Option<nat>, next: nat)
    requires A.Balanced(trace, open, next) && trace != [] && trace[|trace| - 1].Executed?
    ensures open.Some?
  {
  }

  /**
   * End to end: in every run that performs a balanced agent trace in a tame
   * world, each output any session is served equals running that call on its
   * repository as it stands at delivery.
   */
  lemma AgentIsLossless(exec: Exec, fs: map<string, FS>, steps: seq<Step>, trace: seq<A.Effect>, ids: Ids, at: Post,
                        open: Option<nat>, next: nat, ticket: nat, completed: bool)
    requires Performs(fs, steps, trace, ids, at) && A.Balanced(trace, open, next) && Tame(exec, fs, steps)
    requires var w := After(Start(fs), steps);
             ticket in w.joins && w.joins[ticket].uid in w.d.store && Delivered(w, ticket, completed).Served?
    ensures var w := After(Start(fs), steps);
            var j := w.joins[ticket];
            Delivered(w, ticket, completed).output == exec(Repo(w, w.d.store[j.uid].repo), j.call)
  {
    hide FairRun, Delivered, After, Performs, Tame, A.Balanced, Bracketed;
    AgentIsBracketed(exec, fs, steps, trace, ids, at, open, next);
    Lossless.Lossless(exec, fs, steps, ticket, completed);
  }

  /* Such a run */

  const EDIT_IDS: Ids := map[0 := 0]
  const EDIT_POST := Post("a", "r")

  /** What the agent does for a literal edit and a read served from its chain. */
  function EditTrace(command: string): seq<A.Effect> {
    [A.Began(0), A.Fed(0), A.Executed(0, command), A.Ended(0), A.Resolved, A.Reported(0), A.Resolved]
  }

  lemma EditIsBalanced(command: string)
    ensures A.Balanced(EditTrace(command), None, 1)
  {
    var t := EditTrace(command);
    assert t[..6][..5] == t[..5] && t[..5][..4] == t[..4] && t[..4][..3] == t[..3] && t[..3][..2] == t[..2];
    assert t[..2][..1] == t[..1] && t[..1][..0] == [];
    assert A.Balanced(t[..1], Some(0), 1);
    assert A.Balanced(t[..2], Some(0), 1);
    assert A.Balanced(t[..3], Some(0), 1);
    assert A.Balanced(t[..4], None, 1);
    assert A.Balanced(t[..5], None, 1);
    assert A.Balanced(t[..6], None, 1);
  }

  /** One more step of the run. */
  lemma OneStep(fs: map<string, FS>, steps: seq<Step>, i: nat, trace: seq<A.Effect>, ids: Ids, at: Post)
    requires i < |steps| && Performs(fs, steps[..i], trace, ids, at)
    requires Background(After(Start(fs), steps[..i]), steps[i], at) || Executes(steps[i], trace, at)
             || Arrives(steps[i], trace, ids, at)
    ensures Performs(fs, steps[..i + 1], trace, ids, at)
  {
    hide Background, Executes, Arrives, After;
    assert steps[..i + 1][..i] == steps[..i];
  }

  /** One more call of the agent, on its way. */
  lemma OneCall(fs: map<string, FS>, steps: seq<Step>, trace: seq<A.Effect>, j: nat, ids: Ids, at: Post)
    requires j < |trace| && !trace[j].Began? && Performs(fs, steps, trace[..j], ids, at)
    ensures Performs(fs, steps, trace[..j + 1], ids, at)
  {
    assert trace[..j + 1][..j] == trace[..j];
  }

  /** One more call that arrives at once. */
  lemma CallArrives(fs: map<string, FS>, steps: seq<Step>, i: nat, trace: seq<A.Effect>, j: nat, ids: Ids, at: Post)
    requires i < |steps| && j < |trace| && Performs(fs, steps[..i], trace[..j], ids, at)
    requires Reaches(steps[i], trace[j], ids, at)
    ensures Performs(fs, steps[..i + 1], trace[..j + 1], ids, at)
  {
    hide Background, Executes, After, Performs;
    OneCall(fs, steps[..i], trace, j, ids, at);
    assert trace[..j + 1][j] == trace[j];
    OneStep(fs, steps, i, trace[..j + 1], ids, at);
  }

  lemma OneBegin(fs: map<string, FS>, steps: seq<Step>, i: nat, trace: seq<A.Effect>, j: nat, ids: Ids, at: Post)
    requires i < |steps| && j < |trace| && trace[j].Began? && Performs(fs, steps[..i], trace[..j], ids, at)
    requires Opens(After(Start(fs), steps[..i]), steps[i], trace[j].token, ids, at)
    ensures Performs(fs, steps[..i + 1], trace[..j + 1], ids, at)
  {
    hide Opens, After;
    assert steps[..i + 1][..i] == steps[..i] && trace[..j + 1][..j] == trace[..j];
  }

  lemma NoSteps(fs: map<string, FS>, steps: seq<Step>, trace: seq<A.Effect>, ids: Ids, at: Post)
    ensures Performs(fs, steps[..0], trace[..0], ids, at)
  {
  }

  lemma OpensAlone(fs: map<string, FS>, write: Write)
    requires ValidateWritePath(write.path).Some?
    ensures Opens(Alone(fs, NewSession("a", "r", PLAIN), map[], 0, map[]), Begin("a", Some(write), 0.0), 0,
                  EDIT_IDS, EDIT_POST)
  {
  }

  lemma EditIs(command: string)
    ensures var t := EditTrace(command);
            && |t| == 7 && t[..7] == t && t[0] == A.Began(0) && t[1] == A.Fed(0) && t[2] == A.Executed(0, command)
            && t[3] == A.Ended(0) && t[4] == A.Resolved && t[5] == A.Reported(0) && t[6] == A.Resolved
  {
  }

  /** Which step each call of the edit arrives in. */
  lemma EditArrives(write: Write, call: Call, landed: FS, result: Output, command: string)
    ensures var steps, trace := BracketedRun(write, call, landed, result), EditTrace(command);
            && |steps| == 9 && steps[..9] == steps && |trace| == 7 && trace[..7] == trace && trace[0] == A.Began(0)
            && !trace[2].Began? && steps[1] == Begin("a", Some(write), 0.0)
            && Reaches(steps[2], trace[1], EDIT_IDS, EDIT_POST)
            && Executes(steps[3], trace[..3], EDIT_POST)
            && Reaches(steps[4], trace[3], EDIT_IDS, EDIT_POST)
            && Reaches(steps[5], trace[4], EDIT_IDS, EDIT_POST)
            && Reaches(steps[6], trace[5], EDIT_IDS, EDIT_POST)
            && Reaches(steps[7], trace[6], EDIT_IDS, EDIT_POST)
            && forall w :: Background(w, steps[0], EDIT_POST) && Background(w, steps[8], EDIT_POST)
  {
    hide BracketedRun, EditTrace;
    RunIs(write, call, landed, result);
    EditIs(command);
  }

  /** The edit up to its execution. */
  lemma EditBegins(write: Write, call: Call, fs: map<string, FS>, result: Output, command: string)
    requires ValidateWritePath(write.path).Some? && KindPolicy(call.kind) == Free
    ensures var steps := BracketedRun(write, call, Applied(write, GetOr(fs, "r", map[])), result);
            |steps| == 9 && |EditTrace(command)| == 7
            && Performs(fs, steps[..4], EditTrace(command)[..3], EDIT_IDS, EDIT_POST)
  {
    hide Performs, Applied, After, BracketedRun, EditTrace, Opens, Alone, Arrives, Reaches, Executes, Background, Fed,
      Observe, Kept, Bracket, NewSession, ValidateWritePath, KindPolicy;
    var landed := Applied(write, GetOr(fs, "r", map[]));
    var steps, trace := BracketedRun(write, call, landed, result), EditTrace(command);
    EditArrives(write, call, landed, result, command);
    WorldsInside(write, call, fs, result);
    NoSteps(fs, steps, trace, EDIT_IDS, EDIT_POST);
    OneStep(fs, steps, 0, trace[..0], EDIT_IDS, EDIT_POST);
    OpensAlone(fs, write);
    OneBegin(fs, steps, 1, trace, 0, EDIT_IDS, EDIT_POST);
    CallArrives(fs, steps, 2, trace, 1, EDIT_IDS, EDIT_POST);
    OneCall(fs, steps[..3], trace, 2, EDIT_IDS, EDIT_POST);
    OneStep(fs, steps, 3, trace[..3], EDIT_IDS, EDIT_POST);
  }

  /** The bracketed run of `KeptChains` is one in which an agent executes an edit and asks for the predicted call. */
  lemma EditPerforms(write: Write, call: Call, fs: map<string, FS>, result: Output, command: string)
    requires ValidateWritePath(write.path).Some? && KindPolicy(call.kind) == Free
    ensures Performs(fs, BracketedRun(write, call, Applied(write, GetOr(fs, "r", map[])), result), EditTrace(command),
                     EDIT_IDS, EDIT_POST)
  {
    hide Performs, Applied, After, BracketedRun, EditTrace, Arrives, Reaches, Executes, Background, ValidateWritePath,
      KindPolicy;
    var landed := Applied(write, GetOr(fs, "r", map[]));
    var steps, trace := BracketedRun(write, call, landed, result), EditTrace(command);
    EditArrives(write, call, landed, result, command);
    EditBegins(write, call, fs, result, command);
    CallArrives(fs, steps, 4, trace, 3, EDIT_IDS, EDIT_POST);
    CallArrives(fs, steps, 5, trace, 4, EDIT_IDS, EDIT_POST);
    CallArrives(fs, steps, 6, trace, 5, EDIT_IDS, EDIT_POST);
    CallArrives(fs, steps, 7, trace, 6, EDIT_IDS, EDIT_POST);
    OneStep(fs, steps, 8, trace[..7], EDIT_IDS, EDIT_POST);
  }

  lemma {:induction false} FairIsTame(exec: Exec, fs: map<string, FS>, steps: seq<Step>)
    requires FairRun(Some(exec), Start(fs), steps)
    ensures Tame(exec, fs, steps)
    decreases |steps|
  {
    hide Disciplined, After;
    if steps != [] {
      FairIsTame(exec, fs, steps[..|steps| - 1]);
    }
  }

  /**
   * `AgentIsLossless` is about something: for every write, predicted call and
   * way to execute commands there is a tame run that performs a balanced trace
   * with a begin, a feed, an execution that changes the repository, an end, a
   * report and asks, and in which a chain join is served.
   */
  lemma AgentServes(exec: Exec, write: Write, call: Call, fs: map<string, FS>, command: string)
    requires ValidateWritePath(write.path).Some? && KindPolicy(call.kind) == Free
    ensures var landed := Applied(write, GetOr(fs, "r", map[]));
            var steps := BracketedRun(write, call, landed, exec(landed, call));
            var w := After(Start(fs), steps);
            && Performs(fs, steps, EditTrace(command), EDIT_IDS, EDIT_POST)
            && A.Balanced(EditTrace(command), None, 1) && Tame(exec, fs, steps)
            && 0 in w.joins && w.joins[0].call == call && w.joins[0].claim.Some? && w.joins[0].uid in w.d.store
            && Repo(w, "r") == landed && Delivered(w, 0, true) == Served(true, exec(landed, call))
  {
    hide Performs, Applied, After, BracketedRun, EditTrace, Delivered, FairRun, Tame, A.Balanced;
    var landed := Applied(write, GetOr(fs, "r", map[]));
    var steps := BracketedRun(write, call, landed, exec(landed, call));
    BracketedServes(exec, write, call, fs);
    FairIsTame(exec, fs, steps);
    EditIsBalanced(command);
    EditPerforms(write, call, fs, exec(landed, call), command);
  }

  /** An agent whose every await goes well leaves that trace when it executes an edit and is then served a read. */
  method EditThenRead(literal: string -> Option<A.Write>, classify: string -> A.Verb, edit: string, read: string)
      returns (agent: A.LiveAgent)
    requires literal(edit).Some? && literal(read) == None && classify(read) == A.Free
    ensures agent.Valid() && agent.trace == EditTrace(edit)
  {
    agent := new A.LiveAgent(true, true, literal, classify, _ => A.Replies(true));
    var ran := agent.Route(edit, true);
    var served := agent.Route(read, true);
  }
}
