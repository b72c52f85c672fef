/**
 * What a bracketed feed buys: a chain kept at the end of its bracket, and a
 * join served from it (src/sfx/daemon.py:248-290, 388-430).
 */
module KeptChains {
  import opened Common
  import opened Caches
  import opened WritePaths
  import opened Sessions
  import opened Daemons
  import opened Coherence
  import opened Runs
  import opened Lossless
  import opened Fences
  import opened Scenarios

  /** A client reserves a write, feeds it, executes it, reports it, and asks for the predicted call. */
  function BracketedRun(write: Write, call: Call, landed: FS, result: Output): seq<Step> {
    [StartSession("a", "r", PLAIN),
     Begin("a", Some(write), 0.0),
     FeedWrite("a", write, Some(0), Some(call), true, 0.0),
     Changes("r", landed),
     End("a", 0, true, 0.0),
     Ask("a", Call("edit", WriteArgs(write)), 0.0),
     Reported("a", Fork, WriteArgs(write), Some(0), 0.0),
     Ask("a", call, 0.0),
     Completes(0, 0, result, 0.0)]
  }

  /** The run step by step. */
  lemma RunIs(write: Write, call: Call, landed: FS, result: Output)
    ensures var steps := BracketedRun(write, call, landed, result);
            && |steps| == 9 && steps[..9] == steps
            && steps[0] == StartSession("a", "r", PLAIN)
            && steps[1] == Begin("a", Some(write), 0.0)
            && steps[2] == FeedWrite("a", write, Some(0), Some(call), true, 0.0)
            && steps[3] == Changes("r", landed)
            && steps[4] == End("a", 0, true, 0.0)
            && steps[5] == Ask("a", Call("edit", WriteArgs(write)), 0.0)
            && steps[6] == Reported("a", Fork, WriteArgs(write), Some(0), 0.0)
            && steps[7] == Ask("a", call, 0.0)
            && steps[8] == Completes(0, 0, result, 0.0)
  {
  }

  function Bracket(write: Write): map<MutationId, Mutation> {
    map[0 := Mutation("a", Some(write), false)]
  }

  lemma BeginAlone(fs: map<string, FS>, s: Session, write: Write)
    requires s.sid == "a" && s.repo == "r" && ValidateWritePath(write.path).Some?
    ensures Next(Alone(fs, s, map[], 0, map[]), Begin("a", Some(write), 0.0))
            == Alone(fs, Invalidate(s, 0.0), Bracket(write), 1, map[])
  {
    hide Invalidate, ValidateWritePath;
    var d := Alone(fs, s, map[], 0, map[]).d;
    assert Conflict(map[])[0 := Mutation("a", Some(write), false)] == Bracket(write);
    assert MutationBegin(d, "a", Some(write), 0.0).store == map[0 := Invalidate(s, 0.0)];
  }

  lemma FeedFenced(fs: map<string, FS>, s: Session, write: Write, call: Call)
    requires s.sid == "a" && s.repo == "r" && s.settings == PLAIN && KindPolicy(call.kind) == Free
    ensures Next(Alone(fs, s, Bracket(write), 1, map[]), FeedWrite("a", write, Some(0), Some(call), true, 0.0))
            == Alone(fs, StartChain(s, write, Some(0), Some(call), true, 0.0, GetOr(fs, "r", map[])), Bracket(write), 1, map[])
  {
    hide StartChain;
    var t := StartChain(s, write, Some(0), Some(call), true, 0.0, GetOr(fs, "r", map[]));
    assert |Bracket(write)| == 1;
    assert map[0 := s][0 := t] == map[0 := t];
  }

  /** The chain is fed on the repository as it was before the write. */
  lemma FedFenced(fs: map<string, FS>, write: Write, call: Call)
    requires ValidateWritePath(write.path).Some? && KindPolicy(call.kind) == Free
    ensures Next(Next(Alone(fs, NewSession("a", "r", PLAIN), map[], 0, map[]), Begin("a", Some(write), 0.0)),
                 FeedWrite("a", write, Some(0), Some(call), true, 0.0))
            == Alone(fs, Fed(write, call, Some(0), GetOr(fs, "r", map[])), Bracket(write), 1, map[])
  {
    hide Next, Alone, StartChain;
    BlankNames();
    BlankSession();
    BeginAlone(fs, NewSession("a", "r", PLAIN), write);
    FeedFenced(fs, Invalidate(NewSession("a", "r", PLAIN), 0.0), write, call);
  }

  lemma ChangesAlone(fs: map<string, FS>, s: Session, active: map<MutationId, Mutation>, next: FS)
    requires s.repo == "r"
    ensures Next(Alone(fs, s, active, 1, map[]), Changes("r", next))
            == Alone(fs["r" := next], Observe(s, next), active, 1, map[])
  {
    hide Observe;
    assert Next(Alone(fs, s, active, 1, map[]), Changes("r", next)).d.store == map[0 := Observe(s, next)];
  }

  /** The session whose chain `mutation_end` keeps. */
  function Kept(s: Session): Session {
    s.(completed := s.completed[0 := true], chainMutation := None)
  }

  lemma EndPreserves(fs: map<string, FS>, s: Session, write: Write, call: Call)
    requires Ready(s, write, call) && s.chainMutation == Some(0) && s.chain.value.future == Some(Pending)
    requires Landed(write, GetOr(fs, "r", map[]))
    ensures var w := Alone(fs, s, Bracket(write), 1, map[]);
            && Endable(w.d, "a", 0) && Preserves(w.d, "a", 0, true, Committed(w, "a", 0))
  {
    hide Landed;
    assert |Bracket(write)| == 1;
  }

  lemma EndAlone(fs: map<string, FS>, s: Session, write: Write, call: Call)
    requires Ready(s, write, call) && s.chainMutation == Some(0) && s.chain.value.future == Some(Pending)
    requires Landed(write, GetOr(fs, "r", map[]))
    ensures Next(Alone(fs, s, Bracket(write), 1, map[]), End("a", 0, true, 0.0)) == Alone(fs, Kept(s), map[], 1, map[])
  {
    hide Landed, Preserves, Invalidate, Committed, Ready;
    EndPreserves(fs, s, write, call);
    ReadyNames(s, write, call);
    KeepsAlone(fs, s, write);
  }

  lemma ReadyNames(s: Session, write: Write, call: Call)
    requires Ready(s, write, call)
    ensures s.sid == "a" && s.repo == "r"
  {
  }

  lemma KeepsAlone(fs: map<string, FS>, s: Session, write: Write)
    requires s.sid == "a" && s.repo == "r"
    requires var w := Alone(fs, s, Bracket(write), 1, map[]);
             Endable(w.d, "a", 0) && Preserves(w.d, "a", 0, true, Committed(w, "a", 0))
    ensures Next(Alone(fs, s, Bracket(write), 1, map[]), End("a", 0, true, 0.0)) == Alone(fs, Kept(s), map[], 1, map[])
  {
    hide Preserves, Invalidate, Committed;
    assert Bracket(write) - {0} == map[];
    var mutations: map<string, map<MutationId, Mutation>> := map["r" := Bracket(write)];
    assert mutations - {"r"} == map[];
    var w := Alone(fs, s, Bracket(write), 1, map[]);
    assert MutationEnd(w.d, "a", 0, true, Committed(w, "a", 0), 0.0).store == map[0 := Kept(s)];
  }

  /** The session after the report of its own write. */
  function Told(s: Session): Session {
    s.(completed := s.completed - {0}, streamedWrite := false)
  }

  lemma ReportAlone(fs: map<string, FS>, s: Session, args: Args)
    requires 0 in s.completed
    ensures Next(Alone(fs, s, map[], 1, map[]), Reported("a", Fork, args, Some(0), 0.0))
            == Alone(fs, Told(s), map[], 1, map[])
  {
    assert map[0 := s][0 := Told(s)] == map[0 := Told(s)];
  }

  /** The session that asks for the predicted call. */
  function Asking(write: Write, call: Call, fs: FS): Session {
    Told(Kept(Observe(Fed(write, call, Some(0), fs), Applied(write, fs))).(cursor := 1))
  }

  lemma AskingIs(write: Write, call: Call, fs: FS)
    requires ValidateWritePath(write.path).Some?
    ensures var o := Observe(Fed(write, call, Some(0), fs), Applied(write, fs));
            && Ready(o, write, call) && o.cursor == 0 && o.chainMutation == Some(0) && o.chain.value.future == Some(Pending)
            && Ready(Kept(o), write, call) && Kept(o).cursor == 0 && 0 in Kept(o).completed
    ensures var s := Asking(write, call, fs);
            && Ready(s, write, call) && s.cursor == 1
            && s.tasks == map[0 := Task(InFork(write, Some(0)), {fs, Applied(write, fs)}, true)]
  {
    hide Fed, Applied;
    FedIs(write, call, Some(0), fs);
    var o := Observe(Fed(write, call, Some(0), fs), Applied(write, fs));
    assert o.tasks == map[0 := Task(InFork(write, Some(0)), {fs} + {Applied(write, fs)}, true)];
    assert {fs} + {Applied(write, fs)} == {fs, Applied(write, fs)};
  }

  lemma AppliedLands(write: Write, fs: FS)
    requires ValidateWritePath(write.path).Some?
    ensures Landed(write, Applied(write, fs)) && OnlyTouches(write, fs, Applied(write, fs))
  {
  }

  /** The worlds of the run up to the end of its bracket. */
  lemma WorldsInside(write: Write, call: Call, fs: map<string, FS>, result: Output)
    requires ValidateWritePath(write.path).Some? && KindPolicy(call.kind) == Free
    ensures var repo := GetOr(fs, "r", map[]);
            var steps := BracketedRun(write, call, Applied(write, repo), result);
            var s := Fed(write, call, Some(0), repo);
            var o := Observe(s, Applied(write, repo));
            && After(Start(fs), steps[..1]) == Alone(fs, NewSession("a", "r", PLAIN), map[], 0, map[])
            && After(Start(fs), steps[..3]) == Alone(fs, s, Bracket(write), 1, map[])
            && After(Start(fs), steps[..4]) == Alone(fs["r" := Applied(write, repo)], o, Bracket(write), 1, map[])
            && After(Start(fs), steps[..5]) == Alone(fs["r" := Applied(write, repo)], Kept(o), map[], 1, map[])
  {
    hide Fed, Ready, After, Next, Alone, Applied, Landed, Observe, Kept, NewSession, Bracket, BracketedRun;
    var repo := GetOr(fs, "r", map[]);
    var steps := BracketedRun(write, call, Applied(write, repo), result);
    RunIs(write, call, Applied(write, repo), result);
    NothingYet(Start(fs), steps);
    AfterNext(Start(fs), steps, 0);
    AfterNext(Start(fs), steps, 1);
    AfterNext(Start(fs), steps, 2);
    AfterNext(Start(fs), steps, 3);
    AfterNext(Start(fs), steps, 4);
    StartAlone(fs);
    FedFenced(fs, write, call);
    FedNames(write, call, repo);
    ChangesAlone(fs, Fed(write, call, Some(0), repo), Bracket(write), Applied(write, repo));
    AskingIs(write, call, repo);
    AppliedLands(write, repo);
    EndAlone(fs["r" := Applied(write, repo)], Observe(Fed(write, call, Some(0), repo), Applied(write, repo)), write, call);
  }

  lemma FedNames(write: Write, call: Call, fs: FS)
    requires ValidateWritePath(write.path).Some?
    ensures Fed(write, call, Some(0), fs).repo == "r"
  {
    hide Fed;
    FedIs(write, call, Some(0), fs);
  }

  /** The worlds of the run from there on. */
  lemma WorldsAfter(write: Write, call: Call, fs: map<string, FS>, result: Output)
    requires ValidateWritePath(write.path).Some? && KindPolicy(call.kind) == Free
    ensures var repo := GetOr(fs, "r", map[]);
            var steps := BracketedRun(write, call, Applied(write, repo), result);
            var s := Asking(write, call, repo);
            && After(Start(fs), steps[..8]) == Joined(fs["r" := Applied(write, repo)], s, 1, call)
            && After(Start(fs), steps) == Next(Joined(fs["r" := Applied(write, repo)], s, 1, call), Completes(0, 0, result, 0.0))
  {
    hide Fed, Ready, After, Next, Alone, Applied, Landed, Observe, Joined, BracketedRun;
    var repo := GetOr(fs, "r", map[]);
    var landed := fs["r" := Applied(write, repo)];
    var steps := BracketedRun(write, call, Applied(write, repo), result);
    var k := Kept(Observe(Fed(write, call, Some(0), repo), Applied(write, repo)));
    RunIs(write, call, Applied(write, repo), result);
    WorldsInside(write, call, fs, result);
    AfterNext(Start(fs), steps, 5);
    AfterNext(Start(fs), steps, 6);
    AfterNext(Start(fs), steps, 7);
    AfterNext(Start(fs), steps, 8);
    AskingIs(write, call, repo);
    EditWorld(landed, k, 1, write, call);
    ReportAlone(landed, k.(cursor := 1), WriteArgs(write));
    JoinWorld(landed, Asking(write, call, repo), 1, write, call);
  }

  lemma FairInside(exec: Exec, write: Write, call: Call, fs: map<string, FS>, result: Output)
    requires ValidateWritePath(write.path).Some? && KindPolicy(call.kind) == Free
    ensures var steps := BracketedRun(write, call, Applied(write, GetOr(fs, "r", map[])), result);
            FairRun(Some(exec), Start(fs), steps[..4])
  {
    hide Applied, After, FairRun, Fair, Fed, Observe, Kept, Alone, BracketedRun, Bracket, ValidateWritePath, KindPolicy;
    var repo := GetOr(fs, "r", map[]);
    var steps := BracketedRun(write, call, Applied(write, repo), result);
    RunIs(write, call, Applied(write, repo), result);
    WorldsInside(write, call, fs, result);
    NothingUnfair(exec, Start(fs), steps);
    OnlyClients(exec, Start(fs), steps, 0, 3);
    WriteIsFair(exec, fs, Fed(write, call, Some(0), repo), write);
    FairLonger(exec, Start(fs), steps, 3);
  }

  lemma FairAfter(exec: Exec, write: Write, call: Call, fs: map<string, FS>, result: Output)
    requires ValidateWritePath(write.path).Some? && KindPolicy(call.kind) == Free
    ensures var steps := BracketedRun(write, call, Applied(write, GetOr(fs, "r", map[])), result);
            FairRun(Some(exec), Start(fs), steps[..8])
  {
    hide Applied, After, FairRun, BracketedRun, ValidateWritePath, KindPolicy;
    var steps := BracketedRun(write, call, Applied(write, GetOr(fs, "r", map[])), result);
    RunIs(write, call, Applied(write, GetOr(fs, "r", map[])), result);
    FairInside(exec, write, call, fs, result);
    OnlyClients(exec, Start(fs), steps, 4, 8);
  }

  /** The run plays fair: its change is the declared write, its result that of a fork copied before the write. */
  lemma BracketedIsFair(exec: Exec, write: Write, call: Call, fs: map<string, FS>)
    requires ValidateWritePath(write.path).Some? && KindPolicy(call.kind) == Free
    ensures var repo := GetOr(fs, "r", map[]);
            FairRun(Some(exec), Start(fs), BracketedRun(write, call, Applied(write, repo), exec(Applied(write, repo), call)))
  {
    hide Applied, After, FairRun, Fair, Fed, Ready, Joined, Next, Asking;
    var repo := GetOr(fs, "r", map[]);
    var result := exec(Applied(write, repo), call);
    var steps := BracketedRun(write, call, Applied(write, repo), result);
    FairAfter(exec, write, call, fs, result);
    WorldsAfter(write, call, fs, result);
    AskingIs(write, call, repo);
    JoinedIs(fs["r" := Applied(write, repo)], Asking(write, call, repo), 1, write, call);
    ForkResultIsFair(exec, After(Start(fs), steps[..8]), write, Some(0), call, repo, result);
    FairLonger(exec, Start(fs), steps, 8);
    assert steps[..9] == steps;
  }

  lemma WriteIsFair(exec: Exec, fs: map<string, FS>, s: Session, write: Write)
    requires ValidateWritePath(write.path).Some?
    ensures Fair(Some(exec), Alone(fs, s, Bracket(write), 1, map[]), Changes("r", Applied(write, GetOr(fs, "r", map[]))))
  {
    hide Applied, OnlyTouches;
    AppliedLands(write, GetOr(fs, "r", map[]));
  }

  /**
   * For every write, predicted call and way to execute commands there is a
   * fair, bracketed run whose bracket keeps its chain and whose join is then
   * served, before anyone has run the command on the repository, what running
   * it there returns.
   */
  lemma BracketedServes(exec: Exec, write: Write, call: Call, fs: map<string, FS>)
    requires ValidateWritePath(write.path).Some? && KindPolicy(call.kind) == Free
    ensures var repo := GetOr(fs, "r", map[]);
            var steps := BracketedRun(write, call, Applied(write, repo), exec(Applied(write, repo), call));
            var inside, w := After(Start(fs), steps[..4]), After(Start(fs), steps);
            && FairRun(Some(exec), Start(fs), steps) && Bracketed(steps)
            && Endable(inside.d, "a", 0) && Preserves(inside.d, "a", 0, true, Committed(inside, "a", 0))
            && 0 in w.joins && w.joins[0].call == call && w.joins[0].claim.Some?
            && w.joins[0].uid in w.d.store && w.d.store[w.joins[0].uid].repo == "r"
            && Repo(w, "r") == Applied(write, repo)
            && Delivered(w, 0, true) == Served(true, exec(Repo(w, "r"), call))
  {
    hide Applied, After, FairRun, Fair, Fed, Ready, Joined, Next, Observe, Kept, Alone, Asking, Preserves, Endable,
      Committed, Landed, FinishResolve;
    var repo := GetOr(fs, "r", map[]);
    var landed := Applied(write, repo);
    var result := exec(landed, call);
    BracketedIsFair(exec, write, call, fs);
    WorldsInside(write, call, fs, result);
    WorldsAfter(write, call, fs, result);
    AskingIs(write, call, repo);
    AppliedLands(write, repo);
    EndPreserves(fs["r" := landed], Observe(Fed(write, call, Some(0), repo), landed), write, call);
    ServedAlone(fs["r" := landed], Asking(write, call, repo), 1, write, call, result);
  }
}
