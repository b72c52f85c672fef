/**
 * What a feed without a mutation id costs: its chain is built for a write that
 * has not landed (src/sfx/daemon.py:406-410).
 */
module Unbracketed {
  import opened Common
  import opened Caches
  import opened WritePaths
  import opened Sessions
  import opened Daemons
  import opened Coherence
  import opened Runs
  import opened Lossless
  import opened Fences
  import opened Scenarios

  /**
   * A fork's output is the repository's for every command if and only if the
   * write the fork carries has landed.
   */
  lemma LosslessIffLanded(write: Write, fs: FS, call: Call)
    requires ValidateWritePath(write.path).Some?
    ensures Landed(write, fs) <==> forall exec: Exec :: exec(Applied(write, fs), call) == exec(fs, call)
  {
    if Landed(write, fs) {
      LandedIsApplied(write, fs);
    } else {
      var exec: Exec := (f, c) => if f == fs then Output("", "", 0) else Output("", "", 1);
      assert Applied(write, fs) != fs;
      assert exec(Applied(write, fs), call) != exec(fs, call);
    }
  }

  /** A client feeds a write outside any bracket, asks for it and for the predicted call. */
  function UnbracketedRun(write: Write, call: Call, result: Output): seq<Step> {
    [StartSession("a", "r", PLAIN),
     FeedWrite("a", write, None, Some(call), true, 0.0),
     Ask("a", Call("edit", WriteArgs(write)), 0.0),
     Ask("a", call, 0.0),
     Completes(0, 0, result, 0.0)]
  }

  /** The feed finds no bracket, so it invalidates the session and starts the chain on the repository as it is. */
  lemma FeedAlone(fs: map<string, FS>, s: Session, write: Write, call: Call)
    requires s.sid == "a" && s.repo == "r" && s.settings == PLAIN
    requires Invalidate(s, 0.0).sid == "a" && Invalidate(s, 0.0).repo == "r"
    requires KindPolicy(call.kind) == Free
    ensures Next(Alone(fs, s, map[], 0, map[]), FeedWrite("a", write, None, Some(call), true, 0.0))
            == Alone(fs, StartChain(Invalidate(s, 0.0), write, None, Some(call), true, 0.0, GetOr(fs, "r", map[])),
                     map[], 0, map[])
  {
    hide StartChain, Invalidate, ValidateWritePath;
    var d := Alone(fs, s, map[], 0, map[]).d;
    var t := StartChain(Invalidate(s, 0.0), write, None, Some(call), true, 0.0, GetOr(fs, "r", map[]));
    assert OnFsChange(d, "r", 0.0).store == map[0 := Invalidate(s, 0.0)];
    assert map[0 := Invalidate(s, 0.0)][0 := t] == map[0 := t];
  }

  lemma FedAlone(write: Write, call: Call, fs: map<string, FS>)
    requires KindPolicy(call.kind) == Free
    ensures Next(Alone(fs, NewSession("a", "r", PLAIN), map[], 0, map[]),
                 FeedWrite("a", write, None, Some(call), true, 0.0))
            == Alone(fs, Fed(write, call, None, GetOr(fs, "r", map[])), map[], 0, map[])
  {
    hide Next, Alone, StartChain;
    BlankNames();
    BlankSession();
    FeedAlone(fs, NewSession("a", "r", PLAIN), write, call);
  }

  /** The worlds of the run: its ask joins the chain's job, then the worker comes back. */
  lemma UnbracketedWorlds(write: Write, call: Call, fs: map<string, FS>, result: Output)
    requires ValidateWritePath(write.path).Some? && KindPolicy(call.kind) == Free
    ensures var steps := UnbracketedRun(write, call, result);
            var s := Fed(write, call, None, GetOr(fs, "r", map[])).(cursor := 1);
            && Ready(s, write, call) && s.tasks == map[0 := Task(InFork(write, None), {GetOr(fs, "r", map[])}, true)]
            && After(Start(fs), steps[..4]) == Joined(fs, s, 0, call)
            && After(Start(fs), steps) == Next(Joined(fs, s, 0, call), Completes(0, 0, result, 0.0))
  {
    hide Fed, Ready, ResolveStart, After, Next, Alone, Joined;
    var steps := UnbracketedRun(write, call, result);
    var s := Fed(write, call, None, GetOr(fs, "r", map[]));
    FedIs(write, call, None, GetOr(fs, "r", map[]));
    StillReady(s, write, call);
    NothingYet(Start(fs), steps);
    AfterNext(Start(fs), steps, 0);
    AfterNext(Start(fs), steps, 1);
    AfterNext(Start(fs), steps, 2);
    AfterNext(Start(fs), steps, 3);
    AfterNext(Start(fs), steps, 4);
    assert steps[..5] == steps;
    StartAlone(fs);
    FedAlone(write, call, fs);
    EditWorld(fs, s, 0, write, call);
    JoinWorld(fs, s.(cursor := 1), 0, write, call);
  }

  /**
   * For every write and predicted call there is a run that never touches the
   * repository and is nevertheless served the output with the write applied.
   */
  lemma UnbracketedServes(exec: Exec, write: Write, call: Call, fs: map<string, FS>)
    requires ValidateWritePath(write.path).Some? && KindPolicy(call.kind) == Free
    ensures var repo := GetOr(fs, "r", map[]);
            var steps := UnbracketedRun(write, call, exec(Applied(write, repo), call));
            var w := After(Start(fs), steps);
            && FairRun(Some(exec), Start(fs), steps)
            && w.fs == fs && 0 in w.joins && w.joins[0].call == call
            && w.joins[0].uid in w.d.store && w.d.store[w.joins[0].uid].repo == "r"
            && Delivered(w, 0, true) == Served(true, exec(Applied(write, repo), call))
  {
    hide Applied, After, FairRun, Fair, Fed, Ready, Joined, Next, FinishResolve;
    var repo := GetOr(fs, "r", map[]);
    var result := exec(Applied(write, repo), call);
    var steps := UnbracketedRun(write, call, result);
    var s := Fed(write, call, None, repo).(cursor := 1);
    UnbracketedWorlds(write, call, fs, result);
    JoinedIs(fs, s, 0, write, call);
    ServedAlone(fs, s, 0, write, call, result);
    NothingUnfair(exec, Start(fs), steps);
    OnlyClients(exec, Start(fs), steps, 0, 4);
    ForkResultIsFair(exec, After(Start(fs), steps[..4]), write, None, call, repo, result);
    FairLonger(exec, Start(fs), steps, 4);
    assert steps[..5] == steps;
  }

  /** What that run is served under `exec`. */
  ghost function ServedTo(exec: Exec, write: Write, call: Call, fs: map<string, FS>): Reply
    requires ValidateWritePath(write.path).Some? && KindPolicy(call.kind) == Free
  {
    UnbracketedServes(exec, write, call, fs);
    Delivered(After(Start(fs), UnbracketedRun(write, call, exec(Applied(write, GetOr(fs, "r", map[])), call))), 0, true)
  }

  /**
   * When the unbracketed run is lossless: for every way to execute commands it
   * is served what the call would have returned, if and only if the repository
   * already holds the write when it is fed.
   */
  lemma UnbracketedLosslessIff(write: Write, call: Call, fs: map<string, FS>)
    requires ValidateWritePath(write.path).Some? && KindPolicy(call.kind) == Free
    ensures (forall exec: Exec :: ServedTo(exec, write, call, fs) == Served(true, exec(GetOr(fs, "r", map[]), call)))
            <==> Landed(write, GetOr(fs, "r", map[]))
  {
    hide ServedTo, Applied, Landed;
    var repo := GetOr(fs, "r", map[]);
    forall exec: Exec
      ensures ServedTo(exec, write, call, fs) == Served(true, exec(Applied(write, repo), call))
    {
      ServedIsForked(exec, write, call, fs);
    }
    LosslessIffLanded(write, repo, call);
  }

  lemma ServedIsForked(exec: Exec, write: Write, call: Call, fs: map<string, FS>)
    requires ValidateWritePath(write.path).Some? && KindPolicy(call.kind) == Free
    ensures ServedTo(exec, write, call, fs) == Served(true, exec(Applied(write, GetOr(fs, "r", map[])), call))
  {
    hide After, Applied, Delivered;
    UnbracketedServes(exec, write, call, fs);
  }
}
