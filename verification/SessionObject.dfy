/**
 * The mutable session of src/sfx/daemon.py over its cache and ledger objects,
 * proved against the functions of `Sessions`. A chain and a claim are records
 * told apart by the chain's number; `Ownership.OneOwner` is why that suffices.
 */
module SessionObjects {
  import opened Common
  import opened Caches
  import opened CacheObjects
  import opened WritePaths
  import opened Sessions
  import SessionInvariants
  import L = Ledgers

  /** src/sfx/chain.py:64-70. */
  method FollowedHops(speculated: seq<Call>, actual: seq<Call>) returns (n: nat)
    ensures n == LongestPrefix(speculated, actual)
  {
    n := 0;
    while n < |speculated| && n < |actual|
      invariant n <= |speculated| && n <= |actual| && speculated[..n] == actual[..n]
    {
      if speculated[n] != actual[n] {
        break;
      }
      n := n + 1;
    }
    PrefixIs(speculated, actual, n);
  }

  lemma PrefixIs(a: seq<Call>, b: seq<Call>, n: nat)
    requires n <= |a| && n <= |b| && a[..n] == b[..n]
    requires n < |a| && n < |b| ==> a[n] != b[n]
    ensures n == LongestPrefix(a, b)
  {
    var m := LongestPrefix(a, b);
    assert forall k :: 0 <= k < n ==> a[..n][k] == b[..n][k];
    assert forall k :: 0 <= k < m ==> a[..m][k] == b[..m][k];
  }

  lemma RelabelListed(order: seq<SpecId>, c: Cache, l: L.State)
    requires Lists(order, c) && Numbered(c)
    ensures Lists(order, c.(ledger := l)) && Numbered(c.(ledger := l))
  {
    var d := c.(ledger := l);
    assert forall id: SpecId :: Resident(d, id) == Resident(c, id);
  }

  class SessionObject {
    const sid: string
    const repo: string
    const settings: Settings
    const cache: CacheObject
    ghost var tasks: map<SpecId, Task>  // what the pool threads were told to run
    ghost var dropped: set<SpecId>
    var chain: Option<Chain>
    var claim: Option<ChainClaim>
    var cursor: nat
    var chainSpecIds: seq<SpecId>
    var realHops: seq<Call>
    var streamedWrite: bool
    var chainMutation: Option<MutationId>
    var completed: map<MutationId, bool>
    var chains: nat

    ghost function View(): Session
      reads this, cache, cache.ledger
    {
      Session(sid, repo, settings, cache.View(), tasks, dropped, chain, claim, cursor, chainSpecIds, realHops,
              streamedWrite, chainMutation, completed, chains)
    }

    ghost predicate Valid()
      reads this, cache, cache.ledger
    {
      cache.Valid()
    }

    constructor (sid: string, repo: string, settings: Settings, cache: CacheObject)
      requires cache.Valid() && cache.View() == Caches.EMPTY
      ensures Valid() && View() == NewSession(sid, repo, settings)
      ensures this.cache == cache
    {
      this.sid, this.repo, this.settings, this.cache := sid, repo, settings, cache;
      tasks, dropped := map[], {};
      chain, claim, cursor, chainSpecIds, realHops := None, None, 0, [], [];
      streamedWrite, chainMutation, completed, chains := false, None, map[], 0;
    }

    /** Ends `id` as discarded and takes it out of the table, unless it has already ended. */
    method DiscardOnce(id: SpecId)
      requires Valid()
      modifies cache, cache.ledger
      ensures Valid()
      ensures cache.View() == DiscardOne(old(cache.View()), id)
    {
      if id !in cache.ledger.terminated {
        ghost var before := cache.View();
        var _ := cache.ledger.Terminal(id, L.Discarded, 0.0, 0.0);
        RelabelListed(cache.order, before, cache.ledger.View());
        assert cache.View() == before.(ledger := L.Terminate(before.ledger, id, L.Discarded, 0.0, 0.0));
        cache.DiscardSpec(id);
      }
    }

    method DiscardChain(fromHop: nat)
      requires Valid()
      modifies this, cache, cache.ledger
      ensures Valid()
      ensures View() == Sessions.DiscardChain(old(View()), fromHop)
    {
      hide DiscardOne, DiscardIds, Lists, Numbered;
      var i := fromHop;
      while i < |chainSpecIds|
        invariant Valid()
        invariant fromHop <= i
        invariant DiscardIds(cache.View(), From(chainSpecIds, i)) == DiscardIds(old(cache.View()), From(chainSpecIds, fromHop))
        invariant View() == old(View()).(cache := cache.View())
      {
        DiscardFirst(cache.View(), chainSpecIds, i);
        DiscardOnce(chainSpecIds[i]);
        i := i + 1;
      }
      NothingToDiscard(cache.View(), chainSpecIds, i);
      chain := None;
      claim := None;
      chainMutation := None;
    }

    /** The body of the loop of `_invalidate_repo`. */
    method Invalidate(now: real)
      requires Valid()
      modifies this, cache, cache.ledger
      ensures Valid()
      ensures View() == Sessions.Invalidate(old(View()), now)
    {
      hide DiscardIds, BumpEpoch;
      if chain.Some? {
        DiscardChain(0);
      }
      streamedWrite := false;
      cache.BumpEpoch(now);
    }

    method Speculate(call: Call, now: real, ghost fs: FS) returns (id: SpecId)
      requires Valid()
      modifies this, cache, cache.ledger
      ensures Valid() && id == old(cache.n)
      ensures View() == Sessions.Speculate(old(View()), call, now, fs)
    {
      hide Caches.Reserve;
      id := cache.Reserve(call, now, false);
      tasks := tasks[id := Task(OnRepo, {fs}, true)];
    }

    /** What a streamed write does to the session before its chain is built. */
    method ClearForStream(fed: Option<MutationId>)
      requires Valid()
      modifies this, cache, cache.ledger
      ensures Valid()
      ensures View() == Cleared(old(View()), fed)
    {
      hide DiscardIds;
      if fed.Some? && chain.Some? {
        DiscardChain(0);
      }
      chainMutation := fed;
      streamedWrite := true;
    }

    /** `_submit_chain` once the substrate has been probed. */
    method SubmitChain(w: Write, fed: Option<MutationId>, call: Call, now: real, ghost fs: FS)
      requires Valid()
      modifies this, cache, cache.ledger
      ensures Valid()
      ensures View() == LaunchChain(old(View()), w, fed, call, now, fs)
    {
      hide Caches.Reserve;
      var id := cache.Reserve(call, now, false);
      tasks := tasks[id := Task(InFork(w, fed), {fs}, true)];
      chain := Some(Chain(chains, w, [call], Some(Pending), fed));
      chains, cursor, chainSpecIds, realHops := chains + 1, 0, [id], [];
    }

    /** The tail of `call_stream_delta`, from the discard of the old chain on. */
    method StreamWrite(w: Write, fed: Option<MutationId>, pred: Option<Call>, substrate: bool, now: real, ghost fs: FS)
      requires Valid()
      modifies this, cache, cache.ledger
      ensures Valid()
      ensures View() == StartChain(old(View()), w, fed, pred, substrate, now, fs)
    {
      hide Cleared, LaunchChain, ValidateWritePath;
      ClearForStream(fed);
      if ValidateWritePath(w.path) == None {
        return;
      }
      if pred == None {
        chain := Some(Chain(chains, w, [], None, fed));
        chains, cursor, chainSpecIds, realHops := chains + 1, 0, [], [];
        return;
      }
      if !substrate {
        chain := None;
        return;
      }
      SubmitChain(w, fed, pred.value, now, fs);
    }

    /** `_resolve_chain` before the edit has been asked for. */
    method ResolveEdit(call: Call) returns (reply: Reply)
      requires Valid() && chain.Some? && claim == None && cursor == 0
      modifies this, cache, cache.ledger
      ensures Valid()
      ensures Answered(View(), reply) == Sessions.ResolveChain(old(View()), call)
    {
      hide DiscardIds, Caches.Claim, ClaimedId, LongestPrefix;
      if call != Call("edit", WriteArgs(chain.value.write)) {
        DiscardChain(0);
        return Declined;
      }
      reply := Edited(chain.value.write.contents);
      cursor := 1;
      if chain.value.hops == [] {
        chain := None;
      }
    }

    /** `_resolve_chain` on a hop; the reply to a call that does not join is a miss. */
    method ResolveHop(call: Call) returns (joining: bool, job: Option<SpecId>)
      requires Valid() && chain.Some? && claim == None && 0 < cursor
      modifies this, cache, cache.ledger
      ensures Valid()
      ensures Sessions.ResolveChain(old(View()), call)
              == if joining then Joining(View(), job, claim) else Answered(View(), Declined)
    {
      hide DiscardIds, Caches.Claim, ClaimedId, LongestPrefix;
      joining, job := false, None;
      var hop := cursor - 1;
      var actual := realHops + [call];
      var followed := FollowedHops(chain.value.hops, actual);
      if followed < |actual| {
        DiscardChain(hop);
        return;
      }
      job := cache.Claim(call);
      if job == None || hop >= |chainSpecIds| || job.value != chainSpecIds[hop] {
        DiscardChain(hop);
        return;
      }
      realHops := actual;
      cursor := cursor + 1;
      claim := Some(ChainClaim(chain.value.id, job.value, hop));
      joining := true;
    }

    method ResolveChain(call: Call) returns (reply: Reply, joining: bool, job: Option<SpecId>)
      requires Valid() && chain.Some?
      modifies this, cache, cache.ledger
      ensures Valid()
      ensures Sessions.ResolveChain(old(View()), call)
              == if joining then Joining(View(), job, claim) else Answered(View(), reply)
    {
      reply, joining, job := Declined, false, None;
      DeclinesSecondAsk(View(), call);
      hide Sessions.ResolveChain;
      if claim.Some? {
        return;
      }
      if cursor == 0 {
        reply := ResolveEdit(call);
      } else {
        joining, job := ResolveHop(call);
      }
    }

    /** The first locked half of `resolve`. */
    method ResolveStart(call: Call, open: bool) returns (reply: Reply, joining: bool, job: Option<SpecId>,
                                                         taken: Option<ChainClaim>)
      requires Valid()
      modifies this, cache, cache.ledger
      ensures Valid()
      ensures Sessions.ResolveStart(old(View()), call, open)
              == if joining then Joining(View(), job, taken) else Answered(View(), reply)
    {
      hide Sessions.ResolveChain, Caches.Claim, ClaimedId;
      reply, joining, job, taken := Declined, false, None, None;
      if settings.specDisabled || open
         || (!settings.intercepts && settings.registered.Some? && call.kind !in settings.registered.value)
         || KindPolicy(call.kind) == Never {
        return;
      }
      if chain.Some? {
        reply, joining, job := ResolveChain(call);
        taken := claim;
      } else {
        job := cache.Claim(call);
        joining := true;
      }
    }

    /** The second locked half of `resolve` without a chain. */
    method FinishPlain(job: Option<SpecId>, current: bool, open: bool, ask: real) returns (reply: Reply)
      requires Valid() && SessionInvariants.Valid(View())
      requires job.Some? ==> job.value in cache.objs
      modifies cache.ledger
      ensures Valid()
      ensures var f := Sessions.FinishPlain(old(View()), job, current, open, ask);
              View() == f.s && reply == f.reply
    {
      hide Caches.Finish, FinishOutcome;
      if !current || open {
        return Declined;
      }
      DoneHasResult(View());
      var outcome := cache.Finish(job, ask);
      reply := ReplyOf(outcome);
    }

    /** The second locked half of `resolve` on a chain hop. */
    method FinishChainClaim(taken: ChainClaim, done: bool, current: bool, open: bool, ask: real) returns (reply: Reply)
      requires Valid() && SessionInvariants.Valid(View())
      requires taken.job in cache.objs
      modifies this, cache, cache.ledger
      ensures Valid()
      ensures var f := Sessions.FinishChainClaim(old(View()), taken, done, current, open, ask);
              View() == f.s && reply == f.reply
    {
      hide Caches.Finish, FinishOutcome, DiscardIds, Caches.DiscardSpec, SessionInvariants.Valid, Lists, Numbered;
      ghost var before := View();
      var owned := chain.Some? && chain.value.id == taken.chain && claim == Some(taken);
      var valid := owned && current && !open && cache.objs[taken.job].epoch == cache.epoch;
      var outcome := Outcome.Miss;
      if valid && done {
        DoneHasResult(before);
        outcome := cache.Finish(Some(taken.job), ask);
        MissFinishesNothing(before.cache, Some(taken.job), ask);
      }
      reply := ReplyOf(outcome);
      if outcome == Outcome.Miss {
        if owned {
          DiscardChain(taken.hop);
        } else {
          if taken.job !in cache.ledger.terminated {
            var _ := cache.ledger.Terminal(taken.job, L.Discarded, 0.0, 0.0);
            RelabelListed(cache.order, before.cache, cache.ledger.View());
          }
          cache.DiscardSpec(taken.job);
          if claim == Some(taken) {
            claim := None;
          }
        }
        return;
      }
      claim := None;
      if taken.hop + 1 >= |chain.value.hops| {
        chain := None;
      }
    }

    /** A pool thread coming back with a result. */
    method WorkerCompletes(id: SpecId, result: Output, duration: real)
      requires Valid() && id in tasks
      modifies this, cache`objs
      ensures Valid()
      ensures View() == Sessions.WorkerCompletes(old(View()), id, result, duration)
    {
      cache.Complete(id, result, duration);
      tasks := tasks[id := tasks[id].(running := false)];
    }

    /** A pool thread coming back with an exception: no ledger terminal. */
    method WorkerFails(id: SpecId)
      requires Valid() && id in tasks
      modifies this, cache
      ensures Valid()
      ensures View() == Sessions.WorkerFails(old(View()), id)
    {
      cache.DiscardSpec(id);
      dropped := dropped + {id};
      tasks := tasks[id := tasks[id].(running := false)];
    }
  }

  lemma DiscardFirst(c: Cache, ids: seq<SpecId>, i: nat)
    requires i < |ids|
    ensures DiscardIds(c, From(ids, i)) == DiscardIds(DiscardOne(c, ids[i]), From(ids, i + 1))
  {
    assert From(ids, i) == [ids[i]] + From(ids, i + 1);
  }

  lemma NothingToDiscard(c: Cache, ids: seq<SpecId>, i: nat)
    requires |ids| <= i
    ensures DiscardIds(c, From(ids, i)) == c
  {
  }

  lemma MissFinishesNothing(c: Cache, id: Option<SpecId>, ask: real)
    ensures FinishOutcome(c, id, ask) == Outcome.Miss ==> Finish(c, id, ask) == c
  {
  }

  lemma DeclinesSecondAsk(s: Session, call: Call)
    requires s.chain.Some?
    ensures s.claim.Some? ==> Sessions.ResolveChain(s, call) == Answered(s, Declined)
  {
  }

  lemma DoneHasResult(s: Session)
    requires SessionInvariants.Valid(s)
    ensures forall id :: id in s.cache.objs && Resident(s.cache, id) && s.cache.objs[id].done ==>
              s.cache.objs[id].result.Some?
  {
  }
}
