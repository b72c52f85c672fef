/**
 * What the first half of `resolve` answers, read off the fields of the session
 * it finds (src/sfx/daemon.py:558-580, 615-645).
 */
module Asking {
  import opened Common
  import opened Caches
  import opened Sessions
  import opened SessionInvariants
  import opened Daemons
  import opened Coherence
  import opened Runs
  import opened RunSteps
  import opened Answers
  import opened ReadLanes
  import L = Ledgers
  import Q = CacheQueues

  /** No ask of this call is looked at. */
  predicate Refused(d: Daemon, s: Session, call: Call) {
    || s.settings.specDisabled
    || (s.repo in d.mutations && d.mutations[s.repo] != map[])
    || (!s.settings.intercepts && s.settings.registered.Some? && call.kind !in s.settings.registered.value)
    || !(Reads(call.kind) || call.kind == "edit")
  }

  /** The oldest reservation of `call` not yet taken. */
  function Oldest(c: Cache, call: Call): Option<SpecId> {
    if Q.Queue(c, call) == [] then None else Some(Q.Queue(c, call)[0])
  }

  /** That one is taken, and nothing else happened to the cache. */
  ghost predicate Popped(c: Cache, d: Cache, call: Call) {
    && d == c.(serves := d.serves)
    && Q.Queue(d, call) == (if Q.Queue(c, call) == [] then [] else Q.Queue(c, call)[1..])
    && forall other :: other != call ==> Q.Queue(d, other) == Q.Queue(c, other)
  }

  /** The chain is given up, and its job with it if it has one. */
  ghost predicate Dropped(s: Session, t: Session) {
    && t == s.(cache := t.cache, chain := None, claim := None, chainMutation := None)
    && t.cache.epoch == s.cache.epoch
    && match |s.chainSpecIds|
       case 0 => t.cache == s.cache
       case _ => GivenUp(s.cache, t.cache, s.chainSpecIds[0], true)
  }

  /** The next call the chain predicts, and the session still has its job to give. */
  predicate Follows(s: Session, call: Call)
    requires s.chain.Some?
  {
    && s.chain.value.hops == [call] && |s.chainSpecIds| == 1
    && Oldest(s.cache, call) == Some(s.chainSpecIds[0])
  }

  /**
   * An ask of a session without a chain takes the oldest reservation of the
   * call, if any, and waits. With a chain it is declined while another join
   * is out. Otherwise the streamed edit is answered with its contents, the
   * call predicted after it joins the chain's job, and anything else gives the
   * chain up. No reply means the caller waits for `job` under `claim`.
   */
  ghost predicate SessionAsked(s: Session, t: Session, call: Call, reply: Option<Reply>, job: Option<SpecId>,
                               claim: Option<ChainClaim>) {
    if s.chain == None then
      && reply == None && job == Oldest(s.cache, call) && claim == None
      && t == s.(cache := t.cache) && Popped(s.cache, t.cache, call)
    else
      var chain := s.chain.value;
      var edit := Call("edit", map["path" := chain.write.path, "contents" := chain.write.contents]);
      if s.claim.Some? then reply == Some(Declined) && t == s
      else if s.cursor == 0 && call == edit then
        && reply == Some(Edited(chain.write.contents))
        && t == s.(cursor := 1, chain := if chain.hops == [] then None else s.chain)
      else if 0 < s.cursor && Follows(s, call) then
        && reply == None && job == Some(s.chainSpecIds[0]) && claim == Some(ChainClaim(chain.id, s.chainSpecIds[0], 0))
        && t == s.(cache := t.cache, claim := claim, cursor := 2, realHops := [call]) && Popped(s.cache, t.cache, call)
      else reply == Some(Declined) && Dropped(s, t)
  }

  ghost predicate AskAnswer(w: World, v: World, sid: string, call: Call, ask: real, s: Session, reply: Option<Reply>)
    requires Speaks(w.d, sid, s)
  {
    var uid := w.d.sessions[sid];
    if Refused(w.d, s, call) then reply == Some(Declined) && v == w
    else
      && v.fs == w.fs && uid in v.d.store && v.d == w.d.(store := w.d.store[uid := v.d.store[uid]])
      && if reply == None then
           && w.tickets in v.joins && v.tickets == w.tickets + 1
           && var j := v.joins[w.tickets];
           && v.joins == w.joins[w.tickets := Join(uid, call, j.job, j.claim, ask)]
           && SessionAsked(s, v.d.store[uid], call, reply, j.job, j.claim)
         else
           && v.joins == w.joins && v.tickets == w.tickets
           && SessionAsked(s, v.d.store[uid], call, reply, None, None)
  }

  /** What the client that asks hears at once, if anything. */
  function Heard(w: World, sid: string, call: Call): Option<Reply>
    requires Known(w.d, sid)
  {
    match StartResolve(w.d, sid, call)
    case Answered(_, reply) => Some(reply)
    case Joining(_, _, _) => None
  }

  /** What every ask of a known session is answered and does. */
  lemma AskAnswers(exec: Option<Exec>, w: World, sid: string, call: Call, ask: real, s: Session)
    requires Invariant(exec, w) && Speaks(w.d, sid, s)
    ensures AskAnswer(w, Next(w, Ask(sid, call, ask)), sid, call, ask, s, Heard(w, sid, call))
  {
    hide Invariant, SessionAsked, ResolveChain, SessionInvariants.Valid, Caches.Claim, ClaimedId;
    SessionOf(exec, w, w.d.sessions[sid]);
    if s.chain.Some? {
      ChainAsked(s, call);
    } else {
      PlainAsked(s, call);
    }
    if Refused(w.d, s, call) {
      assert w.d.store[w.d.sessions[sid] := s] == w.d.store;
    }
  }

  lemma PlainAsked(s: Session, call: Call)
    requires SessionInvariants.Valid(s) && s.chain == None
    ensures SessionAsked(s, s.(cache := Claim(s.cache, call)), call, None, ClaimedId(s.cache, call), None)
  {
    hide Q.Queue, SessionInvariants.Valid, Oldest;
    ClaimPops(s, call);
  }

  lemma ClaimPops(s: Session, call: Call)
    requires SessionInvariants.Valid(s)
    ensures Popped(s.cache, Claim(s.cache, call), call) && ClaimedId(s.cache, call) == Oldest(s.cache, call)
    ensures Claim(s.cache, call) == s.cache.(serves := Claim(s.cache, call).serves)
  {
    hide Q.Queue, L.Valid, Stop, ClaimedId;
    ValidTable(s.cache, s.dropped);
    forall other
      ensures other != call ==> Q.Queue(Claim(s.cache, call), other) == Q.Queue(s.cache, other)
    {
      Q.ClaimDequeues(s.cache, call, other);
    }
    Q.ClaimDequeues(s.cache, call, call);
  }

  /** Where a chain stands that nobody waits for. */
  ghost predicate Standing(s: Session)
    requires s.chain.Some?
  {
    s.claim == None ==>
      && |s.chainSpecIds| == |s.chain.value.hops| <= 1
      && (0 < s.cursor ==> s.cursor == 1 && s.realHops == [] && |s.chainSpecIds| == 1)
  }

  lemma ChainStands(s: Session)
    requires SessionInvariants.Valid(s) && s.chain.Some?
    ensures Standing(s)
  {
    hide Caches.Valid;
  }

  lemma ChainAsked(s: Session, call: Call)
    requires SessionInvariants.Valid(s) && s.chain.Some?
    ensures var r := ResolveChain(s, call);
            SessionAsked(s, r.s, call, if r.Answered? then Some(r.reply) else None,
                         if r.Answered? then None else r.job, if r.Answered? then None else r.claim)
  {
    hide SessionInvariants.Valid, Q.Queue, Oldest, Caches.Claim, ClaimedId, DiscardIds, Popped, GivenUp;
    ChainStands(s);
    TableKeys(s);
    ClaimPops(s, call);
    GivesUp(s, s.cache);
    GivesUp(s, Claim(s.cache, call));
    if s.claim == None && 0 < s.cursor {
      assert LongestPrefix(s.chain.value.hops, [call]) == if s.chain.value.hops == [call] then 1 else 0 by {
        OnePrefix(s.chain.value.hops, call);
      }
      assert s.realHops + [call] == [call];
    }
  }

  lemma OnePrefix(hops: seq<Call>, call: Call)
    requires |hops| == 1
    ensures LongestPrefix(hops, [call]) == if hops == [call] then 1 else 0
  {
  }

  /** Giving the chain up from a cache that differs from the session's at most in what was claimed. */
  lemma GivesUp(s: Session, c: Cache)
    requires s.chain.Some? && Keyed(s.cache) && Standing(s) && c == s.cache.(serves := c.serves)
    ensures s.claim == None && (s.cursor == 0 ==> c == s.cache) ==> Dropped(s, DiscardChain(s.(cache := c), 0))
  {
    hide DiscardOne, GivenUp, Keyed;
    assert Keyed(s.cache) ==> Keyed(c) by {
      SameKeys(s.cache, c);
    }
    if |s.chainSpecIds| == 1 {
      OwnerGivesUp(c, s.chainSpecIds, s.chainSpecIds[0]);
      SameGivenUp(s.cache, c, DiscardIds(c, From(s.chainSpecIds, 0)), s.chainSpecIds[0]);
    } else {
      assert s.claim == None ==> DiscardIds(c, From(s.chainSpecIds, 0)) == c;
    }
  }

  lemma SameKeys(c: Cache, d: Cache)
    requires d == c.(serves := d.serves)
    ensures Keyed(c) == Keyed(d)
  {
  }

  lemma SameGivenUp(c: Cache, d: Cache, e: Cache, id: SpecId)
    requires d == c.(serves := d.serves) && GivenUp(d, e, id, true)
    ensures GivenUp(c, e, id, true)
  {
  }
}
