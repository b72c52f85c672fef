/**
 * The agent side of src/eval/sfx_live_agent.py:649-893: whatever fails at
 * whichever await, every bracket it opens it closes once, and every
 * authoritative execution lies inside its own.
 */
module LiveAgents {
  import opened Common

  datatype Write = Write(path: string, contents: string)
  datatype Verb = Free | Fork | Never

  /** How one await ends: with an exception, or with a reply that is or is not the favourable one. */
  datatype Answer = Raises | Replies(favourable: bool)

  /** What the agent does to the outside world, in order. */
  datatype Effect =
    | Began(token: nat)
    | Ended(token: nat)
    | Fed(token: nat)
    | Executed(token: nat, command: string)
    | Resolved
    | Reported(token: nat)

  datatype Pending = Pending(token: nat, write: Write, command: string, step: nat, confirmed: bool)

  /** `open` is the one bracket the trace leaves open, `next` how many it has begun. */
  ghost predicate Balanced(trace: seq<Effect>, open: Option<nat>, next: nat) {
    if trace == [] then open == None && next == 0
    else
      var before := trace[..|trace| - 1];
      match trace[|trace| - 1]
      case Began(t) => open == Some(t) && next == t + 1 && Balanced(before, None, t)
      case Ended(t) => open == None && t < next && Balanced(before, Some(t), next)
      case Fed(t) => open == Some(t) && Balanced(before, open, next)
      case Executed(t, _) => open == Some(t) && Balanced(before, open, next)
      case Resolved => open == None && Balanced(before, open, next)
      case Reported(t) => open == None && t < next && Balanced(before, open, next)
  }

  function Begins(trace: seq<Effect>, t: nat): nat {
    if trace == [] then 0
    else Begins(trace[..|trace| - 1], t) + if trace[|trace| - 1] == Began(t) then 1 else 0
  }

  function Ends(trace: seq<Effect>, t: nat): nat {
    if trace == [] then 0
    else Ends(trace[..|trace| - 1], t) + if trace[|trace| - 1] == Ended(t) then 1 else 0
  }

  function Executions(trace: seq<Effect>): nat {
    if trace == [] then 0
    else Executions(trace[..|trace| - 1]) + if trace[|trace| - 1].Executed? then 1 else 0
  }

  /** Every token is begun once and ended once, unless it is the one still open. */
  lemma {:induction false} EachEndedOnce(trace: seq<Effect>, open: Option<nat>, next: nat, t: nat)
    requires Balanced(trace, open, next)
    ensures Begins(trace, t) == if t < next then 1 else 0
    ensures Ends(trace, t) == if t < next && open != Some(t) then 1 else 0
    ensures open.Some? ==> open.value < next
    decreases |trace|
  {
    if trace != [] {
      var before := trace[..|trace| - 1];
      match trace[|trace| - 1]
      case Began(u) => EachEndedOnce(before, None, u, t);
      case Ended(u) => EachEndedOnce(before, Some(u), next, t);
      case _ => EachEndedOnce(before, open, next, t);
    }
  }

  /** Where the bracket that is open at the end of a trace was begun; nothing else happened to brackets since. */
  lemma {:induction false} OpenSince(trace: seq<Effect>, t: nat, next: nat) returns (b: nat)
    requires Balanced(trace, Some(t), next)
    ensures b < |trace| && trace[b] == Began(t)
    ensures forall i :: b < i < |trace| ==> !trace[i].Began? && !trace[i].Ended?
    decreases |trace|
  {
    if trace[|trace| - 1].Began? {
      b := |trace| - 1;
    } else {
      b := OpenSince(trace[..|trace| - 1], t, next);
    }
  }

  lemma {:induction false} BalancedPrefix(trace: seq<Effect>, open: Option<nat>, next: nat, i: nat)
      returns (openThen: Option<nat>, nextThen: nat)
    requires Balanced(trace, open, next) && i <= |trace|
    ensures Balanced(trace[..i], openThen, nextThen)
    decreases |trace|
  {
    if i == |trace| {
      assert trace[..i] == trace;
      return open, next;
    }
    var before := trace[..|trace| - 1];
    assert before[..i] == trace[..i];
    match trace[|trace| - 1]
    case Began(t) => openThen, nextThen := BalancedPrefix(before, None, t, i);
    case Ended(t) => openThen, nextThen := BalancedPrefix(before, Some(t), next, i);
    case _ => openThen, nextThen := BalancedPrefix(before, open, next, i);
  }

  /** Every authoritative execution happens inside the bracket it names, which nothing else overlaps. */
  lemma ExecutedInsideBracket(trace: seq<Effect>, open: Option<nat>, next: nat, i: nat) returns (b: nat)
    requires Balanced(trace, open, next) && i < |trace| && trace[i].Executed?
    ensures b < i && trace[b] == Began(trace[i].token)
    ensures forall k :: b < k < i ==> !trace[k].Began? && !trace[k].Ended?
  {
    var openThen, nextThen := BalancedPrefix(trace, open, next, i + 1);
    assert trace[..i + 1][..i] == trace[..i] && trace[..i + 1][i] == trace[i];
    b := OpenSince(trace[..i], trace[i].token, nextThen);
  }

  lemma BalancedNext(trace: seq<Effect>, open: Option<nat>, next: nat, e: Effect)
    requires Balanced(trace, open, next)
    ensures e == Began(next) && open == None ==> Balanced(trace + [e], Some(next), next + 1)
    ensures e.Ended? && open == Some(e.token) ==> Balanced(trace + [e], None, next)
    ensures (e.Fed? || e.Executed?) && open == Some(e.token) ==> Balanced(trace + [e], open, next)
    ensures open == None && (e.Resolved? || (e.Reported? && e.token < next)) ==> Balanced(trace + [e], open, next)
    ensures Executions(trace + [e]) == Executions(trace) + if e.Executed? then 1 else 0
  {
    assert (trace + [e])[..|trace|] == trace;
    if open.Some? {
      EachEndedOnce(trace, open, next, 0);
    }
  }

  datatype Outcome = Raised | Served | Ran

  /* Awaits */

  /** Which call an await waits for. */
  datatype Query = AskBegin | AskFeed | AskRun | AskEnd | AskResolve | AskReport

  /** An exception, or a begin whose reply holds no token. */
  predicate Fails(q: Query, a: Answer) {
    a.Raises? || (q == AskBegin && a != Replies(true))
  }

  /**
   * The awaits of a method, from the calls before it to those after it:
   * whether one of them failed, and that after a failure nothing but an end is
   * tried.
   */
  ghost predicate Went(before: seq<Query>, after: seq<Query>, oracle: nat -> Answer, failed: bool) {
    && before <= after
    && (failed <==> exists i :: |before| <= i < |after| && Fails(after[i], oracle(i)))
    && (forall i, j :: |before| <= i < j < |after| && Fails(after[i], oracle(i)) ==> after[j] == AskEnd)
  }

  lemma WentNowhere(calls: seq<Query>, oracle: nat -> Answer)
    ensures Went(calls, calls, oracle, false)
  {
  }

  /** One more call, which after a failure is an end. */
  lemma WentOn(a: seq<Query>, b: seq<Query>, oracle: nat -> Answer, failed: bool, q: Query)
    requires Went(a, b, oracle, failed) && (failed ==> q == AskEnd)
    ensures Went(a, b + [q], oracle, failed || Fails(q, oracle(|b|)))
  {
    var c := b + [q];
    assert c[|b|] == q;
    if failed {
      var i :| |a| <= i < |b| && Fails(b[i], oracle(i));
      assert Fails(c[i], oracle(i));
    }
  }

  /** What goes on after awaits that went well. */
  lemma WentThen(a: seq<Query>, b: seq<Query>, c: seq<Query>, oracle: nat -> Answer, failed: bool)
    requires Went(a, b, oracle, false) && Went(b, c, oracle, failed)
    ensures Went(a, c, oracle, failed)
  {
    forall i | |a| <= i < |b|
      ensures !Fails(c[i], oracle(i))
    {
      assert c[i] == b[i];
    }
  }

  /** The effects of one authoritative execution that goes well; `next` is the token its begin gets. */
  function Made(command: string, writes: bool, prepared: Option<nat>, kept: bool, next: nat): seq<Effect> {
    var t := if prepared.Some? then prepared.value else next;
    (if prepared == None then [Began(t)] else [])
    + (if writes && prepared == None then [Fed(t)] else [])
    + [Executed(t, command), Ended(t)]
    + (if kept then [Resolved] else [])
    + [Reported(t)]
  }

  /** Whether the end of such an execution, its calls starting at `at`, reports the written chain as kept. */
  predicate KeptBy(oracle: nat -> Answer, at: nat, writes: bool, prepared: bool) {
    writes && oracle(at + if prepared then 1 else 3) == Replies(true)
  }

  lemma Assembled(before: seq<Effect>, begun: seq<Effect>, closed: seq<Effect>, after: seq<Effect>,
                  command: string, writes: bool, prepared: Option<nat>, kept: bool, next: nat)
    requires begun == before + if prepared == None then [Began(next)] else []
    requires var t := if prepared.Some? then prepared.value else next;
             && closed == begun + (if writes && prepared == None then [Fed(t)] else []) + [Executed(t, command), Ended(t)]
             && after == closed + (if kept then [Resolved] else []) + [Reported(t)]
    ensures after == before + Made(command, writes, prepared, kept, next)
  {
  }

  class LiveAgent {
    const on: bool
    const speculateWrites: bool
    const literal: string -> Option<Write>
    const classify: string -> Verb
    const oracle: nat -> Answer
    var calls: seq<Query>  // what each await so far waited for; the i-th was answered oracle(i)
    var pending: Option<Pending>
    var seen: set<nat>
    var trace: seq<Effect>
    var tokens: nat

    /** The bracket open between two routed commands or stream events. */
    function OpenToken(): Option<nat>
      reads this
    {
      if pending.Some? then Some(pending.value.token) else None
    }

    ghost predicate Valid()
      reads this
    {
      && Balanced(trace, OpenToken(), tokens)
      && (pending.Some? ==> on && speculateWrites && literal(pending.value.command) == Some(pending.value.write))
    }

    constructor (on: bool, speculateWrites: bool, literal: string -> Option<Write>, classify: string -> Verb,
                 oracle: nat -> Answer)
      ensures Valid() && pending == None && trace == [] && tokens == 0 && calls == [] && seen == {}
      ensures this.on == on && this.speculateWrites == speculateWrites && this.literal == literal
              && this.classify == classify && this.oracle == oracle
    {
      this.on, this.speculateWrites, this.literal, this.classify, this.oracle :=
        on, speculateWrites, literal, classify, oracle;
      calls, pending, seen, trace, tokens := [], None, {}, [], 0;
    }

    method Await(q: Query) returns (a: Answer)
      modifies this`calls
      ensures a == oracle(|old(calls)|) && calls == old(calls) + [q]
    {
      a := oracle(|calls|);
      calls := calls + [q];
    }

    /** `mutation_begin`; no token unless it replied with one. */
    method Begin() returns (token: Option<nat>)
      requires Balanced(trace, None, tokens)
      modifies this`calls, this`trace, this`tokens
      ensures calls == old(calls) + [AskBegin]
      ensures token == if oracle(|old(calls)|) == Replies(true) then Some(old(tokens)) else None
      ensures token == None ==> trace == old(trace) && tokens == old(tokens)
      ensures token.Some? ==> trace == old(trace) + [Began(token.value)] && tokens == old(tokens) + 1
      ensures Balanced(trace, token, tokens)
      ensures Executions(trace) == Executions(old(trace))
    {
      hide Balanced, Executions;
      var a := Await(AskBegin);
      if a != Replies(true) {
        return None;
      }
      BalancedNext(trace, None, tokens, Began(tokens));
      token := Some(tokens);
      trace := trace + [Began(tokens)];
      tokens := tokens + 1;
    }

    /** One attempt at `mutation_end`, whatever becomes of it. */
    method End(token: nat) returns (a: Answer)
      requires Balanced(trace, Some(token), tokens)
      modifies this`calls, this`trace
      ensures a == oracle(|old(calls)|) && calls == old(calls) + [AskEnd]
      ensures trace == old(trace) + [Ended(token)] && Balanced(trace, None, tokens)
      ensures Executions(trace) == Executions(old(trace))
    {
      hide Balanced, Executions;
      BalancedNext(trace, Some(token), tokens, Ended(token));
      trace := trace + [Ended(token)];
      a := Await(AskEnd);
    }

    /** A call made under an open bracket. */
    method Under(token: nat, e: Effect) returns (a: Answer)
      requires Balanced(trace, Some(token), tokens) && (e.Fed? || e.Executed?) && e.token == token
      modifies this`calls, this`trace
      ensures a == oracle(|old(calls)|) && calls == old(calls) + [if e.Fed? then AskFeed else AskRun]
      ensures trace == old(trace) + [e] && Balanced(trace, Some(token), tokens)
      ensures Executions(trace) == Executions(old(trace)) + if e.Executed? then 1 else 0
    {
      hide Balanced, Executions;
      BalancedNext(trace, Some(token), tokens, e);
      trace := trace + [e];
      a := Await(if e.Fed? then AskFeed else AskRun);
    }

    /** A call made with no bracket open. */
    method Outside(e: Effect) returns (a: Answer)
      requires Balanced(trace, None, tokens) && (e.Resolved? || (e.Reported? && e.token < tokens))
      modifies this`calls, this`trace
      ensures a == oracle(|old(calls)|) && calls == old(calls) + [if e.Resolved? then AskResolve else AskReport]
      ensures trace == old(trace) + [e] && Balanced(trace, None, tokens)
      ensures Executions(trace) == Executions(old(trace))
    {
      hide Balanced, Executions;
      BalancedNext(trace, None, tokens, e);
      trace := trace + [e];
      a := Await(if e.Resolved? then AskResolve else AskReport);
    }

    /** `_cancel_pending_edit`; the reservation is forgotten even if the call fails. */
    method CancelPendingEdit() returns (raised: bool)
      requires Valid()
      modifies this`calls, this`trace, this`pending
      ensures Valid() && pending == None && Went(old(calls), calls, oracle, raised)
      ensures calls == old(calls) + if old(pending).Some? then [AskEnd] else []
      ensures trace == old(trace) + (if old(pending).Some? then [Ended(old(pending).value.token)] else [])
      ensures Executions(trace) == Executions(old(trace))
    {
      hide Went;
      WentNowhere(calls, oracle);
      if pending == None {
        return false;
      }
      WentOn(calls, calls, oracle, false, AskEnd);
      var token := pending.value.token;
      pending := None;
      var a := End(token);
      raised := a.Raises?;
    }

    /** `model_start`, `model_abort` and the end of a run. */
    method Abandon() returns (raised: bool)
      requires Valid()
      modifies this`calls, this`trace, this`pending
      ensures Valid() && pending == None && OpenToken() == None && Went(old(calls), calls, oracle, raised)
      ensures trace == old(trace) + (if old(pending).Some? then [Ended(old(pending).value.token)] else [])
    {
      raised := CancelPendingEdit();
    }

    /** `model_end`: the final text confirms the reservation or discards it, and nothing else. */
    method ModelEnd(step: nat, command: Option<string>, finishes: bool) returns (raised: bool)
      requires Valid()
      modifies this`calls, this`trace, this`pending
      ensures Valid() && Went(old(calls), calls, oracle, raised)
      ensures pending.Some? <==> old(pending).Some? && old(pending).value.step == step
                                 && command == Some(old(pending).value.command) && !finishes
      ensures pending.Some? ==> pending == Some(old(pending).value.(confirmed := true))
                                && trace == old(trace) && calls == old(calls)
      ensures pending == None ==>
                trace == old(trace) + (if old(pending).Some? then [Ended(old(pending).value.token)] else [])
      ensures Executions(trace) == Executions(old(trace))
    {
      hide Went;
      WentNowhere(calls, oracle);
      if pending == None {
        return false;
      }
      if pending.value.step != step || command != Some(pending.value.command) || finishes {
        raised := CancelPendingEdit();
      } else {
        pending := Some(pending.value.(confirmed := true));
        raised := false;
      }
    }

    /** Whether a recognised edit of this step is worth a reservation. */
    predicate Reserves(step: nat, eligible: bool)
      reads this
    {
      pending == None && step !in seen && on && speculateWrites && eligible
    }

    /**
     * `model_delta` with a recognised literal edit: reserve a bracket and
     * stream the edit under it. The reservation stands exactly if both calls
     * go well, and is closed again if the feed fails.
     */
    method ModelDelta(step: nat, command: string, eligible: bool) returns (raised: bool)
      requires Valid() && literal(command).Some?
      modifies this
      ensures Valid() && Went(old(calls), calls, oracle, raised)
      ensures !old(Reserves(step, eligible)) ==>
                !raised && pending == old(pending) && trace == old(trace) && calls == old(calls)
      ensures old(Reserves(step, eligible)) ==> [AskBegin] <= calls[|old(calls)|..]
      ensures old(Reserves(step, eligible)) && !raised ==>
                && pending == Some(Pending(old(tokens), literal(command).value, command, step, false))
                && trace == old(trace) + [Began(old(tokens)), Fed(old(tokens))]
      ensures raised ==> pending == None
      ensures seen == if old(pending) == None then old(seen) + {step} else old(seen)
      ensures Executions(trace) == Executions(old(trace))
    {
      hide Balanced, Executions, Went;
      ghost var start := calls;
      WentNowhere(start, oracle);
      if pending.Some? || step in seen {
        return false;
      }
      seen := seen + {step};
      if !on || !speculateWrites || !eligible {
        return false;
      }
      WentOn(start, calls, oracle, false, AskBegin);
      var token := Begin();
      if token == None {
        return true;
      }
      pending := Some(Pending(token.value, literal(command).value, command, step, false));
      WentOn(start, calls, oracle, false, AskFeed);
      var a := Under(token.value, Fed(token.value));
      raised := a.Raises?;
      if raised {
        WentOn(start, calls, oracle, true, AskEnd);
        var _ := CancelPendingEdit();
      }
    }

    /** The `try` of `_authoritative` and its `finally`: whatever fails, the bracket is closed. */
    method InBracket(command: string, feeds: bool, token: nat) returns (failed: bool, ended: Answer)
      requires Balanced(trace, Some(token), tokens)
      modifies this`calls, this`trace
      ensures Balanced(trace, None, tokens) && Went(old(calls), calls, oracle, failed)
      ensures Executions(trace) <= Executions(old(trace)) + 1
      ensures !failed ==>
                && |calls| == |old(calls)| + (if feeds then 3 else 2) && ended == oracle(|calls| - 1)
                && trace == old(trace) + (if feeds then [Fed(token)] else []) + [Executed(token, command), Ended(token)]
                && Executions(trace) == Executions(old(trace)) + 1
    {
      hide Balanced, Executions, Went;
      ghost var start := calls;
      WentNowhere(start, oracle);
      failed := false;
      if feeds {
        WentOn(start, calls, oracle, false, AskFeed);
        var answer := Under(token, Fed(token));
        failed := answer.Raises?;
      }
      if !failed {
        WentOn(start, calls, oracle, false, AskRun);
        var ran := Under(token, Executed(token, command));
        failed := ran.Raises?;
      }
      WentOn(start, calls, oracle, failed, AskEnd);
      ended := End(token);
      failed := failed || ended.Raises?;
    }

    /** The calls of `_authoritative` after its bracket: the edit is asked for if its chain was kept, and the result reported. */
    method Afterwards(token: nat, kept: bool) returns (failed: bool)
      requires Balanced(trace, None, tokens) && token < tokens
      modifies this`calls, this`trace
      ensures Balanced(trace, None, tokens) && Went(old(calls), calls, oracle, failed)
      ensures Executions(trace) == Executions(old(trace))
      ensures !failed ==> trace == old(trace) + (if kept then [Resolved] else []) + [Reported(token)]
    {
      hide Balanced, Executions, Went;
      ghost var start := calls;
      WentNowhere(start, oracle);
      if kept {
        WentOn(start, calls, oracle, false, AskResolve);
        var resolved := Outside(Resolved);
        if resolved.Raises? {
          return true;
        }
      }
      WentOn(start, calls, oracle, false, AskReport);
      var reported := Outside(Reported(token));
      failed := reported.Raises?;
    }

    /**
     * `_authoritative`: `prepared` is the token of a confirmed reservation.
     * The bracket is closed on every path; the command runs at most once, and
     * exactly once, between exactly the calls of `Made`, unless an await fails.
     */
    method Authoritative(command: string, writeArgs: Option<Write>, prepared: Option<nat>) returns (o: Outcome)
      requires pending == None && Balanced(trace, prepared, tokens)
      modifies this`calls, this`trace, this`tokens
      ensures Valid() && o != Served && Went(old(calls), calls, oracle, o == Raised)
      ensures o == Ran ==> Executions(trace) == Executions(old(trace)) + 1
      ensures o == Raised ==> Executions(trace) <= Executions(old(trace)) + 1
      ensures o == Ran ==>
                trace == old(trace) + Made(command, writeArgs.Some?, prepared,
                                           KeptBy(oracle, |old(calls)|, writeArgs.Some?, prepared.Some?), old(tokens))
    {
      hide Balanced, Executions, Made, Went;
      ghost var start := calls;
      WentNowhere(start, oracle);
      var token := prepared;
      if prepared == None {
        WentOn(start, calls, oracle, false, AskBegin);
        token := Begin();
        if token == None {
          return Raised;
        }
      }
      ghost var begun, inside := trace, calls;
      var failed, ended := InBracket(command, writeArgs.Some? && prepared == None, token.value);
      WentThen(start, inside, calls, oracle, failed);
      if failed {
        return Raised;
      }
      ghost var closed, outside := trace, calls;
      EachEndedOnce(trace, None, tokens, token.value);
      failed := Afterwards(token.value, writeArgs.Some? && ended == Replies(true));
      WentThen(start, outside, calls, oracle, failed);
      o := if failed then Raised else Ran;
      if o == Ran {
        Assembled(old(trace), begun, closed, trace, command, writeArgs.Some?, prepared,
                  KeptBy(oracle, |start|, writeArgs.Some?, prepared.Some?), old(tokens));
      }
    }

    /** Whether a command is fed to the daemon before it is executed. */
    predicate Streams(command: string, eligible: bool) {
      eligible && on && speculateWrites && literal(command).Some?
    }

    /** Whether the reservation at hand is a confirmed one for this command. */
    predicate Reuses(command: string, eligible: bool)
      reads this
    {
      pending.Some? && pending.value.confirmed && pending.value.command == command && eligible
    }

    /** The end of a reservation nobody can use. */
    function Given(command: string, eligible: bool): seq<Effect>
      reads this
    {
      if pending.Some? && !Reuses(command, eligible) then [Ended(pending.value.token)] else []
    }

    /** What executing a command does, when every await goes well, with `asked` calls made before. */
    function Done(command: string, eligible: bool, asked: nat): seq<Effect>
      reads this
    {
      var prepared := if Reuses(command, eligible) then Some(pending.value.token) else None;
      Made(command, Streams(command, eligible), prepared,
           KeptBy(oracle, |calls| + asked, Streams(command, eligible), prepared.Some?), tokens)
    }

    /** `_write_and_chain`. */
    method WriteAndChain(command: string, eligible: bool) returns (o: Outcome)
      requires Valid()
      modifies this`calls, this`trace, this`pending, this`tokens
      ensures Valid() && pending == None && o != Served && Went(old(calls), calls, oracle, o == Raised)
      ensures o == Ran ==> Executions(trace) == Executions(old(trace)) + 1
      ensures o == Raised ==> Executions(trace) <= Executions(old(trace)) + 1
      ensures o == Ran ==>
                trace == old(trace) + old(Given(command, eligible)) + old(Done(command, eligible, |Given(command, eligible)|))
    {
      hide Balanced, Executions, Went, Made;
      ghost var start := calls;
      var writeArgs := if eligible && on && speculateWrites then literal(command) else None;
      var prepared: Option<nat> := None;
      WentNowhere(start, oracle);
      if pending.Some? {
        if pending.value.confirmed && pending.value.command == command && Some(pending.value.write) == writeArgs {
          prepared := Some(pending.value.token);
          pending := None;
        } else {
          var raised := CancelPendingEdit();
          if raised {
            return Raised;
          }
        }
      }
      ghost var closed := calls;
      o := Authoritative(command, writeArgs, prepared);
      WentThen(start, closed, calls, oracle, o == Raised);
    }

    /** Whether a command may be served instead of executed. */
    predicate Asks(command: string, eligible: bool) {
      literal(command) == None && classify(command) == Free && eligible && on
    }

    /**
     * `_route_one`: served from the cache exactly if the resolve says so,
     * otherwise executed inside a bracket of its own unless an await fails.
     */
    method RouteOne(command: string, eligible: bool) returns (o: Outcome)
      requires Valid()
      requires pending.Some? ==> pending.value.command == command
      modifies this`calls, this`trace, this`pending, this`tokens
      ensures Valid() && pending == None && Went(old(calls), calls, oracle, o == Raised)
      ensures o == Served <==> Asks(command, eligible) && oracle(|old(calls)|) == Replies(true)
      ensures o == Served ==> trace == old(trace) + [Resolved]
      ensures o == Served ==> Executions(trace) == Executions(old(trace))
      ensures o == Ran ==> Executions(trace) == Executions(old(trace)) + 1
      ensures o == Raised ==> Executions(trace) <= Executions(old(trace)) + 1
      ensures o == Ran && Asks(command, eligible) ==>
                trace == old(trace) + [Resolved] + old(Done(command, eligible, 1))
      ensures o == Ran && !Asks(command, eligible) ==>
                trace == old(trace) + old(Given(command, eligible)) + old(Done(command, eligible, |Given(command, eligible)|))
    {
      hide Balanced, Executions, Went, Made;
      ghost var start := calls;
      var verb := if literal(command).Some? then Fork else classify(command);
      if verb == Fork {
        o := WriteAndChain(command, eligible);
        return;
      }
      if verb == Never || !eligible || !on {
        o := Authoritative(command, None, None);
        return;
      }
      WentNowhere(start, oracle);
      WentOn(start, calls, oracle, false, AskResolve);
      var reply := Outside(Resolved);
      if reply.Raises? {
        return Raised;
      }
      if reply == Replies(true) {
        return Served;
      }
      ghost var asked := calls;
      o := Authoritative(command, None, None);
      WentThen(start, asked, calls, oracle, o == Raised);
    }

    /**
     * `_route`: after it no bracket is open. It raises exactly if an await it
     * made failed; otherwise a command is served exactly if it may be asked
     * for and the resolve says so, and any other is executed once.
     */
    method Route(command: string, eligible: bool) returns (o: Outcome)
      requires Valid()
      modifies this`calls, this`trace, this`pending, this`tokens
      ensures Valid() && OpenToken() == None && Went(old(calls), calls, oracle, o == Raised)
      ensures o != Raised ==>
                var given := old(Given(command, eligible));
                (o == Served <==> Asks(command, eligible) && oracle(|old(calls)| + |given|) == Replies(true))
      ensures o == Served ==> trace == old(trace) + old(Given(command, eligible)) + [Resolved]
      ensures o == Served ==> Executions(trace) == Executions(old(trace))
      ensures o == Ran ==> Executions(trace) == Executions(old(trace)) + 1
      ensures o == Raised ==> Executions(trace) <= Executions(old(trace)) + 1
      ensures o == Ran ==>
                var given := old(Given(command, eligible));
                var asked := if Asks(command, eligible) then [Resolved] else [];
                trace == old(trace) + given + asked + old(Done(command, eligible, |Given(command, eligible)| + if Asks(command, eligible) then 1 else 0))
    {
      hide Balanced, Executions, Went, Made;
      ghost var start := calls;
      WentNowhere(start, oracle);
      if pending.Some? && (!pending.value.confirmed || pending.value.command != command || !eligible) {
        var raised := CancelPendingEdit();
        if raised {
          return Raised;
        }
      }
      ghost var closed := calls;
      o := RouteOne(command, eligible);
      WentThen(start, closed, calls, oracle, o == Raised);
    }
  }
}
