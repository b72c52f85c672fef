/**
 * The streaming half of src/eval/model_tools.py: when a stream of chunks
 * becomes an executable action.
 */
module NativeStreams {
  import opened Common
  import opened ModelTools

  /** One tool-call fragment; `proper` says its index, type and field types are right. */
  datatype Delta = Delta(proper: bool, id: Option<string>, name: Option<string>, arguments: Option<string>)

  /**
   * One server-sent event after its JSON has been parsed: `[DONE]`, something
   * the transport refuses outright, or a chunk.
   */
  datatype Data =
    | Done
    | Refused
    | Chunk(content: Option<string>, reasoning: Option<string>, delta: Option<Delta>, finish: Option<string>,
            usage: bool)

  datatype ToolCall = ToolCall(id: string, name: string, arguments: string)

  datatype Event = Fragment | Usage | Action(text: string) | Finished(reason: string)

  /** What `json.loads` makes of an argument string: its keys, or nothing. */
  datatype Arguments = Arguments(command: Option<string>, done: bool, others: bool)

  type Decoder = string -> Option<Arguments>

  /** `_canonical_call`. */
  function CanonicalCall(call: ToolCall, decode: Decoder): Option<string> {
    if call.id == "" || call.name !in {"execute_bash", "finish"} then None
    else match decode(call.arguments)
      case None => None
      case Some(Arguments(command, done, others)) =>
        if call.name == "finish" then if done && command == None && !others then Some("DONE") else None
        else if command.Some? && !done && !others then CanonicalBash(command.value)
        else None
  }

  /* What a stream says, read off the whole of it */

  function TextOf(o: Option<string>): string {
    if o.Some? then o.value else ""
  }

  function Contents(cs: seq<Data>): string {
    if cs == [] then ""
    else Contents(cs[..|cs| - 1]) + if cs[|cs| - 1].Chunk? then TextOf(cs[|cs| - 1].content) else ""
  }

  function Names(cs: seq<Data>): string {
    if cs == [] then ""
    else
      var c := cs[|cs| - 1];
      Names(cs[..|cs| - 1]) + if c.Chunk? && c.delta.Some? then TextOf(c.delta.value.name) else ""
  }

  function ArgumentText(cs: seq<Data>): string {
    if cs == [] then ""
    else
      var c := cs[|cs| - 1];
      ArgumentText(cs[..|cs| - 1]) + if c.Chunk? && c.delta.Some? then TextOf(c.delta.value.arguments) else ""
  }

  /** The last id announced, which a proper stream announces consistently. */
  function IdOf(cs: seq<Data>): string {
    if cs == [] then ""
    else
      var c := cs[|cs| - 1];
      if c.Chunk? && c.delta.Some? && c.delta.value.id.Some? then c.delta.value.id.value else IdOf(cs[..|cs| - 1])
  }

  predicate Called(cs: seq<Data>) {
    exists i :: 0 <= i < |cs| && cs[i].Chunk? && cs[i].delta.Some?
  }

  function FinishOf(cs: seq<Data>): Option<string> {
    if cs == [] then None
    else
      var c := cs[|cs| - 1];
      if c.Chunk? && c.finish.Some? then c.finish else FinishOf(cs[..|cs| - 1])
  }

  predicate Carries(c: Data)
    requires c.Chunk?
  {
    TextOf(c.content) != "" || TextOf(c.reasoning) != "" || c.delta.Some?
  }

  /** The checks a chunk has to pass after `before`. */
  predicate Fits(before: seq<Data>, c: Data) {
    && c.Chunk?
    && (c.delta.Some? ==> c.delta.value.proper)
    && (c.delta.Some? && c.delta.value.id.Some? ==>
          c.delta.value.id.value != "" && (IdOf(before) == "" || IdOf(before) == c.delta.value.id.value))
    && (FinishOf(before).Some? ==> !Carries(c) && c.finish == None)
    && (c.finish.Some? ==> c.finish.value != "")
  }

  predicate Proper(cs: seq<Data>) {
    cs == [] || (Proper(cs[..|cs| - 1]) && Fits(cs[..|cs| - 1], cs[|cs| - 1]))
  }

  function CallOf(cs: seq<Data>): ToolCall {
    ToolCall(IdOf(cs), Names(cs), ArgumentText(cs))
  }

  function Stripped(s: string): string {
    if s != "" && Space(s[0]) then Stripped(s[1..])
    else if s != "" && Space(s[|s| - 1]) then Stripped(s[..|s| - 1])
    else s
  }

  datatype Verdict = Failed | Ended(action: Option<string>, reason: string)

  /** What `[DONE]` after the chunks `cs` amounts to. */
  function AtDone(cs: seq<Data>, decode: Decoder): Verdict {
    match FinishOf(cs)
    case None => Failed
    case Some(reason) =>
      if reason !in {"stop", "tool_calls"} then Ended(None, reason)
      else if Called(cs) then
        if reason == "tool_calls" && CanonicalCall(CallOf(cs), decode).Some?
        then Ended(CanonicalCall(CallOf(cs), decode), reason) else Failed
      else if reason == "stop" && Stripped(Contents(cs)) == "DONE" then Ended(Some("DONE"), reason)
      else Failed
  }

  /** What a stream comes to: a verdict at its first `[DONE]`, if everything before it is proper. */
  function Outcome(stream: seq<Data>, decode: Decoder): Verdict {
    OutcomeFrom(stream, 0, decode)
  }

  function OutcomeFrom(stream: seq<Data>, i: nat, decode: Decoder): Verdict
    requires i <= |stream|
    decreases |stream| - i
  {
    if i == |stream| then Failed
    else if stream[i] == Done then AtDone(stream[..i], decode)
    else if !Fits(stream[..i], stream[i]) then Failed
    else OutcomeFrom(stream, i + 1, decode)
  }

  /** Nothing executable has been emitted. */
  predicate Inert(events: seq<Event>) {
    forall e :: e in events ==> e.Fragment? || e.Usage?
  }

  /** `_extend_call`; None when it raises. */
  method ExtendCall(call: ToolCall, delta: Delta) returns (extended: Option<ToolCall>)
    ensures extended == if delta.proper && (delta.id.Some? ==> delta.id.value != ""
                                                               && (call.id == "" || call.id == delta.id.value))
                        then Some(ToolCall(if delta.id.Some? then delta.id.value else call.id,
                                       call.name + TextOf(delta.name), call.arguments + TextOf(delta.arguments)))
                        else None
  {
    if !delta.proper {
      return None;
    }
    var id, name, arguments := call.id, call.name, call.arguments;
    if delta.id.Some? {
      if delta.id.value == "" || (id != "" && id != delta.id.value) {
        return None;
      }
      id := delta.id.value;
    }
    if delta.name.Some? {
      name := name + delta.name.value;
    }
    if delta.arguments.Some? {
      arguments := arguments + delta.arguments.value;
    }
    assert call.name + "" == call.name && call.arguments + "" == call.arguments;
    extended := Some(ToolCall(id, name, arguments));
  }

  /** What the chunks yield as they come: one fragment each unless they are empty, and their usage. */
  function Fragments(cs: seq<Data>): (events: seq<Event>)
    ensures Inert(events)
  {
    if cs == [] then []
    else
      var c := cs[|cs| - 1];
      Fragments(cs[..|cs| - 1])
      + (if c.Chunk? && (c.content.Some? || c.reasoning.Some? || c.delta.Some?) then [Fragment] else [])
      + (if c.Chunk? && c.usage then [Usage] else [])
  }

  /** The events a verdict ends the stream with; none when it raised. */
  function Tail(v: Verdict): seq<Event> {
    match v
    case Failed => []
    case Ended(action, reason) => (if action.Some? then [Action(action.value)] else []) + [Finished(reason)]
  }

  /** What happens at `[DONE]`: nothing is yielded where the generator raises. */
  method Conclude(ghost cs: seq<Data>, finish: Option<string>, ordinary: string, call: Option<ToolCall>, decode: Decoder)
      returns (tail: seq<Event>)
    requires finish == FinishOf(cs) && ordinary == Contents(cs) && (call.Some? <==> Called(cs))
    requires call.Some? ==> call.value == CallOf(cs)
    ensures tail == Tail(AtDone(cs, decode))
  {
    hide CanonicalCall, Stripped, CallOf, Called, FinishOf, Contents;
    if finish == None {
      return [];
    }
    if finish.value !in {"stop", "tool_calls"} {
      return [Finished(finish.value)];
    }
    var action: string;
    if call.Some? {
      var canonical := CanonicalCall(call.value, decode);
      if finish.value != "tool_calls" || canonical == None {
        return [];
      }
      action := canonical.value;
    } else if finish.value == "stop" && Stripped(ordinary) == "DONE" {
      action := "DONE";
    } else {
      return [];
    }
    return [Action(action), Finished(finish.value)];
  }

  /** The generator's loop: what it yields and whether it raises, as `Outcome` has it. */
  method ReadStream(stream: seq<Data>, decode: Decoder) returns (events: seq<Event>, raised: bool)
    ensures Yields(stream, decode, events, raised)
  {
    hide AtDone, CallOf, Called;
    var finish: Option<string>, ordinary: string, call: Option<ToolCall> := None, "", None;
    NothingRead(stream);
    events := [];
    var i := 0;
    while i < |stream|
      invariant 0 <= i <= |stream| && events == Fragments(stream[..i]) && Proper(stream[..i])
      invariant Outcome(stream, decode) == OutcomeFrom(stream, i, decode)
      invariant finish == FinishOf(stream[..i]) && ordinary == Contents(stream[..i])
      invariant call.Some? <==> Called(stream[..i])
      invariant (if call.Some? then call.value else ToolCall("", "", "")) == CallOf(stream[..i])
    {
      var data := stream[i];
      assert stream[..i + 1][..i] == stream[..i];
      if data == Done {
        var tail := Conclude(stream[..i], finish, ordinary, call, decode);
        return events + tail, tail == [];
      }
      if data == Refused || (finish.Some? && Carries(data)) {
        return events, true;
      }
      CallGrows(stream, i);
      CallExtends(stream, i);
      if data.content.Some? {
        ordinary := ordinary + data.content.value;
      }
      if data.delta.Some? {
        var extended := ExtendCall(if call.Some? then call.value else ToolCall("", "", ""), data.delta.value);
        if extended == None {
          return events, true;
        }
        call := extended;
      }
      if data.content.Some? || data.reasoning.Some? || data.delta.Some? {
        events := events + [Fragment];
      }
      if data.finish.Some? {
        if data.finish.value == "" || finish.Some? {
          return events, true;
        }
        finish := data.finish;
      }
      if data.usage {
        events := events + [Usage];
      }
      i := i + 1;
    }
    return events, true;
  }

  /* What that amounts to */

  /** The stream ends at `n` with a reason, and everything before is proper. */
  ghost predicate EndsAt(stream: seq<Data>, n: int, reason: string) {
    0 <= n < |stream| && stream[n] == Done && Proper(stream[..n]) && FinishOf(stream[..n]) == Some(reason)
  }

  /**
   * The chunks `cs`, finished for `reason`, say to do `text`: one native call,
   * whole, named, with an id and arguments of exactly its own kind, or DONE in
   * so many words.
   */
  ghost predicate Says(cs: seq<Data>, reason: string, decode: Decoder, text: string) {
    || (reason == "tool_calls" && Called(cs) && IdOf(cs) != "" && decode(ArgumentText(cs)).Some?
        && match decode(ArgumentText(cs)).value
           case Arguments(Some(command), false, false) =>
             && Names(cs) == "execute_bash" && text == "```bash\n" + command + "\n```"
             && '\0' !in command && exists i :: 0 <= i < |command| && !Space(command[i])
           case Arguments(None, true, false) => Names(cs) == "finish" && text == "DONE"
           case _ => false)
    || (reason == "stop" && !Called(cs) && text == "DONE"
        && exists a, b :: Blank(a) && Blank(b) && Contents(cs) == a + "DONE" + b)
  }

  ghost predicate Settles(cs: seq<Data>, reason: string, decode: Decoder) {
    reason in {"tool_calls", "stop"} ==> exists text :: Says(cs, reason, decode, text)
  }

  /**
   * `stream_native_bash` after the request. It yields an action if and only if
   * the stream up to its first `[DONE]` is proper and says to do just that; any
   * reason but "tool_calls" and "stop" yields none and raises nothing, and it
   * raises in every other case. The chunks' own fragments come first, then the
   * action if there is one, then the reason.
   */
  method StreamNativeBash(stream: seq<Data>, decode: Decoder) returns (events: seq<Event>, raised: bool)
    ensures forall text :: Action(text) in events <==>
              exists n, reason :: EndsAt(stream, n, reason) && Says(stream[..n], reason, decode, text)
    ensures !raised <==>
              exists n, reason :: EndsAt(stream, n, reason) && Settles(stream[..n], reason, decode)
    ensures forall n, reason :: EndsAt(stream, n, reason) && !raised ==>
              && Fragments(stream[..n]) <= events && |events| <= |Fragments(stream[..n])| + 2
              && events != [] && events[|events| - 1] == Finished(reason)
    ensures forall i :: 0 <= i < |events| && events[i].Action? ==> i == |events| - 2
    ensures raised ==> Inert(events)
  {
    hide Outcome, Tail, EndsAt, Says;
    events, raised := ReadStream(stream, decode);
    EventsMean(stream, decode, events, raised);
  }

  /** The generator's last events, as `Outcome` has them. */
  ghost predicate Yields(stream: seq<Data>, decode: Decoder, events: seq<Event>, raised: bool) {
    && (raised <==> Outcome(stream, decode) == Failed)
    && (raised ==> Inert(events))
    && (!raised ==>
          exists n :: 0 <= n < |stream| && stream[n] == Done && Proper(stream[..n])
                      && events == Fragments(stream[..n]) + Tail(Outcome(stream, decode)))
  }

  lemma EventsMean(stream: seq<Data>, decode: Decoder, events: seq<Event>, raised: bool)
    requires Yields(stream, decode, events, raised)
    ensures forall text :: Action(text) in events <==>
              exists n, reason :: EndsAt(stream, n, reason) && Says(stream[..n], reason, decode, text)
    ensures !raised <==>
              exists n, reason :: EndsAt(stream, n, reason) && Settles(stream[..n], reason, decode)
    ensures forall n, reason :: EndsAt(stream, n, reason) && !raised ==>
              && Fragments(stream[..n]) <= events && |events| <= |Fragments(stream[..n])| + 2
              && events != [] && events[|events| - 1] == Finished(reason)
    ensures forall i :: 0 <= i < |events| && events[i].Action? ==> i == |events| - 2
  {
    hide Outcome, EndsAt, Says, AtDone, Yields, Tail;
    LastEvents(stream, decode, events, raised);
    if exists n, reason :: EndsAt(stream, n, reason) {
      var n, reason :| EndsAt(stream, n, reason);
      EndIs(stream, n, reason);
      EndIsDecided(stream, n, reason, decode);
      AtDoneMeans(stream[..n], reason, decode);
      forall m, other | EndsAt(stream, m, other)
        ensures m == n && other == reason
      {
        OneEnd(stream, n, reason, m, other);
      }
      forall m | 0 <= m < |stream| && stream[m] == Done && Proper(stream[..m])
        ensures m == n
      {
        OneDone(stream, n, reason, m);
      }
    } else {
      NoEnd(stream, decode);
    }
  }

  lemma LastEvents(stream: seq<Data>, decode: Decoder, events: seq<Event>, raised: bool)
    requires Yields(stream, decode, events, raised)
    ensures var v := Outcome(stream, decode);
            && (raised <==> v == Failed)
            && (forall text :: Action(text) in events <==> v.Ended? && v.action == Some(text))
            && (v.Ended? ==> events != [] && events[|events| - 1] == Finished(v.reason))
            && (v.Ended? ==> exists n :: 0 <= n < |stream| && stream[n] == Done && Proper(stream[..n])
                               && Fragments(stream[..n]) <= events && |events| <= |Fragments(stream[..n])| + 2)
            && forall i :: 0 <= i < |events| && events[i].Action? ==> i == |events| - 2
  {
    hide Outcome;
    if !raised {
      var tail := Tail(Outcome(stream, decode));
      var n :| 0 <= n < |stream| && stream[n] == Done && Proper(stream[..n]) && events == Fragments(stream[..n]) + tail;
      var before := Fragments(stream[..n]);
      assert events == before + tail;
      assert forall i :: 0 <= i < |before| ==> before[i] == events[i] && before[i] in before;
      forall text | Action(text) in events
        ensures Action(text) in tail
      {
      }
      assert |tail| == 2 ==> events[|events| - 2] == tail[0];
    }
  }

  lemma OneEnd(stream: seq<Data>, n: int, reason: string, m: int, other: string)
    requires EndsAt(stream, n, reason) && EndsAt(stream, m, other)
    ensures m == n && other == reason
  {
    OneDone(stream, n, reason, m);
  }

  lemma OneDone(stream: seq<Data>, n: int, reason: string, m: int)
    requires EndsAt(stream, n, reason) && 0 <= m < |stream| && stream[m] == Done && Proper(stream[..m])
    ensures m == n
  {
    if m < n {
      assert stream[..n][m] == stream[m];
      ProperAt(stream[..n], m);
    } else if n < m {
      assert stream[..m][n] == stream[n];
      ProperAt(stream[..m], n);
    }
  }

  lemma EndIs(stream: seq<Data>, n: int, reason: string)
    requires EndsAt(stream, n, reason)
    ensures 0 <= n < |stream| && FinishOf(stream[..n]) == Some(reason)
  {
  }

  lemma EndIsDecided(stream: seq<Data>, n: int, reason: string, decode: Decoder)
    requires EndsAt(stream, n, reason)
    ensures Outcome(stream, decode) == AtDone(stream[..n], decode)
  {
    hide AtDone;
    assert stream == stream[..n] + [Done] + stream[n + 1..];
    DecidedAtDone(stream[..n], stream[n + 1..], 0, decode);
  }

  lemma NoEnd(stream: seq<Data>, decode: Decoder)
    requires forall n, reason :: !EndsAt(stream, n, reason)
    ensures Outcome(stream, decode) == Failed
  {
    FailsFrom(stream, 0, decode);
  }

  lemma {:induction false} FailsFrom(stream: seq<Data>, i: nat, decode: Decoder)
    requires i <= |stream| && Proper(stream[..i])
    requires forall n, reason :: !EndsAt(stream, n, reason)
    ensures OutcomeFrom(stream, i, decode) == Failed
    decreases |stream| - i
  {
    if i < |stream| && stream[i] == Done {
      if FinishOf(stream[..i]).Some? {
        assert EndsAt(stream, i, FinishOf(stream[..i]).value);
      }
    } else if i < |stream| && Fits(stream[..i], stream[i]) {
      assert stream[..i + 1][..i] == stream[..i];
      FailsFrom(stream, i + 1, decode);
    }
  }

  lemma AtDoneMeans(cs: seq<Data>, reason: string, decode: Decoder)
    requires FinishOf(cs) == Some(reason)
    ensures var v := AtDone(cs, decode);
            && (forall text :: (v.Ended? && v.action == Some(text)) <==> Says(cs, reason, decode, text))
            && (v.Ended? ==> v.reason == reason)
            && (v.Ended? && v.action == None <==> reason !in {"tool_calls", "stop"})
  {
    hide FinishOf, Contents, Names, ArgumentText, IdOf, Called, Stripped;
    StrippedMeans(Contents(cs));
    forall text
      ensures (AtDone(cs, decode).Ended? && AtDone(cs, decode).action == Some(text)) <==> Says(cs, reason, decode, text)
    {
    }
  }

  /** `s.strip() == "DONE"`. */
  lemma StrippedMeans(s: string)
    ensures Stripped(s) == "DONE" <==> exists a, b :: Blank(a) && Blank(b) && s == a + "DONE" + b
  {
    var a, b := StrippedOff(s);
    if Stripped(s) != "DONE" && exists a, b :: Blank(a) && Blank(b) && s == a + "DONE" + b {
      var c, d :| Blank(c) && Blank(d) && s == c + "DONE" + d;
      StripsDone(c, d);
    }
  }

  lemma {:induction false} StrippedOff(s: string) returns (a: string, b: string)
    ensures Blank(a) && Blank(b) && s == a + Stripped(s) + b
    decreases |s|
  {
    if s != "" && Space(s[0]) {
      a, b := StrippedOff(s[1..]);
      a := [s[0]] + a;
    } else if s != "" && Space(s[|s| - 1]) {
      a, b := StrippedOff(s[..|s| - 1]);
      b := b + [s[|s| - 1]];
    } else {
      a, b := "", "";
    }
  }

  lemma {:induction false} StripsDone(a: string, b: string)
    requires Blank(a) && Blank(b)
    ensures Stripped(a + "DONE" + b) == "DONE"
    decreases |a| + |b|
  {
    var s := a + "DONE" + b;
    if a != "" {
      assert s[0] == a[0] && s[1..] == a[1..] + "DONE" + b;
      StripsDone(a[1..], b);
    } else if b != "" {
      assert s == "DONE" + b && s[|s| - 1] == b[|b| - 1] && s[..|s| - 1] == "" + "DONE" + b[..|b| - 1];
      StripsDone("", b[..|b| - 1]);
    } else {
      assert s == "DONE";
    }
  }

  /* What a proper stream is, chunk by chunk */

  predicate Delivers(c: Data) {
    c.Chunk? && c.delta.Some?
  }

  predicate Announces(c: Data, id: string) {
    Delivers(c) && c.delta.value.id == Some(id)
  }

  predicate Finishes(c: Data, reason: string) {
    c.Chunk? && c.finish == Some(reason)
  }

  /** All chunks well formed, one id at most, one reason at most and nothing to carry once it is given. */
  ghost predicate WellFormed(cs: seq<Data>) {
    && (forall i :: 0 <= i < |cs| ==> cs[i].Chunk? && (Delivers(cs[i]) ==> cs[i].delta.value.proper))
    && (forall i, id :: 0 <= i < |cs| && Announces(cs[i], id) ==> id != "")
    && (forall i, j, id, other :: 0 <= i < j < |cs| && Announces(cs[i], id) && Announces(cs[j], other) ==> id == other)
    && (forall i, r :: 0 <= i < |cs| && Finishes(cs[i], r) ==> r != "")
    && (forall i, j, r :: 0 <= i < j < |cs| && Finishes(cs[i], r) ==>
          cs[j].finish == None && cs[j].delta == None && cs[j].content in {None, Some("")}
          && cs[j].reasoning in {None, Some("")})
  }

  /** The id and the reason are those of the chunks that give one. */
  ghost predicate Given(cs: seq<Data>) {
    && (forall i, id :: 0 <= i < |cs| && Announces(cs[i], id) ==> IdOf(cs) == id)
    && (IdOf(cs) != "" ==> exists i :: 0 <= i < |cs| && Announces(cs[i], IdOf(cs)))
    && (forall i, r :: 0 <= i < |cs| && Finishes(cs[i], r) ==> FinishOf(cs) == Some(r))
    && (FinishOf(cs).Some? ==> exists i :: 0 <= i < |cs| && Finishes(cs[i], FinishOf(cs).value))
  }

  /** Checking chunk after chunk amounts to checking the whole. */
  lemma {:induction false} ProperIff(cs: seq<Data>)
    ensures Proper(cs) <==> WellFormed(cs)
    ensures Proper(cs) ==> Given(cs)
    decreases |cs|
  {
    if cs != [] {
      ProperIff(cs[..|cs| - 1]);
      LastFits(cs);
    }
  }

  lemma LastFits(cs: seq<Data>)
    requires cs != [] && (WellFormed(cs[..|cs| - 1]) ==> Given(cs[..|cs| - 1]))
    ensures WellFormed(cs) <==> WellFormed(cs[..|cs| - 1]) && Fits(cs[..|cs| - 1], cs[|cs| - 1])
    ensures WellFormed(cs) ==> Given(cs)
  {
    hide WellFormed, Given;
    var before, c := cs[..|cs| - 1], cs[|cs| - 1];
    if WellFormed(cs) {
      WellFormedBefore(cs);
      LastOf(cs);
    }
    if WellFormed(before) && Fits(before, c) {
      FitsOn(before, c);
      assert before + [c] == cs;
    }
    if WellFormed(cs) {
      GivenOn(cs);
    }
  }

  lemma WellFormedBefore(cs: seq<Data>)
    requires cs != [] && WellFormed(cs)
    ensures WellFormed(cs[..|cs| - 1])
  {
    var before := cs[..|cs| - 1];
    assert forall i :: 0 <= i < |before| ==> before[i] == cs[i];
  }

  lemma LastOf(cs: seq<Data>)
    requires cs != [] && WellFormed(cs) && Given(cs[..|cs| - 1])
    ensures Fits(cs[..|cs| - 1], cs[|cs| - 1])
  {
    var before, c := cs[..|cs| - 1], cs[|cs| - 1];
    assert forall i :: 0 <= i < |before| ==> before[i] == cs[i];
    if Delivers(c) && c.delta.value.id.Some? {
      assert Announces(c, c.delta.value.id.value);
    }
    if c.finish.Some? {
      assert Finishes(c, c.finish.value);
    }
  }

  lemma FitsOn(before: seq<Data>, c: Data)
    requires WellFormed(before) && Given(before) && Fits(before, c)
    ensures WellFormed(before + [c])
  {
    var cs := before + [c];
    assert forall i :: 0 <= i < |before| ==> cs[i] == before[i];
  }

  lemma GivenOn(cs: seq<Data>)
    requires cs != [] && WellFormed(cs) && Given(cs[..|cs| - 1])
    ensures Given(cs)
  {
    var before, c := cs[..|cs| - 1], cs[|cs| - 1];
    assert forall i :: 0 <= i < |before| ==> before[i] == cs[i];
    if Delivers(c) && c.delta.value.id.Some? {
      assert Announces(c, c.delta.value.id.value);
    }
    if c.finish.Some? {
      assert Finishes(c, c.finish.value);
    }
  }

  lemma CallGrows(stream: seq<Data>, i: nat)
    requires i < |stream|
    ensures Called(stream[..i + 1]) <==> Called(stream[..i]) || (stream[i].Chunk? && stream[i].delta.Some?)
    ensures !Called(stream[..i]) ==> CallOf(stream[..i]) == ToolCall("", "", "")
  {
    if Called(stream[..i]) {
      var k :| 0 <= k < i && stream[..i][k].Chunk? && stream[..i][k].delta.Some?;
      assert stream[..i + 1][k] == stream[..i][k];
    } else {
      Uncalled(stream[..i]);
    }
    if stream[i].Chunk? && stream[i].delta.Some? {
      assert stream[..i + 1][i] == stream[i];
    }
  }

  lemma NothingRead(stream: seq<Data>)
    ensures !Called(stream[..0]) && CallOf(stream[..0]) == ToolCall("", "", "")
  {
  }

  lemma CallExtends(stream: seq<Data>, i: nat)
    requires i < |stream| && stream[i].Chunk?
    ensures var before, after, delta := CallOf(stream[..i]), CallOf(stream[..i + 1]), stream[i].delta;
            if delta == None then after == before
            else after == ToolCall(if delta.value.id.Some? then delta.value.id.value else before.id,
                                   before.name + TextOf(delta.value.name),
                                   before.arguments + TextOf(delta.value.arguments))
    ensures CallOf(stream[..i]).id == IdOf(stream[..i])
  {
    assert stream[..i + 1][..i] == stream[..i];
    var before := CallOf(stream[..i]);
    assert before.name + "" == before.name && before.arguments + "" == before.arguments;
  }

  lemma {:induction false} Uncalled(cs: seq<Data>)
    requires !Called(cs)
    ensures CallOf(cs) == ToolCall("", "", "")
    decreases |cs|
  {
    if cs != [] {
      var before := cs[..|cs| - 1];
      assert forall i :: 0 <= i < |before| ==> before[i] == cs[i];
      Uncalled(before);
    }
  }

  /* Only the concatenation of fragments matters */

  /** A stream of proper chunks is decided at its `[DONE]`; what follows is never read. */
  lemma {:induction false} DecidedAtDone(cs: seq<Data>, rest: seq<Data>, i: nat, decode: Decoder)
    requires Proper(cs) && i <= |cs|
    ensures OutcomeFrom(cs + [Done] + rest, i, decode) == AtDone(cs, decode)
    decreases |cs| - i
  {
    var stream := cs + [Done] + rest;
    assert stream[..i] == cs[..i];
    if i == |cs| {
      assert cs[..i] == cs;
    } else {
      ProperAt(cs, i);
      DecidedAtDone(cs, rest, i + 1, decode);
    }
  }

  lemma {:induction false} ProperAt(cs: seq<Data>, i: nat)
    requires Proper(cs) && i < |cs|
    ensures Fits(cs[..i], cs[i])
    decreases |cs|
  {
    if i < |cs| - 1 {
      ProperAt(cs[..|cs| - 1], i);
      assert cs[..|cs| - 1][..i] == cs[..i];
    }
  }

  /**
   * The whole stream matters only through what it announces: two proper
   * streams with the same id, concatenated names, arguments and contents,
   * finish reason and presence of a call come to the same thing, however they
   * are cut and whatever follows `[DONE]`.
   */
  lemma ConcatenationDecides(p: seq<Data>, q: seq<Data>, rest: seq<Data>, other: seq<Data>, decode: Decoder)
    requires Proper(p) && Proper(q)
    requires IdOf(p) == IdOf(q) && Names(p) == Names(q) && ArgumentText(p) == ArgumentText(q)
    requires Contents(p) == Contents(q) && FinishOf(p) == FinishOf(q) && Called(p) == Called(q)
    ensures Outcome(p + [Done] + rest, decode) == Outcome(q + [Done] + other, decode)
  {
    DecidedAtDone(p, rest, 0, decode);
    DecidedAtDone(q, other, 0, decode);
  }

  /** Nothing later tells the two apart. */
  predicate Same(p: seq<Data>, q: seq<Data>) {
    && FinishOf(p) == FinishOf(q) && Called(p) == Called(q) && CallOf(p) == CallOf(q) && Contents(p) == Contents(q)
    && Proper(p) == Proper(q)
  }

  lemma SameNext(p: seq<Data>, q: seq<Data>, c: Data)
    requires Same(p, q)
    ensures Same(p + [c], q + [c])
  {
    assert (p + [c])[..|p|] == p && (q + [c])[..|q|] == q;
    CallGrows(p + [c], |p|);
    CallGrows(q + [c], |q|);
    assert (p + [c])[..|p| + 1] == p + [c] && (q + [c])[..|q| + 1] == q + [c];
  }

  lemma {:induction false} SameAfter(p: seq<Data>, q: seq<Data>, more: seq<Data>)
    requires Same(p, q)
    ensures Same(p + more, q + more)
    decreases |more|
  {
    if more == [] {
      assert p + more == p && q + more == q;
    } else {
      var before, c := more[..|more| - 1], more[|more| - 1];
      SameAfter(p, q, before);
      SameNext(p + before, q + before, c);
      assert p + before + [c] == p + more && q + before + [c] == q + more;
    }
  }

  function Piece(id: Option<string>, name: string, arguments: string): Data {
    Chunk(None, None, Some(Delta(true, id, Some(name), Some(arguments))), None, false)
  }

  lemma CutCalls(a: seq<Data>, id: Option<string>, u: string, v: string, x: string, y: string)
    ensures CallOf(a + [Piece(id, u + v, x + y)]) == CallOf(a + [Piece(id, u, x), Piece(None, v, y)])
  {
    hide CallOf, Names, ArgumentText, IdOf;
    var whole, cut := a + [Piece(id, u + v, x + y)], a + [Piece(id, u, x), Piece(None, v, y)];
    assert whole[..|a|] == a && cut[..|a|] == a && whole[..|a| + 1] == whole && cut[..|a| + 2] == cut;
    CallExtends(whole, |a|);
    CallExtends(cut, |a|);
    CallExtends(cut, |a| + 1);
    var before := CallOf(a);
    assert before.name + (u + v) == before.name + u + v && before.arguments + (x + y) == before.arguments + x + y;
  }

  lemma CutOnce(a: seq<Data>, id: Option<string>, u: string, v: string, x: string, y: string)
    ensures Same(a + [Piece(id, u + v, x + y)], a + [Piece(id, u, x), Piece(None, v, y)])
  {
    hide CallOf;
    var whole := a + [Piece(id, u + v, x + y)];
    var first := a + [Piece(id, u, x)];
    var cut := a + [Piece(id, u, x), Piece(None, v, y)];
    assert whole[..|a|] == a && cut[..|a|] == a && first[..|a|] == a;
    assert cut[..|a| + 1] == first && cut[..|a| + 2] == cut && whole[..|a| + 1] == whole;
    assert whole[|a|].delta.Some? && cut[|a|].delta.Some?;
    CutCalls(a, id, u, v, x, y);
    assert Contents(first) == Contents(a) + "" && Contents(a) + "" == Contents(a);
    assert FinishOf(cut) == FinishOf(first) == FinishOf(a);
    assert Proper(cut) <==> Proper(first) && Fits(first, cut[|a| + 1]);
  }

  /** In particular a name or argument fragment may be cut anywhere, and the stream stays proper. */
  lemma FragmentationIrrelevant(a: seq<Data>, id: Option<string>, u: string, v: string, x: string, y: string,
                                b: seq<Data>, rest: seq<Data>, decode: Decoder)
    requires Proper(a + [Piece(id, u + v, x + y)] + b)
    ensures Outcome(a + [Piece(id, u + v, x + y)] + b + [Done] + rest, decode)
            == Outcome(a + [Piece(id, u, x), Piece(None, v, y)] + b + [Done] + rest, decode)
    ensures Proper(a + [Piece(id, u, x), Piece(None, v, y)] + b)
  {
    var p, q := a + [Piece(id, u + v, x + y)], a + [Piece(id, u, x), Piece(None, v, y)];
    CutOnce(a, id, u, v, x, y);
    SameAfter(p, q, b);
    DecidedAtDone(p + b, rest, 0, decode);
    DecidedAtDone(q + b, rest, 0, decode);
  }
}
