/**
 * src/eval/model_tools.py: commands carried as native function calls, in the
 * history sent to the endpoint and in the stream that comes back.
 */
module ModelTools {
  import opened Common

  /* The canonical wrapper */

  const BASH_PREFIX := "```bash\n"
  const BASH_SUFFIX := "\n```"

  /** What `str.strip` removes, as far as Latin-1 goes. */
  predicate Space(c: char) {
    c in {' ', '\t', '\n', '\r', '\U{000B}', '\U{000C}', '\U{001C}', '\U{001D}', '\U{001E}', '\U{001F}',
          '\U{0085}', '\U{00A0}'}
  }

  predicate Blank(s: string) {
    forall c :: c in s ==> Space(c)
  }

  predicate Carriable(command: string) {
    !Blank(command) && '\0' !in command
  }

  function CanonicalBash(command: string): Option<string> {
    if Carriable(command) then Some(BASH_PREFIX + command + BASH_SUFFIX) else None
  }

  /** Python's `text[lo:-back]`. */
  function Slice(text: string, lo: nat, back: nat): string {
    if lo + back <= |text| then text[lo..|text| - back] else ""
  }

  predicate EndsWith(text: string, suffix: string) {
    |suffix| <= |text| && text[|text| - |suffix|..] == suffix
  }

  datatype Parsed = Malformed | Finish | Command(command: string)

  function ParseNativeAction(text: string): Parsed {
    if text == "DONE" then Finish
    else if !(BASH_PREFIX <= text) || !EndsWith(text, BASH_SUFFIX) then Malformed
    else
      var command := Slice(text, |BASH_PREFIX|, |BASH_SUFFIX|);
      if CanonicalBash(command) == Some(text) then Command(command) else Malformed
  }

  /** The parser inverts the wrapper and accepts nothing but its image and DONE. */
  lemma ParseInvertsCanonical(text: string, command: string)
    ensures ParseNativeAction(text) == Command(command) <==> CanonicalBash(command) == Some(text)
    ensures ParseNativeAction(text) == Finish <==> text == "DONE"
  {
    if CanonicalBash(command) == Some(text) {
      assert text[..|BASH_PREFIX|] == BASH_PREFIX;
      assert text[|text| - |BASH_SUFFIX|..] == BASH_SUFFIX;
      assert Slice(text, |BASH_PREFIX|, |BASH_SUFFIX|) == command;
      assert text[0] == '`' && "DONE"[0] == 'D';
    }
  }

  /** A character `str.strip` removes, by number. */
  predicate White(c: char) {
    var n := c as int;
    9 <= n <= 13 || 28 <= n <= 32 || n == 133 || n == 160
  }

  /** A command is what stands between the fences, provided it is not blank and holds no NUL. */
  lemma CommandIsWrapped(text: string, command: string)
    ensures ParseNativeAction(text) == Command(command) <==>
              && text == "```bash\n" + command + "\n```"
              && '\0' !in command && exists i :: 0 <= i < |command| && !White(command[i])
  {
    ParseInvertsCanonical(text, command);
    forall c: char
      ensures White(c) == Space(c)
    {
      WhiteIs(c);
    }
    hide White, Space, ParseNativeAction;
  }

  lemma WhiteIs(c: char)
    ensures White(c) == Space(c)
  {
    assert c == (c as int) as char;
  }

  /* History */

  datatype Message = Message(role: string, content: string)

  /** `id` is the number in the alias `sfx_call_<id>`. */
  datatype Native =
    | Plain(message: Message)
    | Call(id: nat, command: string)
    | Output(id: nat, content: string)

  predicate IsOutput(m: Message) {
    m.role == "user" && "Output:\n" <= m.content
  }

  predicate IsCommand(m: Message) {
    m.role == "assistant" && ParseNativeAction(m.content).Command?
  }

  /** A history the transport can carry: every command is followed by its output. */
  predicate Paired(messages: seq<Message>) {
    messages == []
    || (messages[0].role in {"system", "user"} && Paired(messages[1..]))
    || (|messages| >= 2 && IsCommand(messages[0]) && IsOutput(messages[1]) && Paired(messages[2..]))
  }

  /** Message `i` is a command and the next one its output. */
  ghost predicate Answered(messages: seq<Message>, i: nat)
    requires i < |messages|
  {
    && messages[i].role == "assistant" && i + 1 < |messages|
    && (exists command :: ParseNativeAction(messages[i].content) == Command(command))
    && messages[i + 1].role == "user" && "Output:\n" <= messages[i + 1].content
  }

  /** Message by message: whatever is neither the system's nor the user's is a command answered at once. */
  lemma {:induction false} PairedIff(messages: seq<Message>)
    ensures Paired(messages) <==>
              forall i :: 0 <= i < |messages| ==> messages[i].role in {"system", "user"} || Answered(messages, i)
    decreases |messages|
  {
    hide ParseNativeAction;
    if messages != [] {
      var n := if messages[0].role in {"system", "user"} || |messages| == 1 then 1 else 2;
      PairedIff(messages[n..]);
      forall i | n <= i < |messages|
        ensures Answered(messages, i) == Answered(messages[n..], i - n)
      {
      }
      forall i | 0 <= i < |messages| - n
        ensures messages[n..][i] == messages[i + n]
      {
      }
      assert messages[0].role !in {"system", "user"} ==>
               (Answered(messages, 0) <==> |messages| >= 2 && IsCommand(messages[0]) && IsOutput(messages[1]));
    }
  }

  /** The conversion of a paired history whose first command gets number `id`. */
  function Converted(messages: seq<Message>, id: nat): seq<Native> {
    if messages == [] then []
    else if messages[0].role in {"system", "user"} then [Plain(messages[0])] + Converted(messages[1..], id)
    else if |messages| >= 2 && IsCommand(messages[0]) then
      [Call(id, ParseNativeAction(messages[0].content).command), Output(id, messages[1].content)]
      + Converted(messages[2..], id + 1)
    else []
  }

  /** Back to canonical messages, one by one. */
  function Restored(native: seq<Native>): seq<Message> {
    if native == [] then []
    else
      var m := match native[0]
        case Plain(message) => message
        case Call(_, command) => Message("assistant", BASH_PREFIX + command + BASH_SUFFIX)
        case Output(_, content) => Message("user", content);
      [m] + Restored(native[1..])
  }

  /** The conversion loses nothing. */
  lemma {:induction false} HistoryRoundTrip(messages: seq<Message>, id: nat)
    requires Paired(messages)
    ensures Restored(Converted(messages, id)) == messages
    decreases |messages|
  {
    hide Paired, Converted, Restored, IsCommand, IsOutput, ParseNativeAction;
    ConvertedOnce(messages, id);
    if messages == [] {
      NothingRestored();
    } else {
      PairedOnce(messages);
      if messages[0].role in {"system", "user"} {
        HistoryRoundTrip(messages[1..], id);
        PlainRestored(messages[0], Converted(messages[1..], id));
      } else {
        HistoryRoundTrip(messages[2..], id + 1);
        PairRestored(messages[0], messages[1], Converted(messages[2..], id + 1), id);
        assert messages == [messages[0], messages[1]] + messages[2..];
      }
    }
  }

  lemma NothingRestored()
    ensures Restored([]) == []
  {
  }

  lemma PlainRestored(m: Message, rest: seq<Native>)
    ensures Restored([Plain(m)] + rest) == [m] + Restored(rest)
  {
    assert ([Plain(m)] + rest)[1..] == rest;
  }

  lemma PairRestored(call: Message, output: Message, rest: seq<Native>, id: nat)
    requires IsCommand(call) && IsOutput(output)
    ensures Restored([Call(id, ParseNativeAction(call.content).command), Output(id, output.content)] + rest)
            == [call, output] + Restored(rest)
  {
    hide ParseNativeAction, CanonicalBash;
    var command := ParseNativeAction(call.content).command;
    ParseInvertsCanonical(call.content, command);
    CanonicalText(command);
    var native := [Call(id, command), Output(id, output.content)] + rest;
    assert native[1..] == [Output(id, output.content)] + rest && native[1..][1..] == rest;
    assert Restored(native[1..]) == [output] + Restored(rest);
  }

  lemma CanonicalText(command: string)
    ensures CanonicalBash(command).Some? ==> CanonicalBash(command) == Some(BASH_PREFIX + command + BASH_SUFFIX)
  {
  }

  /** Calls are numbered from `id` on, each once, and answered at once by the output of the same number. */
  ghost predicate WellPaired(native: seq<Native>, id: nat) {
    && (forall i :: 0 <= i < |native| && native[i].Call? ==>
          id <= native[i].id && i + 1 < |native| && native[i + 1].Output? && native[i + 1].id == native[i].id)
    && (forall i :: 0 <= i < |native| && native[i].Output? ==> 0 < i && native[i - 1].Call? && native[i - 1].id == native[i].id)
    && (forall i, j :: 0 <= i < j < |native| && native[i].Call? && native[j].Call? ==> native[i].id < native[j].id)
  }

  lemma {:induction false} HistoryIsWellPaired(messages: seq<Message>, id: nat)
    requires Paired(messages)
    ensures WellPaired(Converted(messages, id), id)
    decreases |messages|
  {
    hide WellPaired, Paired, Converted, IsCommand, IsOutput, ParseNativeAction;
    ConvertedOnce(messages, id);
    if messages == [] {
      NothingPaired(id);
    } else {
      PairedOnce(messages);
      if messages[0].role in {"system", "user"} {
        HistoryIsWellPaired(messages[1..], id);
        PlainFirst(messages[0], Converted(messages[1..], id), id);
      } else {
        HistoryIsWellPaired(messages[2..], id + 1);
        PairFirst(ParseNativeAction(messages[0].content).command, messages[1].content,
                  Converted(messages[2..], id + 1), id);
      }
    }
  }

  lemma NothingPaired(id: nat)
    ensures WellPaired([], id)
  {
  }

  lemma PlainFirst(m: Message, rest: seq<Native>, id: nat)
    requires WellPaired(rest, id)
    ensures WellPaired([Plain(m)] + rest, id)
  {
    var native := [Plain(m)] + rest;
    assert forall i :: 1 <= i < |native| ==> native[i] == rest[i - 1];
  }

  lemma PairFirst(command: string, content: string, rest: seq<Native>, id: nat)
    requires WellPaired(rest, id + 1)
    ensures WellPaired([Call(id, command), Output(id, content)] + rest, id)
  {
    var native := [Call(id, command), Output(id, content)] + rest;
    assert forall i :: 2 <= i < |native| ==> native[i] == rest[i - 2];
    assert rest != [] ==> !rest[0].Output?;
  }

  lemma {:induction false} PairedAppend(a: seq<Message>, b: seq<Message>)
    requires Paired(a)
    ensures Paired(a + b) == Paired(b)
    decreases |a|
  {
    hide IsCommand, IsOutput;
    if a == [] {
      assert a + b == b;
    } else if a[0].role in {"system", "user"} {
      CommandRole(a[0]);
      PairedAppend(a[1..], b);
      assert (a + b)[1..] == a[1..] + b;
    } else {
      PairedAppend(a[2..], b);
      assert (a + b)[2..] == a[2..] + b;
    }
  }

  lemma CommandRole(m: Message)
    ensures IsCommand(m) ==> m.role !in {"system", "user"}
  {
  }

  lemma {:induction false} ConvertedAppend(a: seq<Message>, b: seq<Message>, id: nat)
    requires Paired(a)
    ensures Converted(a + b, id) == Converted(a, id) + Converted(b, id + Commands(a))
    decreases |a|
  {
    hide IsOutput, IsCommand, ParseNativeAction, Converted, Commands, Paired;
    if a == [] {
      assert a + b == b;
      ConvertedOnce(a, id);
    } else {
      PairedOnce(a);
      ConvertedOnce(a, id);
      ConvertedOnce(a + b, id);
      if a[0].role in {"system", "user"} {
        ConvertedAppend(a[1..], b, id);
        assert (a + b)[1..] == a[1..] + b;
      } else {
        ConvertedAppend(a[2..], b, id + 1);
        assert (a + b)[2..] == a[2..] + b;
      }
    }
  }

  lemma PairedOnce(messages: seq<Message>)
    requires Paired(messages) && messages != []
    ensures if messages[0].role in {"system", "user"} then Paired(messages[1..])
            else |messages| >= 2 && IsCommand(messages[0]) && IsOutput(messages[1]) && Paired(messages[2..])
  {
  }

  lemma ConvertedOnce(messages: seq<Message>, id: nat)
    ensures messages == [] ==> Converted(messages, id) == [] && Commands(messages) == 0
    ensures messages != [] && messages[0].role in {"system", "user"} ==>
              Converted(messages, id) == [Plain(messages[0])] + Converted(messages[1..], id)
              && Commands(messages) == Commands(messages[1..])
    ensures |messages| >= 2 && messages[0].role !in {"system", "user"} && IsCommand(messages[0]) ==>
              Converted(messages, id)
              == [Call(id, ParseNativeAction(messages[0].content).command), Output(id, messages[1].content)]
                 + Converted(messages[2..], id + 1)
              && Commands(messages) == 1 + Commands(messages[2..])
  {
  }

  function Commands(messages: seq<Message>): nat {
    if messages == [] then 0
    else if messages[0].role in {"system", "user"} then Commands(messages[1..])
    else if |messages| >= 2 then 1 + Commands(messages[2..])
    else 0
  }

  /** The loop of `native_bash_messages`; None when it raises. */
  method NativeBashMessages(messages: seq<Message>) returns (converted: Option<seq<Native>>)
    ensures converted == if Paired(messages) then Some(Converted(messages, 0)) else None
  {
    hide ParseNativeAction, Converted, Commands;
    var out: seq<Native>, pending: Option<nat>, callIndex := [], None, 0;
    var i := 0;
    ConvertedOnce(messages[..0], 0);
    while i < |messages|
      invariant 0 <= i <= |messages|
      invariant pending == None ==>
                  Paired(messages[..i]) && out == Converted(messages[..i], 0) && callIndex == Commands(messages[..i])
      invariant pending.Some? ==>
                  && 0 < i && IsCommand(messages[i - 1]) && Paired(messages[..i - 1])
                  && callIndex == Commands(messages[..i - 1]) + 1 && pending.value == callIndex - 1
                  && out == Converted(messages[..i - 1], 0)
                            + [Call(callIndex - 1, ParseNativeAction(messages[i - 1].content).command)]
    {
      var m := messages[i];
      if pending.Some? {
        if !IsOutput(m) {
          NotPaired(messages, i - 1);
          return None;
        }
        ReadPair(messages, i - 1);
        out := out + [Output(pending.value, m.content)];
        pending := None;
      } else if m.role == "assistant" {
        match ParseNativeAction(m.content)
        case Command(command) =>
          pending := Some(callIndex);
          callIndex := callIndex + 1;
          out := out + [Call(pending.value, command)];
        case _ =>
          NotPaired(messages, i);
          return None;
      } else if m.role in {"system", "user"} {
        ReadPlain(messages, i);
        out := out + [Plain(m)];
      } else {
        NotPaired(messages, i);
        return None;
      }
      i := i + 1;
    }
    if pending.Some? {
      NotPaired(messages, i - 1);
      return None;
    }
    assert messages[..i] == messages;
    converted := Some(out);
  }

  lemma NotPaired(messages: seq<Message>, i: nat)
    requires i < |messages| && Paired(messages[..i])
    requires messages[i].role !in {"system", "user"}
    requires !IsCommand(messages[i]) || i + 1 == |messages| || !IsOutput(messages[i + 1])
    ensures !Paired(messages)
  {
    PairedAppend(messages[..i], messages[i..]);
    assert messages[..i] + messages[i..] == messages;
    assert messages[i..][0] == messages[i];
    if i + 1 < |messages| {
      assert messages[i..][1] == messages[i + 1];
    }
  }

  lemma ReadPlain(messages: seq<Message>, i: nat)
    requires i < |messages| && Paired(messages[..i]) && messages[i].role in {"system", "user"}
    ensures Paired(messages[..i + 1]) && Commands(messages[..i + 1]) == Commands(messages[..i])
    ensures Converted(messages[..i + 1], 0) == Converted(messages[..i], 0) + [Plain(messages[i])]
  {
    var one := [messages[i]];
    assert one[1..] == [] && Paired(one[1..]);
    assert Paired(one) && forall id: nat :: Converted(one, id) == [Plain(messages[i])];
    PairedAppend(messages[..i], one);
    ConvertedAppend(messages[..i], one, 0);
    CommandsAppend(messages[..i], one);
    assert messages[..i] + one == messages[..i + 1];
  }

  lemma ReadPair(messages: seq<Message>, i: nat)
    requires i + 1 < |messages| && Paired(messages[..i]) && IsCommand(messages[i]) && IsOutput(messages[i + 1])
    ensures Paired(messages[..i + 2]) && Commands(messages[..i + 2]) == Commands(messages[..i]) + 1
    ensures Converted(messages[..i + 2], 0)
            == Converted(messages[..i], 0)
               + [Call(Commands(messages[..i]), ParseNativeAction(messages[i].content).command)]
               + [Output(Commands(messages[..i]), messages[i + 1].content)]
  {
    var two := [messages[i], messages[i + 1]];
    var id := Commands(messages[..i]);
    assert two[2..] == [];
    assert Converted(two, id) == [Call(id, ParseNativeAction(messages[i].content).command),
                                  Output(id, messages[i + 1].content)];
    PairedAppend(messages[..i], two);
    ConvertedAppend(messages[..i], two, 0);
    CommandsAppend(messages[..i], two);
    assert messages[..i] + two == messages[..i + 2];
  }

  lemma {:induction false} CommandsAppend(a: seq<Message>, b: seq<Message>)
    requires Paired(a)
    ensures Commands(a + b) == Commands(a) + Commands(b)
    decreases |a|
  {
    hide Paired, IsCommand, IsOutput;
    if a == [] {
      assert a + b == b;
      return;
    }
    PairedOnce(a);
    if a[0].role in {"system", "user"} {
      CommandsAppend(a[1..], b);
      assert (a + b)[1..] == a[1..] + b;
    } else {
      CommandsAppend(a[2..], b);
      assert (a + b)[2..] == a[2..] + b;
    }
  }
}
