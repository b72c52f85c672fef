/**
 * src/sfx/script_contracts.py: which invocations of a reviewed script count as
 * read-only, and the loop that decides it from an already split command line.
 */
module ScriptContracts {
  import opened Common
  import opened WritePaths

  /* Paths */

  /** The anchor `PurePosixPath` keeps: exactly two leading slashes stay two. */
  function Anchor(path: string): string {
    if path == "" || path[0] != '/' then ""
    else if |path| >= 2 && path[1] == '/' && (|path| == 2 || path[2] != '/') then "//"
    else "/"
  }

  function Joined(parts: seq<string>): string {
    if parts == [] then "."
    else if |parts| == 1 then parts[0]
    else parts[0] + "/" + Joined(parts[1..])
  }

  /** `_relative`: the path from the repository's root, if it stays inside it. */
  function Relative(path: string, repo: string): Option<string> {
    if path == "" || '\0' in path || ".." in Parts(path) || "//" <= path then None
    else if !Absolute(path) then Some(Joined(Parts(path)))
    else if Anchor(repo) == Anchor(path) && Parts(repo) <= Parts(path) then
      Some(Joined(Parts(path)[|Parts(repo)|..]))
    else None
  }

  /** A component as `Parts` produces it. */
  predicate Plain(part: string) {
    part != "" && part != "." && '/' !in part
  }

  lemma {:induction false} SplitPlain(part: string, rest: string)
    requires '/' !in part
    ensures Split(part + "/" + rest, '/') == [part] + Split(rest, '/')
    ensures Split(part, '/') == [part]
    decreases |part|
  {
    if part == "" {
      assert part + "/" + rest == "/" + rest && ("/" + rest)[1..] == rest;
    } else {
      SplitPlain(part[1..], rest);
      assert (part + "/" + rest)[1..] == part[1..] + "/" + rest;
      assert [part[0]] + part[1..] == part;
    }
  }

  /** Joining components and splitting the result again changes nothing. */
  lemma {:induction false} PartsOfJoined(parts: seq<string>)
    requires forall p :: p in parts ==> Plain(p)
    ensures Parts(Joined(parts)) == parts
    ensures !Absolute(Joined(parts))
    decreases |parts|
  {
    if parts == [] {
      assert Split(".", '/') == ["."] by { SplitPlain(".", ""); }
    } else {
      assert Plain(parts[0]);
      if |parts| == 1 {
        SplitPlain(parts[0], "");
        assert Named([parts[0]]) == [parts[0]] + Named([]);
        assert parts == [parts[0]];
      } else {
        var rest := parts[1..];
        PartsOfJoined(rest);
        SplitPlain(parts[0], Joined(rest));
        var pieces := Split(Joined(rest), '/');
        assert ([parts[0]] + pieces)[1..] == pieces;
        assert Named([parts[0]] + pieces) == [parts[0]] + Named(pieces);
      }
    }
  }

  lemma PartsArePlain(path: string)
    ensures forall p :: p in Parts(path) ==> Plain(p)
  {
  }

  /** Whatever `_relative` answers is relative, free of `..`, and answered for itself again. */
  lemma RelativeStaysInside(path: string, repo: string)
    requires Relative(path, repo).Some?
    ensures var r := Relative(path, repo).value;
            && !Absolute(r) && ".." !in Parts(r) && r != ""
            && Relative(r, repo) == Some(r)
  {
    var parts := if Absolute(path) then Parts(path)[|Parts(repo)|..] else Parts(path);
    PartsArePlain(path);
    PartsOfJoined(parts);
    JoinedNonempty(parts);
    SplitChars(path, '/', '\0');
    JoinedChars(parts, '\0');
    assert !("//" <= Joined(parts)) by {
      assert !Absolute(Joined(parts));
    }
  }

  /* What a path names */

  /** The components a path names, from the root when it is absolute and from the repository otherwise. */
  function Target(path: string, repo: string): seq<string> {
    if Absolute(path) then Parts(path) else Parts(repo) + Parts(path)
  }

  /** An ordinary root: POSIX keeps exactly two leading slashes apart. */
  predicate Rooted(repo: string) {
    Absolute(repo) && ("//" <= repo ==> "///" <= repo)
  }

  /** No way out: `path` can be named at all and has no `..`. */
  predicate Decent(path: string) {
    path != "" && '\0' !in path && ".." !in Parts(path) && !("//" <= path)
  }

  /**
   * `_relative`, exactly: an absolute path is accepted if and only if its
   * components are the repository's followed by others, a relative one always,
   * provided it is decent; and the answer names the same thing, under the
   * repository.
   */
  lemma RelativeIff(path: string, repo: string)
    requires Rooted(repo)
    ensures Relative(path, repo).Some? <==>
              Decent(path) && (Absolute(path) ==> exists rest :: Parts(path) == Parts(repo) + rest)
    ensures Relative(path, repo).Some? ==>
              var r := Relative(path, repo).value;
              && !Absolute(r) && Parts(repo) <= Target(path, repo)
              && Target(r, repo) == Target(path, repo) && Parts(repo + "/" + r) == Target(path, repo)
              && (!Absolute(path) ==> Parts(r) == Parts(path))
  {
    hide Parts, Joined;
    RelativeAccepts(path, repo);
    if Relative(path, repo).Some? {
      RelativeNames(path, repo);
    }
  }

  lemma RelativeAccepts(path: string, repo: string)
    requires Rooted(repo)
    ensures Relative(path, repo).Some? <==>
              Decent(path) && (Absolute(path) ==> exists rest :: Parts(path) == Parts(repo) + rest)
  {
    hide Parts, Joined;
    if Parts(repo) <= Parts(path) {
      assert Parts(path) == Parts(repo) + Parts(path)[|Parts(repo)|..];
    }
    assert Decent(path) && Absolute(path) ==> Anchor(path) == "/";
    assert Anchor(repo) == "/";
  }

  lemma RelativeNames(path: string, repo: string)
    requires Rooted(repo) && Relative(path, repo).Some?
    ensures var r := Relative(path, repo).value;
            && !Absolute(r) && Parts(repo) <= Target(path, repo)
            && Target(r, repo) == Target(path, repo) && Parts(repo + "/" + r) == Target(path, repo)
            && (!Absolute(path) ==> Parts(r) == Parts(path))
  {
    hide Parts, Joined, Anchor;
    var parts := if Absolute(path) then Parts(path)[|Parts(repo)|..] else Parts(path);
    PartsArePlain(path);
    PartsOfJoined(parts);
    PartsOfRejoined(repo, Joined(parts));
    if Absolute(path) {
      assert Parts(path) == Parts(repo) + parts;
    }
  }

  lemma {:induction false} NamedSplit(a: seq<string>, b: seq<string>)
    ensures Named(a + b) == Named(a) + Named(b)
    decreases |a|
  {
    if a == [] {
      assert a + b == b;
    } else {
      assert (a + b)[1..] == a[1..] + b;
      NamedSplit(a[1..], b);
    }
  }

  lemma SplitHead(c: char, tail: string)
    ensures Split([c] + tail, '/')
            == if c == '/' then [""] + Split(tail, '/') else [[c] + Split(tail, '/')[0]] + Split(tail, '/')[1..]
  {
    assert ([c] + tail)[1..] == tail;
  }

  lemma SplitNothing(rest: string)
    ensures Split("", '/') == [""] && Split("" + "/" + rest, '/') == [""] + Split(rest, '/')
  {
    SplitHead('/', rest);
    assert "" + "/" + rest == ['/'] + rest;
  }

  lemma {:induction false} SplitAt(s: string, rest: string)
    ensures Split(s + "/" + rest, '/') == Split(s, '/') + Split(rest, '/')
    decreases |s|
  {
    hide Split;
    if s == "" {
      SplitNothing(rest);
    } else {
      SplitAt(s[1..], rest);
      SplitHead(s[0], s[1..]);
      SplitHead(s[0], s[1..] + "/" + rest);
      assert [s[0]] + s[1..] == s && [s[0]] + (s[1..] + "/" + rest) == s + "/" + rest;
      var a, b := Split(s[1..], '/'), Split(rest, '/');
      assert (a + b)[0] == a[0] && (a + b)[1..] == a[1..] + b;
    }
  }

  lemma PartsOfRejoined(repo: string, r: string)
    ensures Parts(repo + "/" + r) == Parts(repo) + Parts(r)
  {
    SplitAt(repo, r);
    NamedSplit(Split(repo, '/'), Split(r, '/'));
  }

  lemma {:induction false} SplitChars(s: string, sep: char, c: char)
    requires c !in s
    ensures forall p :: p in Split(s, sep) ==> c !in p
    decreases |s|
  {
    if s != "" {
      SplitChars(s[1..], sep, c);
    }
  }

  lemma {:induction false} JoinedChars(parts: seq<string>, c: char)
    requires c != '/' && c != '.' && forall p :: p in parts ==> c !in p
    ensures c !in Joined(parts)
    decreases |parts|
  {
    if |parts| > 1 {
      JoinedChars(parts[1..], c);
    }
  }

  lemma JoinedNonempty(parts: seq<string>)
    requires forall p :: p in parts ==> Plain(p)
    ensures Joined(parts) != ""
  {
    if parts != [] {
      assert Plain(parts[0]);
    }
  }

  /* Contracts */

  datatype Contract = Contract(
    script: string,
    positionals: nat,
    pathOptions: seq<string>,
    valueOptions: seq<string>,
    flags: seq<string>,
    required: seq<string>,
    pins: Option<map<string, string>>)

  /** `--[a-z][a-z0-9-]*`. */
  predicate LongFlag(s: string) {
    |s| >= 3 && s[0] == '-' && s[1] == '-' && 'a' <= s[2] <= 'z'
    && forall i :: 3 <= i < |s| ==> 'a' <= s[i] <= 'z' || '0' <= s[i] <= '9' || s[i] == '-'
  }

  const MUTATIONS := {"--apply-fixes", "--fix", "--fix-only", "--unsafe-fixes", "--write",
                      "--output", "--output-file", "--output-dir", "--out", "--in-place"}

  function Options(d: Contract): seq<string> {
    d.pathOptions + d.valueOptions + d.flags
  }

  ghost predicate Distinct<T>(s: seq<T>) {
    forall i, j :: 0 <= i < j < |s| ==> s[i] != s[j]
  }

  predicate PythonFile(path: string) {
    |path| >= 3 && path[|path| - 3..] == ".py"
  }

  /** What the constructor demands of one definition's options and count. */
  ghost predicate ValidContract(d: Contract) {
    && d.positionals <= 16
    && (forall o :: o in Options(d) ==> LongFlag(o) && o !in MUTATIONS)
    && Distinct(Options(d)) && Distinct(d.required)
    && (forall o :: o in d.required ==> o in Options(d))
    && Relative(d.script, "/app") == Some(d.script) && !Absolute(d.script) && PythonFile(d.script)
  }

  /** `[\w./-]+`, for whatever `word` takes as a word character. */
  predicate PathText(path: string, word: char -> bool) {
    path != "" && forall c :: c in path ==> word(c) || c in {'.', '/', '-'}
  }

  /** `[0-9a-f]{64}`. */
  predicate Digest(s: string) {
    |s| == 64 && forall c :: c in s ==> '0' <= c <= '9' || 'a' <= c <= 'f'
  }

  /** What the constructor demands of a script's name and of the pins of reviewed sources. */
  predicate WellNamed(d: Contract, word: char -> bool) {
    && PathText(d.script, word)
    && (d.pins.Some? ==>
          && d.script in d.pins.value
          && forall path :: path in d.pins.value ==>
               && Relative(path, "/app") == Some(path) && !Absolute(path) && PathText(path, word) && path != "."
               && Digest(d.pins.value[path]))
  }

  ghost predicate ValidContracts(ds: seq<Contract>) {
    && (forall d :: d in ds ==> ValidContract(d))
    && (forall i, j :: 0 <= i < j < |ds| ==> ds[i].script != ds[j].script)
  }

  method AllDistinct(s: seq<string>) returns (distinct: bool)
    ensures distinct == Distinct(s)
  {
    var seen: set<string> := {};
    var i := 0;
    while i < |s|
      invariant 0 <= i <= |s|
      invariant Distinct(s[..i])
      invariant forall x :: x in seen <==> x in s[..i]
    {
      if s[i] in seen {
        var j :| 0 <= j < i && s[..i][j] == s[i];
        return false;
      }
      seen := seen + {s[i]};
      i := i + 1;
    }
    return true;
  }

  /** The validation of one definition in `__init__`. */
  method CheckContract(d: Contract, word: char -> bool) returns (valid: bool)
    ensures valid == (ValidContract(d) && WellNamed(d, word))
  {
    var options := AllDistinct(Options(d));
    var required := AllDistinct(d.required);
    valid := d.positionals <= 16 && options && required
             && (forall o :: o in Options(d) ==> LongFlag(o) && o !in MUTATIONS)
             && (forall o :: o in d.required ==> o in Options(d))
             && Relative(d.script, "/app") == Some(d.script) && !Absolute(d.script) && PythonFile(d.script)
             && WellNamed(d, word);
  }

  /** The loop of `__init__`; false when it raises. */
  method CheckContracts(ds: seq<Contract>, word: char -> bool) returns (valid: bool)
    ensures valid == (ValidContracts(ds) && forall d :: d in ds ==> WellNamed(d, word))
  {
    hide ValidContract, WellNamed;
    var seen: set<string> := {};
    var i := 0;
    while i < |ds|
      invariant 0 <= i <= |ds|
      invariant forall k :: 0 <= k < i ==> ValidContract(ds[k]) && WellNamed(ds[k], word)
      invariant forall k, l :: 0 <= k < l < i ==> ds[k].script != ds[l].script
      invariant seen == set k | 0 <= k < i :: ds[k].script
    {
      var one := CheckContract(ds[i], word);
      if !one || ds[i].script in seen {
        assert ds[i] in ds;
        return false;
      }
      assert forall k :: 0 <= k < i ==> ds[k].script in seen;
      seen := seen + {ds[i].script};
      i := i + 1;
    }
    return true;
  }

  /* The grammar */

  /** One meaningful unit of a command line. */
  datatype Item =
    | Flag(option: string)
    | Valued(option: string, text: string, inline: bool)
    | Positional(text: string)

  function Rendered(it: Item): seq<string> {
    match it
    case Flag(o) => [o]
    case Valued(o, v, inline) => if inline then [o + "=" + v] else [o, v]
    case Positional(w) => [w]
  }

  function RenderedAll(items: seq<Item>): seq<string> {
    if items == [] then [] else Rendered(items[0]) + RenderedAll(items[1..])
  }

  predicate DashLed(w: string) {
    w != "" && w[0] == '-'
  }

  /** A declared flag, a declared option with a proper value, or a path. */
  predicate ItemOk(it: Item, d: Contract, repo: string) {
    match it
    case Flag(o) => o in d.flags
    case Valued(o, v, _) =>
      && o in d.pathOptions + d.valueOptions && v != "" && !DashLed(v)
      && (o in d.pathOptions ==> Relative(v, repo).Some?)
    case Positional(w) => !DashLed(w) && Relative(w, repo).Some?
  }

  ghost predicate ItemsOk(items: seq<Item>, d: Contract, repo: string) {
    forall it :: it in items ==> ItemOk(it, d, repo)
  }

  function Supplied(items: seq<Item>): seq<string> {
    if items == [] then []
    else
      var last := items[|items| - 1];
      Supplied(items[..|items| - 1]) + if last.Positional? then [] else [last.option]
  }

  function PositionalCount(items: seq<Item>): nat {
    if items == [] then 0
    else PositionalCount(items[..|items| - 1]) + if items[|items| - 1].Positional? then 1 else 0
  }

  /** The repository paths an invocation names, in order. */
  function PathsOf(items: seq<Item>, d: Contract, repo: string): seq<string>
  {
    if items == [] then []
    else
      var last := items[|items| - 1];
      PathsOf(items[..|items| - 1], d, repo)
      + if (last.Positional? || (last.Valued? && last.option in d.pathOptions)) && Relative(last.text, repo).Some?
        then [Relative(last.text, repo).value] else []
  }

  ghost predicate HelpOnly(items: seq<Item>) {
    (forall o :: o in Supplied(items) <==> o == "--help") && PositionalCount(items) == 0
  }

  /** The grammar: `items` is a reading of `args` that the contract allows. */
  ghost predicate Allowed(items: seq<Item>, args: seq<string>, d: Contract, repo: string) {
    && RenderedAll(items) == args
    && ItemsOk(items, d, repo)
    && Distinct(Supplied(items))
    && ("--help" in Supplied(items) ==> HelpOnly(items))
    && (HelpOnly(items) ||
          (PositionalCount(items) == d.positionals && forall o :: o in d.required ==> o in Supplied(items)))
  }

  /* Reading a command line is deterministic */

  /** `word.partition("=")[0]`: everything when there is no `=`. */
  function OptionOf(w: string): string {
    if w == "" || w[0] == '=' then "" else [w[0]] + OptionOf(w[1..])
  }

  /** `word.partition("=")[2]`. */
  function AfterEquals(w: string): string {
    if w == "" then "" else if w[0] == '=' then w[1..] else AfterEquals(w[1..])
  }

  lemma {:induction false} Partition(o: string, v: string)
    requires '=' !in o
    ensures OptionOf(o + "=" + v) == o && AfterEquals(o + "=" + v) == v && OptionOf(o) == o
    decreases |o|
  {
    var w := o + "=" + v;
    if o == "" {
      assert w[1..] == v;
    } else {
      Partition(o[1..], v);
      assert w[1..] == o[1..] + "=" + v && w[0] == o[0];
      assert [o[0]] + o[1..] == o;
    }
  }

  lemma {:induction false} Unpartition(w: string)
    ensures '=' in w ==> OptionOf(w) + "=" + AfterEquals(w) == w
    ensures '=' !in w ==> OptionOf(w) == w
    decreases |w|
  {
    if w != "" {
      Unpartition(w[1..]);
      assert w == [w[0]] + w[1..];
    }
  }

  /** What the loop of `match` makes of the words from the current one on. */
  function NextItem(args: seq<string>, d: Contract, repo: string): Option<Item>
    requires args != []
  {
    var word := args[0];
    var it :=
      if !DashLed(word) then Some(Positional(word))
      else if OptionOf(word) in d.flags then if '=' in word then None else Some(Flag(word))
      else if '=' in word then Some(Valued(OptionOf(word), AfterEquals(word), true))
      else if |args| >= 2 then Some(Valued(word, args[1], false))
      else None;
    if it.Some? && ItemOk(it.value, d, repo) then it else None
  }

  lemma NextItemSound(args: seq<string>, d: Contract, repo: string)
    requires args != [] && NextItem(args, d, repo).Some?
    ensures ItemOk(NextItem(args, d, repo).value, d, repo)
    ensures Rendered(NextItem(args, d, repo).value) <= args
  {
    Unpartition(args[0]);
  }

  lemma DeclaredOption(d: Contract, o: string)
    requires ValidContract(d) && o in Options(d)
    ensures DashLed(o) && '=' !in o
    ensures o in d.flags ==> o !in d.pathOptions + d.valueOptions
  {
    assert LongFlag(o);
    DistinctHalves(d.pathOptions + d.valueOptions, d.flags, o);
  }

  lemma DistinctHalves<T>(a: seq<T>, b: seq<T>, x: T)
    requires Distinct(a + b)
    ensures x in a ==> x !in b
  {
    forall i, j | 0 <= i < |a| && 0 <= j < |b|
      ensures a[i] != b[j]
    {
      assert (a + b)[i] == a[i] && (a + b)[|a| + j] == b[j];
    }
  }

  lemma NextItemComplete(args: seq<string>, it: Item, d: Contract, repo: string)
    requires ValidContract(d) && ItemOk(it, d, repo) && Rendered(it) <= args && args != []
    ensures NextItem(args, d, repo) == Some(it)
  {
    match it
    case Flag(o) =>
      DeclaredOption(d, o);
      Partition(o, "");
    case Valued(o, v, inline) =>
      DeclaredOption(d, o);
      Partition(o, v);
      if inline {
        assert (o + "=" + v)[|o|] == '=';
      }
    case Positional(w) =>
  }

  lemma {:induction false} RenderedSplit(a: seq<Item>, b: seq<Item>)
    ensures RenderedAll(a + b) == RenderedAll(a) + RenderedAll(b)
    decreases |a|
  {
    if a == [] {
      assert a + b == b;
    } else {
      assert (a + b)[1..] == a[1..] + b;
      RenderedSplit(a[1..], b);
    }
  }

  /** Any allowed reading that starts with `items` goes on with the next item. */
  lemma ReadingGoesOn(items: seq<Item>, rest: seq<Item>, args: seq<string>, index: nat, d: Contract, repo: string)
    requires ValidContract(d) && index < |args|
    requires RenderedAll(items) == args[..index]
    requires RenderedAll(items + rest) == args && ItemsOk(items + rest, d, repo)
    ensures rest != [] && NextItem(args[index..], d, repo) == Some(rest[0])
  {
    hide NextItem, ItemOk, ValidContract, RenderedAll, Rendered, ItemsOk;
    RestRendered(items, rest, args, index);
    OkAt(items + rest, |items|, d, repo);
    NextItemComplete(args[index..], rest[0], d, repo);
  }

  lemma OkAt(items: seq<Item>, i: nat, d: Contract, repo: string)
    requires i < |items| && ItemsOk(items, d, repo)
    ensures ItemOk(items[i], d, repo)
  {
    hide ItemOk;
    assert items[i] in items;
  }

  lemma PrefixAndRest<T>(a: seq<T>, b: seq<T>)
    requires a <= b
    ensures a + b[|a|..] == b
    ensures b[|a|..] != [] ==> |a| < |b| && b[|a|..][0] == b[|a|]
  {
  }

  lemma RestRendered(items: seq<Item>, rest: seq<Item>, args: seq<string>, index: nat)
    requires index < |args|
    requires RenderedAll(items) == args[..index] && RenderedAll(items + rest) == args
    ensures rest != [] && Rendered(rest[0]) <= args[index..]
  {
    hide RenderedAll, Rendered;
    RenderedSplit(items, rest);
    SuffixIs(RenderedAll(rest), args, index);
    FirstRendered(rest);
  }

  lemma SuffixIs<T>(rest: seq<T>, args: seq<T>, index: nat)
    requires index < |args| && args[..index] + rest == args
    ensures rest == args[index..] && rest != []
  {
    assert (args[..index] + rest)[index..] == rest;
  }

  lemma FirstRendered(items: seq<Item>)
    ensures items == [] ==> RenderedAll(items) == []
    ensures items != [] ==> Rendered(items[0]) <= RenderedAll(items)
  {
  }

  /** One more item read: what the loop's variables stand for. */
  lemma ItemRead(items: seq<Item>, args: seq<string>, index: nat, d: Contract, repo: string)
    requires index < |args| && RenderedAll(items) == args[..index] && ItemsOk(items, d, repo)
    requires NextItem(args[index..], d, repo).Some?
    ensures var it := NextItem(args[index..], d, repo).value;
            var more := items + [it];
            && index + |Rendered(it)| <= |args|
            && RenderedAll(more) == args[..index + |Rendered(it)|] && ItemsOk(more, d, repo)
            && Supplied(more) == Supplied(items) + (if it.Positional? then [] else [it.option])
            && PositionalCount(more) == PositionalCount(items) + (if it.Positional? then 1 else 0)
            && PathsOf(more, d, repo) == PathsOf(items, d, repo)
                 + if it.Positional? || (it.Valued? && it.option in d.pathOptions)
                   then [Relative(it.text, repo).value] else []
  {
    NextItemSound(args[index..], d, repo);
    var it := NextItem(args[index..], d, repo).value;
    var more := items + [it];
    assert more[..|items|] == items;
    RenderedSplit(items, [it]);
    assert RenderedAll([it]) == Rendered(it) + RenderedAll([]);
    var k := |Rendered(it)|;
    assert Rendered(it) == args[index..][..k];
    assert args[..index + k] == args[..index] + args[index..][..k];
  }

  /** The state of the loop of `match` after `items`, which every allowed reading starts with. */
  ghost predicate Reading(items: seq<Item>, args: seq<string>, index: nat, supplied: set<string>,
                          paths: seq<string>, positionals: nat, d: Contract, repo: string)
  {
    && index <= |args|
    && RenderedAll(items) == args[..index] && ItemsOk(items, d, repo) && Distinct(Supplied(items))
    && (forall o :: o in supplied <==> o in Supplied(items))
    && paths == [d.script] + PathsOf(items, d, repo) && positionals == PositionalCount(items)
    && forall full :: Allowed(full, args, d, repo) ==> items <= full
  }

  lemma ReadingNext(items: seq<Item>, args: seq<string>, index: nat, supplied: set<string>,
                    paths: seq<string>, positionals: nat, d: Contract, repo: string)
    requires ValidContract(d) && index < |args|
    requires Reading(items, args, index, supplied, paths, positionals, d, repo)
    ensures NextItem(args[index..], d, repo) == None ==> forall full :: !Allowed(full, args, d, repo)
    ensures NextItem(args[index..], d, repo).Some? ==>
              var it := NextItem(args[index..], d, repo).value;
              if !it.Positional? && it.option in supplied then forall full :: !Allowed(full, args, d, repo)
              else Reading(items + [it], args, index + |Rendered(it)|,
                           if it.Positional? then supplied else supplied + {it.option},
                           if it.Positional? || (it.Valued? && it.option in d.pathOptions)
                           then paths + [Relative(it.text, repo).value] else paths,
                           if it.Positional? then positionals + 1 else positionals, d, repo)
  {
    hide NextItem, Relative, RenderedAll, ItemsOk, ValidContract, PathsOf, PositionalCount, Supplied, HelpOnly;
    var next := NextItem(args[index..], d, repo);
    forall full | Allowed(full, args, d, repo)
      ensures next.Some? && items + [next.value] <= full
      ensures !next.value.Positional? ==> next.value.option !in supplied
    {
      PrefixAndRest(items, full);
      ReadingGoesOn(items, full[|items|..], args, index, d, repo);
      assert full[..|items|] + [full[|items|]] == full[..|items| + 1];
      ItemRead(items, args, index, d, repo);
      SuppliedGrows(items + [next.value], full);
      if !next.value.Positional? && next.value.option in supplied {
        RepeatedOption(Supplied(items), next.value.option, Supplied(full));
        assert false;
      }
    }
    if next.Some? {
      ItemRead(items, args, index, d, repo);
    }
  }

  lemma RepeatedOption(s: seq<string>, o: string, full: seq<string>)
    requires o in s && s + [o] <= full
    ensures !Distinct(full)
  {
    var i :| 0 <= i < |s| && s[i] == o;
    assert full[i] == (s + [o])[i] && full[|s|] == (s + [o])[|s|];
  }

  lemma {:induction false} SuppliedGrows(a: seq<Item>, b: seq<Item>)
    requires a <= b
    ensures Supplied(a) <= Supplied(b)
    decreases |b|
  {
    if |a| < |b| {
      SuppliedGrows(a, b[..|b| - 1]);
    } else {
      assert a == b;
    }
  }

  /* The loop */

  datatype Invocation = Invocation(script: string, paths: seq<string>, pins: map<string, string>)

  function PinsOf(d: Contract): map<string, string> {
    if d.pins.Some? then d.pins.value else map[]
  }

  /** `inv` is what some contract makes of `words` under the reading `items`. */
  ghost predicate Matches(words: seq<string>, repo: string, ds: seq<Contract>, d: Contract, items: seq<Item>,
                          inv: Invocation)
  {
    && |words| >= 2 && words[0] in {"python", "python3"}
    && d in ds && Relative(words[1], repo) == Some(d.script)
    && Allowed(items, words[2..], d, repo)
    && inv == Invocation(d.script, [d.script] + PathsOf(items, d, repo), PinsOf(d))
  }

  /** The loop of `match` over the words after the script. */
  method ReadArgs(args: seq<string>, d: Contract, repo: string)
      returns (paths: Option<seq<string>>, ghost items: seq<Item>)
    requires ValidContract(d)
    ensures paths.Some? ==> Allowed(items, args, d, repo) && paths.value == [d.script] + PathsOf(items, d, repo)
    ensures paths == None ==> forall full :: !Allowed(full, args, d, repo)
  {
    hide Reading, ValidContract, Relative, Allowed, ItemOk;
    items := [];
    var found, positionals, index := [d.script], 0, 0;
    var supplied: set<string> := {};
    ReadingStarts(args, d, repo);
    while index < |args|
      invariant index <= |args| && Reading(items, args, index, supplied, found, positionals, d, repo)
      decreases |args| - index
    {
      var word := args[index];
      ReadingNext(items, args, index, supplied, found, positionals, d, repo);
      ghost var next := NextItem(args[index..], d, repo);
      ghost var at := index;
      NextItemIs(args, index, d, repo);
      if DashLed(word) {
        var option := OptionOf(word);
        var separator := '=' in word;
        var value := AfterEquals(word);
        if option in supplied {
          return None, [];
        }
        if option in d.flags {
          if separator {
            return None, [];
          }
        } else if option in d.pathOptions + d.valueOptions {
          if !separator {
            index := index + 1;
            if index == |args| {
              return None, [];
            }
            value := args[index];
          }
          if value == "" || DashLed(value) {
            return None, [];
          }
          if option in d.pathOptions {
            var relative := Relative(value, repo);
            if relative == None {
              return None, [];
            }
            found := found + [relative.value];
          }
        } else {
          return None, [];
        }
        supplied := supplied + {option};
      } else {
        var relative := Relative(word, repo);
        if relative == None {
          return None, [];
        }
        found := found + [relative.value];
        positionals := positionals + 1;
      }
      index := index + 1;
      items := items + [next.value];
    }
    ReadingEnds(items, args, supplied, found, positionals, d, repo);
    var helpOnly := supplied == {"--help"} && positionals == 0;
    if "--help" in supplied && !helpOnly {
      return None, [];
    }
    if !helpOnly && (positionals != d.positionals || exists o :: o in d.required && o !in supplied) {
      return None, [];
    }
    paths := Some(found);
  }

  lemma ReadingStarts(args: seq<string>, d: Contract, repo: string)
    ensures Reading([], args, 0, {}, [d.script], 0, d, repo)
  {
  }

  /** What `NextItem` says, in the terms the loop tests. */
  lemma NextItemIs(args: seq<string>, index: nat, d: Contract, repo: string)
    requires index < |args| && ValidContract(d)
    ensures var word := args[index];
            var next := NextItem(args[index..], d, repo);
            if !DashLed(word) then
              next == if Relative(word, repo).Some? then Some(Positional(word)) else None
            else if OptionOf(word) in d.flags then
              next == if '=' in word then None else Some(Flag(OptionOf(word)))
            else if OptionOf(word) !in d.pathOptions + d.valueOptions then next == None
            else if '=' !in word && index + 1 == |args| then next == None
            else
              var value := if '=' in word then AfterEquals(word) else args[index + 1];
              next == if value != "" && !DashLed(value)
                         && (OptionOf(word) in d.pathOptions ==> Relative(value, repo).Some?)
                      then Some(Valued(OptionOf(word), value, '=' in word)) else None
  {
    Unpartition(args[index]);
    assert args[index..][0] == args[index];
    if index + 1 < |args| {
      assert args[index..][1] == args[index + 1];
    }
  }

  lemma ReadingEnds(items: seq<Item>, args: seq<string>, supplied: set<string>, paths: seq<string>,
                    positionals: nat, d: Contract, repo: string)
    requires Reading(items, args, |args|, supplied, paths, positionals, d, repo)
    ensures paths == [d.script] + PathsOf(items, d, repo)
    ensures var helpOnly := supplied == {"--help"} && positionals == 0;
            if ("--help" in supplied && !helpOnly)
               || (!helpOnly && (positionals != d.positionals || exists o :: o in d.required && o !in supplied))
            then forall full :: !Allowed(full, args, d, repo)
            else Allowed(items, args, d, repo)
  {
    hide Relative, ItemOk, PathsOf, Supplied, PositionalCount;
    assert args[..|args|] == args;
    forall full | Allowed(full, args, d, repo)
      ensures full == items
    {
      RenderedOnce(items, full);
    }
  }

  /** Nothing can be added to a reading without adding words. */
  lemma RenderedOnce(items: seq<Item>, full: seq<Item>)
    requires items <= full && RenderedAll(items) == RenderedAll(full)
    ensures items == full
  {
    var rest := full[|items|..];
    assert full == items + rest;
    RenderedSplit(items, rest);
    FirstRendered(rest);
  }

  /** `path` is what `word`, or the value in it, names in the repository. */
  ghost predicate NamedBy(path: string, word: string, repo: string) {
    exists text :: && (text == word || exists option :: word == option + "=" + text)
                   && Decent(text) && !Absolute(path) && Parts(repo) <= Target(text, repo)
                   && Parts(repo + "/" + path) == Target(text, repo)
  }

  ghost predicate Sourced(path: string, args: seq<string>, repo: string) {
    exists word :: word in args && NamedBy(path, word, repo)
  }

  /**
   * An accepted invocation names what its words name, all of it under the
   * repository: the script is a reviewed one and the second word's file, and
   * each path is some word's.
   */
  ghost predicate NamesFiles(words: seq<string>, repo: string, ds: seq<Contract>, inv: Invocation) {
    && |words| >= 2 && words[0] in {"python", "python3"}
    && (exists d :: d in ds && d.script == inv.script)
    && Decent(words[1]) && Parts(repo) <= Target(words[1], repo) && Parts(repo + "/" + inv.script) == Target(words[1], repo)
    && inv.paths != [] && inv.paths[0] == inv.script
    && forall i :: 1 <= i < |inv.paths| ==> Sourced(inv.paths[i], words[2..], repo)
  }

  lemma MatchNamesFiles(words: seq<string>, repo: string, ds: seq<Contract>, d: Contract, items: seq<Item>,
                        inv: Invocation)
    requires Rooted(repo) && Matches(words, repo, ds, d, items, inv)
    ensures NamesFiles(words, repo, ds, inv)
  {
    hide Relative, Decent, Parts, NamedBy, Target, Rooted, PathsOf, Allowed;
    RelativeIff(words[1], repo);
    assert d in ds && d.script == inv.script;
    AllowedIs(items, words[2..], d, repo);
    forall i | 1 <= i < |inv.paths|
      ensures Sourced(inv.paths[i], words[2..], repo)
    {
      assert inv.paths[i] == PathsOf(items, d, repo)[i - 1];
      var word := PathHasWord(items, d, repo, i - 1);
      assert word in words[2..];
    }
  }

  lemma AllowedIs(items: seq<Item>, args: seq<string>, d: Contract, repo: string)
    requires Allowed(items, args, d, repo)
    ensures RenderedAll(items) == args
  {
  }

  /** The word that names a path of a reading. */
  lemma {:induction false} PathHasWord(items: seq<Item>, d: Contract, repo: string, i: nat) returns (word: string)
    requires Rooted(repo) && i < |PathsOf(items, d, repo)|
    ensures word in RenderedAll(items) && NamedBy(PathsOf(items, d, repo)[i], word, repo)
    decreases |items|
  {
    hide Relative, NamedBy, RenderedAll, Rendered;
    var before, last := items[..|items| - 1], items[|items| - 1];
    assert items == before + [last];
    RenderedSplit(before, [last]);
    if i < |PathsOf(before, d, repo)| {
      word := PathHasWord(before, d, repo, i);
    } else {
      word := WordOf(last, d, repo);
    }
  }

  lemma WordOf(it: Item, d: Contract, repo: string) returns (word: string)
    requires Rooted(repo) && !it.Flag? && Relative(it.text, repo).Some?
    ensures word in RenderedAll([it]) && NamedBy(Relative(it.text, repo).value, word, repo)
  {
    RelativeIff(it.text, repo);
    hide Relative, Decent, Parts;
    var r := Rendered(it);
    assert RenderedAll([it]) == r + RenderedAll([]);
    word := r[|r| - 1];
    assert it.Valued? && it.inline ==> word == it.option + "=" + it.text;
  }

  /* What an accepted command line looks like, word by word */

  /** The options of the words that start with a dash, in order. */
  function OptionsGiven(args: seq<string>): seq<string> {
    if args == [] then []
    else (if DashLed(args[0]) then [OptionOf(args[0])] else []) + OptionsGiven(args[1..])
  }

  lemma GivenFirst(w: string, rest: seq<string>)
    ensures OptionsGiven([w] + rest) == (if DashLed(w) then [OptionOf(w)] else []) + OptionsGiven(rest)
  {
    assert ([w] + rest)[1..] == rest;
  }

  lemma {:induction false} OptionsGivenSplit(a: seq<string>, b: seq<string>)
    ensures OptionsGiven(a + b) == OptionsGiven(a) + OptionsGiven(b)
    decreases |a|
  {
    if a == [] {
      assert a + b == b;
    } else {
      hide OptionsGiven;
      OptionsGivenSplit(a[1..], b);
      GivenFirst(a[0], a[1..]);
      GivenFirst(a[0], a[1..] + b);
      assert [a[0]] + a[1..] == a && [a[0]] + (a[1..] + b) == a + b;
    }
  }

  lemma ItemGives(it: Item, d: Contract, repo: string)
    requires ValidContract(d) && ItemOk(it, d, repo)
    ensures OptionsGiven(Rendered(it)) == if it.Positional? then [] else [it.option]
    ensures !it.Positional? ==> it.option in Options(d)
  {
    hide Relative, ValidContract;
    match it
    case Flag(o) =>
      DeclaredOption(d, o);
      Partition(o, "");
    case Valued(o, v, inline) =>
      DeclaredOption(d, o);
      Partition(o, v);
      assert inline ==> (o + "=" + v)[0] == o[0];
      assert OptionsGiven([o, v]) == [o] + OptionsGiven([v]);
    case Positional(w) =>
  }

  lemma {:induction false} ItemsGive(items: seq<Item>, d: Contract, repo: string)
    requires ValidContract(d) && ItemsOk(items, d, repo)
    ensures OptionsGiven(RenderedAll(items)) == Supplied(items)
    ensures forall o :: o in Supplied(items) ==> o in Options(d)
    decreases |items|
  {
    hide ValidContract, ItemOk, RenderedAll, Rendered, OptionsGiven;
    if items == [] {
      NothingGiven();
    } else {
      var before, last := items[..|items| - 1], items[|items| - 1];
      assert items == before + [last];
      ItemsGive(before, d, repo);
      OkAt(items, |items| - 1, d, repo);
      ItemGives(last, d, repo);
      RenderedSplit(before, [last]);
      OneRendered(last);
      OptionsGivenSplit(RenderedAll(before), RenderedAll([last]));
    }
  }

  lemma NothingGiven()
    ensures OptionsGiven(RenderedAll([])) == []
  {
  }

  lemma OneRendered(it: Item)
    ensures RenderedAll([it]) == Rendered(it)
  {
    assert [it][1..] == [];
  }

  /**
   * Of an accepted command line: every option given is declared, given once,
   * and none of those that change files; help stands alone, and without it
   * every required option is given.
   */
  lemma AcceptedWords(words: seq<string>, repo: string, ds: seq<Contract>, d: Contract, items: seq<Item>, inv: Invocation)
    requires ValidContracts(ds) && Matches(words, repo, ds, d, items, inv)
    ensures var given := OptionsGiven(words[2..]);
            && (forall o :: o in given ==> o in d.pathOptions + d.valueOptions + d.flags)
            && (forall i, j :: 0 <= i < j < |given| ==> given[i] != given[j])
            && (forall o :: o in given ==> o !in {"--apply-fixes", "--fix", "--fix-only", "--unsafe-fixes", "--write",
                                                  "--output", "--output-file", "--output-dir", "--out", "--in-place"})
            && ("--help" in given ==> given == ["--help"])
            && ("--help" !in given ==> forall o :: o in d.required ==> o in given)
  {
    hide Relative, ItemOk, RenderedAll, PositionalCount, OptionsGiven;
    ItemsGive(items, d, repo);
    assert ValidContract(d);
    var given := Supplied(items);
    if "--help" in given {
      AllSame(given, "--help");
    }
  }

  lemma AllSame(given: seq<string>, option: string)
    requires forall o :: o in given ==> o == option
    ensures option in given && Distinct(given) ==> given == [option]
  {
    if |given| >= 2 {
      assert given[0] in given && given[1] in given;
      assert given[0] == given[1];
    }
  }

  /**
   * `match` on a split command line: it answers exactly when some contract
   * allows some reading of the words, and then with the script followed by the
   * paths that reading names, in order.
   */
  method Match(words: seq<string>, repo: string, ds: seq<Contract>) returns (r: Option<Invocation>)
    requires ValidContracts(ds)
    ensures r.Some? ==> exists d, items :: Matches(words, repo, ds, d, items, r.value)
    ensures r == None ==> forall d, items, inv :: !Matches(words, repo, ds, d, items, inv)
    ensures r.Some? && Rooted(repo) ==> NamesFiles(words, repo, ds, r.value)
  {
    hide ValidContract, Relative, Allowed, NamesFiles;
    if |words| < 2 || words[0] !in {"python", "python3"} {
      return None;
    }
    var script := Relative(words[1], repo);
    var i := 0;
    while i < |ds| && Some(ds[i].script) != script
      invariant 0 <= i <= |ds|
      invariant forall k :: 0 <= k < i ==> Some(ds[k].script) != script
    {
      i := i + 1;
    }
    if i == |ds| {
      return None;
    }
    var paths, items := ReadArgs(words[2..], ds[i], repo);
    forall d | d in ds && script == Some(d.script)
      ensures d == ds[i]
    {
      var k :| 0 <= k < |ds| && ds[k] == d;
    }
    if paths == None {
      return None;
    }
    r := Some(Invocation(ds[i].script, paths.value, PinsOf(ds[i])));
    assert Matches(words, repo, ds, ds[i], items, r.value);
    if Rooted(repo) {
      MatchNamesFiles(words, repo, ds, ds[i], items, r.value);
    }
  }

  lemma {:induction false} PathsStayInside(items: seq<Item>, d: Contract, repo: string, p: string)
    requires p in PathsOf(items, d, repo)
    ensures !Absolute(p) && ".." !in Parts(p) && p != ""
    decreases |items|
  {
    var last := items[|items| - 1];
    if p in PathsOf(items[..|items| - 1], d, repo) {
      PathsStayInside(items[..|items| - 1], d, repo, p);
    } else {
      RelativeStaysInside(last.text, repo);
    }
  }

  /** Every path of an accepted invocation is relative and free of `..`. */
  lemma InvocationStaysInside(words: seq<string>, repo: string, ds: seq<Contract>, d: Contract, items: seq<Item>,
                              inv: Invocation, p: string)
    requires ValidContracts(ds) && Matches(words, repo, ds, d, items, inv) && p in inv.paths
    ensures inv.paths[0] == inv.script
    ensures !Absolute(p) && ".." !in Parts(p) && p != ""
  {
    hide Relative, Allowed, Parts;
    if p in PathsOf(items, d, repo) {
      PathsStayInside(items, d, repo, p);
    } else {
      RelativeStaysInside(words[1], repo);
    }
  }

  /** A command line has at most one reading, so at most one invocation. */
  lemma OneReading(words: seq<string>, repo: string, ds: seq<Contract>, d: Contract, items: seq<Item>, inv: Invocation,
                   e: Contract, other: seq<Item>, twin: Invocation)
    requires ValidContracts(ds)
    requires Matches(words, repo, ds, d, items, inv) && Matches(words, repo, ds, e, other, twin)
    ensures d == e && items == other && inv == twin
  {
    hide ValidContract, Relative, NextItem, ItemOk;
    SameReading(items, other, [], words[2..], d, repo);
  }

  /** Two readings that agree so far go on agreeing. */
  lemma {:induction false} SameReading(a: seq<Item>, b: seq<Item>, done: seq<Item>, args: seq<string>, d: Contract,
                                       repo: string)
    requires ValidContract(d) && done <= a && done <= b
    requires RenderedAll(a) == args && RenderedAll(b) == args && ItemsOk(a, d, repo) && ItemsOk(b, d, repo)
    ensures a == b
    decreases |a| - |done|
  {
    hide ValidContract, NextItem, ItemOk, ItemsOk, RenderedAll, Rendered;
    PrefixAndRest(done, a);
    PrefixAndRest(done, b);
    var index := |RenderedAll(done)|;
    RenderedSplit(done, a[|done|..]);
    assert RenderedAll(done) == args[..index];
    if index == |args| {
      RenderedOnce(done, a);
      RenderedOnce(done, b);
    } else {
      ReadingGoesOn(done, a[|done|..], args, index, d, repo);
      ReadingGoesOn(done, b[|done|..], args, index, d, repo);
      var next := done + [a[|done|]];
      assert next == a[..|done| + 1] && next == b[..|done| + 1];
      SameReading(a, b, next, args, d, repo);
    }
  }
}
