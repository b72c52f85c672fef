/** The lexical half of `validate_write_path` (src/sfx/fork.py:22-35). */
module WritePaths {
  import opened Common

  /** `s` cut at every `sep`; always at least one piece. */
  function Split(s: string, sep: char): (pieces: seq<string>)
    ensures |pieces| > 0
    ensures forall p :: p in pieces ==> sep !in p
  {
    if s == "" then [""]
    else
      var rest := Split(s[1..], sep);
      if s[0] == sep then [""] + rest else [[s[0]] + rest[0]] + rest[1..]
  }

  /** What `PurePosixPath` keeps of a list of components. */
  function Named(pieces: seq<string>): (parts: seq<string>)
    ensures forall p :: p in parts <==> p in pieces && p != "" && p != "."
  {
    if pieces == [] then []
    else (if pieces[0] == "" || pieces[0] == "." then [] else [pieces[0]]) + Named(pieces[1..])
  }

  function Parts(path: string): seq<string> {
    Named(Split(path, '/'))
  }

  predicate Absolute(path: string) {
    path != "" && path[0] == '/'
  }

  /** The normalised components of a write target, or nothing when it is refused. */
  function ValidateWritePath(path: string): Option<seq<string>> {
    if '\0' in path || Absolute(path) || Parts(path) == [] || ".." in Parts(path) then None
    else Some(Parts(path))
  }

  /* What is admitted */

  /** `c` is the stretch of `path` from `i` to `j`, between two slashes, or one and an end. */
  predicate StretchAt(path: string, i: int, j: int, c: string) {
    && 0 <= i <= j <= |path| && path[i..j] == c && '/' !in c
    && (i == 0 || path[i - 1] == '/') && (j == |path| || path[j] == '/')
  }

  ghost predicate IsComponent(path: string, c: string) {
    exists i, j :: StretchAt(path, i, j, c)
  }

  /**
   * A write path is admitted if and only if it holds no NUL, does not start at
   * the root, and has no component `..` but one that is not empty or `.`. Then
   * the answer holds its components other than those two.
   */
  lemma WritePathIs(path: string)
    ensures ValidateWritePath(path).Some? <==>
              && '\0' !in path && (path == "" || path[0] != '/') && !IsComponent(path, "..")
              && exists c :: IsComponent(path, c) && c != "" && c != "."
    ensures ValidateWritePath(path).Some? ==>
              forall c :: c in ValidateWritePath(path).value <==> IsComponent(path, c) && c != "" && c != "."
  {
    hide Split, Named, IsComponent;
    SplitComponents(path);
    var pieces := Split(path, '/');
    assert forall c :: c in pieces <==> IsComponent(path, c);
    if Parts(path) != [] {
      assert Parts(path)[0] in Parts(path);
    }
  }

  /** Where the first piece ends, and what the others are. */
  lemma {:induction false} FirstPiece(s: string) returns (j: nat)
    ensures j <= |s| && Split(s, '/')[0] == s[..j] && '/' !in s[..j] && (j == |s| || s[j] == '/')
    ensures Split(s, '/')[1..] == if j == |s| then [] else Split(s[j + 1..], '/')
    decreases |s|
  {
    if s == "" || s[0] == '/' {
      j := 0;
    } else {
      j := FirstPiece(s[1..]);
      j := j + 1;
      assert s[..j] == [s[0]] + s[1..][..j - 1];
      assert j < |s| ==> s[1..][j..] == s[j + 1..];
    }
  }

  lemma {:induction false} SplitComponents(path: string)
    ensures forall c :: c in Split(path, '/') <==> IsComponent(path, c)
    decreases |path|
  {
    hide Split, IsComponent;
    var j := FirstPiece(path);
    var pieces := Split(path, '/');
    assert pieces == [path[..j]] + pieces[1..];
    if j < |path| {
      SplitComponents(path[j + 1..]);
    }
    forall c
      ensures c in pieces <==> IsComponent(path, c)
    {
      ComponentFrom(path, j, c);
    }
  }

  /** A component is the first one or one of what follows the first slash. */
  lemma ComponentFrom(path: string, j: nat, c: string)
    requires j <= |path| && '/' !in path[..j] && (j == |path| || path[j] == '/')
    ensures IsComponent(path, c) <==> c == path[..j] || (j < |path| && IsComponent(path[j + 1..], c))
  {
    hide StretchAt;
    FirstStretch(path, j);
    if j < |path| && IsComponent(path[j + 1..], c) {
      var a, b :| StretchAt(path[j + 1..], a, b, c);
      StretchBounds(path[j + 1..], a, b, c);
      StretchBehind(path, j, a, b, c);
    }
    if IsComponent(path, c) {
      var a, b :| StretchAt(path, a, b, c);
      if a <= j {
        StretchAtFront(path, j, a, b, c);
      } else {
        StretchBounds(path, a, b, c);
        StretchBehind(path, j, a - j - 1, b - j - 1, c);
      }
    }
  }

  lemma FirstStretch(path: string, j: nat)
    requires j <= |path| && '/' !in path[..j] && (j == |path| || path[j] == '/')
    ensures StretchAt(path, 0, j, path[..j])
  {
    assert path[0..j] == path[..j];
  }

  lemma StretchBounds(path: string, a: int, b: int, c: string)
    requires StretchAt(path, a, b, c)
    ensures 0 <= a <= b <= |path|
  {
  }

  lemma StretchBehind(path: string, j: nat, a: int, b: int, c: string)
    requires j < |path| && path[j] == '/' && 0 <= a <= b
    ensures StretchAt(path[j + 1..], a, b, c) <==> StretchAt(path, j + 1 + a, j + 1 + b, c)
  {
    var rest := path[j + 1..];
    if b <= |rest| {
      assert rest[a..b] == path[j + 1 + a..j + 1 + b];
    }
  }

  lemma StretchAtFront(path: string, j: nat, a: int, b: int, c: string)
    requires j <= |path| && '/' !in path[..j] && (j == |path| || path[j] == '/')
    requires StretchAt(path, a, b, c) && a <= j
    ensures c == path[..j]
  {
    NoSlash(path, 0, j);
    NoSlash(path, a, b);
    assert a == 0 && b == j;
  }

  lemma NoSlash(path: string, a: nat, b: nat)
    requires a <= b <= |path| && '/' !in path[a..b]
    ensures forall k :: a <= k < b ==> path[k] != '/'
  {
    forall k | a <= k < b
      ensures path[k] != '/'
    {
      assert path[a..b][k - a] == path[k];
    }
  }
}
