/**
 * src/sfx/fork.py and src/sfx/substrate.py on a filesystem with inodes: a fork
 * keeps the repository's hard links among themselves, and a write that
 * `apply` admits does in the fork what it would do in the repository.
 */
module Forks {
  import opened Common

  type Path = seq<string>
  type Ino = nat

  datatype Node = Dir | Symlink(target: string) | File(ino: Ino)

  type Tree = map<Path, Node>

  /** The repository, the rest of the machine and the fork share one table of inodes. */
  datatype Disk = Disk(repo: Tree, outside: Tree, fork: Tree, data: map<Ino, string>)

  function Aliases(t: Tree, i: Ino): set<Path> {
    set p | p in t && t[p] == File(i)
  }

  /** `st_nlink`. */
  function Links(d: Disk, i: Ino): nat {
    |Aliases(d.repo, i)| + |Aliases(d.outside, i)| + |Aliases(d.fork, i)|
  }

  ghost predicate Stored(t: Tree, data: map<Ino, string>) {
    forall p :: p in t && t[p].File? ==> t[p].ino in data
  }

  ghost predicate Sound(d: Disk) {
    Stored(d.repo, d.data) && Stored(d.outside, d.data) && Stored(d.fork, d.data)
  }

  datatype Sight = Absent | Directory | Link(target: string) | Contents(text: string)

  /** What reading `p` shows. */
  function Seen(t: Tree, data: map<Ino, string>, p: Path): Sight {
    if p !in t then Absent
    else match t[p]
      case Dir => Directory
      case Symlink(target) => Link(target)
      case File(i) => Contents(GetOr(data, i, ""))
  }

  /* Cloning */

  /** `fork` shows what `repo` shows, with links where it has them and no inode of its own among `before`. */
  ghost predicate Cloned(repo: Tree, fork: Tree, before: map<Ino, string>, data: map<Ino, string>) {
    && fork.Keys == repo.Keys
    && (forall p :: p in repo ==> Seen(fork, data, p) == Seen(repo, before, p))
    && (forall p :: p in fork && fork[p].File? ==> fork[p].ino !in before)
    && (forall p, q :: p in repo && q in repo && repo[p].File? && repo[q].File? ==>
          (fork[p] == fork[q] <==> repo[p] == repo[q]))
  }

  lemma TwoAliases(t: Tree, i: Ino, p: Path, q: Path)
    requires p in t && q in t && p != q && t[p] == File(i) && t[q] == File(i)
    ensures |Aliases(t, i)| >= 2
  {
    assert {p, q} <= Aliases(t, i);
    Subset({p, q}, Aliases(t, i));
    assert |{p, q}| == 2;
  }

  lemma {:induction false} Subset<T>(a: set<T>, b: set<T>)
    requires a <= b
    ensures |a| <= |b|
    decreases a
  {
    if a != {} {
      var x :| x in a;
      Subset(a - {x}, b - {x});
    }
  }

  /** The paths copied so far show what the repository shows, by new inodes. */
  ghost predicate Copied(d: Disk, done: set<Path>, fork: Tree, data: map<Ino, string>, next: Ino) {
    && Stored(d.repo, d.data)
    && fork.Keys == done && done <= d.repo.Keys
    && (forall i :: i in d.data ==> i in data && data[i] == d.data[i])
    && (forall i :: i in data ==> i < next)
    && (forall p :: p in done && !d.repo[p].File? ==> fork[p] == d.repo[p])
    && (forall p :: p in done && d.repo[p].File? ==>
          && fork[p].File? && fork[p].ino in data && fork[p].ino !in d.data
          && data[fork[p].ino] == d.data[d.repo[p].ino])
    && (forall p, q :: p in done && q in done && d.repo[p].File? && d.repo[q].File? && d.repo[p] != d.repo[q] ==>
          fork[p] != fork[q])
  }

  /** `aliases` says where each linked inode was first cloned to, and its other paths follow. */
  ghost predicate Aliased(d: Disk, done: set<Path>, fork: Tree, aliases: map<Ino, Path>) {
    && fork.Keys == done && done <= d.repo.Keys
    && (forall i :: i in aliases ==> aliases[i] in done && d.repo[aliases[i]] == File(i))
    && (forall p :: p in done && d.repo[p].File? && Links(d, d.repo[p].ino) > 1 ==>
          d.repo[p].ino in aliases && fork[p] == fork[aliases[d.repo[p].ino]])
  }

  ghost predicate Cloning(d: Disk, done: set<Path>, fork: Tree, data: map<Ino, string>, aliases: map<Ino, Path>,
                          next: Ino)
  {
    Copied(d, done, fork, data, next) && Aliased(d, done, fork, aliases)
  }

  lemma CloningLinks(d: Disk, p: Path, fork: Tree, data: map<Ino, string>, aliases: map<Ino, Path>, next: Ino)
    requires p in d.repo && d.repo[p].File? && Cloning(d, fork.Keys, fork, data, aliases, next) && p !in fork
    requires d.repo[p].ino in aliases
    ensures Cloning(d, fork.Keys + {p}, fork[p := fork[aliases[d.repo[p].ino]]], data, aliases, next)
  {
    hide Links;
  }

  lemma CloningCopies(d: Disk, p: Path, fork: Tree, data: map<Ino, string>, aliases: map<Ino, Path>, next: Ino,
                      linked: bool)
    requires p in d.repo && d.repo[p].File? && Cloning(d, fork.Keys, fork, data, aliases, next) && p !in fork
    requires linked <==> Links(d, d.repo[p].ino) > 1
    requires linked ==> d.repo[p].ino !in aliases
    ensures d.repo[p].ino in d.data
    ensures Cloning(d, fork.Keys + {p}, fork[p := File(next)], data[next := d.data[d.repo[p].ino]],
                    if linked then aliases[d.repo[p].ino := p] else aliases, next + 1)
  {
    hide Aliased, Links;
    CopyIsAliased(d, p, fork, aliases, File(next), linked);
  }

  lemma CopyIsAliased(d: Disk, p: Path, fork: Tree, aliases: map<Ino, Path>, node: Node, linked: bool)
    requires p in d.repo && d.repo[p].File? && Aliased(d, fork.Keys, fork, aliases) && p !in fork
    requires linked <==> Links(d, d.repo[p].ino) > 1
    requires linked ==> d.repo[p].ino !in aliases
    ensures Aliased(d, fork.Keys + {p}, fork[p := node], if linked then aliases[d.repo[p].ino := p] else aliases)
  {
    hide Links;
  }

  lemma CloningOthers(d: Disk, p: Path, fork: Tree, data: map<Ino, string>, aliases: map<Ino, Path>, next: Ino)
    requires p in d.repo && !d.repo[p].File? && Cloning(d, fork.Keys, fork, data, aliases, next) && p !in fork
    ensures Cloning(d, fork.Keys + {p}, fork[p := d.repo[p]], data, aliases, next)
  {
    hide Links;
  }

  /** `clone_entry` on a file, and what `copytree` does with a directory or a symbolic link. */
  method CloneEntry(d: Disk, p: Path, fork: Tree, data: map<Ino, string>, aliases: map<Ino, Path>, next: Ino,
                    linked: bool)
      returns (fork2: Tree, data2: map<Ino, string>, aliases2: map<Ino, Path>, next2: Ino)
    requires Sound(d) && p in d.repo && Cloning(d, fork.Keys, fork, data, aliases, next) && p !in fork
    requires d.repo[p].File? ==> (linked <==> Links(d, d.repo[p].ino) > 1)
    ensures Cloning(d, fork2.Keys, fork2, data2, aliases2, next2) && fork2.Keys == fork.Keys + {p}
  {
    hide Links, Cloning;
    fork2, data2, aliases2, next2 := fork, data, aliases, next;
    AliasesAreDone(d, fork, data, aliases, next);
    match d.repo[p] {
    case File(identity) =>
      if linked && identity in aliases {
        CloningLinks(d, p, fork, data, aliases, next);
        fork2 := fork[p := fork[aliases[identity]]];
      } else {
        CloningCopies(d, p, fork, data, aliases, next, linked);
        fork2 := fork[p := File(next)];
        data2 := data[next := d.data[identity]];
        next2 := next + 1;
        if linked {
          aliases2 := aliases[identity := p];
        }
      }
    case node =>
      CloningOthers(d, p, fork, data, aliases, next);
      fork2 := fork[p := node];
    }
    assert fork2.Keys == fork.Keys + {p};
  }

  lemma AliasesAreDone(d: Disk, fork: Tree, data: map<Ino, string>, aliases: map<Ino, Path>, next: Ino)
    requires Cloning(d, fork.Keys, fork, data, aliases, next)
    ensures forall i :: i in aliases ==> aliases[i] in fork
  {
  }

  lemma CloningDone(d: Disk, fork: Tree, data: map<Ino, string>, aliases: map<Ino, Path>, next: Ino)
    requires Sound(d) && Cloning(d, d.repo.Keys, fork, data, aliases, next)
    ensures Cloned(d.repo, fork, d.data, data)
  {
    forall p, q | p in d.repo && q in d.repo && d.repo[p].File? && d.repo[p] == d.repo[q]
      ensures fork[p] == fork[q]
    {
      if p != q {
        TwoAliases(d.repo, d.repo[p].ino, p, q);
      }
    }
  }

  /** No inode there was before has changed. */
  ghost predicate Keeps(before: map<Ino, string>, data: map<Ino, string>) {
    forall i :: i in before ==> i in data && data[i] == before[i]
  }

  /** `_clonefile_fork`: `entries` is the order in which `copytree` comes by the paths. */
  method ClonefileFork(d: Disk, entries: seq<Path>, unused: Ino) returns (fork: Tree, data: map<Ino, string>, next: Ino)
    requires Sound(d) && d.fork == map[]
    requires forall i :: i in d.data ==> i < unused
    requires (forall p :: p in entries <==> p in d.repo) && forall i, j :: 0 <= i < j < |entries| ==> entries[i] != entries[j]
    ensures Cloned(d.repo, fork, d.data, data)
    ensures Stored(fork, data) && Keeps(d.data, data)
    ensures forall i :: i in data ==> i < next
  {
    hide Links, Cloning, Cloned;
    var aliases: map<Ino, Path> := map[];
    fork, data, next := map[], d.data, unused;
    CloningStarts(d, unused);
    assert fork.Keys == {};
    var k := 0;
    while k < |entries|
      invariant 0 <= k <= |entries|
      invariant forall p :: p in fork.Keys <==> p in entries[..k]
      invariant Cloning(d, fork.Keys, fork, data, aliases, next)
    {
      var p := entries[k];
      assert p in d.repo && p !in fork;
      var linked := d.repo[p].File? && Links(d, d.repo[p].ino) > 1;
      fork, data, aliases, next := CloneEntry(d, p, fork, data, aliases, next, linked);
      k := k + 1;
    }
    assert fork.Keys == d.repo.Keys;
    CloningDone(d, fork, data, aliases, next);
    CloningKeeps(d, fork, data, aliases, next);
  }

  lemma CloningStarts(d: Disk, unused: Ino)
    requires Sound(d) && forall i :: i in d.data ==> i < unused
    ensures Cloning(d, {}, map[], d.data, map[], unused)
  {
  }

  lemma CloningKeeps(d: Disk, fork: Tree, data: map<Ino, string>, aliases: map<Ino, Path>, next: Ino)
    requires Cloning(d, fork.Keys, fork, data, aliases, next)
    ensures Stored(fork, data) && Keeps(d.data, data)
    ensures forall i :: i in data ==> i < next
  {
  }

  /* Writing */

  /** The path down to component `i`. */
  function Upto(parts: Path, i: nat): Path
    requires i < |parts|
  {
    parts[..i + 1]
  }

  /** What `validate_write_path` demands of component `i` of a write, if it exists under `root`. */
  ghost predicate AdmitsAt(root: Tree, d: Disk, parts: Path, i: nat)
    requires i < |parts|
  {
    Upto(parts, i) in root ==>
      var node := root[Upto(parts, i)];
      if i < |parts| - 1 then node == Dir else node.File? && Links(d, node.ino) <= 1
  }

  ghost predicate Admits(root: Tree, d: Disk, parts: Path) {
    parts != [] && forall i :: 0 <= i < |parts| ==> AdmitsAt(root, d, parts, i)
  }

  /** The loop of `validate_write_path` over the components. */
  method ValidateUnder(root: Tree, d: Disk, parts: Path) returns (admitted: bool)
    requires parts != []
    ensures admitted <==> Admits(root, d, parts)
  {
    hide Links;
    var i := 0;
    while i < |parts|
      invariant 0 <= i <= |parts|
      invariant forall k :: 0 <= k < i ==> AdmitsAt(root, d, parts, k)
    {
      var current := Upto(parts, i);
      if current in root {
        var final := i == |parts| - 1;
        match root[current]
        case Symlink(_) =>
          assert !AdmitsAt(root, d, parts, i);
          return false;
        case Dir =>
          if final {
            assert !AdmitsAt(root, d, parts, i);
            return false;
          }
        case File(ino) =>
          if !final || Links(d, ino) > 1 {
            assert !AdmitsAt(root, d, parts, i);
            return false;
          }
      }
      i := i + 1;
    }
    return true;
  }

  /** Every proper ancestor of a write is a directory of the tree. */
  predicate Placeable(root: Tree, parts: Path) {
    forall i :: 0 <= i < |parts| - 1 ==> Upto(parts, i) in root && root[Upto(parts, i)] == Dir
  }

  /** No existing ancestor stands in the way, and an existing target is a regular file. */
  predicate Passable(root: Tree, parts: Path) {
    && parts != []
    && (forall i :: 0 <= i < |parts| - 1 && Upto(parts, i) in root ==> root[Upto(parts, i)] == Dir)
    && (parts in root ==> root[parts].File?)
  }

  /** `q` is a directory above `p`: a proper, nonempty beginning of it. */
  predicate Above(q: Path, p: Path) {
    q != [] && q < p
  }

  lemma AboveIs(q: Path, parts: Path)
    ensures Above(q, parts) <==> exists i :: 0 <= i < |parts| - 1 && q == Upto(parts, i)
  {
    if Above(q, parts) {
      assert q == Upto(parts, |q| - 1);
    }
  }

  /**
   * A write is admitted under a root, exactly: whatever exists above the target
   * is a directory, and an existing target is a regular file that no other
   * path of the machine shares.
   */
  lemma AdmitsIff(root: Tree, d: Disk, parts: Path)
    ensures Admits(root, d, parts) <==>
              && parts != [] && (forall q :: Above(q, parts) && q in root ==> root[q] == Dir)
              && (parts in root ==>
                    root[parts].File?
                    && |Aliases(d.repo, root[parts].ino)| + |Aliases(d.outside, root[parts].ino)|
                       + |Aliases(d.fork, root[parts].ino)| <= 1)
  {
    hide Above, Aliases, Upto;
    if parts != [] {
      assert Upto(parts, |parts| - 1) == parts by {
        UptoEnd(parts);
      }
      EachAbove(root, parts);
      if (forall q :: Above(q, parts) && q in root ==> root[q] == Dir) {
        assert forall i :: 0 <= i < |parts| - 1 ==> (AdmitsAt(root, d, parts, i) <==> (Upto(parts, i) in root ==> root[Upto(parts, i)] == Dir));
      } else {
        var i :| 0 <= i < |parts| - 1 && Upto(parts, i) in root && root[Upto(parts, i)] != Dir;
        assert !AdmitsAt(root, d, parts, i);
      }
      assert AdmitsAt(root, d, parts, |parts| - 1) <==> (parts in root ==> root[parts].File? && Links(d, root[parts].ino) <= 1);
    }
  }

  lemma UptoEnd(parts: Path)
    requires parts != []
    ensures Upto(parts, |parts| - 1) == parts
  {
  }

  lemma EachAbove(root: Tree, parts: Path)
    ensures (forall q :: Above(q, parts) && q in root ==> root[q] == Dir)
            <==> forall i :: 0 <= i < |parts| - 1 && Upto(parts, i) in root ==> root[Upto(parts, i)] == Dir
  {
    hide Above, Upto;
    forall q: Path
      ensures Above(q, parts) <==> exists i :: 0 <= i < |parts| - 1 && q == Upto(parts, i)
    {
      AboveIs(q, parts);
    }
  }

  /** The tree with the first `n` ancestors of a write made where they were missing. */
  function Made(root: Tree, parts: Path, n: nat): (t: Tree)
    requires n <= |parts|
    ensures forall p :: p in root ==> p in t && t[p] == root[p]
    ensures forall p :: p in t && p !in root ==> t[p] == Dir
    ensures forall p :: p in t && p !in root ==> exists i :: 0 <= i < n && p == Upto(parts, i)
    ensures forall i :: 0 <= i < n ==> Upto(parts, i) in t
  {
    if n == 0 then root
    else
      var before := Made(root, parts, n - 1);
      if Upto(parts, n - 1) in before then before else before[Upto(parts, n - 1) := Dir]
  }

  /** What `write_text_in_fork` leaves: missing ancestors made, and an inode of its own for the target. */
  function Replaced(root: Tree, parts: Path, unused: Ino): Tree
    requires parts != []
  {
    Made(root, parts, |parts| - 1)[parts := File(unused)]
  }

  /**
   * `write_text_in_fork`, path by path: it goes through exactly if nothing above
   * the target but directories and no target but a file is in the way. Then
   * every directory above the target exists, the target is a file of an inode
   * of its own, and everything else is as it was.
   */
  lemma WrittenIs(root: Tree, parts: Path, unused: Ino)
    ensures Passable(root, parts) <==>
              && parts != [] && (forall q :: Above(q, parts) && q in root ==> root[q] == Dir)
              && (parts in root ==> root[parts].File?)
    ensures Passable(root, parts) ==>
              var t := Replaced(root, parts, unused);
              && parts in t && t[parts] == File(unused)
              && (forall q :: Above(q, parts) ==> q in t && t[q] == Dir)
              && (forall q :: q != parts && !Above(q, parts) ==> SameNode(root, t, q))
  {
    hide Above, Upto;
    EachAbove(root, parts);
    if Passable(root, parts) {
      var n := |parts| - 1;
      var before := Made(root, parts, n);
      forall q: Path
        ensures Above(q, parts) ==> q in before && before[q] == Dir && q != parts
        ensures !Above(q, parts) ==> SameNode(root, before, q)
      {
        AboveIs(q, parts);
        TargetIsNoAncestor(parts);
      }
    }
  }

  predicate SameNode(t: Tree, u: Tree, q: Path) {
    (q in t <==> q in u) && (q in t ==> u[q] == t[q])
  }

  /** `write_text_in_fork`; None when it raises. */
  method WriteTextInFork(root: Tree, parts: Path, unused: Ino) returns (written: Option<Tree>)
    requires parts != []
    ensures written == if Passable(root, parts) then Some(Replaced(root, parts, unused)) else None
  {
    hide Made, Upto;
    var tree := root;
    var i := 0;
    MadeNone(root, parts);
    while i < |parts| - 1
      invariant 0 <= i <= |parts| - 1
      invariant tree == Made(root, parts, i)
      invariant forall k :: 0 <= k < i && Upto(parts, k) in root ==> root[Upto(parts, k)] == Dir
    {
      var current := Upto(parts, i);
      MadeNext(root, parts, i);
      if current !in tree {
        tree := tree[current := Dir];
      }
      if tree[current] != Dir {
        return None;
      }
      i := i + 1;
    }
    TargetIsNoAncestor(parts);
    if parts in tree && !tree[parts].File? {
      return None;
    }
    written := Some(tree[parts := File(unused)]);
  }

  lemma MadeNone(root: Tree, parts: Path)
    ensures Made(root, parts, 0) == root
  {
  }

  lemma MadeNext(root: Tree, parts: Path, i: nat)
    requires i < |parts|
    ensures var before, current := Made(root, parts, i), Upto(parts, i);
            && Made(root, parts, i + 1) == (if current in before then before else before[current := Dir])
            && (current in before && before[current] != Dir ==> current in root && root[current] == before[current])
  {
  }

  lemma TargetIsNoAncestor(parts: Path)
    ensures forall i :: 0 <= i < |parts| - 1 ==> Upto(parts, i) != parts
  {
    assert forall i :: 0 <= i < |parts| - 1 ==> |Upto(parts, i)| < |parts|;
  }

  /**
   * What a shell redirection does instead: without its directory, or over
   * anything but a file, it fails; otherwise it writes through the inode
   * there is. A symbolic link it would follow is never an admitted target.
   */
  function WrittenThrough(root: Tree, data: map<Ino, string>, parts: Path, contents: string, unused: Ino)
    : (Tree, map<Ino, string>)
  {
    if !Placeable(root, parts) then (root, data)
    else if parts !in root then (root[parts := File(unused)], data[unused := contents])
    else if root[parts].File? then (root, data[root[parts].ino := contents])
    else (root, data)
  }

  /** Whether the machine with the write in its fork shows what the machine with the write in its repository shows. */
  ghost predicate SameSights(d: Disk, parts: Path, contents: string, unused: Ino)
    requires parts != []
  {
    var fork := Replaced(d.fork, parts, unused);
    var forkData := d.data[unused := contents];
    var (repo, repoData) := WrittenThrough(d.repo, d.data, parts, contents, unused);
    && (forall p :: Seen(fork, forkData, p) == Seen(repo, repoData, p))
    && (forall p :: Seen(d.outside, forkData, p) == Seen(d.outside, repoData, p))
  }

  /** The fork still shows what the repository shows, by inodes of its own. */
  ghost predicate Mirrors(d: Disk) {
    && Sound(d)
    && (forall p :: Seen(d.fork, d.data, p) == Seen(d.repo, d.data, p))
    && (forall p, q :: p in d.fork && d.fork[p].File? && q in d.repo && d.repo[q].File? ==> d.fork[p].ino != d.repo[q].ino)
    && (forall p, q :: p in d.fork && d.fork[p].File? && q in d.outside && d.outside[q].File? ==>
          d.fork[p].ino != d.outside[q].ino)
  }

  /** A fresh clone mirrors its repository. */
  lemma ClonesMirror(d: Disk, fork: Tree, data: map<Ino, string>)
    requires Sound(d) && Cloned(d.repo, fork, d.data, data) && Keeps(d.data, data) && Stored(fork, data)
    ensures Mirrors(Disk(d.repo, d.outside, fork, data))
  {
  }

  lemma OnlyAlias(t: Tree, i: Ino, p: Path)
    requires |Aliases(t, i)| <= 1 && p in t && t[p] == File(i)
    ensures forall q :: q in t && t[q] == File(i) ==> q == p
  {
    forall q | q in t && t[q] == File(i)
      ensures q == p
    {
      if q != p {
        TwoAliases(t, i, p, q);
      }
    }
  }

  lemma NoAlias(t: Tree, i: Ino)
    requires |Aliases(t, i)| == 0
    ensures forall q :: q in t ==> t[q] != File(i)
  {
    assert Aliases(t, i) == {};
    forall q | q in t
      ensures t[q] != File(i)
    {
      assert q !in Aliases(t, i);
    }
  }

  lemma MirroredLinks(d: Disk, i: Ino, p: Path)
    requires Mirrors(d) && p in d.repo && d.repo[p] == File(i)
    ensures |Aliases(d.fork, i)| == 0
  {
    assert Aliases(d.fork, i) == {};
  }

  lemma NothingToMake(d: Disk, parts: Path, n: nat)
    requires Mirrors(d) && Placeable(d.repo, parts) && n < |parts|
    ensures Made(d.fork, parts, n) == d.fork
  {
    if n > 0 {
      NothingToMake(d, parts, n - 1);
      assert Seen(d.repo, d.data, Upto(parts, n - 1)) == Directory;
      assert Seen(d.fork, d.data, Upto(parts, n - 1)) == Directory;
    }
  }

  /** With its directories there and a target of one link the two writes show the same everywhere. */
  lemma PrivateTargetAgrees(d: Disk, parts: Path, contents: string, unused: Ino)
    requires Mirrors(d) && unused !in d.data && parts != [] && Placeable(d.repo, parts)
    requires parts in d.repo ==> d.repo[parts].File? && Links(d, d.repo[parts].ino) <= 1
    ensures SameSights(d, parts, contents, unused)
  {
    hide Placeable, Made;
    NothingToMake(d, parts, |parts| - 1);
    var fork := Replaced(d.fork, parts, unused);
    var (repo, repoData) := WrittenThrough(d.repo, d.data, parts, contents, unused);
    if parts in d.repo {
      var i := d.repo[parts].ino;
      assert parts in Aliases(d.repo, i);
      OnlyAlias(d.repo, i, parts);
      NoAlias(d.outside, i);
    }
    forall p | p != parts
      ensures Seen(fork, d.data[unused := contents], p) == Seen(repo, repoData, p)
    {
      assert Seen(d.fork, d.data, p) == Seen(d.repo, d.data, p);
      Untouched(d.fork, d.data, p, unused, contents);
      if parts in d.repo {
        Untouched(d.repo, d.data, p, d.repo[parts].ino, contents);
      } else {
        Untouched(d.repo, d.data, p, unused, contents);
      }
    }
  }

  /** Where a directory is missing, the fork gets it and the repository does not. */
  lemma MissingDirectoryDiffers(d: Disk, parts: Path, contents: string, unused: Ino)
    requires Mirrors(d) && Passable(d.repo, parts) && !Placeable(d.repo, parts)
    ensures !SameSights(d, parts, contents, unused)
  {
    hide Made;
    var i :| 0 <= i < |parts| - 1 && !(Upto(parts, i) in d.repo && d.repo[Upto(parts, i)] == Dir);
    var above := Upto(parts, i);
    TargetIsNoAncestor(parts);
    assert Seen(d.repo, d.data, above) == Absent && Seen(d.fork, d.data, above) == Absent;
    assert above in Made(d.fork, parts, |parts| - 1);
    assert Seen(Replaced(d.fork, parts, unused), d.data[unused := contents], above) == Directory;
  }

  /** A path of another inode does not notice a write. */
  lemma Untouched(t: Tree, data: map<Ino, string>, p: Path, i: Ino, contents: string)
    requires p in t ==> t[p] != File(i)
    ensures Seen(t, data[i := contents], p) == Seen(t, data, p)
  {
  }

  lemma AdmittedIsPassable(root: Tree, d: Disk, parts: Path)
    requires Admits(root, d, parts)
    ensures Passable(root, parts)
    ensures parts in root ==> Links(d, root[parts].ino) <= 1
  {
    hide Links;
    assert AdmitsAt(root, d, parts, |parts| - 1) && Upto(parts, |parts| - 1) == parts;
    forall i | 0 <= i < |parts| - 1 && Upto(parts, i) in root
      ensures root[Upto(parts, i)] == Dir
    {
      assert AdmitsAt(root, d, parts, i);
    }
  }

  /**
   * A write that `apply` admits shows the same in the fork as in the
   * repository if and only if the repository has every directory it needs.
   */
  lemma AdmittedWriteAgrees(d: Disk, parts: Path, contents: string, unused: Ino)
    requires Mirrors(d) && unused !in d.data && Admits(d.repo, d, parts)
    ensures SameSights(d, parts, contents, unused) <==> Placeable(d.repo, parts)
  {
    hide Links, Mirrors, SameSights, Placeable, Admits;
    AdmittedIsPassable(d.repo, d, parts);
    if Placeable(d.repo, parts) {
      PrivateTargetAgrees(d, parts, contents, unused);
    } else {
      MissingDirectoryDiffers(d, parts, contents, unused);
    }
  }

  const EMPTY := Disk(map[], map[], map[], map[])

  /** `newdir/x` without `newdir` is admitted under both roots, and the fork alone ends up with it. */
  lemma AdmittedIntoMissingDirectory(contents: string, unused: Ino)
    ensures Mirrors(EMPTY) && Admits(EMPTY.repo, EMPTY, ["newdir", "x"]) && Admits(EMPTY.fork, EMPTY, ["newdir", "x"])
    ensures !SameSights(EMPTY, ["newdir", "x"], contents, unused)
    ensures Seen(Replaced(EMPTY.fork, ["newdir", "x"], unused), map[unused := contents], ["newdir"]) == Directory
    ensures WrittenThrough(EMPTY.repo, EMPTY.data, ["newdir", "x"], contents, unused) == (EMPTY.repo, EMPTY.data)
  {
    var parts := ["newdir", "x"];
    assert Upto(parts, 0) == ["newdir"];
    MissingDirectoryDiffers(EMPTY, parts, contents, unused);
    assert ["newdir"] in Made(EMPTY.fork, parts, 1);
  }

  /** A target shared with another path is one the fork's replacement gets wrong, whatever is written over it. */
  lemma SharedTargetDiffers(d: Disk, parts: Path, contents: string, unused: Ino)
    requires Mirrors(d) && unused !in d.data && Passable(d.repo, parts) && parts in d.repo
    requires Links(d, d.repo[parts].ino) > 1 && d.data[d.repo[parts].ino] != contents
    ensures !SameSights(d, parts, contents, unused)
  {
    if !Placeable(d.repo, parts) {
      MissingDirectoryDiffers(d, parts, contents, unused);
    } else {
      NothingToMake(d, parts, |parts| - 1);
      SharedTargetSeen(d, parts, contents, unused);
    }
  }

  lemma SharedTargetSeen(d: Disk, parts: Path, contents: string, unused: Ino)
    requires Mirrors(d) && unused !in d.data && parts != [] && Placeable(d.repo, parts)
    requires parts in d.repo && d.repo[parts].File?
    requires Links(d, d.repo[parts].ino) > 1 && d.data[d.repo[parts].ino] != contents
    requires Made(d.fork, parts, |parts| - 1) == d.fork
    ensures !SameSights(d, parts, contents, unused)
  {
    hide Placeable, Made;
    var i := d.repo[parts].ino;
    MirroredLinks(d, i, parts);
    var fork := Replaced(d.fork, parts, unused);
    var forkData := d.data[unused := contents];
    var (repo, repoData) := WrittenThrough(d.repo, d.data, parts, contents, unused);
    if |Aliases(d.outside, i)| > 0 {
      var q :| q in Aliases(d.outside, i);
      assert Seen(d.outside, forkData, q) != Seen(d.outside, repoData, q);
    } else {
      var q := AnotherAlias(d.repo, i, parts);
      assert Seen(d.fork, d.data, q) == Seen(d.repo, d.data, q);
      assert Seen(fork, forkData, q) != Seen(repo, repoData, q);
    }
  }

  lemma AnotherAlias(t: Tree, i: Ino, p: Path) returns (q: Path)
    requires |Aliases(t, i)| > 1
    ensures q != p && q in t && t[q] == File(i)
  {
    if Aliases(t, i) <= {p} {
      Subset(Aliases(t, i), {p});
    }
    q :| q in Aliases(t, i) && q != p;
  }

  /**
   * Write equivalence, exactly: replacing the inode in a fork that mirrors the
   * repository shows the same at every path, inside and outside, as writing in
   * place, for whatever is written, if and only if the repository has the
   * directories and an existing target's link count is one.
   */
  lemma ReplacementAgreesIff(d: Disk, parts: Path, unused: Ino)
    requires Mirrors(d) && unused !in d.data && Passable(d.repo, parts)
    ensures (forall contents :: SameSights(d, parts, contents, unused))
            <==> Placeable(d.repo, parts) && (parts in d.repo ==> Links(d, d.repo[parts].ino) <= 1)
  {
    hide Links, SameSights, Mirrors, Placeable;
    if !Placeable(d.repo, parts) {
      MissingDirectoryDiffers(d, parts, "", unused);
      assert !SameSights(d, parts, "", unused);
    } else if parts in d.repo && Links(d, d.repo[parts].ino) > 1 {
      var other := GetOr(d.data, d.repo[parts].ino, "") + "x";
      SoundTarget(d, parts);
      SharedTargetDiffers(d, parts, other, unused);
      assert !SameSights(d, parts, other, unused);
    } else {
      forall contents ensures SameSights(d, parts, contents, unused) {
        PrivateTargetAgrees(d, parts, contents, unused);
      }
    }
  }

  lemma SoundTarget(d: Disk, parts: Path)
    requires Mirrors(d) && parts in d.repo && d.repo[parts].File?
    ensures d.repo[parts].ino in d.data
  {
  }

  /* Cloning, then writing */

  /** `FilesystemSubstrate.apply`: both roots are validated before anything is written; None when it raises. */
  method Apply(d: Disk, parts: Path, contents: string, unused: Ino) returns (after: Option<Disk>)
    requires parts != []
    ensures after == if Admits(d.fork, d, parts) && Admits(d.repo, d, parts)
                     then Some(d.(fork := Replaced(d.fork, parts, unused), data := d.data[unused := contents])) else None
  {
    hide Links, Admits;
    var inFork := ValidateUnder(d.fork, d, parts);
    if !inFork {
      return None;
    }
    var inRepo := ValidateUnder(d.repo, d, parts);
    if !inRepo {
      return None;
    }
    AdmittedIsPassable(d.fork, d, parts);
    var written := WriteTextInFork(d.fork, parts, unused);
    after := Some(d.(fork := written.value, data := d.data[unused := contents]));
  }

  /** A fork's inodes are not the repository's, so its links do not count there. */
  lemma CloneCounts(d: Disk, fork: Tree, data: map<Ino, string>, i: Ino)
    requires Sound(d) && d.fork == map[] && Cloned(d.repo, fork, d.data, data) && i in d.data
    ensures Links(Disk(d.repo, d.outside, fork, data), i) == Links(d, i)
  {
    assert Aliases(fork, i) == {} == Aliases(d.fork, i);
  }

  /** A clone admits whatever its repository admits: a private source has a private clone. */
  lemma CloneAdmits(d: Disk, fork: Tree, data: map<Ino, string>, parts: Path)
    requires Sound(d) && d.fork == map[] && Cloned(d.repo, fork, d.data, data)
    requires Admits(d.repo, Disk(d.repo, d.outside, fork, data), parts)
    ensures Admits(fork, Disk(d.repo, d.outside, fork, data), parts)
  {
    var e := Disk(d.repo, d.outside, fork, data);
    forall k | 0 <= k < |parts|
      ensures AdmitsAt(fork, e, parts, k)
    {
      var p := Upto(parts, k);
      assert AdmitsAt(d.repo, e, parts, k);
      if p in fork {
        assert Seen(fork, data, p) == Seen(d.repo, d.data, p);
        if k == |parts| - 1 {
          PrivateClone(d, fork, data, p);
        }
      }
    }
  }

  lemma PrivateClone(d: Disk, fork: Tree, data: map<Ino, string>, p: Path)
    requires Sound(d) && d.fork == map[] && Cloned(d.repo, fork, d.data, data)
    requires p in d.repo && p in fork && d.repo[p].File? && fork[p].File?
    requires Links(Disk(d.repo, d.outside, fork, data), d.repo[p].ino) <= 1
    ensures Links(Disk(d.repo, d.outside, fork, data), fork[p].ino) <= 1
  {
    var i, j := d.repo[p].ino, fork[p].ino;
    assert p in Aliases(d.repo, i);
    OnlyAlias(d.repo, i, p);
    forall q | q in Aliases(fork, j)
      ensures q == p
    {
      assert q in d.repo && Seen(fork, data, q) == Seen(d.repo, d.data, q);
    }
    assert Aliases(fork, j) == {p};
    assert Aliases(d.repo, j) == {} && Aliases(d.outside, j) == {};
  }

  /**
   * End to end: fork the repository and apply a streamed write. The write goes
   * through exactly when the repository admits it, and then shows at every
   * path, inside and outside, what writing in the repository would show,
   * exactly when the repository has the directories.
   */
  method ForkAndApply(d: Disk, entries: seq<Path>, unused: Ino, parts: Path, contents: string)
      returns (cloned: Disk, after: Option<Disk>, at: Ino)
    requires Sound(d) && d.fork == map[] && parts != []
    requires forall i :: i in d.data ==> i < unused
    requires (forall p :: p in entries <==> p in d.repo) && forall i, j :: 0 <= i < j < |entries| ==> entries[i] != entries[j]
    ensures cloned.repo == d.repo && cloned.outside == d.outside && Keeps(d.data, cloned.data) && Mirrors(cloned)
    ensures after.Some? <==> Admits(d.repo, cloned, parts)
    ensures after.Some? ==> after.value == cloned.(fork := Replaced(cloned.fork, parts, at),
                                                   data := cloned.data[at := contents])
    ensures after.Some? ==> (SameSights(cloned, parts, contents, at) <==> Placeable(d.repo, parts))
  {
    hide Links, Cloned, Admits, SameSights, Placeable, Mirrors, Keeps, Sound, Stored;
    var fork, data, next := ClonefileFork(d, entries, unused);
    cloned, at := Disk(d.repo, d.outside, fork, data), next;
    ClonesMirror(d, fork, data);
    after := Apply(cloned, parts, contents, next);
    if Admits(d.repo, cloned, parts) {
      CloneAdmits(d, fork, data, parts);
      AdmittedWriteAgrees(cloned, parts, contents, next);
    }
  }
}
