/**
 * `_freeze` of src/sfx/cache.py:26-35: the hashable form of a call's arguments
 * that keys the reservation table, and how far it tells arguments apart.
 */
module Canon {
  /** A dictionary is its entries in insertion order. */
  datatype Value =
    | Text(text: string)
    | Items(items: seq<Value>)
    | Dict(entries: seq<(string, Value)>)

  datatype Frozen = Leaf(text: string) | Tuple(parts: seq<Frozen>)

  /** Python's order on strings. */
  predicate Less(a: string, b: string) {
    b != "" && (a == "" || a[0] < b[0] || (a[0] == b[0] && Less(a[1..], b[1..])))
  }

  lemma {:induction false} LessIsTotal(a: string, b: string)
    ensures a == b || Less(a, b) || Less(b, a)
    ensures !(Less(a, b) && Less(b, a))
    ensures !Less(a, a)
    decreases |a|
  {
    if a != "" {
      LessIsTotal(a[1..], a[1..]);
      if b != "" {
        LessIsTotal(a[1..], b[1..]);
        assert a == [a[0]] + a[1..] && b == [b[0]] + b[1..];
      }
    }
  }

  lemma {:induction false} LessIsTransitive(a: string, b: string, c: string)
    requires Less(a, b) && Less(b, c)
    ensures Less(a, c)
    decreases |a|
  {
    if a != "" && a[0] == b[0] == c[0] {
      LessIsTransitive(a[1..], b[1..], c[1..]);
    }
  }

  /** Keys strictly ascending. */
  ghost predicate Ascending(s: seq<(string, Frozen)>) {
    forall i, j :: 0 <= i < j < |s| ==> Less(s[i].0, s[j].0)
  }

  ghost predicate DistinctKeys<T>(s: seq<(string, T)>) {
    forall i, j :: 0 <= i < j < |s| ==> s[i].0 != s[j].0
  }

  function Insert(e: (string, Frozen), s: seq<(string, Frozen)>): seq<(string, Frozen)> {
    if s == [] || Less(e.0, s[0].0) then [e] + s else [s[0]] + Insert(e, s[1..])
  }

  function Sorted(s: seq<(string, Frozen)>): seq<(string, Frozen)> {
    if s == [] then [] else Insert(s[0], Sorted(s[1..]))
  }

  lemma {:induction false} InsertAscends(e: (string, Frozen), s: seq<(string, Frozen)>)
    requires Ascending(s) && forall x :: x in s ==> x.0 != e.0
    ensures Ascending(Insert(e, s))
    ensures forall x :: x in Insert(e, s) <==> x == e || x in s
    decreases |s|
  {
    if s != [] {
      LessIsTotal(e.0, s[0].0);
      assert s[0] in s;
      if Less(e.0, s[0].0) {
        forall i | 0 < i < |s|
          ensures Less(e.0, s[i].0)
        {
          LessIsTransitive(e.0, s[0].0, s[i].0);
        }
      } else {
        assert forall x :: x in s <==> x == s[0] || x in s[1..];
        InsertAscends(e, s[1..]);
        var t := Insert(e, s[1..]);
        forall i | 0 <= i < |t|
          ensures Less(s[0].0, t[i].0)
        {
          assert t[i] in t && (t[i] == e || t[i] in s[1..]);
          if t[i] != e {
            var k :| 0 <= k < |s[1..]| && s[1..][k] == t[i];
            assert s[k + 1] == t[i];
          }
        }
      }
    }
  }

  lemma {:induction false} SortedAscends(s: seq<(string, Frozen)>)
    requires DistinctKeys(s)
    ensures Ascending(Sorted(s))
    ensures forall x :: x in Sorted(s) <==> x in s
    decreases |s|
  {
    if s != [] {
      var rest := s[1..];
      assert forall i :: 0 <= i < |rest| ==> rest[i] == s[i + 1];
      SortedAscends(rest);
      forall x | x in Sorted(rest)
        ensures x.0 != s[0].0
      {
        assert x in rest;
        var i :| 0 <= i < |rest| && rest[i] == x;
        assert s[i + 1] == x;
      }
      InsertAscends(s[0], Sorted(rest));
      assert forall x :: x in s <==> x == s[0] || x in rest;
    }
  }

  /** An ascending list is determined by what is in it. */
  lemma {:induction false} AscendingIsUnique(a: seq<(string, Frozen)>, b: seq<(string, Frozen)>)
    requires Ascending(a) && Ascending(b) && forall x :: x in a <==> x in b
    ensures a == b
    decreases |a|
  {
    if a == [] {
      FirstMember(b);
    } else {
      FirstIsFirst(a, b);
      forall x: (string, Frozen)
        ensures x in a[1..] <==> x in b[1..]
      {
        TailMembers(a, x);
        TailMembers(b, x);
      }
      AscendingIsUnique(a[1..], b[1..]);
      assert a == [a[0]] + a[1..] && b == [b[0]] + b[1..];
    }
  }

  lemma FirstMember(b: seq<(string, Frozen)>)
    ensures b == [] || b[0] in b
  {
  }

  lemma FirstIsFirst(a: seq<(string, Frozen)>, b: seq<(string, Frozen)>)
    requires Ascending(a) && Ascending(b) && a != [] && forall x :: x in a <==> x in b
    ensures b != [] && a[0] == b[0]
  {
    assert a[0] in b;
    var i :| 0 <= i < |b| && b[i] == a[0];
    assert b[0] in a;
    var j :| 0 <= j < |a| && a[j] == b[0];
    LessIsTotal(a[0].0, b[0].0);
  }

  lemma TailMembers(a: seq<(string, Frozen)>, x: (string, Frozen))
    requires Ascending(a) && a != []
    ensures x in a[1..] <==> x in a && x != a[0]
  {
    LessIsTotal(a[0].0, a[0].0);
    if x in a && x != a[0] {
      var i :| 0 <= i < |a| && a[i] == x;
      assert a[1..][i - 1] == x;
    }
    if x in a[1..] {
      var i :| 0 <= i < |a[1..]| && a[1..][i] == x;
      assert a[i + 1] == x;
    }
  }

  function Pair(e: (string, Frozen)): Frozen {
    Tuple([Leaf(e.0), e.1])
  }

  function Freeze(v: Value): Frozen {
    match v
    case Text(t) => Leaf(t)
    case Items(items) => Tuple(seq(|items|, i requires 0 <= i < |items| => Freeze(items[i])))
    case Dict(entries) =>
      var frozen := Sorted(seq(|entries|, i requires 0 <= i < |entries| => (entries[i].0, Freeze(entries[i].1))));
      Tuple(seq(|frozen|, i requires 0 <= i < |frozen| => Pair(frozen[i])))
  }

  /** `{"cmd": ...}`, `{"path": ..., "contents": ...}`: string values, no key twice. */
  ghost predicate Flat(entries: seq<(string, Value)>) {
    DistinctKeys(entries) && forall e :: e in entries ==> e.1.Text?
  }

  function Frozens(entries: seq<(string, Value)>): seq<(string, Frozen)> {
    seq(|entries|, i requires 0 <= i < |entries| => (entries[i].0, Freeze(entries[i].1)))
  }

  lemma FrozenEntries(entries: seq<(string, Value)>, key: string, text: string)
    requires Flat(entries)
    ensures DistinctKeys(Frozens(entries))
    ensures (key, Leaf(text)) in Frozens(entries) <==> (key, Text(text)) in entries
    ensures forall e :: e in Frozens(entries) ==> e.1.Leaf?
  {
    var frozen := Frozens(entries);
    if (key, Leaf(text)) in frozen {
      var i :| 0 <= i < |frozen| && frozen[i] == (key, Leaf(text));
      assert entries[i] in entries;
      assert entries[i] == (key, Text(text));
    }
    if (key, Text(text)) in entries {
      var i :| 0 <= i < |entries| && entries[i] == (key, Text(text));
      assert frozen[i] == (key, Leaf(text));
    }
    forall e | e in frozen
      ensures e.1.Leaf?
    {
      var i :| 0 <= i < |frozen| && frozen[i] == e;
      assert entries[i] in entries;
    }
  }

  lemma {:induction false} PairsAreInjective(a: seq<(string, Frozen)>, b: seq<(string, Frozen)>)
    requires |a| == |b| && forall i :: 0 <= i < |a| ==> Pair(a[i]) == Pair(b[i])
    ensures a == b
  {
    forall i | 0 <= i < |a|
      ensures a[i] == b[i]
    {
      assert Pair(a[i]).parts[0] == Leaf(a[i].0) && Pair(b[i]).parts[0] == Leaf(b[i].0);
      assert Pair(a[i]).parts[1] == a[i].1 && Pair(b[i]).parts[1] == b[i].1;
    }
  }

  /** Two flat argument dictionaries share a key exactly when they hold the same entries, in whatever order. */
  lemma FlatKeysAreExact(a: seq<(string, Value)>, b: seq<(string, Value)>)
    requires Flat(a) && Flat(b)
    ensures Freeze(Dict(a)) == Freeze(Dict(b)) <==> forall e :: e in a <==> e in b
  {
    var x, y := Sorted(Frozens(a)), Sorted(Frozens(b));
    FrozenEntries(a, "", "");
    FrozenEntries(b, "", "");
    SortedAscends(Frozens(a));
    SortedAscends(Frozens(b));
    FreezeIsSortedPairs(a);
    FreezeIsSortedPairs(b);
    if Freeze(Dict(a)) == Freeze(Dict(b)) {
      var ps, qs := Freeze(Dict(a)).parts, Freeze(Dict(b)).parts;
      assert forall i :: 0 <= i < |x| ==> ps[i] == Pair(x[i]) && qs[i] == Pair(y[i]);
      PairsAreInjective(x, y);
      forall e: (string, Value)
        ensures e in a <==> e in b
      {
        if e.1.Text? {
          FrozenEntries(a, e.0, e.1.text);
          FrozenEntries(b, e.0, e.1.text);
        }
      }
    }
    if forall e :: e in a <==> e in b {
      forall e: (string, Frozen)
        ensures e in x <==> e in y
      {
        if e.1.Leaf? {
          FrozenEntries(a, e.0, e.1.text);
          FrozenEntries(b, e.0, e.1.text);
        }
      }
      AscendingIsUnique(x, y);
    }
  }

  lemma FreezeIsSortedPairs(a: seq<(string, Value)>)
    ensures var frozen := Sorted(Frozens(a));
            && Freeze(Dict(a)).Tuple? && |Freeze(Dict(a)).parts| == |frozen|
            && forall i :: 0 <= i < |frozen| ==> Freeze(Dict(a)).parts[i] == Pair(frozen[i])
    ensures Freeze(Dict(a))
            == Tuple(seq(|Sorted(Frozens(a))|, i requires 0 <= i < |Sorted(Frozens(a))| => Pair(Sorted(Frozens(a))[i])))
  {
    assert Frozens(a) == seq(|a|, i requires 0 <= i < |a| => (a[i].0, Freeze(a[i].1)));
  }

  /** The entries of a flat dictionary, in key order, as a list of two-element lists. */
  function PairList(entries: seq<(string, Value)>): Value {
    var frozen := Sorted(Frozens(entries));
    Items(seq(|frozen|, i requires 0 <= i < |frozen| =>
      Items([Text(frozen[i].0), Text(if frozen[i].1.Leaf? then frozen[i].1.text else "")])))
  }

  /** Every flat dictionary shares its key with a value that is no dictionary: the list of its items. */
  lemma DictAndListCollide(entries: seq<(string, Value)>)
    requires Flat(entries)
    ensures PairList(entries).Items? && Freeze(Dict(entries)) == Freeze(PairList(entries))
  {
    var frozen := Sorted(Frozens(entries));
    var list := PairList(entries);
    FreezeIsSortedPairs(entries);
    SortedAscends(Frozens(entries)) by {
      FrozenEntries(entries, "", "");
    }
    forall i | 0 <= i < |frozen|
      ensures Freeze(list.items[i]) == Pair(frozen[i])
    {
      FrozenEntries(entries, "", "");
      assert frozen[i] in frozen && frozen[i] in Frozens(entries);
      assert list.items[i] == Items([Text(frozen[i].0), Text(frozen[i].1.text)]);
      FreezePair(frozen[i].0, frozen[i].1.text);
    }
    assert Freeze(list).parts == Freeze(Dict(entries)).parts;
  }

  lemma FreezePair(key: string, text: string)
    ensures Freeze(Items([Text(key), Text(text)])) == Tuple([Leaf(key), Leaf(text)])
  {
    var items := [Text(key), Text(text)];
    assert Freeze(Items(items)).parts == [Leaf(key), Leaf(text)];
  }
}
