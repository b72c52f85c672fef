/** Sums over the values of a dictionary. */
module Sums {

  type Counter = map<string, nat>
  type Dist = map<string, real>

  ghost function SumN(m: Counter): nat {
    if m == map[] then 0
    else
      var k :| k in m;
      m[k] + SumN(m - {k})
  }

  ghost function SumR(m: Dist): real {
    if m == map[] then 0.0
    else
      var k :| k in m;
      m[k] + SumR(m - {k})
  }

  /** Any key may be taken out first. */
  lemma {:induction false} SplitN(m: Counter, k: string)
    requires k in m
    ensures SumN(m) == m[k] + SumN(m - {k})
    decreases |m|
  {
    var first :| first in m && SumN(m) == m[first] + SumN(m - {first});
    if first != k {
      SplitN(m - {first}, k);
      SplitN(m - {k}, first);
      assert m - {first} - {k} == m - {k} - {first};
    }
  }

  lemma {:induction false} SplitR(m: Dist, k: string)
    requires k in m
    ensures SumR(m) == m[k] + SumR(m - {k})
    decreases |m|
  {
    var first :| first in m && SumR(m) == m[first] + SumR(m - {first});
    if first != k {
      SplitR(m - {first}, k);
      SplitR(m - {k}, first);
      assert m - {first} - {k} == m - {k} - {first};
    }
  }

  lemma UpdateN(m: Counter, k: string, v: nat)
    ensures SumN(m[k := v]) == SumN(m) - (if k in m then m[k] else 0) + v
  {
    SplitN(m[k := v], k);
    assert m[k := v] - {k} == m - {k};
    if k in m {
      SplitN(m, k);
    } else {
      assert m - {k} == m;
    }
  }

  lemma UpdateR(m: Dist, k: string, v: real)
    ensures SumR(m[k := v]) == SumR(m) - (if k in m then m[k] else 0.0) + v
  {
    SplitR(m[k := v], k);
    assert m[k := v] - {k} == m - {k};
    if k in m {
      SplitR(m, k);
    } else {
      assert m - {k} == m;
    }
  }

  lemma {:induction false} PositiveN(m: Counter, k: string)
    requires k in m
    ensures m[k] <= SumN(m)
  {
    SplitN(m, k);
  }

  function Scaled(m: Counter, d: real): Dist
    requires d != 0.0
  {
    map k | k in m :: m[k] as real / d
  }

  lemma ScaledAt(m: Counter, k: string, d: real)
    requires d != 0.0 && k in m
    ensures k in Scaled(m, d) && Scaled(m, d)[k] == m[k] as real / d
    ensures Scaled(m, d) - {k} == Scaled(m - {k}, d)
  {
  }

  lemma Distribute(whole: nat, a: nat, b: nat, d: real)
    requires d != 0.0 && whole == a + b
    ensures whole as real / d == a as real / d + b as real / d
  {
  }

  lemma NothingSums()
    ensures SumR(map[]) == 0.0 && SumN(map[]) == 0
  {
  }

  lemma NothingScaled(d: real)
    requires d != 0.0
    ensures Scaled(map[], d) == map[]
  {
  }

  /** Dividing every count by `d` divides the sum. */
  lemma {:induction false} ScaledN(m: Counter, d: real)
    requires d != 0.0
    ensures SumR(Scaled(m, d)) == SumN(m) as real / d
    decreases |m|
  {
    hide Scaled, SumR, SumN;
    if m == map[] {
      NothingScaled(d);
      NothingSums();
    } else {
      var k :| k in m;
      ScaledAt(m, k, d);
      SplitN(m, k);
      SplitR(Scaled(m, d), k);
      ScaledN(m - {k}, d);
      Distribute(SumN(m), m[k], SumN(m - {k}), d);
    }
  }

  method Total(m: Counter) returns (sum: nat)
    ensures sum == SumN(m)
  {
    sum := 0;
    var rest := m;
    while rest != map[]
      invariant rest.Keys <= m.Keys
      invariant sum + SumN(rest) == SumN(m)
      decreases |rest|
    {
      var k :| k in rest;
      SplitN(rest, k);
      sum := sum + rest[k];
      rest := rest - {k};
    }
  }
}
