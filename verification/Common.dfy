/** Small vocabulary shared by every layer: optional values, sums over finite
    maps, and the identifiers the system draws or derives. */
module Common {
  datatype Option<+T> = None | Some(value: T)

  /** A UUID drawn by some process, or an id derived from another one.
      Drawing is globally unique and deriving is injective, so both are free
      constructors here. `NoId` is the empty string Go leaves in an unset id. */
  datatype Id = NoId | Uuid(drawer: nat, n: nat) | DetId(of: Id, tag: string)

  /** Which process drew the UUID an id is, or was derived from. */
  function Drawer(id: Id): Option<nat> {
    match id
    case NoId => None
    case Uuid(d, _) => Some(d)
    case DetId(of, _) => Drawer(of)
  }

  ghost function Sum<K>(m: map<K, int>): int
    decreases |m|
  {
    if m == map[] then 0 else
      var k :| k in m;
      m[k] + Sum(m - {k})
  }

  lemma {:induction false} SumRemove<K>(m: map<K, int>, k: K)
    requires k in m
    ensures Sum(m) == m[k] + Sum(m - {k})
    decreases |m|
  {
    var j :| j in m && Sum(m) == m[j] + Sum(m - {j});
    if j != k {
      SumRemove(m - {j}, k);
      SumRemove(m - {k}, j);
      assert m - {j} - {k} == m - {k} - {j};
    }
  }

  /** Setting one entry moves the sum by exactly what that entry moved. */
  lemma SumUpdate<K>(m: map<K, int>, k: K, v: int)
    ensures Sum(m[k := v]) == Sum(m) + v - (if k in m then m[k] else 0)
  {
    var m' := m[k := v];
    SumRemove(m', k);
    if k in m {
      SumRemove(m, k);
      assert m' - {k} == m - {k};
    } else {
      assert m' - {k} == m;
    }
  }

  lemma {:induction false} SumNonNegative<K>(m: map<K, int>)
    requires forall k :: k in m ==> m[k] >= 0
    ensures Sum(m) >= 0
    decreases |m|
  {
    if m != map[] {
      var k :| k in m && Sum(m) == m[k] + Sum(m - {k});
      SumNonNegative(m - {k});
    }
  }

  lemma {:induction false} SumZero<K>(m: map<K, int>)
    requires forall k :: k in m ==> m[k] == 0
    ensures Sum(m) == 0
    decreases |m|
  {
    if m != map[] {
      var k :| k in m && Sum(m) == m[k] + Sum(m - {k});
      SumZero(m - {k});
    }
  }

  /** What `m` holds under the keys listed. */
  function ListedSum<K>(m: map<K, int>, keys: seq<K>): int
    requires forall i :: 0 <= i < |keys| ==> keys[i] in m
  {
    if keys == [] then 0 else ListedSum(m, keys[..|keys| - 1]) + m[keys[|keys| - 1]]
  }

  lemma {:induction false} ListedAgree<K>(m: map<K, int>, m': map<K, int>, keys: seq<K>)
    requires forall i :: 0 <= i < |keys| ==> keys[i] in m && keys[i] in m' && m[keys[i]] == m'[keys[i]]
    ensures ListedSum(m, keys) == ListedSum(m', keys)
  {
    if keys != [] { ListedAgree(m, m', keys[..|keys| - 1]); }
  }

  /** A sum is what the listed keys hold when the others hold nothing. */
  lemma {:induction false} SumListed<K>(m: map<K, int>, keys: seq<K>)
    requires forall i :: 0 <= i < |keys| ==> keys[i] in m
    requires forall i, j :: 0 <= i < j < |keys| ==> keys[i] != keys[j]
    requires forall k :: k in m && k !in keys ==> m[k] == 0
    ensures Sum(m) == ListedSum(m, keys)
    decreases |keys|
  {
    if keys == [] {
      SumZero(m);
    } else {
      var n := |keys| - 1;
      var k := keys[n];
      SumRemove(m, k);
      assert forall x :: x in m - {k} && x !in keys[..n] ==> (x !in keys) by {
        assert keys == keys[..n] + [k];
      }
      SumListed(m - {k}, keys[..n]);
      ListedAgree(m, m - {k}, keys[..n]);
    }
  }

  lemma {:induction false} SumAdds<K>(m: map<K, int>, a: map<K, int>, b: map<K, int>)
    requires m.Keys == a.Keys == b.Keys && forall k :: k in m ==> m[k] == a[k] + b[k]
    ensures Sum(m) == Sum(a) + Sum(b)
    decreases |m|
  {
    if m != map[] {
      var k :| k in m;
      SumRemove(m, k);
      SumRemove(a, k);
      SumRemove(b, k);
      SumAdds(m - {k}, a - {k}, b - {k});
    } else {
      assert a == map[] && b == map[];
    }
  }
}
