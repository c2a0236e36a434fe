/** JavaScript's `Map`: entries in insertion order, one a key; writing a present key keeps
    its place, deleting and writing it again moves it to the end. */
module OrderedMaps {
  import opened Options

  type OrderedMap<V> = seq<(string, V)>

  predicate Unique<V>(m: OrderedMap<V>) {
    forall i, j | 0 <= i < j < |m| :: m[i].0 != m[j].0
  }

  function Keys<V>(m: OrderedMap<V>): set<string> {
    set i | 0 <= i < |m| :: m[i].0
  }

  function Get<V>(m: OrderedMap<V>, key: string): Option<V> {
    if m == [] then None
    else if m[0].0 == key then Some(m[0].1)
    else Get(m[1..], key)
  }

  function Set<V>(m: OrderedMap<V>, key: string, value: V): OrderedMap<V> {
    if m == [] then [(key, value)]
    else if m[0].0 == key then [(key, value)] + m[1..]
    else [m[0]] + Set(m[1..], key, value)
  }

  function Remove<V>(m: OrderedMap<V>, key: string): OrderedMap<V> {
    if m == [] then []
    else if m[0].0 == key then m[1..]
    else [m[0]] + Remove(m[1..], key)
  }

  lemma TailKeys<V>(m: OrderedMap<V>)
    requires m != []
    ensures Keys(m) == {m[0].0} + Keys(m[1..])
    ensures Unique(m) ==> Unique(m[1..]) && m[0].0 !in Keys(m[1..])
  {
    forall k | k in Keys(m) ensures k in {m[0].0} + Keys(m[1..]) {
      var i :| 0 <= i < |m| && m[i].0 == k;
      if i > 0 { assert m[1..][i - 1].0 == k; }
    }
    forall k | k in Keys(m[1..]) ensures k in Keys(m) {
      var i :| 0 <= i < |m[1..]| && m[1..][i].0 == k;
      assert m[i + 1].0 == k;
    }
  }

  lemma ConsKeys<V>(e: (string, V), m: OrderedMap<V>)
    ensures Keys([e] + m) == {e.0} + Keys(m)
    ensures Unique([e] + m) <==> Unique(m) && e.0 !in Keys(m)
  {
    var c := [e] + m;
    assert c[1..] == m;
    TailKeys(c);
    if Unique(m) && e.0 !in Keys(m) {
      forall i, j | 0 <= i < j < |c| ensures c[i].0 != c[j].0 {
        if i == 0 { assert m[j - 1].0 in Keys(m); }
      }
    }
  }

  lemma {:induction false} GetKeys<V>(m: OrderedMap<V>, key: string)
    ensures Get(m, key).Some? <==> key in Keys(m)
  {
    if m != [] {
      TailKeys(m);
      GetKeys(m[1..], key);
    }
  }

  lemma {:induction false} SetGets<V>(m: OrderedMap<V>, key: string, value: V, k: string)
    ensures Get(Set(m, key, value), k) == if k == key then Some(value) else Get(m, k)
  {
    if m != [] && m[0].0 != key {
      SetGets(m[1..], key, value, k);
    }
  }

  lemma {:induction false} SetKeys<V>(m: OrderedMap<V>, key: string, value: V)
    ensures var n := Set(m, key, value);
            Keys(n) == Keys(m) + {key} && (Unique(m) ==> Unique(n))
  {
    if m == [] {
      ConsKeys((key, value), m);
      assert [(key, value)] + m == [(key, value)];
    } else {
      TailKeys(m);
      if m[0].0 == key {
        ConsKeys((key, value), m[1..]);
      } else {
        SetKeys(m[1..], key, value);
        ConsKeys(m[0], Set(m[1..], key, value));
      }
    }
  }

  lemma {:induction false} SetPlace<V>(m: OrderedMap<V>, key: string, value: V)
    ensures |Set(m, key, value)| == |m| + (if key in Keys(m) then 0 else 1)
    ensures key !in Keys(m) ==> Set(m, key, value) == m + [(key, value)]
  {
    if m != [] {
      TailKeys(m);
      if m[0].0 != key {
        SetPlace(m[1..], key, value);
        assert [m[0]] + (m[1..] + [(key, value)]) == m + [(key, value)];
      }
    }
  }

  /** A write changes the one key, keeps the others, and grows the map, at its end, only
      for a new key. */
  lemma SetFacts<V>(m: OrderedMap<V>, key: string, value: V)
    ensures var n := Set(m, key, value);
            && Keys(n) == Keys(m) + {key}
            && (Unique(m) ==> Unique(n))
            && |n| == |m| + (if key in Keys(m) then 0 else 1)
            && (key !in Keys(m) ==> n == m + [(key, value)])
            && forall k :: Get(n, k) == if k == key then Some(value) else Get(m, k)
  {
    SetKeys(m, key, value);
    SetPlace(m, key, value);
    forall k ensures Get(Set(m, key, value), k) == if k == key then Some(value) else Get(m, k) {
      SetGets(m, key, value, k);
    }
  }

  lemma {:induction false} RemoveFacts<V>(m: OrderedMap<V>, key: string)
    requires Unique(m)
    ensures var n := Remove(m, key);
            && Unique(n) && Keys(n) == Keys(m) - {key}
            && |n| == |m| - (if key in Keys(m) then 1 else 0)
            && (key !in Keys(m) ==> n == m)
            && forall k :: Get(n, k) == if k == key then None else Get(m, k)
  {
    if m != [] {
      TailKeys(m);
      if m[0].0 == key {
        forall k ensures Get(m[1..], k) == if k == key then None else Get(m, k) {
          GetKeys(m[1..], k);
        }
      } else {
        RemoveFacts(m[1..], key);
        ConsKeys(m[0], Remove(m[1..], key));
        assert m == [m[0]] + m[1..];
      }
    }
  }
}
