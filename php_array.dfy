/** PHP's ordered associative arrays with string keys, as the reconciliation uses them:
    assigning to a new key appends an entry, assigning to an existing key replaces its
    value where it stands. */
module PhpArray {
  import opened Wrappers

  /** Entries in insertion order. */
  type Entries<V> = seq<(string, V)>

  function Keys<V>(m: Entries<V>): set<string> {
    set i | 0 <= i < |m| :: m[i].0
  }

  /** No key occurs twice; every array built by `Put` from `[]` has this shape. */
  predicate UniqueKeys<V>(m: Entries<V>) {
    forall i, j :: 0 <= i < j < |m| ==> m[i].0 != m[j].0
  }

  lemma KeysCons<V>(h: (string, V), t: Entries<V>)
    ensures Keys([h] + t) == {h.0} + Keys(t)
  {
    var s := [h] + t;
    forall x | x in Keys(s) ensures x in {h.0} + Keys(t) {
      var i :| 0 <= i < |s| && s[i].0 == x;
      if i > 0 { assert t[i - 1].0 == x; }
    }
    forall x | x in Keys(t) ensures x in Keys(s) {
      var i :| 0 <= i < |t| && t[i].0 == x;
      assert s[i + 1].0 == x;
    }
    assert s[0].0 == h.0;
  }

  /** `$m[$k] = $v`. */
  function Put<V>(m: Entries<V>, k: string, v: V): (r: Entries<V>)
    ensures Keys(r) == Keys(m) + {k}
    ensures k !in Keys(m) ==> r == m + [(k, v)]
    ensures k in Keys(m) ==> |r| == |m|
  {
    if |m| == 0 then
      assert [(k, v)] == [(k, v)] + m;
      KeysCons((k, v), m);
      [(k, v)]
    else
      assert m == [m[0]] + m[1..];
      KeysCons(m[0], m[1..]);
      if m[0].0 == k then
        KeysCons((k, v), m[1..]);
        [(k, v)] + m[1..]
      else
        var rest := Put(m[1..], k, v);
        KeysCons(m[0], rest);
        [m[0]] + rest
  }

  /** Every array built by `Put` keeps its keys distinct. */
  lemma {:induction false} PutKeepsUniqueKeys<V>(m: Entries<V>, k: string, v: V)
    requires UniqueKeys(m)
    ensures UniqueKeys(Put(m, k, v))
  {
    if |m| > 0 {
      assert m == [m[0]] + m[1..];
      UniqueKeysTail(m);
      if m[0].0 == k {
        UniqueKeysCons((k, v), m[1..]);
      } else {
        PutKeepsUniqueKeys(m[1..], k, v);
        UniqueKeysCons(m[0], Put(m[1..], k, v));
      }
    }
  }

  lemma UniqueKeysTail<V>(m: Entries<V>)
    requires |m| > 0 && UniqueKeys(m)
    ensures UniqueKeys(m[1..]) && m[0].0 !in Keys(m[1..])
  {
    forall i, j | 0 <= i < j < |m[1..]| ensures m[1..][i].0 != m[1..][j].0 {
      assert m[1..][i] == m[i + 1] && m[1..][j] == m[j + 1];
    }
    forall j | 0 <= j < |m[1..]| ensures m[1..][j].0 != m[0].0 {
      assert m[1..][j] == m[j + 1];
    }
  }

  lemma UniqueKeysCons<V>(h: (string, V), t: Entries<V>)
    requires UniqueKeys(t) && h.0 !in Keys(t)
    ensures UniqueKeys([h] + t)
  {
    var r := [h] + t;
    forall i, j | 0 <= i < j < |r| ensures r[i].0 != r[j].0 {
      assert r[j] == t[j - 1];
      if i == 0 {
        assert t[j - 1].0 in Keys(t);
      } else {
        assert r[i] == t[i - 1];
      }
    }
  }

  /** `$m[$k] ?? null`. */
  function Get<V>(m: Entries<V>, k: string): (r: Option<V>)
    ensures r.Some? <==> k in Keys(m)
  {
    if |m| == 0 then None
    else
      assert m == [m[0]] + m[1..];
      KeysCons(m[0], m[1..]);
      if m[0].0 == k then Some(m[0].1)
      else Get(m[1..], k)
  }

  /** A read after a write: the written key gives the written value, every other key what
      it gave before. */
  lemma {:induction false} GetPut<V>(m: Entries<V>, k: string, v: V, q: string)
    ensures Get(Put(m, k, v), q) == if q == k then Some(v) else Get(m, q)
  {
    if |m| > 0 && m[0].0 != k {
      GetPut(m[1..], k, v, q);
    }
  }

  /** Every entry after a write is the written one or was there before. */
  lemma {:induction false} PutEntries<V>(m: Entries<V>, k: string, v: V)
    ensures forall j :: 0 <= j < |Put(m, k, v)| ==> Put(m, k, v)[j] == (k, v) || Put(m, k, v)[j] in m
  {
    if |m| > 0 && m[0].0 != k {
      PutEntries(m[1..], k, v);
      var r := Put(m, k, v);
      forall j | 0 <= j < |r| ensures r[j] == (k, v) || r[j] in m {
        if j > 0 {
          assert r[j] == Put(m[1..], k, v)[j - 1];
          if r[j] in m[1..] {
            var i :| 0 <= i < |m[1..]| && m[1..][i] == r[j];
            assert m[i + 1] == r[j];
          }
        }
      }
    }
  }

  /** A key that is present is read from an entry holding it. */
  lemma {:induction false} GetEntry<V>(m: Entries<V>, k: string)
    requires k in Keys(m)
    ensures exists j :: 0 <= j < |m| && m[j] == (k, Get(m, k).value)
  {
    if m[0].0 != k {
      assert m == [m[0]] + m[1..];
      KeysCons(m[0], m[1..]);
      GetEntry(m[1..], k);
      var j :| 0 <= j < |m[1..]| && m[1..][j] == (k, Get(m[1..], k).value);
      assert m[j + 1] == (k, Get(m, k).value);
    }
  }

  lemma KeysSnoc<V>(m: Entries<V>, e: (string, V))
    ensures Keys(m + [e]) == Keys(m) + {e.0}
  {
    var s := m + [e];
    forall x | x in Keys(s) ensures x in Keys(m) + {e.0} {
      var i :| 0 <= i < |s| && s[i].0 == x;
      if i < |m| { assert m[i].0 == x; }
    }
    forall x | x in Keys(m) ensures x in Keys(s) {
      var i :| 0 <= i < |m| && m[i].0 == x;
      assert s[i].0 == x;
    }
    assert s[|m|].0 == e.0;
  }
}
