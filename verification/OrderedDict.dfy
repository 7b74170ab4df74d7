/** Insertion-ordered dictionaries, as Python's `dict` and `OrderedDict` keep them:
    a sequence of entries whose keys are pairwise distinct. Assigning to a present key
    keeps its position; assigning to a new key appends. */
module OrderedDict {

  datatype Option<+T> = None | Some(value: T)

  type Dict<K, V> = seq<(K, V)>

  function Get<K(==), V>(d: Dict<K, V>, k: K): Option<V> {
    if d == [] then None else if d[0].0 == k then Some(d[0].1) else Get(d[1..], k)
  }

  predicate Has<K(==), V>(d: Dict<K, V>, k: K) {
    Get(d, k).Some?
  }

  function Put<K(==), V>(d: Dict<K, V>, k: K, v: V): Dict<K, V> {
    if d == [] then [(k, v)]
    else if d[0].0 == k then [(k, v)] + d[1..]
    else [d[0]] + Put(d[1..], k, v)
  }

  /** `dict.pop(k, None)`. */
  function Del<K(==), V>(d: Dict<K, V>, k: K): Dict<K, V> {
    if d == [] then [] else if d[0].0 == k then d[1..] else [d[0]] + Del(d[1..], k)
  }

  function Keys<K, V>(d: Dict<K, V>): (ks: seq<K>)
    ensures |ks| == |d| && forall i :: 0 <= i < |d| ==> ks[i] == d[i].0
  {
    if d == [] then [] else [d[0].0] + Keys(d[1..])
  }

  ghost predicate Distinct<K, V>(d: Dict<K, V>) {
    forall i, j :: 0 <= i < j < |d| ==> d[i].0 != d[j].0
  }

  function Sum<K, V>(d: Dict<K, V>, f: V -> int): int {
    if d == [] then 0 else f(d[0].1) + Sum(d[1..], f)
  }

  /** The contribution of key `k` to `Sum`. */
  function Share<K(==), V>(d: Dict<K, V>, k: K, f: V -> int): int {
    match Get(d, k) case None => 0 case Some(v) => f(v)
  }

  // ---- lookups ----

  lemma {:induction false} GetIndex<K, V>(d: Dict<K, V>, k: K)
    ensures Get(d, k).Some? <==> exists i :: 0 <= i < |d| && d[i].0 == k
    ensures Get(d, k).Some? ==> exists i :: 0 <= i < |d| && d[i] == (k, Get(d, k).value)
  {
    if d != [] {
      GetIndex(d[1..], k);
      if d[0].0 == k {
        assert d[0] == (k, Get(d, k).value);
      } else {
        var rest := d[1..];
        forall i | 0 <= i < |d| && d[i].0 == k ensures Get(rest, k).Some? {
          assert rest[i - 1] == d[i];
        }
        if Get(rest, k).Some? {
          var i :| 0 <= i < |rest| && rest[i] == (k, Get(rest, k).value);
          assert d[i + 1] == (k, Get(d, k).value);
        }
      }
    }
  }

  lemma {:induction false} GetAt<K, V>(d: Dict<K, V>, i: nat)
    requires Distinct(d) && i < |d|
    ensures Get(d, d[i].0) == Some(d[i].1)
  {
    if i > 0 {
      assert d[0].0 != d[i].0;
      assert d[1..][i - 1] == d[i];
      GetAt(d[1..], i - 1);
    }
  }

  lemma {:induction false} GetPut<K, V>(d: Dict<K, V>, k: K, v: V, q: K)
    ensures Get(Put(d, k, v), q) == if q == k then Some(v) else Get(d, q)
  {
    if d != [] && d[0].0 != k {
      GetPut(d[1..], k, v, q);
      assert Put(d, k, v)[1..] == Put(d[1..], k, v);
    } else if d != [] {
      assert Put(d, k, v)[1..] == d[1..];
    }
  }

  lemma {:induction false} GetDel<K, V>(d: Dict<K, V>, k: K, q: K)
    requires Distinct(d)
    ensures Get(Del(d, k), q) == if q == k then None else Get(d, q)
  {
    if d != [] {
      if d[0].0 == k {
        GetIndex(d[1..], k);
      } else {
        GetDel(d[1..], k, q);
        assert Del(d, k)[1..] == Del(d[1..], k);
      }
    }
  }

  lemma {:induction false} GetAppend<K, V>(d: Dict<K, V>, k: K, v: V, q: K)
    requires !Has(d, k)
    ensures Get(d + [(k, v)], q) == if q == k then Some(v) else Get(d, q)
  {
    if d != [] {
      assert (d + [(k, v)])[1..] == d[1..] + [(k, v)];
      GetAppend(d[1..], k, v, q);
    }
  }

  // ---- shape ----

  lemma {:induction false} PutKeys<K, V>(d: Dict<K, V>, k: K, v: V)
    ensures Keys(Put(d, k, v)) == if Has(d, k) then Keys(d) else Keys(d) + [k]
    ensures |Put(d, k, v)| == |d| + if Has(d, k) then 0 else 1
  {
    if d != [] && d[0].0 != k {
      PutKeys(d[1..], k, v);
      assert Put(d, k, v)[1..] == Put(d[1..], k, v);
      if !Has(d, k) {
        assert Keys(d) + [k] == [d[0].0] + (Keys(d[1..]) + [k]);
      }
    } else if d != [] {
      assert Put(d, k, v)[1..] == d[1..];
    }
  }

  lemma {:induction false} PutDistinct<K, V>(d: Dict<K, V>, k: K, v: V)
    requires Distinct(d)
    ensures Distinct(Put(d, k, v))
  {
    hide Put, Get, Keys;
    PutKeys(d, k, v);
    GetIndex(d, k);
    var e := Put(d, k, v);
    forall i, j | 0 <= i < j < |e| ensures e[i].0 != e[j].0 {
      assert Keys(e)[i] == e[i].0 && Keys(e)[j] == e[j].0;
    }
  }

  lemma {:induction false} DelParts<K, V>(d: Dict<K, V>, k: K) returns (i: nat)
    ensures Has(d, k) ==> i < |d| && d[i].0 == k && Get(d, k) == Some(d[i].1) && Del(d, k) == d[..i] + d[i + 1..]
    ensures !Has(d, k) ==> Del(d, k) == d
  {
    i := 0;
    if d != [] {
      if d[0].0 == k {
      } else {
        i := DelParts(d[1..], k);
        if Has(d, k) {
          i := i + 1;
          assert d[..i] == [d[0]] + d[1..][..i - 1];
          assert d[i + 1..] == d[1..][i..];
        }
      }
    }
  }

  lemma {:induction false} PutFresh<K, V>(d: Dict<K, V>, k: K, v: V)
    requires !Has(d, k)
    ensures Put(d, k, v) == d + [(k, v)]
  {
    if d != [] {
      PutFresh(d[1..], k, v);
      assert d == [d[0]] + d[1..];
    }
  }

  lemma {:induction false} PutTwice<K, V>(d: Dict<K, V>, k: K, v: V, w: V)
    ensures Put(Put(d, k, v), k, w) == Put(d, k, w)
  {
    if d != [] && d[0].0 != k {
      PutTwice(d[1..], k, v, w);
      assert Put(d, k, v)[1..] == Put(d[1..], k, v);
    } else if d != [] {
      assert Put(d, k, v)[1..] == d[1..];
    }
  }

  lemma DelDistinct<K, V>(d: Dict<K, V>, k: K)
    requires Distinct(d)
    ensures Distinct(Del(d, k))
    ensures |Del(d, k)| == |d| - if Has(d, k) then 1 else 0
  {
    var i := DelParts(d, k);
  }

  // ---- sums ----

  lemma {:induction false} SumPut<K, V>(d: Dict<K, V>, k: K, v: V, f: V -> int)
    ensures Sum(Put(d, k, v), f) == Sum(d, f) - Share(d, k, f) + f(v)
  {
    if d != [] && d[0].0 != k {
      SumPut(d[1..], k, v, f);
      assert Put(d, k, v)[1..] == Put(d[1..], k, v);
    } else if d != [] {
      assert Put(d, k, v)[1..] == d[1..];
    }
  }

  lemma {:induction false} SumDel<K, V>(d: Dict<K, V>, k: K, f: V -> int)
    ensures Sum(Del(d, k), f) == Sum(d, f) - Share(d, k, f)
  {
    if d != [] && d[0].0 != k {
      SumDel(d[1..], k, f);
      assert Del(d, k)[1..] == Del(d[1..], k);
    }
  }
}
