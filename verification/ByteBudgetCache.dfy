/** A least-recently-used mapping bounded by bytes and by entries (bounded_cache.py:15-72). */
module ByteBudgetCache {
  import opened OrderedDict

  datatype Held<+V> = Held(value: V, weight: nat)

  /** Least recently used first. */
  type Items<K, V> = Dict<K, Held<V>>

  function Weight(w: int): nat {
    if w < 0 then 0 else w
  }

  function Bytes<K, V>(d: Items<K, V>): nat {
    if d == [] then 0 else d[0].1.weight + Bytes(d[1..])
  }

  predicate Fits<K, V>(d: Items<K, V>, maxBytes: int, maxEntries: int) {
    Bytes(d) <= maxBytes && |d| <= maxEntries
  }

  /** `move_to_end`. */
  function Touch<K(==), V>(d: Items<K, V>, k: K): Items<K, V> {
    match Get(d, k) case None => d case Some(h) => Del(d, k) + [(k, h)]
  }

  /** The eviction loop. */
  function Evict<K, V>(d: Items<K, V>, maxBytes: int, maxEntries: int): Items<K, V> {
    if d == [] || Fits(d, maxBytes, maxEntries) then d else Evict(d[1..], maxBytes, maxEntries)
  }

  /** `put`. */
  function Store<K(==), V>(d: Items<K, V>, k: K, v: V, w: int, maxBytes: int, maxEntries: int): Items<K, V> {
    if Weight(w) > maxBytes then Del(d, k)
    else Evict(Del(d, k) + [(k, Held(v, Weight(w)))], maxBytes, maxEntries)
  }

  // ---- eviction ----

  lemma {:induction false} BytesOfSuffix<K, V>(d: Items<K, V>, i: nat, j: nat)
    requires i <= j <= |d|
    ensures Bytes(d[j..]) <= Bytes(d[i..])
    decreases j - i
  {
    if i < j {
      BytesOfSuffix(d, i + 1, j);
      assert d[i..][1..] == d[i + 1..];
    }
  }

  /** Eviction leaves the longest suffix, in recency order, that satisfies both bounds: exactly the suffixes
      inside the result fit. */
  lemma {:induction false} EvictLeavesLongestSuffix<K, V>(d: Items<K, V>, maxBytes: int, maxEntries: int)
    returns (from: nat)
    ensures from <= |d| && Evict(d, maxBytes, maxEntries) == d[from..]
    ensures forall j :: 0 <= j < |d| ==> (Fits(d[j..], maxBytes, maxEntries) <==> from <= j)
  {
    if d == [] || Fits(d, maxBytes, maxEntries) {
      from := 0;
      forall j | 0 <= j < |d| ensures Fits(d[j..], maxBytes, maxEntries) {
        BytesOfSuffix(d, 0, j);
        assert d[0..] == d;
      }
    } else {
      from := EvictLeavesLongestSuffix(d[1..], maxBytes, maxEntries);
      from := from + 1;
      forall j | 0 <= j < |d| ensures Fits(d[j..], maxBytes, maxEntries) <==> from <= j {
        if j > 0 {
          assert d[1..][j - 1..] == d[j..];
        } else {
          assert d[0..] == d;
        }
      }
      assert d[1..][from - 1..] == d[from..];
    }
  }

  lemma {:induction false} BytesConcat<K, V>(a: Items<K, V>, b: Items<K, V>)
    ensures Bytes(a + b) == Bytes(a) + Bytes(b)
  {
    if a == [] {
      assert a + b == b;
    } else {
      assert (a + b)[1..] == a[1..] + b;
      BytesConcat(a[1..], b);
    }
  }

  lemma BytesWithout<K, V>(d: Items<K, V>, k: K)
    ensures Bytes(Del(d, k)) == Bytes(d) - if Has(d, k) then Get(d, k).value.weight else 0
  {
    var i := DelParts(d, k);
    if Has(d, k) {
      BytesConcat(d[..i], d[i + 1..]);
      BytesConcat(d[..i], d[i..]);
      assert d == d[..i] + d[i..] && d[i..][1..] == d[i + 1..];
    }
  }

  lemma DelDrops<K, V>(d: Items<K, V>, k: K)
    requires Distinct(d)
    ensures !Has(Del(d, k), k) && Distinct(Del(d, k)) && |Del(d, k)| <= |d|
    ensures forall i :: 0 <= i < |Del(d, k)| ==> Del(d, k)[i].0 != k
  {
    GetDel(d, k, k);
    DelDistinct(d, k);
    GetIndex(Del(d, k), k);
  }

  /** A stored value ends up last, unless no entry is allowed at all: then `put` reports success and holds
      nothing. A value over the byte bound only removes the old entry. */
  lemma StoreOutcome<K, V>(d: Items<K, V>, k: K, v: V, w: int, maxBytes: int, maxEntries: int)
    requires Distinct(d)
    ensures var r, weight := Store(d, k, v, w, maxBytes, maxEntries), if w < 0 then 0 else w;
      && (Has(r, k) <==> weight <= maxBytes && maxEntries >= 1)
      && (Has(r, k) ==> r[|r| - 1] == (k, Held(v, weight)))
      && (weight <= maxBytes && maxEntries < 1 ==> r == [])
  {
    DelDrops(d, k);
    if Weight(w) <= maxBytes {
      var all := Del(d, k) + [(k, Held(v, Weight(w)))];
      var from := EvictLeavesLongestSuffix(all, maxBytes, maxEntries);
      var n := |all| - 1;
      var last := all[n..];
      assert last == [(k, Held(v, Weight(w)))] && last[1..] == [];
      assert Bytes(last) == Weight(w);
      assert Fits(all[n..], maxBytes, maxEntries) <==> maxEntries >= 1;
      var r := all[from..];
      if from <= n {
        assert r[|r| - 1] == all[n];
        GetIndex(r, k);
      }
    }
  }

  // ---- the invariant ----

  /** Keys are distinct, and either nothing is held or both bounds hold. */
  ghost predicate Bounded<K, V>(d: Items<K, V>, maxBytes: int, maxEntries: int) {
    Distinct(d) && (d == [] || Fits(d, maxBytes, maxEntries))
  }

  datatype Op<+K, +V> = Lookup(k: K) | Keep(k: K, v: V, w: int) | Remove(k: K) | Reset

  function Step<K(==), V>(d: Items<K, V>, op: Op<K, V>, maxBytes: int, maxEntries: int): Items<K, V> {
    match op
    case Lookup(k) => Touch(d, k)
    case Keep(k, v, w) => Store(d, k, v, w, maxBytes, maxEntries)
    case Remove(k) => Del(d, k)
    case Reset => []
  }

  function Run<K(==), V>(ops: seq<Op<K, V>>, maxBytes: int, maxEntries: int): Items<K, V> {
    if ops == [] then [] else Step(Run(ops[..|ops| - 1], maxBytes, maxEntries), ops[|ops| - 1], maxBytes, maxEntries)
  }

  lemma TouchBounded<K, V>(d: Items<K, V>, k: K)
    requires Distinct(d)
    ensures Distinct(Touch(d, k)) && |Touch(d, k)| == |d| && Bytes(Touch(d, k)) == Bytes(d)
  {
    if Has(d, k) {
      DelDrops(d, k);
      DelDistinct(d, k);
      BytesWithout(d, k);
      var last := [(k, Get(d, k).value)];
      BytesConcat(Del(d, k), last);
      assert last[1..] == [];
    }
  }

  lemma StepBounded<K, V>(d: Items<K, V>, op: Op<K, V>, maxBytes: int, maxEntries: int)
    requires Bounded(d, maxBytes, maxEntries)
    ensures Bounded(Step(d, op, maxBytes, maxEntries), maxBytes, maxEntries)
  {
    match op
    case Lookup(k) => TouchBounded(d, k);
    case Keep(k, v, w) =>
      DelDrops(d, k);
      BytesWithout(d, k);
      if Weight(w) <= maxBytes {
        var all := Del(d, k) + [(k, Held(v, Weight(w)))];
        var from := EvictLeavesLongestSuffix(all, maxBytes, maxEntries);
      }
    case Remove(k) =>
      DelDrops(d, k);
      BytesWithout(d, k);
    case Reset =>
  }

  /** Both bounds hold after every run. */
  lemma {:induction false} RunBounded<K, V>(ops: seq<Op<K, V>>, maxBytes: int, maxEntries: int)
    ensures Bounded(Run(ops, maxBytes, maxEntries), maxBytes, maxEntries)
  {
    if ops != [] {
      RunBounded(ops[..|ops| - 1], maxBytes, maxEntries);
      StepBounded(Run(ops[..|ops| - 1], maxBytes, maxEntries), ops[|ops| - 1], maxBytes, maxEntries);
    }
  }

  // ---- the plain map and the plain clock ----

  /** What an unbounded map holds after the same calls; only a value over the byte bound is refused. */
  function Plain<K(==), V>(ops: seq<Op<K, V>>, maxBytes: int, k: K): Option<Held<V>> {
    if ops == [] then None
    else
      var before := Plain(ops[..|ops| - 1], maxBytes, k);
      match ops[|ops| - 1]
      case Lookup(_) => before
      case Keep(q, v, w) =>
        var weight := if w < 0 then 0 else w;
        if q != k then before else if weight > maxBytes then None else Some(Held(v, weight))
      case Remove(q) => if q == k then None else before
      case Reset => None
  }

  /** The position, counted from one, of the last call that read or wrote the key; 0 if there is none. */
  function LastUse<K(==), V>(ops: seq<Op<K, V>>, k: K): nat {
    if ops == [] then 0
    else
      var op := ops[|ops| - 1];
      if (op.Lookup? || op.Keep?) && op.k == k then |ops| else LastUse(ops[..|ops| - 1], k)
  }

  ghost predicate Coherent<K(!new), V>(d: Items<K, V>, ops: seq<Op<K, V>>, maxBytes: int) {
    forall k :: Has(d, k) ==> Get(d, k) == Plain(ops, maxBytes, k)
  }

  ghost predicate ByRecency<K, V>(d: Items<K, V>, ops: seq<Op<K, V>>) {
    forall i, j :: 0 <= i < j < |d| ==> LastUse(ops, d[i].0) < LastUse(ops, d[j].0)
  }

  lemma {:induction false} LastUseBound<K, V>(ops: seq<Op<K, V>>, k: K)
    ensures LastUse(ops, k) <= |ops|
  {
    if ops != [] {
      LastUseBound(ops[..|ops| - 1], k);
    }
  }

  predicate Uses<K(==), V>(op: Op<K, V>, k: K) {
    (op.Lookup? || op.Keep?) && op.k == k
  }

  lemma LastUseNext<K, V>(ops: seq<Op<K, V>>, op: Op<K, V>, k: K)
    ensures LastUse(ops + [op], k) == if Uses(op, k) then |ops| + 1 else LastUse(ops, k)
  {
    assert (ops + [op])[..|ops|] == ops;
  }

  lemma UnusedKeepRecency<K, V>(d: Items<K, V>, ops: seq<Op<K, V>>, op: Op<K, V>)
    requires ByRecency(d, ops) && forall i :: 0 <= i < |d| ==> !Uses(op, d[i].0)
    ensures ByRecency(d, ops + [op])
  {
    forall i | 0 <= i < |d| ensures LastUse(ops + [op], d[i].0) == LastUse(ops, d[i].0) {
      LastUseNext(ops, op, d[i].0);
    }
  }

  lemma UsedGoesLast<K, V>(d: Items<K, V>, ops: seq<Op<K, V>>, op: Op<K, V>, k: K, h: Held<V>)
    requires ByRecency(d, ops) && Uses(op, k) && forall i :: 0 <= i < |d| ==> d[i].0 != k
    ensures ByRecency(d + [(k, h)], ops + [op])
  {
    UnusedKeepRecency(d, ops, op);
    LastUseNext(ops, op, k);
    forall i | 0 <= i < |d| ensures LastUse(ops + [op], d[i].0) < LastUse(ops + [op], k) {
      LastUseNext(ops, op, d[i].0);
      LastUseBound(ops, d[i].0);
    }
  }

  lemma DelKeepsRecency<K, V>(d: Items<K, V>, ops: seq<Op<K, V>>, k: K)
    requires ByRecency(d, ops)
    ensures ByRecency(Del(d, k), ops)
  {
    var i := DelParts(d, k);
  }

  lemma StepRecency<K, V>(d: Items<K, V>, ops: seq<Op<K, V>>, op: Op<K, V>, maxBytes: int, maxEntries: int)
    requires Distinct(d) && ByRecency(d, ops)
    ensures ByRecency(Step(d, op, maxBytes, maxEntries), ops + [op])
  {
    hide ByRecency, Distinct, Del, LastUse;
    match op
    case Lookup(k) =>
      DelDrops(d, k);
      DelKeepsRecency(d, ops, k);
      if Has(d, k) {
        UsedGoesLast(Del(d, k), ops, op, k, Get(d, k).value);
      } else {
        GetIndex(d, k);
        UnusedKeepRecency(d, ops, op);
      }
    case Keep(k, v, w) =>
      DelDrops(d, k);
      DelKeepsRecency(d, ops, k);
      UsedGoesLast(Del(d, k), ops, op, k, Held(v, Weight(w)));
      var all := Del(d, k) + [(k, Held(v, Weight(w)))];
      var from := EvictLeavesLongestSuffix(all, maxBytes, maxEntries);
      SuffixRecency(all, from, ops + [op]);
      UnusedKeepRecency(Del(d, k), ops, op);
    case Remove(k) =>
      DelKeepsRecency(d, ops, k);
      UnusedKeepRecency(Del(d, k), ops, op);
    case Reset =>
      NothingByRecency<K, V>(ops + [op]);
  }

  lemma NothingByRecency<K, V>(ops: seq<Op<K, V>>)
    ensures ByRecency<K, V>([], ops)
  {
  }

  lemma SuffixRecency<K, V>(d: Items<K, V>, from: nat, ops: seq<Op<K, V>>)
    requires ByRecency(d, ops) && from <= |d|
    ensures ByRecency(d[from..], ops)
  {
  }

  lemma GetSuffix<K, V>(d: Items<K, V>, from: nat, q: K)
    requires Distinct(d) && from <= |d| && Has(d[from..], q)
    ensures Get(d[from..], q) == Get(d, q)
  {
    GetIndex(d[from..], q);
    var i :| 0 <= i < |d[from..]| && d[from..][i] == (q, Get(d[from..], q).value);
    GetAt(d, from + i);
  }

  lemma StepGet<K, V>(d: Items<K, V>, op: Op<K, V>, maxBytes: int, maxEntries: int, q: K)
    requires Distinct(d) && Has(Step(d, op, maxBytes, maxEntries), q)
    ensures Get(Step(d, op, maxBytes, maxEntries), q)
            == if op.Keep? && op.k == q then Some(Held(op.v, Weight(op.w))) else Get(d, q)
    ensures (op.Remove? ==> op.k != q) && !op.Reset?
    ensures op.Keep? && op.k == q ==> Weight(op.w) <= maxBytes
  {
    hide Distinct, Del;
    match op
    case Lookup(k) =>
      DelDrops(d, k);
      GetDel(d, k, q);
      if Has(d, k) {
        GetAppend(Del(d, k), k, Get(d, k).value, q);
      }
    case Keep(k, v, w) =>
      DelDrops(d, k);
      GetDel(d, k, q);
      if Weight(w) <= maxBytes {
        var all := Del(d, k) + [(k, Held(v, Weight(w)))];
        GetAppend(Del(d, k), k, Held(v, Weight(w)), q);
        AppendDistinct(Del(d, k), k, Held(v, Weight(w)));
        var from := EvictLeavesLongestSuffix(all, maxBytes, maxEntries);
        GetSuffix(all, from, q);
      }
    case Remove(k) =>
      GetDel(d, k, q);
    case Reset =>
  }

  lemma AppendDistinct<K, V>(d: Items<K, V>, k: K, h: Held<V>)
    requires Distinct(d) && forall i :: 0 <= i < |d| ==> d[i].0 != k
    ensures Distinct(d + [(k, h)])
  {
  }

  /** After every run a hit returns what the plain map holds, and the entries stand in the order of their last
      use: the cache is never stale, and what is evicted was used before everything that is kept. */
  lemma {:induction false} CacheRefinesMap<K(!new), V>(ops: seq<Op<K, V>>, maxBytes: int, maxEntries: int)
    ensures Coherent(Run(ops, maxBytes, maxEntries), ops, maxBytes)
    ensures ByRecency(Run(ops, maxBytes, maxEntries), ops)
  {
    var d := Run(ops, maxBytes, maxEntries);
    if ops != [] {
      var n := |ops| - 1;
      var before := Run(ops[..n], maxBytes, maxEntries);
      CacheRefinesMap(ops[..n], maxBytes, maxEntries);
      RunBounded(ops[..n], maxBytes, maxEntries);
      assert ops[..n] + [ops[n]] == ops;
      StepRecency(before, ops[..n], ops[n], maxBytes, maxEntries);
      forall k | Has(d, k) ensures Get(d, k) == Plain(ops, maxBytes, k) {
        StepGet(before, ops[n], maxBytes, maxEntries, k);
      }
    }
  }

  // ---- the class ----

  class Cache<K(==), V> {
    const maxBytes: int
    const maxEntries: int
    var items: Items<K, V>
    var bytes: int

    ghost predicate Valid()
      reads this
    {
      Bounded(items, maxBytes, maxEntries) && bytes == Bytes(items)
    }

    constructor (maxBytes: int, maxEntries: int)
      ensures Valid() && items == [] && this.maxBytes == maxBytes && this.maxEntries == maxEntries
    {
      this.maxBytes, this.maxEntries := maxBytes, maxEntries;
      items, bytes := [], 0;
    }

    /** `_drop`: the bytes follow the entry. */
    method Drop(k: K)
      requires bytes == Bytes(items)
      modifies this
      ensures items == Del(old(items), k) && bytes == Bytes(items)
    {
      var item := Get(items, k);
      BytesWithout(items, k);
      items := Del(items, k);
      if item.Some? {
        bytes := bytes - item.value.weight;
      }
    }

    method Lookup(k: K) returns (found: Option<V>)
      requires Valid()
      modifies this
      ensures Valid() && items == Step(old(items), Op.Lookup(k), maxBytes, maxEntries)
      ensures found == match Get(old(items), k) case None => None case Some(h) => Some(h.value)
    {
      var item := Get(items, k);
      if item.None? {
        return None;
      }
      StepBounded(items, Op.Lookup(k), maxBytes, maxEntries);
      TouchBounded(items, k);
      items := Del(items, k) + [(k, item.value)];
      found := Some(item.value.value);
    }

    method Keep(k: K, v: V, w: int) returns (stored: bool)
      requires Valid()
      modifies this
      ensures Valid() && items == Step(old(items), Op.Keep(k, v, w), maxBytes, maxEntries)
      ensures stored <==> (if w < 0 then 0 else w) <= maxBytes
    {
      var weight := Weight(w);
      StepBounded(items, Op.Keep(k, v, w), maxBytes, maxEntries);
      Drop(k);
      if weight > maxBytes {
        return false;
      }
      BytesConcat(items, [(k, Held(v, weight))]);
      assert [(k, Held(v, weight))][1..] == [];
      items := items + [(k, Held(v, weight))];
      bytes := bytes + weight;
      while items != [] && (bytes > maxBytes || |items| > maxEntries)
        invariant bytes == Bytes(items)
        invariant Evict(items, maxBytes, maxEntries) == Store(old(items), k, v, w, maxBytes, maxEntries)
        decreases |items|
      {
        Drop(items[0].0);
      }
      stored := true;
    }

    method Remove(k: K) returns (found: Option<V>)
      requires Valid()
      modifies this
      ensures Valid() && items == Step(old(items), Op.Remove(k), maxBytes, maxEntries)
      ensures found == match Get(old(items), k) case None => None case Some(h) => Some(h.value)
    {
      var item := Get(items, k);
      StepBounded(items, Op.Remove(k), maxBytes, maxEntries);
      Drop(k);
      found := if item.None? then None else Some(item.value.value);
    }

    method Reset()
      requires Valid()
      modifies this
      ensures Valid() && items == []
    {
      items, bytes := [], 0;
    }
  }
}
