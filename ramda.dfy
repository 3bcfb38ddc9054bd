/**
 * The part of JavaScript's plain objects and of the Ramda combinators that the
 * transformer uses, stated on values.
 *
 * A plain object is an association list of its own enumerable keys in
 * enumeration order. Objects read from a JSON document never repeat a key;
 * that is the predicate UniqueKeys, which the lookup lemmas require.
 */
module Ramda {

  datatype Option<+T> = None | Some(value: T) {
    /** `R.defaultTo(d)` / the default of `R.propOr(d, …)`. */
    function GetOr(default: T): T {
      match this
      case Some(v) => v
      case None => default
    }
  }

  datatype Entry<+V> = Entry(key: string, value: V)

  /** A JavaScript plain object: its entries in enumeration order. */
  type Obj<V> = seq<Entry<V>>

  function Keys<V>(o: Obj<V>): set<string> {
    set i | 0 <= i < |o| :: o[i].key
  }

  lemma KeysCons<V>(o: Obj<V>)
    requires o != []
    ensures Keys(o) == {o[0].key} + Keys(o[1..])
  {
    assert forall i | 1 <= i < |o| :: o[i] == o[1..][i - 1];
  }

  lemma KeysAppend<V>(a: Obj<V>, b: Obj<V>)
    ensures Keys(a + b) == Keys(a) + Keys(b)
  {
    assert forall i | 0 <= i < |a| :: (a + b)[i] == a[i];
    assert forall i | 0 <= i < |b| :: (a + b)[|a| + i] == b[i];
  }

  lemma KeysOfSmall<V>(o: Obj<V>)
    requires |o| <= 1
    ensures Keys(o) == if o == [] then {} else {o[0].key}
  {
    if o != [] {
      assert o[0].key in Keys(o);
    }
  }

  predicate UniqueKeys<V>(o: Obj<V>) {
    forall i, j | 0 <= i < j < |o| :: o[i].key != o[j].key
  }

  /** Entry i is the first one of o with key k. */
  predicate FirstWithKey<V>(o: Obj<V>, k: string, i: int) {
    0 <= i < |o| && o[i].key == k && forall j | 0 <= j < i :: o[j].key != k
  }

  /** Reading property k of o (`o[k]`, `R.prop`, `R.propOr`): None when o has no such key. */
  function Prop<V>(o: Obj<V>, k: string): (r: Option<V>)
    ensures r.None? <==> k !in Keys(o)
    ensures r.Some? ==> Entry(k, r.value) in o
    ensures forall i | FirstWithKey(o, k, i) :: r == Some(o[i].value)
  {
    if o == [] then None
    else if o[0].key == k then Some(o[0].value)
    else
      assert forall i | FirstWithKey(o, k, i) :: FirstWithKey(o[1..], k, i - 1);
      Prop(o[1..], k)
  }

  /** `R.values`: the values of o, in key order. */
  function Values<V>(o: Obj<V>): (r: seq<V>)
    ensures |r| == |o|
    ensures forall i | 0 <= i < |o| :: r[i] == o[i].value
  {
    if o == [] then [] else [o[0].value] + Values(o[1..])
  }

  /** `R.nth(i)`: None (undefined) past the end of the list. */
  function Nth<T>(s: seq<T>, i: nat): (r: Option<T>)
    ensures r.Some? <==> i < |s|
    ensures r.Some? ==> r.value == s[i]
  {
    if i < |s| then Some(s[i]) else None
  }

  /** `R.map` over a list. */
  function MapSeq<T, U>(s: seq<T>, f: T -> U): (r: seq<U>)
    ensures |r| == |s|
    ensures forall i | 0 <= i < |s| :: r[i] == f(s[i])
  {
    if s == [] then [] else [f(s[0])] + MapSeq(s[1..], f)
  }

  /** The number of elements of s that satisfy p. */
  function Count<T>(s: seq<T>, p: T -> bool): nat {
    if s == [] then 0 else (if p(s[0]) then 1 else 0) + Count(s[1..], p)
  }

  /** `R.filter` over a list: the elements that satisfy p, in list order. */
  function FilterSeq<T>(s: seq<T>, p: T -> bool): (r: seq<T>)
    ensures |r| == Count(s, p)
    ensures forall x | x in r :: x in s && p(x)
    ensures forall x | x in s && p(x) :: x in r
  {
    if s == [] then [] else (if p(s[0]) then [s[0]] else []) + FilterSeq(s[1..], p)
  }

  lemma {:induction false} CountPrefixStep<T>(s: seq<T>, p: T -> bool, i: int)
    requires 0 < i <= |s|
    ensures Count(s[..i], p) == (if p(s[0]) then 1 else 0) + Count(s[1..][..i - 1], p)
  {
    assert s[..i][0] == s[0];
    assert s[..i][1..] == s[1..][..i - 1];
  }

  /**
   * FilterSeq keeps each element that satisfies p, at the position given by
   * the number of satisfying elements before it.
   */
  lemma {:induction false} FilterSeqPosition<T>(s: seq<T>, p: T -> bool, i: int)
    requires 0 <= i < |s| && p(s[i])
    ensures Count(s[..i], p) < |FilterSeq(s, p)|
    ensures FilterSeq(s, p)[Count(s[..i], p)] == s[i]
  {
    var head := if p(s[0]) then [s[0]] else [];
    assert FilterSeq(s, p) == head + FilterSeq(s[1..], p);
    if i == 0 {
      assert s[..0] == [];
    } else {
      CountPrefixStep(s, p, i);
      FilterSeqPosition(s[1..], p, i - 1);
      assert s[1..][i - 1] == s[i];
    }
  }

  lemma {:induction false} CountPrefixGrows<T>(s: seq<T>, p: T -> bool, i: int, j: int)
    requires 0 <= i < j <= |s| && p(s[i])
    ensures Count(s[..i], p) < Count(s[..j], p)
  {
    if i == 0 {
      CountPrefixStep(s, p, j);
      assert s[..0] == [];
    } else {
      CountPrefixStep(s, p, i);
      CountPrefixStep(s, p, j);
      CountPrefixGrows(s[1..], p, i - 1, j - 1);
    }
  }

  /** FilterSeq keeps the relative order of the elements it keeps. */
  lemma FilterSeqOrder<T>(s: seq<T>, p: T -> bool, i: int, j: int)
    requires 0 <= i < j < |s| && p(s[i]) && p(s[j])
    ensures Count(s[..i], p) < Count(s[..j], p) < |FilterSeq(s, p)|
    ensures FilterSeq(s, p)[Count(s[..i], p)] == s[i]
    ensures FilterSeq(s, p)[Count(s[..j], p)] == s[j]
  {
    CountPrefixGrows(s, p, i, j);
    FilterSeqPosition(s, p, i);
    FilterSeqPosition(s, p, j);
  }

  /** Entry i is the first element of s that satisfies p. */
  predicate FirstSatisfying<T>(s: seq<T>, p: T -> bool, i: int) {
    0 <= i < |s| && p(s[i]) && forall j | 0 <= j < i :: !p(s[j])
  }

  /** `R.find`: the first element satisfying p, None (undefined) if there is none. */
  function Find<T>(s: seq<T>, p: T -> bool): (r: Option<T>)
    ensures r.None? <==> forall i | 0 <= i < |s| :: !p(s[i])
    ensures forall i | FirstSatisfying(s, p, i) :: r == Some(s[i])
  {
    if s == [] then None
    else if p(s[0]) then Some(s[0])
    else
      assert forall i | FirstSatisfying(s, p, i) :: FirstSatisfying(s[1..], p, i - 1);
      Find(s[1..], p)
  }

  /** `R.map` over an object: same keys in the same order, values mapped by f. */
  function MapObj<V, W>(o: Obj<V>, f: V -> W): (r: Obj<W>)
    ensures |r| == |o|
    ensures forall i | 0 <= i < |o| :: r[i] == Entry(o[i].key, f(o[i].value))
  {
    if o == [] then [] else [Entry(o[0].key, f(o[0].value))] + MapObj(o[1..], f)
  }

  lemma MapObjKeys<V, W>(o: Obj<V>, f: V -> W)
    ensures Keys(MapObj(o, f)) == Keys(o)
    ensures UniqueKeys(o) ==> UniqueKeys(MapObj(o, f))
  {
    var r := MapObj(o, f);
    assert forall i | 0 <= i < |o| :: r[i].key == o[i].key;
  }

  /** The test `R.filter` applies to an object's entries. */
  function ValueSatisfies<V>(p: V -> bool): Entry<V> -> bool {
    (e: Entry<V>) => p(e.value)
  }

  /** `R.filter` over an object: the entries whose value satisfies p, in key order. */
  function FilterObj<V>(o: Obj<V>, p: V -> bool): (r: Obj<V>)
    ensures Keys(r) <= Keys(o)
    ensures forall e | e in r :: e in o && p(e.value)
    ensures forall e | e in o && p(e.value) :: e in r
  {
    var r := FilterSeq(o, ValueSatisfies(p));
    assert forall e | e in r :: e.key in Keys(o) by {
      forall e | e in r ensures e.key in Keys(o) {
        var i :| 0 <= i < |o| && o[i] == e;
      }
    }
    r
  }

  /** Filtering the entries of an object keeps its keys unique. */
  lemma {:induction false} FilterSeqUnique<V>(o: Obj<V>, q: Entry<V> -> bool)
    requires UniqueKeys(o)
    ensures UniqueKeys(FilterSeq(o, q))
  {
    if o != [] {
      var rest := FilterSeq(o[1..], q);
      assert FilterSeq(o, q) == (if q(o[0]) then [o[0]] else []) + rest;
      assert UniqueKeys(o[1..]);
      FilterSeqUnique(o[1..], q);
      assert o[0].key !in Keys(o[1..]);
      forall i | 0 <= i < |rest| ensures rest[i].key != o[0].key {
        assert rest[i] in o[1..];
      }
    }
  }

  lemma FilterObjUnique<V>(o: Obj<V>, p: V -> bool)
    requires UniqueKeys(o)
    ensures UniqueKeys(FilterObj(o, p))
  {
    FilterSeqUnique(o, ValueSatisfies(p));
  }

  /** On a unique-keyed object, FilterObj keeps key k exactly when its value satisfies p. */
  lemma {:induction false} FilterObjProp<V>(o: Obj<V>, p: V -> bool, k: string)
    requires UniqueKeys(o)
    ensures Prop(FilterObj(o, p), k) == (if Prop(o, k).Some? && p(Prop(o, k).value) then Prop(o, k) else None)
  {
    if o != [] {
      var q := ValueSatisfies(p);
      var head := if q(o[0]) then [o[0]] else [];
      var rest := FilterSeq(o[1..], q);
      assert FilterObj(o, p) == head + rest;
      assert rest == FilterObj(o[1..], p);
      assert UniqueKeys(o[1..]);
      PropAppend(head, rest, k);
      KeysCons(o);
      if o[0].key == k {
        assert k !in Keys(o[1..]);
        assert k !in Keys(rest);
      } else {
        FilterObjProp(o[1..], p, k);
      }
    }
  }

  lemma {:induction false} MapObjProp<V, W>(o: Obj<V>, f: V -> W, k: string)
    ensures Prop(MapObj(o, f), k) == (if Prop(o, k).Some? then Some(f(Prop(o, k).value)) else None)
  {
    if o != [] {
      assert MapObj(o, f)[1..] == MapObj(o[1..], f);
      MapObjProp(o[1..], f, k);
    }
  }

  /** The entries of l, each with the value r gives its key if r has it. */
  function Overwrite<V>(l: Obj<V>, r: Obj<V>): (m: Obj<V>)
    ensures |m| == |l|
    ensures forall i | 0 <= i < |l| :: m[i].key == l[i].key
  {
    if l == [] then []
    else [Entry(l[0].key, Prop(r, l[0].key).GetOr(l[0].value))] + Overwrite(l[1..], r)
  }

  /** The entries of r whose key l does not have, in r's order. */
  function Additions<V>(r: Obj<V>, l: Obj<V>): (m: Obj<V>)
    ensures Keys(m) == Keys(r) - Keys(l)
  {
    if r == [] then []
    else
      var head := if r[0].key in Keys(l) then [] else [r[0]];
      KeysCons(r);
      KeysAppend(head, Additions(r[1..], l));
      KeysOfSmall(head);
      head + Additions(r[1..], l)
  }

  /** Merging into the empty object copies the object. */
  lemma {:induction false} AssignIntoEmpty<V>(r: Obj<V>)
    ensures Assign([], r) == r
  {
    AdditionsToEmpty(r);
  }

  lemma {:induction false} AdditionsToEmpty<V>(r: Obj<V>)
    ensures Additions(r, []) == r
  {
    if r != [] {
      KeysOfSmall<V>([]);
      AdditionsToEmpty(r[1..]);
    }
  }

  lemma {:induction false} PropAppend<V>(a: Obj<V>, b: Obj<V>, k: string)
    ensures Prop(a + b, k) == if k in Keys(a) then Prop(a, k) else Prop(b, k)
  {
    if a != [] {
      assert (a + b)[1..] == a[1..] + b;
      PropAppend(a[1..], b, k);
    } else {
      assert a + b == b;
    }
  }

  lemma {:induction false} OverwriteProp<V>(l: Obj<V>, r: Obj<V>, k: string)
    requires k in Keys(l)
    ensures Prop(Overwrite(l, r), k) == if k in Keys(r) then Prop(r, k) else Prop(l, k)
  {
    if l[0].key != k {
      assert Overwrite(l, r)[1..] == Overwrite(l[1..], r);
      assert k in Keys(l[1..]);
      OverwriteProp(l[1..], r, k);
    }
  }

  lemma {:induction false} AdditionsProp<V>(r: Obj<V>, l: Obj<V>, k: string)
    requires k !in Keys(l)
    ensures Prop(Additions(r, l), k) == Prop(r, k)
  {
    if r != [] {
      var head := if r[0].key in Keys(l) then [] else [r[0]];
      PropAppend(head, Additions(r[1..], l), k);
      AdditionsProp(r[1..], l, k);
    }
  }

  /**
   * `R.merge(l, r)`, i.e. `Object.assign({}, l, r)`: every key of either
   * object, r's value winning on a shared key; l's keys keep their places
   * and r's new keys follow in r's order.
   */
  function Assign<V>(l: Obj<V>, r: Obj<V>): (m: Obj<V>)
    ensures Keys(m) == Keys(l) + Keys(r)
    ensures |l| <= |m| && forall i | 0 <= i < |l| :: m[i].key == l[i].key
  {
    AssignKeys(l, r);
    Overwrite(l, r) + Additions(r, l)
  }

  /** After l's entries, `R.merge(l, r)` holds r's entries whose key l lacks, in r's order. */
  lemma AssignOrder<V>(l: Obj<V>, r: Obj<V>)
    ensures |l| <= |Assign(l, r)|
    ensures Assign(l, r)[|l|..] == FilterSeq(r, NotKeyOf(l))
  {
    AdditionsIsFilter(r, l);
    var o := Overwrite(l, r);
    assert (o + Additions(r, l))[|l|..] == Additions(r, l);
  }

  /** The test "l has no such key", on entries. */
  function NotKeyOf<V>(l: Obj<V>): Entry<V> -> bool {
    (e: Entry<V>) => e.key !in Keys(l)
  }

  /** The entries Assign appends are r's entries whose key l lacks, in r's order. */
  lemma {:induction false} AdditionsIsFilter<V>(r: Obj<V>, l: Obj<V>)
    ensures Additions(r, l) == FilterSeq(r, NotKeyOf(l))
  {
    if r != [] {
      AdditionsIsFilter(r[1..], l);
    }
  }

  lemma {:induction false} UniqueAppend<V>(a: Obj<V>, b: Obj<V>)
    requires UniqueKeys(a) && UniqueKeys(b) && Keys(a) !! Keys(b)
    ensures UniqueKeys(a + b)
  {
    forall i, j | 0 <= i < j < |a + b| ensures (a + b)[i].key != (a + b)[j].key {
      if j < |a| {
        assert (a + b)[i] == a[i] && (a + b)[j] == a[j];
      } else if i < |a| {
        assert (a + b)[i] == a[i] && (a + b)[j] == b[j - |a|];
        assert a[i].key in Keys(a) && b[j - |a|].key in Keys(b);
      } else {
        assert (a + b)[i] == b[i - |a|] && (a + b)[j] == b[j - |a|];
      }
    }
  }

  /** Merging two objects with unique keys gives unique keys. */
  lemma AssignUnique<V>(l: Obj<V>, r: Obj<V>)
    requires UniqueKeys(l) && UniqueKeys(r)
    ensures UniqueKeys(Assign(l, r))
  {
    var o := Overwrite(l, r);
    var a := Additions(r, l);
    assert Assign(l, r) == o + a;
    assert UniqueKeys(o) by {
      assert forall i | 0 <= i < |l| :: o[i].key == l[i].key;
    }
    assert Keys(o) == Keys(l) by {
      assert forall i | 0 <= i < |l| :: o[i].key == l[i].key;
    }
    AdditionsIsFilter(r, l);
    FilterSeqUnique(r, NotKeyOf(l));
    UniqueAppend(o, a);
  }

  lemma AssignKeys<V>(l: Obj<V>, r: Obj<V>)
    ensures Keys(Overwrite(l, r) + Additions(r, l)) == Keys(l) + Keys(r)
    ensures |l| <= |Overwrite(l, r) + Additions(r, l)|
    ensures forall i | 0 <= i < |l| :: (Overwrite(l, r) + Additions(r, l))[i].key == l[i].key
  {
    var o := Overwrite(l, r);
    assert Keys(o) == Keys(l) by {
      assert forall i | 0 <= i < |l| :: o[i].key == l[i].key;
    }
    KeysAppend(o, Additions(r, l));
  }

  /** Reading key k of `R.merge(l, r)`: r's value if r has k, l's otherwise. */
  lemma AssignProp<V>(l: Obj<V>, r: Obj<V>, k: string)
    ensures Prop(Assign(l, r), k) == if k in Keys(r) then Prop(r, k) else Prop(l, k)
  {
    var o := Overwrite(l, r);
    assert Keys(o) == Keys(l) by {
      assert forall i | 0 <= i < |l| :: o[i].key == l[i].key;
    }
    PropAppend(o, Additions(r, l), k);
    if k in Keys(l) {
      OverwriteProp(l, r, k);
    } else {
      AdditionsProp(r, l, k);
    }
  }

  /** `R.reduce(R.merge, {})`: the objects merged left to right, later ones winning. */
  function AssignAll<V>(os: seq<Obj<V>>): (r: Obj<V>)
    ensures os != [] ==> Keys(os[|os| - 1]) <= Keys(r)
  {
    if os == [] then [] else Assign(AssignAll(os[..|os| - 1]), os[|os| - 1])
  }

  lemma AssignAllStep<V>(os: seq<Obj<V>>)
    requires os != []
    ensures AssignAll(os) == Assign(AssignAll(os[..|os| - 1]), os[|os| - 1])
  {
  }

  /** The keys of the merge are the keys of all the objects merged. */
  lemma AssignAllKeys<V>(os: seq<Obj<V>>, k: string)
    ensures k in Keys(AssignAll(os)) <==> exists i | 0 <= i < |os| :: k in Keys(os[i])
  {
    if k in Keys(AssignAll(os)) {
      AssignAllKeySource(os, k);
    }
    forall i | 0 <= i < |os| && k in Keys(os[i]) ensures k in Keys(AssignAll(os)) {
      AssignAllHasKey(os, i, k);
    }
  }

  lemma {:induction false} AssignAllHasKey<V>(os: seq<Obj<V>>, i: int, k: string)
    requires 0 <= i < |os| && k in Keys(os[i])
    ensures k in Keys(AssignAll(os))
  {
    var n := |os|;
    var prefix := os[..n - 1];
    AssignAllStep(os);
    if i < n - 1 {
      assert prefix[i] == os[i];
      AssignAllHasKey(prefix, i, k);
      AssignKeepsKey(AssignAll(prefix), os[n - 1], k);
    } else {
      assert i == n - 1;
      AssignGetsKey(AssignAll(prefix), os[i], k);
    }
  }

  lemma AssignKeepsKey<V>(l: Obj<V>, r: Obj<V>, k: string)
    requires k in Keys(l)
    ensures k in Keys(Assign(l, r))
  {
  }

  lemma AssignGetsKey<V>(l: Obj<V>, r: Obj<V>, k: string)
    requires k in Keys(r)
    ensures k in Keys(Assign(l, r))
  {
  }

  lemma AssignKeySource<V>(l: Obj<V>, r: Obj<V>, k: string)
    requires k in Keys(Assign(l, r))
    ensures k in Keys(l) || k in Keys(r)
  {
  }

  lemma {:induction false} AssignAllKeySource<V>(os: seq<Obj<V>>, k: string)
    requires k in Keys(AssignAll(os))
    ensures exists i | 0 <= i < |os| :: k in Keys(os[i])
  {
    var n := |os|;
    var prefix := os[..n - 1];
    AssignAllStep(os);
    AssignKeySource(AssignAll(prefix), os[n - 1], k);
    if k in Keys(os[n - 1]) {
      var last := n - 1;
      assert k in Keys(os[last]);
    } else {
      AssignAllKeySource(prefix, k);
      var i :| 0 <= i < n - 1 && k in Keys(prefix[i]);
      assert prefix[i] == os[i];
    }
  }

  /** A key takes its value from the last object that has it, whole. */
  lemma {:induction false} AssignAllLastWins<V>(os: seq<Obj<V>>, j: int, k: string)
    requires 0 <= j < |os| && k in Keys(os[j])
    requires forall i | j < i < |os| :: k !in Keys(os[i])
    ensures Prop(AssignAll(os), k) == Prop(os[j], k)
  {
    var n := |os|;
    var prefix := os[..n - 1];
    AssignAllStep(os);
    AssignProp(AssignAll(prefix), os[n - 1], k);
    if j < n - 1 {
      assert forall i | j < i < n - 1 :: prefix[i] == os[i];
      AssignAllLastWins(prefix, j, k);
    }
  }

  /** Merging objects with unique keys, one after another, gives unique keys. */
  lemma {:induction false} AssignAllUnique<V>(os: seq<Obj<V>>)
    requires forall i | 0 <= i < |os| :: UniqueKeys(os[i])
    ensures UniqueKeys(AssignAll(os))
  {
    if os != [] {
      var n := |os|;
      var prefix := os[..n - 1];
      assert forall i | 0 <= i < n - 1 :: prefix[i] == os[i];
      AssignAllUnique(prefix);
      AssignAllStep(os);
      AssignUnique(AssignAll(prefix), os[n - 1]);
    }
  }
}
