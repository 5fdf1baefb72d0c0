/**
 * PHP arrays as ordered maps, and the PHP built-in `array_merge`.
 *
 * A PHP array is a sequence of entries in iteration order; each entry has an
 * integer or a string key. `array_merge` reads its arguments' entries left to
 * right: an entry with a string key overwrites the value of an earlier entry
 * with the same key, which keeps its position, or is appended when the key is
 * new; an entry with an integer key is always appended and renumbered, the
 * result's integer keys being 0, 1, 2, ... in order.
 */
module PhpArrays {
  import opened Wrappers

  datatype Key = IntKey(i: int) | StrKey(s: string)

  datatype Entry<V> = Entry(key: Key, value: V)

  type PhpArray<V> = seq<Entry<V>>

  /** No key occurs twice: the shape of every array PHP itself builds. */
  predicate WellFormed<V>(a: PhpArray<V>) {
    forall i, j :: 0 <= i < j < |a| ==> a[i].key != a[j].key
  }

  function Keys<V>(a: PhpArray<V>): set<Key> {
    if a == [] then {} else {a[0].key} + Keys(a[1..])
  }

  /** The value under `k`: the value of the LAST entry with that key, or None. */
  function Lookup<V>(a: PhpArray<V>, k: Key): Option<V> {
    if a == [] then None
    else
      var rest := Lookup(a[1..], k);
      if rest.Some? then rest else if a[0].key == k then Some(a[0].value) else None
  }

  /** The string keys of `a`, as a set. */
  function StrKeys<V>(a: PhpArray<V>): set<string> {
    if a == [] then {}
    else (if a[0].key.StrKey? then {a[0].key.s} else {}) + StrKeys(a[1..])
  }

  /** The values of the integer-keyed entries of `a`, in order. */
  function IntValues<V>(a: PhpArray<V>): seq<V> {
    if a == [] then []
    else (if a[0].key.IntKey? then [a[0].value] else []) + IntValues(a[1..])
  }

  /** The integer keys of `a`, read in order, are n, n + 1, n + 2, ... */
  predicate IntKeysFrom<V>(a: PhpArray<V>, n: int) {
    if a == [] then true
    else if a[0].key.IntKey? then a[0].key.i == n && IntKeysFrom(a[1..], n + 1)
    else IntKeysFrom(a[1..], n)
  }

  /** The integer keys of `a` are 0, 1, 2, ... in order, as after `array_merge`. */
  predicate Renumbered<V>(a: PhpArray<V>) {
    IntKeysFrom(a, 0)
  }

  /** `a` with the value of every entry keyed `k` set to `v`. */
  function Replace<V>(a: PhpArray<V>, k: Key, v: V): (r: PhpArray<V>)
    ensures |r| == |a|
    ensures forall j :: 0 <= j < |a| ==> r[j].key == a[j].key
    ensures forall j :: 0 <= j < |a| ==> r[j].value == if a[j].key == k then v else a[j].value
  {
    if a == [] then []
    else [if a[0].key == k then Entry(k, v) else a[0]] + Replace(a[1..], k, v)
  }

  /** One step of `array_merge`: adds entry `e` to the result built so far. */
  function Put<V>(acc: PhpArray<V>, e: Entry<V>): (r: PhpArray<V>)
    ensures |acc| <= |r| <= |acc| + 1
    ensures forall j :: 0 <= j < |acc| ==> r[j].key == acc[j].key
  {
    match e.key
    case IntKey(_) => acc + [Entry(IntKey(|IntValues(acc)|), e.value)]
    case StrKey(_) => if e.key in Keys(acc) then Replace(acc, e.key, e.value) else acc + [e]
  }

  /** Adds the entries `es`, left to right, to `acc`. The result extends `acc`
      by at most one entry per entry of `es`, and every key already placed keeps
      its position: an overwritten string key stays where it first appeared. */
  function MergeInto<V>(acc: PhpArray<V>, es: PhpArray<V>): (r: PhpArray<V>)
    ensures |acc| <= |r| <= |acc| + |es|
    ensures forall j :: 0 <= j < |acc| ==> r[j].key == acc[j].key
    decreases |es|
  {
    if es == [] then acc else MergeInto(Put(acc, es[0]), es[1..])
  }

  /** All entries of `arrays`, in argument order. */
  function Concat<V>(arrays: seq<PhpArray<V>>): PhpArray<V> {
    if arrays == [] then [] else arrays[0] + Concat(arrays[1..])
  }

  /** PHP's `array_merge(arrays[0], arrays[1], ...)`: never more entries than the arguments hold. */
  function ArrayMerge<V>(arrays: seq<PhpArray<V>>): (r: PhpArray<V>)
    ensures |r| <= |Concat(arrays)|
  {
    MergeInto([], Concat(arrays))
  }

  /** The entries of four arguments, in argument order. */
  lemma ConcatFour<V>(a: PhpArray<V>, b: PhpArray<V>, c: PhpArray<V>, d: PhpArray<V>)
    ensures Concat([a, b, c, d]) == a + b + c + d
  {
    var args := [a, b, c, d];
    calc {
      Concat(args);
      { assert args[1..] == [b, c, d]; }
      a + Concat([b, c, d]);
      { assert [b, c, d][1..] == [c, d]; }
      a + (b + Concat([c, d]));
      { assert [c, d][1..] == [d]; }
      a + (b + (c + Concat([d])));
      { assert [d][1..] == []; assert d + [] == d; }
      a + (b + (c + d));
      a + b + c + d;
    }
  }

  // ---------------------------------------------------------------------
  // Facts about the observers

  /** A key is in `Keys(a)` exactly when some entry of `a` carries it. */
  lemma {:induction false} KeysIndex<V>(a: PhpArray<V>, k: Key)
    ensures k in Keys(a) <==> exists j :: 0 <= j < |a| && a[j].key == k
  {
    if a != [] {
      KeysIndex(a[1..], k);
      if k in Keys(a[1..]) {
        var j :| 0 <= j < |a[1..]| && a[1..][j].key == k;
        assert a[j + 1].key == k;
      }
      forall j | 1 <= j < |a| && a[j].key == k ensures k in Keys(a[1..]) {
        assert a[1..][j - 1] == a[j];
      }
    }
  }

  lemma {:induction false} LookupConcat<V>(x: PhpArray<V>, y: PhpArray<V>, k: Key)
    ensures Lookup(x + y, k) == if Lookup(y, k).Some? then Lookup(y, k) else Lookup(x, k)
  {
    if x == [] {
      assert x + y == y;
    } else {
      assert (x + y)[1..] == x[1..] + y;
      LookupConcat(x[1..], y, k);
    }
  }

  lemma {:induction false} LookupSome<V>(a: PhpArray<V>, k: Key)
    ensures Lookup(a, k).Some? <==> k in Keys(a)
  {
    if a != [] {
      LookupSome(a[1..], k);
      assert k in Keys(a) <==> a[0].key == k || k in Keys(a[1..]);
    }
  }

  lemma {:induction false} StrKeysHaveKeys<V>(a: PhpArray<V>, s: string)
    ensures s in StrKeys(a) <==> StrKey(s) in Keys(a)
  {
    if a != [] {
      StrKeysHaveKeys(a[1..], s);
      assert StrKey(s) in Keys(a) <==> a[0].key == StrKey(s) || StrKey(s) in Keys(a[1..]);
    }
  }

  lemma {:induction false} StrKeysConcat<V>(x: PhpArray<V>, y: PhpArray<V>)
    ensures StrKeys(x + y) == StrKeys(x) + StrKeys(y)
  {
    if x == [] {
      assert x + y == y;
    } else {
      assert (x + y)[1..] == x[1..] + y;
      StrKeysConcat(x[1..], y);
    }
  }

  lemma {:induction false} IntValuesConcat<V>(x: PhpArray<V>, y: PhpArray<V>)
    ensures IntValues(x + y) == IntValues(x) + IntValues(y)
  {
    if x == [] {
      assert x + y == y;
    } else {
      var xy := x + y;
      var h := if x[0].key.IntKey? then [x[0].value] else [];
      assert xy[0] == x[0];
      assert xy[1..] == x[1..] + y;
      IntValuesConcat(x[1..], y);
      calc {
        IntValues(xy);
        h + IntValues(x[1..] + y);
        h + (IntValues(x[1..]) + IntValues(y));
        (h + IntValues(x[1..])) + IntValues(y);
      }
    }
  }

  lemma {:induction false} IntKeysFromConcat<V>(x: PhpArray<V>, y: PhpArray<V>, n: int)
    requires IntKeysFrom(x, n) && IntKeysFrom(y, n + |IntValues(x)|)
    ensures IntKeysFrom(x + y, n)
  {
    if x == [] {
      assert x + y == y;
    } else {
      assert (x + y)[1..] == x[1..] + y;
      IntKeysFromConcat(x[1..], y, if x[0].key.IntKey? then n + 1 else n);
    }
  }

  /** Under IntKeysFrom(a, n) every integer key lies in [n, n + #integer entries). */
  lemma {:induction false} IntKeysBounded<V>(a: PhpArray<V>, n: int, j: int)
    requires IntKeysFrom(a, n) && 0 <= j < |a| && a[j].key.IntKey?
    ensures n <= a[j].key.i < n + |IntValues(a)|
  {
    if j > 0 {
      IntKeysBounded(a[1..], if a[0].key.IntKey? then n + 1 else n, j - 1);
    }
  }

  lemma {:induction false} ReplaceObservers<V>(a: PhpArray<V>, s: string, v: V)
    ensures StrKeys(Replace(a, StrKey(s), v)) == StrKeys(a)
    ensures IntValues(Replace(a, StrKey(s), v)) == IntValues(a)
    ensures forall n :: IntKeysFrom(a, n) ==> IntKeysFrom(Replace(a, StrKey(s), v), n)
  {
    if a != [] {
      var r := Replace(a, StrKey(s), v);
      assert r[1..] == Replace(a[1..], StrKey(s), v);
      ReplaceObservers(a[1..], s, v);
    }
  }

  lemma {:induction false} ReplaceLookup<V>(a: PhpArray<V>, k: Key, v: V, k': Key)
    ensures Lookup(Replace(a, k, v), k') == if k' == k && k in Keys(a) then Some(v) else Lookup(a, k')
  {
    if a != [] {
      var r := Replace(a, k, v);
      assert r[1..] == Replace(a[1..], k, v);
      ReplaceLookup(a[1..], k, v, k');
      assert k in Keys(a) <==> a[0].key == k || k in Keys(a[1..]);
      LookupSome(a[1..], k);
    }
  }

  /** A well-formed array has one entry per distinct string key plus its integer-keyed entries. */
  lemma {:induction false} WellFormedSize<V>(a: PhpArray<V>)
    requires WellFormed(a)
    ensures |a| == |StrKeys(a)| + |IntValues(a)|
  {
    if a != [] {
      assert WellFormed(a[1..]) by {
        forall i, j | 0 <= i < j < |a[1..]| ensures a[1..][i].key != a[1..][j].key {
          assert a[1..][i] == a[i + 1] && a[1..][j] == a[j + 1];
        }
      }
      WellFormedSize(a[1..]);
      if a[0].key.StrKey? {
        var s := a[0].key.s;
        StrKeysHaveKeys(a[1..], s);
        assert StrKey(s) !in Keys(a[1..]) by {
          KeysIndex(a[1..], StrKey(s));
          forall j | 0 <= j < |a[1..]| ensures a[1..][j].key != StrKey(s) {
            assert a[1..][j] == a[j + 1];
          }
        }
      }
    }
  }

  // ---------------------------------------------------------------------
  // array_merge

  /** One step of `array_merge` keeps distinct keys and renumbered integer keys. */
  lemma PutInvariant<V>(acc: PhpArray<V>, e: Entry<V>)
    requires WellFormed(acc) && Renumbered(acc)
    ensures WellFormed(Put(acc, e)) && Renumbered(Put(acc, e))
  {
    var r := Put(acc, e);
    match e.key
    case IntKey(_) => {
      var e' := Entry(IntKey(|IntValues(acc)|), e.value);
      assert r == acc + [e'];
      forall j | 0 <= j < |acc| && acc[j].key.IntKey? ensures acc[j].key != e'.key {
        IntKeysBounded(acc, 0, j);
      }
      IntKeysFromConcat(acc, [e'], 0);
    }
    case StrKey(s0) => {
      if e.key in Keys(acc) {
        ReplaceObservers(acc, s0, e.value);
        assert WellFormed(r) by {
          forall i, j | 0 <= i < j < |r| ensures r[i].key != r[j].key {
            assert r[i].key == acc[i].key && r[j].key == acc[j].key;
          }
        }
      } else {
        assert r == acc + [e];
        KeysIndex(acc, e.key);
        IntKeysFromConcat(acc, [e], 0);
      }
    }
  }

  /** After one step a string key holds its last value in `acc + [e]`. */
  lemma PutLookup<V>(acc: PhpArray<V>, e: Entry<V>, s: string)
    ensures Lookup(Put(acc, e), StrKey(s)) == Lookup(acc + [e], StrKey(s))
  {
    LookupConcat(acc, [e], StrKey(s));
    assert Lookup([e], StrKey(s)) == if e.key == StrKey(s) then Some(e.value) else None;
    match e.key
    case IntKey(_) => {
      var e' := Entry(IntKey(|IntValues(acc)|), e.value);
      LookupConcat(acc, [e'], StrKey(s));
      assert Lookup([e'], StrKey(s)) == None;
    }
    case StrKey(s0) => {
      if e.key in Keys(acc) {
        ReplaceLookup(acc, e.key, e.value, StrKey(s));
      }
    }
  }

  /** One step adds the string key of `e`, or appends its value to the integer-keyed values. */
  lemma PutObservers<V>(acc: PhpArray<V>, e: Entry<V>)
    ensures StrKeys(Put(acc, e)) == StrKeys(acc) + StrKeys([e])
    ensures IntValues(Put(acc, e)) == IntValues(acc) + IntValues([e])
  {
    match e.key
    case IntKey(_) => {
      var e' := Entry(IntKey(|IntValues(acc)|), e.value);
      IntValuesConcat(acc, [e']);
      StrKeysConcat(acc, [e']);
    }
    case StrKey(s0) => {
      if e.key in Keys(acc) {
        ReplaceObservers(acc, s0, e.value);
        StrKeysHaveKeys(acc, s0);
      } else {
        StrKeysConcat(acc, [e]);
        IntValuesConcat(acc, [e]);
      }
    }
  }

  /** `MergeInto` keeps distinct keys and renumbered integer keys. */
  lemma {:induction false} MergeIntoInvariant<V>(acc: PhpArray<V>, es: PhpArray<V>)
    requires WellFormed(acc) && Renumbered(acc)
    ensures WellFormed(MergeInto(acc, es)) && Renumbered(MergeInto(acc, es))
    decreases |es|
  {
    if es != [] {
      PutInvariant(acc, es[0]);
      MergeIntoInvariant(Put(acc, es[0]), es[1..]);
    }
  }

  /** After `MergeInto`, a string key holds its last value in `acc + es`. */
  lemma {:induction false} MergeIntoLookup<V>(acc: PhpArray<V>, es: PhpArray<V>, s: string)
    ensures Lookup(MergeInto(acc, es), StrKey(s)) == Lookup(acc + es, StrKey(s))
    decreases |es|
  {
    if es == [] {
      assert acc + es == acc;
    } else {
      var p, k := Put(acc, es[0]), StrKey(s);
      var tail := es[1..];
      calc {
        Lookup(MergeInto(acc, es), k);
        Lookup(MergeInto(p, tail), k);
        { MergeIntoLookup(p, tail, s); }
        Lookup(p + tail, k);
        { LookupConcat(p, tail, k); PutLookup(acc, es[0], s); LookupConcat(acc + [es[0]], tail, k); }
        Lookup((acc + [es[0]]) + tail, k);
        { assert es == [es[0]] + tail; assert (acc + [es[0]]) + tail == acc + es; }
        Lookup(acc + es, k);
      }
    }
  }

  /** `MergeInto` gathers the string keys of both sides and keeps their integer-keyed values in order. */
  lemma {:induction false} MergeIntoObservers<V>(acc: PhpArray<V>, es: PhpArray<V>)
    ensures StrKeys(MergeInto(acc, es)) == StrKeys(acc) + StrKeys(es)
    ensures IntValues(MergeInto(acc, es)) == IntValues(acc) + IntValues(es)
    decreases |es|
  {
    if es != [] {
      assert MergeInto(acc, es) == MergeInto(Put(acc, es[0]), es[1..]);
      PutObservers(acc, es[0]);
      MergeIntoObservers(Put(acc, es[0]), es[1..]);
      assert es == [es[0]] + es[1..];
      StrKeysConcat([es[0]], es[1..]);
      IntValuesConcat([es[0]], es[1..]);
    }
  }

  /** Entries with string keys not yet present are appended as they are, in order. */
  lemma {:induction false} MergeIntoFreshKeys<V>(acc: PhpArray<V>, es: PhpArray<V>)
    requires WellFormed(acc + es)
    requires forall j :: 0 <= j < |es| ==> es[j].key.StrKey?
    ensures MergeInto(acc, es) == acc + es
    decreases |es|
  {
    var all := acc + es;
    if es == [] {
      assert all == acc;
    } else {
      var e := es[0];
      assert e.key !in Keys(acc) by {
        KeysIndex(acc, e.key);
        forall j | 0 <= j < |acc| ensures acc[j].key != e.key {
          assert all[j] == acc[j] && all[|acc|] == e;
        }
      }
      assert Put(acc, e) == acc + [e];
      assert (acc + [e]) + es[1..] == all;
      MergeIntoFreshKeys(acc + [e], es[1..]);
    }
  }

  /** `array_merge` of arguments holding distinct string keys only is their concatenation. */
  lemma ArrayMergeDistinctStrings<V>(arrays: seq<PhpArray<V>>)
    requires WellFormed(Concat(arrays))
    requires forall j :: 0 <= j < |Concat(arrays)| ==> Concat(arrays)[j].key.StrKey?
    ensures ArrayMerge(arrays) == Concat(arrays)
  {
    assert [] + Concat(arrays) == Concat(arrays);
    MergeIntoFreshKeys([], Concat(arrays));
  }

  /** The result of `array_merge` has distinct keys and renumbered integer keys. */
  lemma ArrayMergeWellFormed<V>(arrays: seq<PhpArray<V>>)
    ensures WellFormed(ArrayMerge(arrays)) && Renumbered(ArrayMerge(arrays))
  {
    MergeIntoInvariant([], Concat(arrays));
  }

  /** Each string key of the result holds the value of its last occurrence among the arguments. */
  lemma ArrayMergeLookup<V>(arrays: seq<PhpArray<V>>, s: string)
    ensures Lookup(ArrayMerge(arrays), StrKey(s)) == Lookup(Concat(arrays), StrKey(s))
  {
    MergeIntoLookup([], Concat(arrays), s);
    assert [] + Concat(arrays) == Concat(arrays);
  }

  /** The string keys of the result are those of the arguments; the
      integer-keyed values are those of the arguments, in order. */
  lemma ArrayMergeContents<V>(arrays: seq<PhpArray<V>>)
    ensures StrKeys(ArrayMerge(arrays)) == StrKeys(Concat(arrays))
    ensures IntValues(ArrayMerge(arrays)) == IntValues(Concat(arrays))
  {
    MergeIntoObservers([], Concat(arrays));
  }

  /** The result has one entry per distinct string key plus one per integer-keyed argument entry. */
  lemma ArrayMergeSize<V>(arrays: seq<PhpArray<V>>)
    ensures |ArrayMerge(arrays)| == |StrKeys(Concat(arrays))| + |IntValues(Concat(arrays))|
  {
    MergeIntoInvariant([], Concat(arrays));
    MergeIntoObservers([], Concat(arrays));
    WellFormedSize(ArrayMerge(arrays));
  }
}
