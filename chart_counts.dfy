/**
 * The group-by-value count behind the three charts: `reduce` into a plain
 * object, `acc[key] = (acc[key] || 0) + 1`, then `Object.entries` of that
 * object. An object lists its array-index keys ("0", "1", ...) first, in
 * ascending numeric order, and its other keys in insertion order.
 */
module ChartCounts {
  import opened JsStrings
  import opened JsArrays

  /** One `[key, count]` pair of `Object.entries`. */
  datatype Entry = Entry(key: string, count: nat)

  /**
   * The accumulating `reduce`: `keys` are the object's keys in insertion
   * order, `counts` its values.
   */
  method Tally(values: seq<string>) returns (keys: seq<string>, counts: map<string, nat>)
    ensures keys == FirstSeen(values)
    ensures forall k | k in counts :: k in values
    ensures forall k | k in values :: k in counts
    ensures forall k | k in counts :: counts[k] == Occurrences(values, k)
  {
    keys := [];
    counts := map[];
    var i := 0;
    while i < |values|
      invariant 0 <= i <= |values|
      invariant Tallied(values[..i], keys, counts)
    {
      var v := values[i];
      assert values[..i + 1] == values[..i] + [v];
      if v in counts {
        TallyStep(values[..i], v, keys, counts, keys, counts[v := counts[v] + 1]);
        counts := counts[v := counts[v] + 1];
      } else {
        TallyStep(values[..i], v, keys, counts, keys + [v], counts[v := 1]);
        keys := keys + [v];
        counts := counts[v := 1];
      }
      i := i + 1;
    }
    assert values[..i] == values;
  }

  /** `keys` and `counts` are the object `reduce` has built after seeing `seen`. */
  predicate Tallied(seen: seq<string>, keys: seq<string>, counts: map<string, nat>) {
    && keys == FirstSeen(seen)
    && (forall k | k in counts :: k in seen)
    && (forall k | k in seen :: k in counts)
    && (forall k | k in counts :: counts[k] == Occurrences(seen, k))
  }

  /** One step of the reduce: `acc[v] = (acc[v] || 0) + 1`. */
  lemma TallyStep(seen: seq<string>, v: string, keys: seq<string>, counts: map<string, nat>,
                  keys': seq<string>, counts': map<string, nat>)
    requires Tallied(seen, keys, counts)
    requires v in counts ==> keys' == keys && counts' == counts[v := counts[v] + 1]
    requires v !in counts ==> keys' == keys + [v] && counts' == counts[v := 1]
    ensures Tallied(seen + [v], keys', counts')
  {
    FirstSeenSnoc(seen, v);
    forall k | k in counts' ensures counts'[k] == Occurrences(seen + [v], k) {
      OccurrencesSnoc(seen, v, k);
    }
  }

  /** The numeric value of an array-index key; 0 for any other key, which never gets sorted. */
  function IndexValue(k: string): int {
    if IsArrayIndex(k) then DigitsValue(k) else 0
  }

  function IsIndexKey(k: string): bool { IsArrayIndex(k) }
  function IsNamedKey(k: string): bool { !IsArrayIndex(k) }

  /** The order `Object.entries` lists the keys in, given their insertion order. */
  function EntryOrder(keys: seq<string>): (r: seq<string>)
    ensures multiset(r) == multiset(keys)
    ensures (forall i | 0 <= i < |keys| :: !IsArrayIndex(keys[i])) ==> r == keys
  {
    var indices := Filter(keys, IsIndexKey);
    var named := Filter(keys, IsNamedKey);
    FilterSplitMultiset(keys, IsIndexKey, IsNamedKey);
    WithoutIndexKeys(keys);
    SortBy(indices, IndexValue) + named
  }

  lemma WithoutIndexKeys(keys: seq<string>)
    ensures (forall i | 0 <= i < |keys| :: !IsArrayIndex(keys[i])) ==>
              Filter(keys, IsIndexKey) == [] && Filter(keys, IsNamedKey) == keys
  {
    if forall i | 0 <= i < |keys| :: !IsArrayIndex(keys[i]) {
      FilterNone(keys, IsIndexKey);
      FilterAll(keys, IsNamedKey);
    }
  }

  /** The count object as a map: every occurring value to its number of occurrences. */
  function CountMap(values: seq<string>): (m: map<string, nat>)
    ensures forall k | k in m :: k in values && m[k] == Occurrences(values, k)
    ensures forall k | k in values :: k in m
  {
    map k | k in SetOf(values) :: Occurrences(values, k)
  }

  function ToEntries(keys: seq<string>, counts: map<string, nat>): (r: seq<Entry>)
    requires forall k | k in keys :: k in counts
    ensures |r| == |keys|
    ensures forall i | 0 <= i < |keys| :: r[i] == Entry(keys[i], counts[keys[i]])
  {
    if keys == [] then [] else [Entry(keys[0], counts[keys[0]])] + ToEntries(keys[1..], counts)
  }

  /** `Object.entries` of the object the `reduce` builds over `values`. */
  function Distribution(values: seq<string>): seq<Entry> {
    var order := EntryOrder(FirstSeen(values));
    assert forall k | k in order :: k in multiset(FirstSeen(values));
    ToEntries(order, CountMap(values))
  }

  /** The reduce followed by `Object.entries`, as the charts run it. */
  method Entries(values: seq<string>) returns (data: seq<Entry>)
    ensures data == Distribution(values)
  {
    var keys, counts := Tally(values);
    assert counts == CountMap(values);
    var order := EntryOrder(keys);
    assert forall k | k in order :: k in multiset(keys);
    data := ToEntries(order, counts);
  }

  function EntryCount(e: Entry): int { e.count }

  function OccurrencesIn(values: seq<string>): string -> int {
    (k: string) => Occurrences(values, k)
  }

  /** Exactly the values that occur get an entry... */
  lemma DistributionKeys(values: seq<string>, k: string)
    ensures (exists i | 0 <= i < |Distribution(values)| :: Distribution(values)[i].key == k) <==> k in values
  {
    var seen := FirstSeen(values);
    var order := EntryOrder(seen);
    var d := Distribution(values);
    assert |d| == |order|;
    if k in values {
      assert k in multiset(order);
      var i :| 0 <= i < |order| && order[i] == k;
      assert d[i].key == k;
    }
    if i :| 0 <= i < |d| && d[i].key == k {
      assert order[i] in multiset(seen);
    }
  }

  /** ...each with its number of occurrences, at least 1... */
  lemma DistributionCounts(values: seq<string>)
    ensures forall i | 0 <= i < |Distribution(values)| ::
              Distribution(values)[i].count == Occurrences(values, Distribution(values)[i].key) >= 1
  {
    var seen := FirstSeen(values);
    var order := EntryOrder(seen);
    var d := Distribution(values);
    forall i | 0 <= i < |d| ensures d[i].count == Occurrences(values, d[i].key) >= 1 {
      assert order[i] in multiset(seen);
      assert d[i] == Entry(order[i], CountMap(values)[order[i]]);
    }
  }

  /** ...and no value gets two. */
  lemma DistributionDistinctKeys(values: seq<string>)
    ensures forall i, j | 0 <= i < j < |Distribution(values)| :: Distribution(values)[i].key != Distribution(values)[j].key
  {
    var seen := FirstSeen(values);
    var order := EntryOrder(seen);
    var d := Distribution(values);
    DistinctUnderPermutation(seen, order);
    assert forall i | 0 <= i < |d| :: d[i].key == order[i];
  }

  /** A reordering of a sequence without repetitions has none either. */
  lemma DistinctUnderPermutation(a: seq<string>, b: seq<string>)
    requires Distinct(a) && multiset(a) == multiset(b)
    ensures Distinct(b)
  {
    forall i, j | 0 <= i < j < |b| ensures b[i] != b[j] {
      if b[i] == b[j] {
        var x := b[i];
        assert multiset(b[..j])[x] >= 1 by { assert b[..j][i] == x; }
        assert b == b[..j] + [x] + b[j + 1..];
        assert multiset(b)[x] >= 2;
        MultisetAtMostOnce(a, x);
        assert false;
      }
    }
  }

  lemma {:induction false} MultisetAtMostOnce(a: seq<string>, x: string)
    requires Distinct(a)
    ensures multiset(a)[x] <= 1
  {
    if a != [] {
      assert a == [a[0]] + a[1..];
      MultisetAtMostOnce(a[1..], x);
      if a[0] == x {
        assert x !in a[1..];
      }
    }
  }

  /** The counts add up to the number of values. */
  lemma TotalCount(values: seq<string>)
    ensures SumBy(Distribution(values), EntryCount) == |values|
  {
    var seen := FirstSeen(values);
    var order := EntryOrder(seen);
    var f := OccurrencesIn(values);
    assert forall k | k in order :: k in multiset(seen);
    EntriesSum(order, values);
    var indices := Filter(seen, IsIndexKey);
    SortBySum(indices, IndexValue, f);
    SumByConcat(SortBy(indices, IndexValue), Filter(seen, IsNamedKey), f);
    FilterSplitSum(seen, IsIndexKey, IsNamedKey, f);
    OccurrencesSum(seen, values);
  }

  lemma {:induction false} EntriesSum(keys: seq<string>, values: seq<string>)
    requires forall k | k in keys :: k in values
    ensures SumBy(ToEntries(keys, CountMap(values)), EntryCount) == SumBy(keys, OccurrencesIn(values))
  {
    if keys != [] {
      EntriesSum(keys[1..], values);
      assert ToEntries(keys, CountMap(values))[1..] == ToEntries(keys[1..], CountMap(values));
    }
  }

  /** Summing the occurrence counts over every distinct value once gives the length. */
  lemma {:induction false} OccurrencesSum(d: seq<string>, values: seq<string>)
    requires Distinct(d) && forall k | k in values :: k in d
    ensures SumBy(d, OccurrencesIn(values)) == |values|
  {
    if values == [] {
      SumByBounds(d, OccurrencesIn(values), 0, 0);
    } else {
      var p := values[..|values| - 1];
      var x := values[|values| - 1];
      assert values == p + [x];
      assert forall k | k in p :: k in values;
      OccurrencesSum(d, p);
      SumByIndicator(d, OccurrencesIn(p), OccurrencesIn(values), x);
    }
  }

  lemma {:induction false} SumByIndicator(d: seq<string>, f: string -> int, g: string -> int, x: string)
    requires Distinct(d)
    requires forall i | 0 <= i < |d| :: g(d[i]) == f(d[i]) + (if d[i] == x then 1 else 0)
    ensures SumBy(d, g) == SumBy(d, f) + (if x in d then 1 else 0)
  {
    if d != [] {
      SumByIndicator(d[1..], f, g, x);
      assert d == [d[0]] + d[1..];
    }
  }

  /** Without array-index keys the entries are in first-seen order of the values. */
  lemma FirstSeenOrder(values: seq<string>)
    requires forall i | 0 <= i < |values| :: !IsArrayIndex(values[i])
    ensures |Distribution(values)| == |FirstSeen(values)|
    ensures forall i | 0 <= i < |FirstSeen(values)| :: Distribution(values)[i].key == FirstSeen(values)[i]
  {
    var seen := FirstSeen(values);
    forall i | 0 <= i < |seen| ensures !IsArrayIndex(seen[i]) {
      assert seen[i] in values;
    }
  }

  /** The grouping key of every record, `records.map(f)`. */
  function KeysBy<T>(records: seq<T>, f: T -> string): (r: seq<string>)
    ensures |r| == |records|
    ensures forall i | 0 <= i < |records| :: r[i] == f(records[i])
  {
    if records == [] then [] else [f(records[0])] + KeysBy(records[1..], f)
  }

  function HasKey<T>(f: T -> string, k: string): T -> bool {
    (x: T) => f(x) == k
  }

  lemma {:induction false} OccurrencesCons(x: string, t: seq<string>, k: string)
    ensures Occurrences([x] + t, k) == (if x == k then 1 else 0) + Occurrences(t, k)
  {
    if t != [] {
      var p := t[..|t| - 1];
      assert t == p + [t[|t| - 1]];
      assert [x] + t == ([x] + p) + [t[|t| - 1]];
      OccurrencesSnoc([x] + p, t[|t| - 1], k);
      OccurrencesSnoc(p, t[|t| - 1], k);
      OccurrencesCons(x, p, k);
    } else {
      assert [x] == [] + [x];
      OccurrencesSnoc([], x, k);
    }
  }

  /** The count of a key is the number of records with that key. */
  lemma {:induction false} CountsAreGroupSizes<T>(records: seq<T>, f: T -> string, k: string)
    ensures Occurrences(KeysBy(records, f), k) == |Filter(records, HasKey(f, k))|
  {
    if records != [] {
      CountsAreGroupSizes(records[1..], f, k);
      assert KeysBy(records, f) == [f(records[0])] + KeysBy(records[1..], f);
      OccurrencesCons(f(records[0]), KeysBy(records[1..], f), k);
    }
  }
}
