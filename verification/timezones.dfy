/** The timezone extractor: every timezone embedded in a country is appended to
    one global list and keyed by the number of timezones emitted before it plus
    one; the country keeps the keys of its own timezones, in order. */
module Timezones {
  import opened Records

  /** All the lists, one after another. */
  function Concat<T>(lists: seq<seq<T>>): (r: seq<T>)
    ensures |r| == Count(lists)
  {
    if |lists| == 0 then [] else lists[0] + Concat(lists[1..])
  }

  /** The number of elements over all the lists. */
  function Count<T>(lists: seq<seq<T>>): nat
  {
    if |lists| == 0 then 0 else |lists[0]| + Count(lists[1..])
  }

  /** `zones` with the k-th one keyed `start + k + 1` and every other field kept. */
  function Keyed(zones: seq<Timezone>, start: nat): seq<Timezone>
  {
    seq(|zones|, k requires 0 <= k < |zones| => zones[k].(id := start + k + 1))
  }

  /** The keys `start + 1 .. start + n` as the country stores them (uint32). */
  function KeyIds(start: nat, n: nat): seq<uint32>
  {
    seq<uint32>(n, k requires 0 <= k < n => ToUint32(start + k + 1))
  }

  /** The inner loop over one country's timezones: each is keyed by the count
      emitted so far plus one and appended; its key is recorded for the country. */
  function AppendZones(emitted: seq<Timezone>, own: seq<Timezone>): (r: (seq<Timezone>, seq<uint32>))
    ensures |r.0| == |emitted| + |own|
    ensures |r.1| == |own|
    decreases |own|
  {
    if |own| == 0 then (emitted, [])
    else
      var tz := own[0].(id := |emitted| + 1);
      var next := AppendZones(emitted + [tz], own[1..]);
      (next.0, [ToUint32(tz.id)] + next.1)
  }

  /** The outer loop over the countries' timezone lists, in input order. */
  function ExtractFrom(emitted: seq<Timezone>, lists: seq<seq<Timezone>>): (r: (seq<Timezone>, seq<seq<uint32>>))
    ensures |r.1| == |lists|
    decreases |lists|
  {
    if |lists| == 0 then (emitted, [])
    else
      var first := AppendZones(emitted, lists[0]);
      var rest := ExtractFrom(first.0, lists[1..]);
      (rest.0, [first.1] + rest.1)
  }

  /** The global timezone list and each country's key list, starting empty. */
  function Extract(lists: seq<seq<Timezone>>): (seq<Timezone>, seq<seq<uint32>>)
  {
    ExtractFrom([], lists)
  }

  lemma KeyedSplit(a: seq<Timezone>, b: seq<Timezone>, start: nat)
    ensures Keyed(a + b, start) == Keyed(a, start) + Keyed(b, start + |a|)
  {
  }

  lemma KeyIdsSplit(start: nat, n: nat, m: nat)
    ensures KeyIds(start, n) + KeyIds(start + n, m) == KeyIds(start, n + m)
  {
  }

  /** Count over the first `i + 1` lists is the count over the first `i` plus the i-th. */
  lemma {:induction false} CountPrefixStep<T>(lists: seq<seq<T>>, i: nat)
    requires i < |lists|
    ensures Count(lists[..i + 1]) == Count(lists[..i]) + |lists[i]|
    decreases i
  {
    if i > 0 {
      assert lists[..i + 1][1..] == lists[1..][..i];
      assert lists[..i][1..] == lists[1..][..i - 1];
      CountPrefixStep(lists[1..], i - 1);
    }
  }

  /** The counts over a prefix never exceed the count over all the lists. */
  lemma {:induction false} CountPrefixBound<T>(lists: seq<seq<T>>, i: nat)
    requires i <= |lists|
    ensures Count(lists[..i]) <= Count(lists)
    decreases |lists| - i
  {
    if i < |lists| {
      CountPrefixStep(lists, i);
      CountPrefixBound(lists, i + 1);
    } else {
      assert lists[..i] == lists;
    }
  }

  /** The j-th element of the i-th list sits at its offset in the concatenation. */
  lemma {:induction false} ConcatIndex<T>(lists: seq<seq<T>>, i: nat, j: nat)
    requires i < |lists| && j < |lists[i]|
    ensures Count(lists[..i]) + j < |Concat(lists)|
    ensures Concat(lists)[Count(lists[..i]) + j] == lists[i][j]
    decreases i
  {
    CountPrefixStep(lists, i);
    CountPrefixBound(lists, i + 1);
    if i > 0 {
      assert lists[..i][1..] == lists[1..][..i - 1];
      ConcatIndex(lists[1..], i - 1, j);
    }
  }

  /** One country's loop appends its timezones keyed from the running count
      and records exactly those keys. */
  lemma {:induction false} AppendZonesKeys(emitted: seq<Timezone>, own: seq<Timezone>)
    ensures AppendZones(emitted, own) == (emitted + Keyed(own, |emitted|), KeyIds(|emitted|, |own|))
    decreases |own|
  {
    if |own| > 0 {
      var tz := own[0].(id := |emitted| + 1);
      AppendZonesKeys(emitted + [tz], own[1..]);
      assert own == [own[0]] + own[1..];
      KeyedSplit([own[0]], own[1..], |emitted|);
      assert Keyed([own[0]], |emitted|) == [tz];
      assert (emitted + [tz]) + Keyed(own[1..], |emitted| + 1) == emitted + Keyed(own, |emitted|);
      KeyIdsSplit(|emitted|, 1, |own| - 1);
      assert KeyIds(|emitted|, 1) == [ToUint32(tz.id)];
    } else {
      assert Keyed(own, |emitted|) == [];
      assert KeyIds(|emitted|, 0) == [];
      assert emitted + Keyed(own, |emitted|) == emitted;
    }
  }

  /** The global list is the concatenation of the countries' lists, keyed
      contiguously from the initial count. */
  lemma {:induction false} ExtractFromZones(emitted: seq<Timezone>, lists: seq<seq<Timezone>>)
    ensures ExtractFrom(emitted, lists).0 == emitted + Keyed(Concat(lists), |emitted|)
    decreases |lists|
  {
    if |lists| > 0 {
      AppendZonesKeys(emitted, lists[0]);
      var next := emitted + Keyed(lists[0], |emitted|);
      ExtractFromZones(next, lists[1..]);
      KeyedSplit(lists[0], Concat(lists[1..]), |emitted|);
    }
  }

  /** Read in country order, the key lists are the keys from the initial count
      on, with no gap and no repeat. */
  lemma {:induction false} ExtractFromRefs(emitted: seq<Timezone>, lists: seq<seq<Timezone>>)
    ensures Concat(ExtractFrom(emitted, lists).1) == KeyIds(|emitted|, Count(lists))
    decreases |lists|
  {
    if |lists| > 0 {
      AppendZonesKeys(emitted, lists[0]);
      var next := emitted + Keyed(lists[0], |emitted|);
      ExtractFromRefs(next, lists[1..]);
      var r := ExtractFrom(emitted, lists);
      assert r.1[1..] == ExtractFrom(next, lists[1..]).1;
      KeyIdsSplit(|emitted|, |lists[0]|, Count(lists[1..]));
    }
  }

  /** Each country's key list is the run of keys that starts after the
      timezones of the countries before it. */
  lemma {:induction false} ExtractFromCountryRefs(emitted: seq<Timezone>, lists: seq<seq<Timezone>>, i: nat)
    requires i < |lists|
    ensures ExtractFrom(emitted, lists).1[i] == KeyIds(|emitted| + Count(lists[..i]), |lists[i]|)
    decreases i
  {
    AppendZonesKeys(emitted, lists[0]);
    if i > 0 {
      var next := emitted + Keyed(lists[0], |emitted|);
      ExtractFromCountryRefs(next, lists[1..], i - 1);
      assert lists[..i][1..] == lists[1..][..i - 1];
    }
  }

  /** Timezone extraction: the global list holds one row per embedded
      timezone, in country order then list order, keyed exactly 1..N, with
      every other field copied. */
  lemma ExtractZones(lists: seq<seq<Timezone>>)
    ensures |Extract(lists).0| == Count(lists)
    ensures forall k | 0 <= k < |Extract(lists).0| ::
      Extract(lists).0[k] == Concat(lists)[k].(id := k + 1)
  {
    ExtractFromZones([], lists);
  }

  /** The j-th timezone of country i lands at its offset in the global list
      with key offset + j + 1, and the country records that very key. */
  lemma ExtractCountryKeys(lists: seq<seq<Timezone>>, i: nat, j: nat)
    requires i < |lists| && j < |lists[i]|
    ensures j < |Extract(lists).1[i]|
    ensures Count(lists[..i]) + j < |Extract(lists).0|
    ensures Extract(lists).0[Count(lists[..i]) + j] == lists[i][j].(id := Count(lists[..i]) + j + 1)
    ensures Extract(lists).1[i][j] == ToUint32(Count(lists[..i]) + j + 1)
  {
    ExtractFromZones([], lists);
    ExtractFromCountryRefs([], lists, i);
    ConcatIndex(lists, i, j);
  }

  /** Concatenating the countries' key lists in input order gives exactly
      1..N when N fits the stored uint32 keys. */
  lemma ExtractRefsContiguous(lists: seq<seq<Timezone>>)
    requires Count(lists) < UINT32_MODULUS
    ensures |Concat(Extract(lists).1)| == Count(lists)
    ensures forall k | 0 <= k < Count(lists) :: Concat(Extract(lists).1)[k] == k + 1
  {
    ExtractFromRefs([], lists);
    forall k | 0 <= k < Count(lists)
      ensures Concat(Extract(lists).1)[k] == k + 1
    {
      assert Concat(Extract(lists).1)[k] == KeyIds(0, Count(lists))[k] == ToUint32(k + 1);
    }
  }

  /** A stored key list holds only keys in its run `start + 1 .. start + n`. */
  lemma KeyIdsRange(start: nat, n: nat, a: int)
    requires start + n < UINT32_MODULUS
    requires a in KeyIds(start, n)
    ensures start < a <= start + n
  {
    var k :| 0 <= k < n && KeyIds(start, n)[k] == a;
    assert a == ToUint32(start + k + 1) == start + k + 1;
  }

  /** Country i's key list, read off the whole extraction. */
  lemma CountryKeyRun(lists: seq<seq<Timezone>>, i: nat)
    requires i < |lists|
    ensures Extract(lists).1[i] == KeyIds(Count(lists[..i]), |lists[i]|)
  {
    ExtractFromCountryRefs([], lists, i);
  }

  /** Country i's keys lie strictly after the timezones of the countries
      before it and no further than its own last timezone. */
  lemma CountryRefsRange(lists: seq<seq<Timezone>>, i: nat, a: int)
    requires i < |lists|
    requires Count(lists) < UINT32_MODULUS
    requires a in Extract(lists).1[i]
    ensures Count(lists[..i]) < a <= Count(lists[..i + 1])
  {
    var lo, hi := Count(lists[..i]), Count(lists[..i + 1]);
    CountryKeyRun(lists, i);
    assert lo + |lists[i]| == hi <= Count(lists) by {
      CountPrefixStep(lists, i);
      CountPrefixBound(lists, i + 1);
    }
    KeyIdsRange(lo, |lists[i]|, a);
  }

  /** No key appears in two countries' lists: every key of an earlier country
      is below every key of a later one. */
  lemma ExtractRefsDisjoint(lists: seq<seq<Timezone>>, i: nat, i': nat, a: int, b: int)
    requires i < i' < |lists|
    requires Count(lists) < UINT32_MODULUS
    requires a in Extract(lists).1[i] && b in Extract(lists).1[i']
    ensures a < b
  {
    CountryRefsRange(lists, i, a);
    CountryRefsRange(lists, i', b);
    CountPrefixMonotone(lists, i + 1, i');
  }

  lemma {:induction false} CountPrefixMonotone<T>(lists: seq<seq<T>>, i: nat, i': nat)
    requires i <= i' <= |lists|
    ensures Count(lists[..i]) <= Count(lists[..i'])
    decreases i' - i
  {
    if i < i' {
      CountPrefixStep(lists, i);
      CountPrefixMonotone(lists, i + 1, i');
    }
  }

  /** Two countries, two timezones on the first and one on the second: keys
      1, 2, 3, the first country refers to [1, 2] and the second to [3]. */
  lemma TwoCountryFixture(a: Timezone, b: Timezone, c: Timezone)
    ensures Extract([[a, b], [c]]) == ([a.(id := 1), b.(id := 2), c.(id := 3)], [[1, 2], [3]])
  {
    var zones := [a.(id := 1), b.(id := 2), c.(id := 3)];
    var none: seq<Timezone> := [];
    var last: seq<seq<Timezone>> := [[c]];
    var all: seq<seq<Timezone>> := [[a, b], [c]];
    AppendZonesKeys(none, [a, b]);
    AppendZonesKeys(zones[..2], [c]);
    assert Keyed([a, b], 0) == zones[..2];
    assert Keyed([c], 2) == [zones[2]];
    assert KeyIds(0, 2) == [1, 2];
    assert KeyIds(2, 1) == [3];
    assert AppendZones(none, [a, b]).0 == zones[..2];
    assert AppendZones(none, [a, b]).1 == [1, 2];
    assert AppendZones(zones[..2], [c]).0 == zones;
    assert AppendZones(zones[..2], [c]).1 == [3];
    assert last[1..] == [];
    assert all[1..] == last;
    assert ExtractFrom(zones[..2], last).0 == zones;
    assert ExtractFrom(zones[..2], last).1 == [[3]];
    assert Extract(all).0 == zones;
    assert Extract(all).1 == [[1, 2], [3]];
  }
}
