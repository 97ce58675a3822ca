/** `group_by_item(items, key_attribute)`: sort `items` in place by the value
    under `key_attribute`, then walk `itertools.groupby` over the sorted list
    and record each run's key with the run's length. The same function appears
    three times in the repository (the data layer's private
    `__group_by_items`, and the handlers `todo_query` and `get_graph_data`);
    the three bodies are identical and are modelled once here. */
module Grouping {
  import opened Values
  import StringOrder

  /** Every item carries a string under `attr`. */
  predicate Keyed(s: seq<Item>, attr: string)
  {
    forall i :: 0 <= i < |s| ==> attr in s[i] && s[i][attr].Str?
  }

  function KeyOf(it: Item, attr: string): string
    requires attr in it && it[attr].Str?
  {
    it[attr].s
  }

  /** The key values of `s`, in order. */
  function Keys(s: seq<Item>, attr: string): (ks: seq<string>)
    requires Keyed(s, attr)
    ensures |ks| == |s|
    ensures forall i {:trigger ks[i]} :: 0 <= i < |s| ==> ks[i] == KeyOf(s[i], attr)
  {
    if s == [] then [] else [KeyOf(s[0], attr)] + Keys(s[1..], attr)
  }

  predicate SortedBy(s: seq<Item>, attr: string)
    requires Keyed(s, attr)
  {
    forall i, j :: 0 <= i < j < |s| ==> StringOrder.Below(KeyOf(s[i], attr), KeyOf(s[j], attr))
  }

  /** How often each key value occurs: the dict `group_by_item` builds. */
  function Occurrences(ks: seq<string>): map<string, nat>
  {
    map k | k in ks :: multiset(ks)[k]
  }

  ghost function PickKey(m: map<string, nat>): (k: string)
    requires m != map[]
    ensures k in m
  {
    assert exists k :: k in m by {
      var k :| k in m.Keys;
    }
    var k :| k in m; k
  }

  /** The sum of a dict's counts. */
  ghost function Total(m: map<string, nat>): nat
    decreases m.Keys
  {
    if m == map[] then 0
    else
      var k := PickKey(m);
      m[k] + Total(m - {k})
  }

  lemma {:induction false} TotalWithout(m: map<string, nat>, k: string)
    requires k in m
    ensures Total(m) == m[k] + Total(m - {k})
    decreases m.Keys
  {
    var p := PickKey(m);
    if p != k {
      TotalWithout(m - {p}, k);
      TotalWithout(m - {k}, p);
      assert m - {p} - {k} == m - {k} - {p};
    }
  }

  lemma OccurrencesSnoc(s: seq<string>, x: string)
    ensures Occurrences(s + [x]) == Occurrences(s)[x := multiset(s)[x] + 1]
  {
    assert multiset(s + [x]) == multiset(s) + multiset{x};
    forall k ensures k in s + [x] <==> k in s || k == x {
      if k in s + [x] && k != x {
        var i :| 0 <= i < |s + [x]| && (s + [x])[i] == k;
        assert i < |s| && s[i] == k;
      }
    }
  }

  /** The counts of a grouping add up to the number of items grouped. */
  lemma {:induction false} TotalOccurrences(ks: seq<string>)
    ensures Total(Occurrences(ks)) == |ks|
    decreases |ks|
  {
    if ks == [] {
      assert Occurrences(ks) == map[];
    } else {
      var init, x := ks[..|ks| - 1], ks[|ks| - 1];
      assert ks == init + [x];
      TotalOccurrences(init);
      var m := Occurrences(init);
      OccurrencesSnoc(init, x);
      var m' := Occurrences(ks);
      assert m' - {x} == m - {x};
      TotalWithout(m', x);
      if x in m {
        TotalWithout(m, x);
      } else {
        assert m - {x} == m;
        assert multiset(init)[x] == 0;
      }
    }
  }

  /** Extending a prefix by a run of one new key adds one entry holding the run's length. */
  lemma {:induction false} OccurrencesOfRun(ks: seq<string>, i: nat, j: nat, cur: string)
    requires i < j <= |ks|
    requires forall p :: i <= p < j ==> ks[p] == cur
    requires cur !in ks[..i]
    ensures Occurrences(ks[..j]) == Occurrences(ks[..i])[cur := j - i]
    decreases j
  {
    assert ks[..j] == ks[..j - 1] + [cur];
    OccurrencesSnoc(ks[..j - 1], cur);
    if j == i + 1 {
      assert multiset(ks[..i])[cur] == 0;
    } else {
      OccurrencesOfRun(ks, i, j - 1, cur);
      assert ks[..j - 1][j - 2] == cur;
      assert Occurrences(ks[..j - 1])[cur] == j - 1 - i;
    }
  }

  lemma OccurrencesOfPermutation(ks: seq<string>, ks': seq<string>)
    requires multiset(ks) == multiset(ks')
    ensures Occurrences(ks) == Occurrences(ks')
  {
    forall k ensures k in ks <==> k in ks' {
      assert k in ks <==> k in multiset(ks);
      assert k in ks' <==> k in multiset(ks');
    }
  }

  /** The multiset of the keys of `s`. */
  ghost function KeyBag(s: seq<Item>, attr: string): multiset<string>
    requires Keyed(s, attr)
  {
    if s == [] then multiset{} else multiset{KeyOf(s[0], attr)} + KeyBag(s[1..], attr)
  }

  lemma {:induction false} KeyBagOfKeys(s: seq<Item>, attr: string)
    requires Keyed(s, attr)
    ensures KeyBag(s, attr) == multiset(Keys(s, attr))
  {
    if s != [] {
      KeyBagOfKeys(s[1..], attr);
      assert Keys(s, attr) == [KeyOf(s[0], attr)] + Keys(s[1..], attr);
    }
  }

  lemma {:induction false} KeyBagConcat(a: seq<Item>, b: seq<Item>, attr: string)
    requires Keyed(a, attr) && Keyed(b, attr)
    ensures Keyed(a + b, attr) && KeyBag(a + b, attr) == KeyBag(a, attr) + KeyBag(b, attr)
  {
    if a != [] {
      assert (a + b)[1..] == a[1..] + b;
      KeyBagConcat(a[1..], b, attr);
    } else {
      assert a + b == b;
    }
  }

  lemma RemoveFirst(s: seq<Item>, t: seq<Item>, n: int)
    requires multiset(s) == multiset(t) && s != [] && 0 <= n < |t| && t[n] == s[0]
    ensures multiset(s[1..]) == multiset(t[..n] + t[n + 1..])
  {
    assert s == [s[0]] + s[1..];
    assert t == t[..n] + [t[n]] + t[n + 1..];
    assert multiset(s[1..]) == multiset(s) - multiset{s[0]};
    assert multiset(t[..n] + t[n + 1..]) == multiset(t) - multiset{t[n]};
  }

  /** Taking item `n` out of `t` takes its key out of the key bag. */
  lemma KeyBagWithout(t: seq<Item>, n: int, attr: string)
    requires Keyed(t, attr) && 0 <= n < |t|
    ensures Keyed(t[..n] + t[n + 1..], attr)
    ensures KeyBag(t, attr) == KeyBag(t[..n] + t[n + 1..], attr) + multiset{KeyOf(t[n], attr)}
  {
    var front, back := t[..n], t[n + 1..];
    assert t == front + [t[n]] + back;
    assert Keyed(front, attr) && Keyed(back, attr) by {
      forall i | 0 <= i < |front| ensures front[i] == t[i] { }
      forall i | 0 <= i < |back| ensures back[i] == t[n + 1 + i] { }
    }
    KeyBagConcat(front, back, attr);
    KeyBagConcat(front, [t[n]], attr);
    KeyBagConcat(front + [t[n]], back, attr);
  }

  /** Items that are a rearrangement of each other carry the same keys, as often. */
  lemma {:induction false} KeyBagOfPermutation(s: seq<Item>, t: seq<Item>, attr: string)
    requires multiset(s) == multiset(t) && Keyed(s, attr) && Keyed(t, attr)
    ensures KeyBag(s, attr) == KeyBag(t, attr)
    decreases |s|
  {
    if s != [] {
      assert s[0] in multiset(t);
      var n :| 0 <= n < |t| && t[n] == s[0];
      RemoveFirst(s, t, n);
      KeyBagWithout(t, n, attr);
      KeyBagOfPermutation(s[1..], t[..n] + t[n + 1..], attr);
    }
  }

  /** A rearrangement of keyed items is keyed and groups to the same counts. */
  lemma OccurrencesOfRearranged(s: seq<Item>, t: seq<Item>, attr: string)
    requires multiset(s) == multiset(t) && Keyed(t, attr)
    ensures Keyed(s, attr)
    ensures Occurrences(Keys(s, attr)) == Occurrences(Keys(t, attr))
  {
    forall i | 0 <= i < |s| ensures attr in s[i] && s[i][attr].Str? {
      assert s[i] in multiset(t);
      var j :| 0 <= j < |t| && t[j] == s[i];
    }
    KeyBagOfPermutation(s, t, attr);
    KeyBagOfKeys(s, attr);
    KeyBagOfKeys(t, attr);
    OccurrencesOfPermutation(Keys(s, attr), Keys(t, attr));
  }

  method Swap(a: array<Item>, attr: string, p: int, q: int)
    requires 0 <= p < q < a.Length && Keyed(a[..], attr)
    modifies a
    ensures a[..] == old(a[..])[p := old(a[q])][q := old(a[p])]
    ensures multiset(a[..]) == multiset(old(a[..]))
    ensures Keyed(a[..], attr)
  {
    a[p], a[q] := a[q], a[p];
  }

  /** Once item `j` has stopped sinking, the first `i + 1` items are in key order. */
  lemma SunkInPlace(s: seq<Item>, attr: string, i: int, j: int)
    requires 0 <= j <= i < |s| && Keyed(s, attr)
    requires j == 0 || StringOrder.Below(KeyOf(s[j - 1], attr), KeyOf(s[j], attr))
    requires forall p, q :: 0 <= p < q <= i && p != j && q != j ==>
      StringOrder.Below(KeyOf(s[p], attr), KeyOf(s[q], attr))
    requires forall q :: j < q <= i ==> !StringOrder.Below(KeyOf(s[q], attr), KeyOf(s[j], attr))
    ensures forall p, q :: 0 <= p < q <= i ==> StringOrder.Below(KeyOf(s[p], attr), KeyOf(s[q], attr))
  {
    forall p, q | 0 <= p < q <= i
      ensures StringOrder.Below(KeyOf(s[p], attr), KeyOf(s[q], attr))
    {
      if p == j {
        StringOrder.Total(KeyOf(s[p], attr), KeyOf(s[q], attr));
      } else if q == j && p < j - 1 {
        StringOrder.Transitive(KeyOf(s[p], attr), KeyOf(s[j - 1], attr), KeyOf(s[q], attr));
      }
    }
  }

  /** One step of the insertion sort: with the first `i` items in key order,
      move item `i` down past the strictly greater keys before it. */
  method Sink(a: array<Item>, attr: string, i: int)
    requires 0 <= i < a.Length && Keyed(a[..], attr)
    requires forall p, q :: 0 <= p < q < i ==>
      StringOrder.Below(KeyOf(a[..][p], attr), KeyOf(a[..][q], attr))
    modifies a
    ensures Keyed(a[..], attr)
    ensures multiset(a[..]) == multiset(old(a[..]))
    ensures forall p, q :: 0 <= p < q <= i ==>
      StringOrder.Below(KeyOf(a[..][p], attr), KeyOf(a[..][q], attr))
  {
    var j := i;
    while j > 0 && !StringOrder.Below(KeyOf(a[..][j - 1], attr), KeyOf(a[..][j], attr))
      invariant 0 <= j <= i
      invariant multiset(a[..]) == multiset(old(a[..]))
      invariant Keyed(a[..], attr)
      invariant forall p, q :: 0 <= p < q <= i && p != j && q != j ==>
        StringOrder.Below(KeyOf(a[..][p], attr), KeyOf(a[..][q], attr))
      invariant forall q :: j < q <= i ==>
        !StringOrder.Below(KeyOf(a[..][q], attr), KeyOf(a[..][j], attr))
    {
      Swap(a, attr, j - 1, j);
      j := j - 1;
    }
    SunkInPlace(a[..], attr, i, j);
  }

  /** `items.sort(key=lambda item: item[key_attribute])` on string keys: an
      insertion sort that moves an item only past strictly greater keys, so it
      keeps equal keys in their original order as Python's sort does. */
  method SortByKey(a: array<Item>, attr: string)
    requires Keyed(a[..], attr)
    modifies a
    ensures Keyed(a[..], attr) && SortedBy(a[..], attr)
    ensures multiset(a[..]) == multiset(old(a[..]))
  {
    var i := 0;
    while i < a.Length
      invariant 0 <= i <= a.Length
      invariant multiset(a[..]) == multiset(old(a[..]))
      invariant Keyed(a[..], attr)
      invariant forall p, q :: 0 <= p < q < i ==>
        StringOrder.Below(KeyOf(a[..][p], attr), KeyOf(a[..][q], attr))
    {
      Sink(a, attr, i);
      i := i + 1;
    }
  }

  /** Sorted keys in ascending order. */
  predicate Ascending(ks: seq<string>)
  {
    forall p, q :: 0 <= p < q < |ks| ==> StringOrder.Below(ks[p], ks[q])
  }

  lemma KeysAscending(s: seq<Item>, attr: string)
    requires Keyed(s, attr) && SortedBy(s, attr)
    ensures Ascending(Keys(s, attr))
  {
  }

  lemma KeysAt(a: array<Item>, attr: string)
    requires Keyed(a[..], attr)
    ensures forall p :: 0 <= p < a.Length ==> attr in a[p] && a[p][attr].Str?
    ensures forall p :: 0 <= p < a.Length ==> Keys(a[..], attr)[p] == KeyOf(a[p], attr)
  {
    forall p | 0 <= p < a.Length ensures attr in a[p] && a[p][attr].Str? {
      assert a[..][p] == a[p];
    }
  }

  /** In ascending keys, a key that differs from its predecessor occurs nowhere before it. */
  lemma FreshAtBoundary(ks: seq<string>, i: nat)
    requires Ascending(ks) && 0 < i < |ks| && ks[i - 1] != ks[i]
    ensures ks[i] !in ks[..i]
  {
    forall p | 0 <= p < i ensures ks[p] != ks[i] {
      if p < i - 1 {
        StringOrder.Transitive(ks[p], ks[i - 1], ks[i]);
      }
      StringOrder.Antisymmetric(ks[p], ks[i]);
      StringOrder.Antisymmetric(ks[i - 1], ks[i]);
    }
  }

  /** The loop `for key, group in groupby(items, ...)` over sorted items: one
      entry per run of equal keys, holding the run's length. */
  method CountRuns(a: array<Item>, attr: string) returns (m: map<string, nat>)
    requires Keyed(a[..], attr) && SortedBy(a[..], attr)
    ensures m == Occurrences(Keys(a[..], attr))
  {
    ghost var ks := Keys(a[..], attr);
    KeysAscending(a[..], attr);
    KeysAt(a, attr);
    m := map[];
    var i := 0;
    while i < a.Length
      invariant 0 <= i <= a.Length
      invariant m == Occurrences(ks[..i])
      invariant 0 < i < a.Length ==> ks[i - 1] != ks[i]
    {
      var cur := KeyOf(a[i], attr);
      var j := i + 1;
      while j < a.Length && KeyOf(a[j], attr) == cur
        invariant i < j <= a.Length
        invariant forall p :: i <= p < j ==> ks[p] == cur
      {
        j := j + 1;
      }
      if i > 0 {
        FreshAtBoundary(ks, i);
      }
      OccurrencesOfRun(ks, i, j, cur);
      m := m[cur := j - i];
      i := j;
    }
    assert ks[..a.Length] == ks;
  }

  /** `group_by_item(items, key_attribute)`. The key of every item is looked
      up before anything moves, so a missing key raises `KeyError` and leaves
      `items` as it was. */
  method GroupByItem(items: array<Item>, attr: string) returns (r: Result<map<string, nat>>)
    modifies items
    ensures r == Raise(KeyError(attr)) <==> exists i :: 0 <= i < items.Length && attr !in old(items[..])[i]
    ensures r.Ok? <==> Keyed(old(items[..]), attr)
    ensures r.Raise? ==> r.error == KeyError(attr) || r.error == TypeError
    ensures r.Raise? ==> items[..] == old(items[..])
    ensures r.Ok? ==> r.value == Occurrences(Keys(old(items[..]), attr))
    ensures r.Ok? ==> forall k :: k in r.value <==> k in Keys(old(items[..]), attr)
    ensures r.Ok? ==> forall k :: k in r.value ==> r.value[k] >= 1
    ensures r.Ok? ==> Total(r.value) == items.Length
    ensures r.Ok? ==> Keyed(items[..], attr) && SortedBy(items[..], attr)
    ensures multiset(items[..]) == multiset(old(items[..]))
  {
    for i := 0 to items.Length
      invariant forall p :: 0 <= p < i ==> attr in items[p]
    {
      if attr !in items[i] {
        assert old(items[..])[i] == items[i];
        return Raise(KeyError(attr));
      }
    }
    for i := 0 to items.Length
      invariant forall p :: 0 <= p < i ==> items[p][attr].Str?
    {
      if !items[i][attr].Str? {
        assert old(items[..])[i] == items[i];
        return Raise(TypeError);
      }
    }
    ghost var before := items[..];
    assert Keyed(before, attr);
    SortByKey(items, attr);
    var counts := CountRuns(items, attr);
    OccurrencesOfRearranged(items[..], before, attr);
    TotalOccurrences(Keys(before, attr));
    return Ok(counts);
  }
}
