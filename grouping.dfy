/**
 * Grouping a list by a string key in first-appearance order, as done by the sidebar's date groups
 * (`groups.find(...)` then `push`) and by the model pickers' category `reduce` into a record.
 */
module Grouping {

  datatype Group<T> = Group(name: string, items: seq<T>)

  predicate NoDuplicates<T(==)>(s: seq<T>) {
    forall i, j :: 0 <= i < j < |s| ==> s[i] != s[j]
  }

  /** The elements of `s` in order of first appearance, each once (what `Array.from(new Set(s))` yields). */
  function Distinct<T(==)>(s: seq<T>): (r: seq<T>)
    ensures |r| <= |s|
  {
    if |s| == 0 then []
    else
      var p := Distinct(s[..|s| - 1]);
      if s[|s| - 1] in p then p else p + [s[|s| - 1]]
  }

  /** Membership is unchanged by removing duplicates. */
  lemma {:induction false} DistinctMembers<T>(s: seq<T>, x: T)
    ensures x in Distinct(s) <==> x in s
  {
    if |s| > 0 {
      DistinctMembers(s[..|s| - 1], x);
      assert s == s[..|s| - 1] + [s[|s| - 1]];
    }
  }

  /** The result of Distinct has no duplicates. */
  lemma {:induction false} DistinctNoDuplicates<T>(s: seq<T>)
    ensures NoDuplicates(Distinct(s))
  {
    if |s| > 0 {
      DistinctNoDuplicates(s[..|s| - 1]);
    }
  }

  /** Distinct of a list that already has no duplicates is the list itself. */
  lemma {:induction false} DistinctOfDistinct<T>(s: seq<T>)
    requires NoDuplicates(s)
    ensures Distinct(s) == s
  {
    if |s| > 0 {
      DistinctOfDistinct(s[..|s| - 1]);
    }
  }

  function KeysOf<T>(xs: seq<T>, key: T -> string): (r: seq<string>)
    ensures |r| == |xs|
    ensures forall i :: 0 <= i < |xs| ==> r[i] == key(xs[i])
  {
    seq(|xs|, i requires 0 <= i < |xs| => key(xs[i]))
  }

  /** The elements of `xs` whose key is `k`, in their order in `xs`. */
  function WithKey<T>(xs: seq<T>, key: T -> string, k: string): (r: seq<T>)
    ensures |r| <= |xs|
  {
    if |xs| == 0 then []
    else WithKey(xs[..|xs| - 1], key, k) + (if key(xs[|xs| - 1]) == k then [xs[|xs| - 1]] else [])
  }

  /** Membership in WithKey: exactly the elements of `xs` whose key is `k`. */
  lemma {:induction false} WithKeyMembers<T>(xs: seq<T>, key: T -> string, k: string, x: T)
    ensures x in WithKey(xs, key, k) <==> x in xs && key(x) == k
  {
    if |xs| > 0 {
      WithKeyMembers(xs[..|xs| - 1], key, k, x);
      assert xs == xs[..|xs| - 1] + [xs[|xs| - 1]];
    }
  }

  /** The indices of the elements of `xs` whose key is `k`, ascending: each such index once and no other. */
  function Positions<T>(xs: seq<T>, key: T -> string, k: string): (p: seq<nat>)
    ensures forall j :: 0 <= j < |p| ==> p[j] < |xs| && key(xs[p[j]]) == k
    ensures forall j, l :: 0 <= j < l < |p| ==> p[j] < p[l]
    ensures forall i :: 0 <= i < |xs| && key(xs[i]) == k ==> i in p
  {
    if |xs| == 0 then []
    else
      var init := Positions(xs[..|xs| - 1], key, k);
      init + (if key(xs[|xs| - 1]) == k then [|xs| - 1] else [])
  }

  /** WithKey picks out exactly the elements at Positions, in that order, so it keeps order and multiplicity. */
  lemma {:induction false} WithKeyAtPositions<T>(xs: seq<T>, key: T -> string, k: string)
    ensures var r, p := WithKey(xs, key, k), Positions(xs, key, k);
      |r| == |p| && forall j :: 0 <= j < |r| ==> r[j] == xs[p[j]]
  {
    if |xs| > 0 {
      WithKeyAtPositions(xs[..|xs| - 1], key, k);
    }
  }

  function LabelsOf<T>(groups: seq<Group<T>>): (r: seq<string>)
    ensures |r| == |groups|
    ensures forall g :: 0 <= g < |groups| ==> r[g] == groups[g].name
  {
    seq(|groups|, g requires 0 <= g < |groups| => groups[g].name)
  }

  /** The reference grouping: one group per distinct key in first-appearance order, holding that key's elements. */
  function Grouped<T>(xs: seq<T>, key: T -> string): (r: seq<Group<T>>)
  {
    var labels := Distinct(KeysOf(xs, key));
    seq(|labels|, g requires 0 <= g < |labels| => Group(labels[g], WithKey(xs, key, labels[g])))
  }

  /** `groups.find(g => g.name === k)`, as an index (|groups| when there is none). */
  function FindLabel<T>(groups: seq<Group<T>>, k: string): (j: nat)
    ensures j <= |groups|
    ensures j < |groups| ==> groups[j].name == k
    ensures forall m :: 0 <= m < j ==> groups[m].name != k
  {
    if |groups| == 0 then 0
    else if groups[0].name == k then 0
    else 1 + FindLabel(groups[1..], k)
  }

  /** `groups` is the grouping of `prefix` built so far. */
  ghost predicate GroupsOf<T>(groups: seq<Group<T>>, prefix: seq<T>, key: T -> string) {
    && LabelsOf(groups) == Distinct(KeysOf(prefix, key))
    && forall g :: 0 <= g < |groups| ==> groups[g].items == WithKey(prefix, key, groups[g].name)
  }

  /** One step of the walk: push `x` onto the group labelled `k`, or open a new group for it. */
  function Push<T>(groups: seq<Group<T>>, k: string, x: T): seq<Group<T>> {
    var j := FindLabel(groups, k);
    if j < |groups| then groups[j := Group(k, groups[j].items + [x])] else groups + [Group(k, [x])]
  }

  lemma PushStep<T>(groups: seq<Group<T>>, prefix: seq<T>, x: T, key: T -> string)
    requires GroupsOf(groups, prefix, key)
    ensures GroupsOf(Push(groups, key(x), x), prefix + [x], key)
  {
    var k := key(x);
    var ext := prefix + [x];
    assert KeysOf(ext, key)[..|prefix|] == KeysOf(prefix, key);
    DistinctNoDuplicates(KeysOf(prefix, key));
    DistinctMembers(KeysOf(prefix, key), k);
    var j := FindLabel(groups, k);
    var after := Push(groups, k, x);
    if j < |groups| {
      assert LabelsOf(after) == LabelsOf(groups);
      PushOntoItems(groups, prefix, x, key, j);
    } else {
      assert k !in LabelsOf(groups);
      assert LabelsOf(after) == LabelsOf(groups) + [k];
      PushNewItems(groups, prefix, x, key);
    }
  }

  /** Pushing onto the existing group `j` of the key extends that group's items and no other's. */
  lemma PushOntoItems<T>(groups: seq<Group<T>>, prefix: seq<T>, x: T, key: T -> string, j: nat)
    requires GroupsOf(groups, prefix, key) && NoDuplicates(LabelsOf(groups))
    requires j < |groups| && groups[j].name == key(x)
    ensures var after := groups[j := Group(key(x), groups[j].items + [x])];
      forall g :: 0 <= g < |after| ==> after[g].items == WithKey(prefix + [x], key, after[g].name)
  {
    var after := groups[j := Group(key(x), groups[j].items + [x])];
    forall g | 0 <= g < |after| ensures after[g].items == WithKey(prefix + [x], key, after[g].name) {
      WithKeySnoc(prefix, x, key, after[g].name);
      if g != j {
        assert LabelsOf(groups)[g] != LabelsOf(groups)[j];
      }
    }
  }

  /** Opening a new group for a key no element had yet leaves the other groups' items alone. */
  lemma PushNewItems<T>(groups: seq<Group<T>>, prefix: seq<T>, x: T, key: T -> string)
    requires GroupsOf(groups, prefix, key)
    requires key(x) !in LabelsOf(groups) && key(x) !in KeysOf(prefix, key)
    ensures var after := groups + [Group(key(x), [x])];
      forall g :: 0 <= g < |after| ==> after[g].items == WithKey(prefix + [x], key, after[g].name)
  {
    var after := groups + [Group(key(x), [x])];
    forall g | 0 <= g < |after| ensures after[g].items == WithKey(prefix + [x], key, after[g].name) {
      WithKeySnoc(prefix, x, key, after[g].name);
      if g == |groups| {
        WithKeyAbsent(prefix, key, key(x));
      } else {
        assert LabelsOf(groups)[g] != key(x);
      }
    }
  }

  /** Appending one element extends the group of its key and no other. */
  lemma WithKeySnoc<T>(xs: seq<T>, x: T, key: T -> string, k: string)
    ensures WithKey(xs + [x], key, k) == WithKey(xs, key, k) + (if key(x) == k then [x] else [])
  {
    assert (xs + [x])[..|xs|] == xs;
  }

  /**
   * Walks `xs` once: an element whose key already labels a group is pushed onto that group,
   * otherwise a new group holding it is pushed at the end.
   */
  method GroupBy<T>(xs: seq<T>, key: T -> string) returns (groups: seq<Group<T>>)
    ensures groups == Grouped(xs, key)
  {
    groups := [];
    var i := 0;
    while i < |xs|
      invariant 0 <= i <= |xs|
      invariant GroupsOf(groups, xs[..i], key)
    {
      var k := key(xs[i]);
      var j := FindLabel(groups, k);
      PushStep(groups, xs[..i], xs[i], key);
      if j < |groups| {
        groups := groups[j := Group(k, groups[j].items + [xs[i]])];
      } else {
        groups := groups + [Group(k, [xs[i]])];
      }
      assert xs[..i + 1] == xs[..i] + [xs[i]];
      i := i + 1;
    }
    assert xs[..i] == xs;
  }

  lemma {:induction false} WithKeyAbsent<T>(xs: seq<T>, key: T -> string, k: string)
    requires k !in KeysOf(xs, key)
    ensures WithKey(xs, key, k) == []
  {
    if |xs| > 0 {
      assert KeysOf(xs[..|xs| - 1], key) == KeysOf(xs, key)[..|xs| - 1];
      WithKeyAbsent(xs[..|xs| - 1], key, k);
    }
  }

  /** Sum of the sizes of the groups named by `labels`. */
  function SizeOf<T>(labels: seq<string>, xs: seq<T>, key: T -> string): nat
  {
    if |labels| == 0 then 0 else |WithKey(xs, key, labels[0])| + SizeOf(labels[1..], xs, key)
  }

  function TotalSize<T>(groups: seq<Group<T>>): nat
  {
    if |groups| == 0 then 0 else |groups[0].items| + TotalSize(groups[1..])
  }

  /** Adding one element grows the total over `labels` by one iff its key is one of them. */
  lemma {:induction false} SizeOfSnoc<T>(labels: seq<string>, xs: seq<T>, x: T, key: T -> string)
    requires NoDuplicates(labels)
    ensures SizeOf(labels, xs + [x], key) == SizeOf(labels, xs, key) + (if key(x) in labels then 1 else 0)
  {
    if |labels| > 0 {
      assert (xs + [x])[..|xs + [x]| - 1] == xs;
      SizeOfSnoc(labels[1..], xs, x, key);
      assert key(x) in labels <==> key(x) == labels[0] || key(x) in labels[1..];
    }
  }

  lemma {:induction false} SizeOfSnocLabel<T>(labels: seq<string>, k: string, xs: seq<T>, key: T -> string)
    ensures SizeOf(labels + [k], xs, key) == SizeOf(labels, xs, key) + |WithKey(xs, key, k)|
  {
    if |labels| > 0 {
      assert (labels + [k])[1..] == labels[1..] + [k];
      SizeOfSnocLabel(labels[1..], k, xs, key);
    }
  }

  /** The groups over the distinct keys account for every element exactly once. */
  lemma {:induction false} DistinctKeysCoverAll<T>(xs: seq<T>, key: T -> string)
    ensures SizeOf(Distinct(KeysOf(xs, key)), xs, key) == |xs|
  {
    if |xs| > 0 {
      var init := xs[..|xs| - 1];
      var x := xs[|xs| - 1];
      assert xs == init + [x];
      var ks := KeysOf(xs, key);
      assert ks[..|ks| - 1] == KeysOf(init, key);
      DistinctKeysCoverAll(init, key);
      var d := Distinct(KeysOf(init, key));
      assert Distinct(ks) == if key(x) in d then d else d + [key(x)];
      DistinctNoDuplicates(KeysOf(init, key));
      SizeOfSnoc(d, init, x, key);
      if key(x) !in d {
        NewKeyAddsOne(init, x, key, d);
      }
    }
  }

  /** A key not among the distinct keys so far contributes a group holding just the new element. */
  lemma NewKeyAddsOne<T>(init: seq<T>, x: T, key: T -> string, d: seq<string>)
    requires d == Distinct(KeysOf(init, key)) && key(x) !in d
    ensures SizeOf(d + [key(x)], init + [x], key) == SizeOf(d, init + [x], key) + 1
  {
    SizeOfSnocLabel(d, key(x), init + [x], key);
    DistinctMembers(KeysOf(init, key), key(x));
    WithKeyAbsent(init, key, key(x));
    assert (init + [x])[..|init|] == init;
    assert WithKey(init + [x], key, key(x)) == [x];
  }

  lemma {:induction false} TotalSizeIsSizeOf<T>(xs: seq<T>, key: T -> string, labels: seq<string>, groups: seq<Group<T>>)
    requires |groups| == |labels|
    requires forall g :: 0 <= g < |groups| ==> groups[g] == Group(labels[g], WithKey(xs, key, labels[g]))
    ensures TotalSize(groups) == SizeOf(labels, xs, key)
  {
    if |groups| > 0 {
      TotalSizeIsSizeOf(xs, key, labels[1..], groups[1..]);
    }
  }

  /** The group sizes sum to the length of the input. */
  lemma GroupedSizesSum<T>(xs: seq<T>, key: T -> string)
    ensures TotalSize(Grouped(xs, key)) == |xs|
  {
    TotalSizeIsSizeOf(xs, key, Distinct(KeysOf(xs, key)), Grouped(xs, key));
    DistinctKeysCoverAll(xs, key);
  }

  /**
   * Each element lies in exactly one group, the one labelled with its key; labels are unique;
   * within a group the elements keep their input order.
   */
  lemma GroupedIsPartition<T>(xs: seq<T>, key: T -> string, x: T)
    ensures NoDuplicates(LabelsOf(Grouped(xs, key)))
    ensures forall g :: 0 <= g < |Grouped(xs, key)| ==>
      (x in Grouped(xs, key)[g].items <==> x in xs && key(x) == Grouped(xs, key)[g].name)
    ensures x in xs ==> key(x) in LabelsOf(Grouped(xs, key))
  {
    var gs := Grouped(xs, key);
    assert LabelsOf(gs) == Distinct(KeysOf(xs, key));
    DistinctNoDuplicates(KeysOf(xs, key));
    DistinctMembers(KeysOf(xs, key), key(x));
    forall g | 0 <= g < |gs|
      ensures x in gs[g].items <==> x in xs && key(x) == gs[g].name
    {
      WithKeyMembers(xs, key, gs[g].name, x);
    }
    if x in xs {
      var i :| 0 <= i < |xs| && xs[i] == x;
      assert KeysOf(xs, key)[i] == key(x);
    }
  }
}
