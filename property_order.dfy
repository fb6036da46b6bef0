/**
 * The order in which `Object.entries` lists the properties of an ordinary object built by
 * assignment (ECMAScript, section 10.1.11.1, OrdinaryOwnPropertyKeys): first the keys that are
 * array indices, in ascending numeric order, then every other string key in insertion order.
 * The entries are the groups of a record built in insertion order.
 */
module PropertyOrder {
  import opened Grouping

  predicate IsDigit(c: char) {
    '0' <= c <= '9'
  }

  function DigitValue(c: char): (d: nat)
    requires IsDigit(c)
    ensures d < 10
  {
    c as int - '0' as int
  }

  /** The decimal value of a string of digits. */
  function DigitsValue(s: string): nat
    requires forall i :: 0 <= i < |s| ==> IsDigit(s[i])
  {
    if |s| == 0 then 0
    else
      assert IsDigit(s[|s| - 1]);
      10 * DigitsValue(s[..|s| - 1]) + DigitValue(s[|s| - 1])
  }

  /**
   * An array index: the canonical decimal form of an integer below 2^32 - 1 ("0", or digits
   * without a leading zero).
   */
  predicate IsArrayIndex(k: string) {
    && 0 < |k|
    && (forall i :: 0 <= i < |k| ==> IsDigit(k[i]))
    && (|k| == 1 || k[0] != '0')
    && DigitsValue(k) < 0xFFFF_FFFF
  }

  /** The numeric value an array-index key is ordered by (0 for any other key, which is never compared). */
  function Rank(k: string): nat {
    if IsArrayIndex(k) then DigitsValue(k) else 0
  }

  /** The groups `g` with `p(g.name) == keep`, in their order. */
  function Select<T>(gs: seq<Group<T>>, p: string -> bool, keep: bool): seq<Group<T>> {
    if |gs| == 0 then []
    else if p(gs[|gs| - 1].name) == keep then Select(gs[..|gs| - 1], p, keep) + [gs[|gs| - 1]]
    else Select(gs[..|gs| - 1], p, keep)
  }

  lemma {:induction false} SelectPasses<T>(gs: seq<Group<T>>, p: string -> bool, keep: bool)
    ensures forall k :: 0 <= k < |Select(gs, p, keep)| ==> p(Select(gs, p, keep)[k].name) == keep
  {
    if |gs| > 0 {
      SelectPasses(gs[..|gs| - 1], p, keep);
    }
  }

  /** The groups whose label is an array index, in their order. */
  function IndexGroups<T>(gs: seq<Group<T>>): seq<Group<T>> {
    Select(gs, IsArrayIndex, true)
  }

  /** The groups whose label is not an array index, in their order. */
  function NamedGroups<T>(gs: seq<Group<T>>): seq<Group<T>> {
    Select(gs, IsArrayIndex, false)
  }

  predicate RankSorted<T>(s: seq<Group<T>>, rank: string -> nat) {
    forall i, j :: 0 <= i < j < |s| ==> rank(s[i].name) <= rank(s[j].name)
  }

  /** Insert `g` before the first group of higher or equal rank. */
  function InsertByRank<T>(g: Group<T>, sorted: seq<Group<T>>, rank: string -> nat): seq<Group<T>> {
    if |sorted| == 0 then [g]
    else if rank(g.name) <= rank(sorted[0].name) then [g] + sorted
    else [sorted[0]] + InsertByRank(g, sorted[1..], rank)
  }

  function SortByRank<T>(gs: seq<Group<T>>, rank: string -> nat): seq<Group<T>> {
    if |gs| == 0 then [] else InsertByRank(gs[0], SortByRank(gs[1..], rank), rank)
  }

  /** `Object.entries` of a record whose keys were created in the order of `gs`. */
  function Entries<T>(gs: seq<Group<T>>): seq<Group<T>> {
    SortByRank(IndexGroups(gs), Rank) + NamedGroups(gs)
  }

  lemma {:induction false} InsertByRankMultiset<T>(g: Group<T>, sorted: seq<Group<T>>, rank: string -> nat)
    ensures multiset(InsertByRank(g, sorted, rank)) == multiset(sorted) + multiset{g}
  {
    if |sorted| > 0 && rank(g.name) > rank(sorted[0].name) {
      InsertByRankMultiset(g, sorted[1..], rank);
      assert sorted == [sorted[0]] + sorted[1..];
    }
  }

  lemma {:induction false} InsertByRankSize<T>(g: Group<T>, sorted: seq<Group<T>>, rank: string -> nat)
    ensures TotalSize(InsertByRank(g, sorted, rank)) == |g.items| + TotalSize(sorted)
  {
    if |sorted| > 0 && rank(g.name) > rank(sorted[0].name) {
      InsertByRankSize(g, sorted[1..], rank);
      var r := [sorted[0]] + InsertByRank(g, sorted[1..], rank);
      assert r[0] == sorted[0] && r[1..] == InsertByRank(g, sorted[1..], rank);
    } else if |sorted| > 0 {
      var r := [g] + sorted;
      assert r[0] == g && r[1..] == sorted;
    }
  }

  /** The inserted list starts with `g` or with the old first group. */
  lemma InsertByRankHead<T>(g: Group<T>, sorted: seq<Group<T>>, rank: string -> nat)
    requires |sorted| > 0
    ensures InsertByRank(g, sorted, rank)[0] == (if rank(g.name) <= rank(sorted[0].name) then g else sorted[0])
  {
  }

  lemma {:induction false} InsertByRankSorted<T>(g: Group<T>, sorted: seq<Group<T>>, rank: string -> nat)
    requires RankSorted(sorted, rank)
    ensures RankSorted(InsertByRank(g, sorted, rank), rank)
  {
    if |sorted| > 0 && rank(g.name) > rank(sorted[0].name) {
      var tail := sorted[1..];
      var rest := InsertByRank(g, tail, rank);
      InsertByRankSorted(g, tail, rank);
      assert RankSorted(tail, rank);
      if |tail| > 0 {
        InsertByRankHead(g, tail, rank);
        assert rank(sorted[0].name) <= rank(tail[0].name);
      }
      assert rank(sorted[0].name) <= rank(rest[0].name);
      ConsSorted(sorted[0], rest, rank);
    } else if |sorted| > 0 {
      assert sorted == [sorted[0]] + sorted[1..];
      ConsSorted(g, sorted, rank);
    }
  }

  /** A group of rank no higher than a sorted list's first is sorted in front of it. */
  lemma ConsSorted<T>(x: Group<T>, s: seq<Group<T>>, rank: string -> nat)
    requires RankSorted(s, rank)
    requires |s| > 0 ==> rank(x.name) <= rank(s[0].name)
    ensures RankSorted([x] + s, rank)
  {
    var r := [x] + s;
    forall i, j | 0 <= i < j < |r|
      ensures rank(r[i].name) <= rank(r[j].name)
    {
      assert r[j] == s[j - 1];
      if i > 0 {
        assert r[i] == s[i - 1];
      } else {
        assert rank(s[0].name) <= rank(s[j - 1].name);
      }
    }
  }

  lemma {:induction false} SortByRankFacts<T>(gs: seq<Group<T>>, rank: string -> nat)
    ensures multiset(SortByRank(gs, rank)) == multiset(gs)
    ensures RankSorted(SortByRank(gs, rank), rank)
    ensures TotalSize(SortByRank(gs, rank)) == TotalSize(gs)
  {
    if |gs| > 0 {
      var rest := SortByRank(gs[1..], rank);
      SortByRankFacts(gs[1..], rank);
      InsertByRankMultiset(gs[0], rest, rank);
      InsertByRankSorted(gs[0], rest, rank);
      InsertByRankSize(gs[0], rest, rank);
      assert gs == [gs[0]] + gs[1..];
    }
  }

  lemma {:induction false} TotalSizeAppend<T>(a: seq<Group<T>>, b: seq<Group<T>>)
    ensures TotalSize(a + b) == TotalSize(a) + TotalSize(b)
  {
    if |a| == 0 {
      assert a + b == b;
    } else {
      assert (a + b)[0] == a[0];
      assert (a + b)[1..] == a[1..] + b;
      TotalSizeAppend(a[1..], b);
    }
  }

  /** One more group lands in exactly one of the two selections. */
  lemma SelectSnoc<T>(gs: seq<Group<T>>, p: string -> bool)
    requires |gs| > 0
    ensures var init, last := gs[..|gs| - 1], gs[|gs| - 1];
      && Select(gs, p, true) == Select(init, p, true) + (if p(last.name) then [last] else [])
      && Select(gs, p, false) == Select(init, p, false) + (if p(last.name) then [] else [last])
  {
  }

  /** Splitting the groups by a test on their labels loses and duplicates nothing. */
  lemma {:induction false} SplitMultiset<T>(gs: seq<Group<T>>, p: string -> bool)
    ensures multiset(Select(gs, p, true)) + multiset(Select(gs, p, false)) == multiset(gs)
  {
    if |gs| > 0 {
      SplitMultiset(gs[..|gs| - 1], p);
      assert gs == gs[..|gs| - 1] + [gs[|gs| - 1]];
    }
  }

  lemma {:induction false} SplitSize<T>(gs: seq<Group<T>>, p: string -> bool)
    ensures TotalSize(Select(gs, p, true)) + TotalSize(Select(gs, p, false)) == TotalSize(gs)
  {
    if |gs| > 0 {
      var init, last := gs[..|gs| - 1], gs[|gs| - 1];
      SplitSize(init, p);
      SelectSnoc(gs, p);
      assert gs == init + [last];
      TotalSizeAppend(init, [last]);
      assert TotalSize([last]) == |last.items|;
      var yes, no := Select(init, p, true), Select(init, p, false);
      if p(last.name) {
        assert no + [] == no;
        TotalSizeAppend(yes, [last]);
      } else {
        assert yes + [] == yes;
        TotalSizeAppend(no, [last]);
      }
    }
  }

  lemma {:induction false} SelectAppend<T>(a: seq<Group<T>>, b: seq<Group<T>>, p: string -> bool, keep: bool)
    ensures Select(a + b, p, keep) == Select(a, p, keep) + Select(b, p, keep)
  {
    if |b| == 0 {
      assert a + b == a;
    } else {
      var init := b[..|b| - 1];
      assert (a + b)[..|a + b| - 1] == a + init;
      assert (a + b)[|a + b| - 1] == b[|b| - 1];
      SelectAppend(a, init, p, keep);
    }
  }

  /** A list whose labels all pass `p == keep` is selected whole, and its complement is empty. */
  lemma {:induction false} SelectUniform<T>(s: seq<Group<T>>, p: string -> bool, keep: bool)
    requires forall k :: 0 <= k < |s| ==> p(s[k].name) == keep
    ensures Select(s, p, keep) == s
    ensures Select(s, p, !keep) == []
  {
    if |s| > 0 {
      assert s == s[..|s| - 1] + [s[|s| - 1]];
      SelectUniform(s[..|s| - 1], p, keep);
    }
  }

  /** Rank-sorted groups that pass `p`, then groups that fail it: the passing ones come first, ascending. */
  lemma {:induction false} PassingFirst<T>(sorted: seq<Group<T>>, rest: seq<Group<T>>, p: string -> bool, rank: string -> nat)
    requires RankSorted(sorted, rank)
    requires forall k :: 0 <= k < |sorted| ==> p(sorted[k].name)
    requires forall k :: 0 <= k < |rest| ==> !p(rest[k].name)
    ensures forall i, j :: 0 <= i < j < |sorted + rest| && p((sorted + rest)[j].name) ==>
      p((sorted + rest)[i].name) && rank((sorted + rest)[i].name) <= rank((sorted + rest)[j].name)
  {
    var r := sorted + rest;
    forall i, j | 0 <= i < j < |r| && p(r[j].name)
      ensures p(r[i].name) && rank(r[i].name) <= rank(r[j].name)
    {
      assert j < |sorted|;
      assert r[i] == sorted[i] && r[j] == sorted[j];
    }
  }

  lemma EntriesPermute<T>(gs: seq<Group<T>>)
    ensures multiset(Entries(gs)) == multiset(gs)
    ensures TotalSize(Entries(gs)) == TotalSize(gs)
  {
    var sorted := SortByRank(IndexGroups(gs), Rank);
    SortByRankFacts(IndexGroups(gs), Rank);
    SplitMultiset(gs, IsArrayIndex);
    SplitSize(gs, IsArrayIndex);
    TotalSizeAppend(sorted, NamedGroups(gs));
  }

  /** The sorted array-index groups all carry array-index labels. */
  lemma SortedIndexGroups<T>(gs: seq<Group<T>>)
    ensures forall k :: 0 <= k < |SortByRank(IndexGroups(gs), Rank)| ==> IsArrayIndex(SortByRank(IndexGroups(gs), Rank)[k].name)
  {
    var index := IndexGroups(gs);
    var sorted := SortByRank(index, Rank);
    SortByRankFacts(index, Rank);
    SelectPasses(gs, IsArrayIndex, true);
    forall k | 0 <= k < |sorted|
      ensures IsArrayIndex(sorted[k].name)
    {
      assert sorted[k] in multiset(index);
      var m :| 0 <= m < |index| && index[m] == sorted[k];
    }
  }

  /**
   * `Object.entries` lists the same groups, every array-index label before every other label
   * and in ascending numeric order, and the other labels in insertion order.
   */
  lemma EntriesOrder<T>(gs: seq<Group<T>>)
    ensures multiset(Entries(gs)) == multiset(gs)
    ensures TotalSize(Entries(gs)) == TotalSize(gs)
    ensures forall i, j :: 0 <= i < j < |Entries(gs)| && IsArrayIndex(Entries(gs)[j].name) ==>
      IsArrayIndex(Entries(gs)[i].name) && Rank(Entries(gs)[i].name) <= Rank(Entries(gs)[j].name)
    ensures NamedGroups(Entries(gs)) == NamedGroups(gs)
  {
    var sorted := SortByRank(IndexGroups(gs), Rank);
    var named := NamedGroups(gs);
    EntriesPermute(gs);
    SortByRankFacts(IndexGroups(gs), Rank);
    SortedIndexGroups(gs);
    SelectPasses(gs, IsArrayIndex, false);
    PassingFirst(sorted, named, IsArrayIndex, Rank);
    SelectAppend(sorted, named, IsArrayIndex, false);
    SelectUniform(sorted, IsArrayIndex, true);
    SelectUniform(named, IsArrayIndex, false);
  }

  /** Without array-index labels the entries come back in insertion order. */
  lemma NoIndexLabelsKeepOrder<T>(gs: seq<Group<T>>)
    requires forall k :: 0 <= k < |gs| ==> !IsArrayIndex(gs[k].name)
    ensures Entries(gs) == gs
  {
    SelectUniform(gs, IsArrayIndex, false);
  }

  /** A group labelled "1" created after one labelled "Reasoning" is listed first. */
  lemma IndexLabelListedFirst<T>(a: seq<T>, b: seq<T>)
    ensures Entries([Group("Reasoning", a), Group("1", b)]) == [Group("1", b), Group("Reasoning", a)]
  {
    var gs := [Group("Reasoning", a), Group("1", b)];
    assert DigitsValue("1") == 1 by {
      assert "1"[..0] == "";
    }
    assert IsArrayIndex("1");
    assert !IsArrayIndex("Reasoning") by {
      assert !IsDigit("Reasoning"[0]);
    }
    assert gs[..1] == [Group("Reasoning", a)] && gs[..1][..0] == [];
    SelectSnoc(gs[..1], IsArrayIndex);
    SelectSnoc(gs, IsArrayIndex);
    assert IndexGroups(gs[..1]) == [];
    assert IndexGroups(gs) == [Group("1", b)];
    assert NamedGroups(gs[..1]) == [Group("Reasoning", a)];
    assert NamedGroups(gs) == [Group("Reasoning", a)];
    assert SortByRank([Group("1", b)], Rank) == [Group("1", b)];
  }
}
