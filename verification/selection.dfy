/**
 * The last step of pagination-link detection: the candidate table, ordered
 * by confidence with Python's stable `sorted(..., reverse=True)`, cut to the
 * first three entries, of which those scoring at least 5 are returned.
 */
module Selection {
  import opened Wrappers
  import opened Dicts

  /** A candidate URL with its confidence score: one item of the candidate table. */
  type Entry = (string, int)

  /** How many URLs are returned at most. */
  const MaxLinks: nat := 3

  /** The least confidence a returned URL has. */
  const MinConfidence: int := 5

  predicate SortedDesc(s: seq<Entry>) {
    forall i, j :: 0 <= i < j < |s| ==> s[i].1 >= s[j].1
  }

  /** Places `x` in front of the first entry whose score is not above its own. */
  function Insert(x: Entry, t: seq<Entry>): seq<Entry> {
    if t == [] then [x]
    else if t[0].1 <= x.1 then [x] + t
    else [t[0]] + Insert(x, t[1..])
  }

  /** Python's `sorted(items, key=score, reverse=True)`, by insertion. */
  function SortByScore(s: seq<Entry>): seq<Entry> {
    if s == [] then [] else Insert(s[0], SortByScore(s[1..]))
  }

  lemma {:induction false} InsertElements(x: Entry, t: seq<Entry>)
    ensures |Insert(x, t)| == |t| + 1
    ensures forall e :: e in Insert(x, t) <==> e == x || e in t
  {
    if t != [] && t[0].1 > x.1 {
      InsertElements(x, t[1..]);
      assert t == [t[0]] + t[1..];
    }
  }

  lemma {:induction false} InsertMultiset(x: Entry, t: seq<Entry>)
    ensures multiset(Insert(x, t)) == multiset(t) + multiset{x}
  {
    if t != [] && t[0].1 > x.1 {
      InsertMultiset(x, t[1..]);
      assert t == [t[0]] + t[1..];
    }
  }

  lemma {:induction false} InsertSorted(x: Entry, t: seq<Entry>)
    requires SortedDesc(t)
    ensures SortedDesc(Insert(x, t))
  {
    if t != [] && t[0].1 > x.1 {
      InsertSorted(x, t[1..]);
      InsertElements(x, t[1..]);
      var r := Insert(x, t);
      forall i | 1 <= i < |r| ensures r[0].1 >= r[i].1 {
        assert r[i] in Insert(x, t[1..]);
      }
    }
  }

  /** The sort orders by score, highest first. */
  lemma {:induction false} SortIsSorted(s: seq<Entry>)
    ensures SortedDesc(SortByScore(s))
  {
    if s != [] {
      SortIsSorted(s[1..]);
      InsertSorted(s[0], SortByScore(s[1..]));
    }
  }

  /** The sort is a permutation of the table's items. */
  lemma {:induction false} SortIsPermutation(s: seq<Entry>)
    ensures multiset(SortByScore(s)) == multiset(s)
  {
    if s != [] {
      SortIsPermutation(s[1..]);
      InsertMultiset(s[0], SortByScore(s[1..]));
      assert s == [s[0]] + s[1..];
    }
  }

  lemma {:induction false} SortElements(s: seq<Entry>)
    ensures |SortByScore(s)| == |s|
    ensures forall e :: e in SortByScore(s) <==> e in s
  {
    if s != [] {
      SortElements(s[1..]);
      InsertElements(s[0], SortByScore(s[1..]));
      assert s == [s[0]] + s[1..];
    }
  }

  /** The entries scoring exactly `v`, in their order. */
  function WithScore(s: seq<Entry>, v: int): seq<Entry> {
    if s == [] then [] else (if s[0].1 == v then [s[0]] else []) + WithScore(s[1..], v)
  }

  lemma {:induction false} InsertWithScore(x: Entry, t: seq<Entry>, v: int)
    ensures WithScore(Insert(x, t), v) == (if x.1 == v then [x] else []) + WithScore(t, v)
  {
    if t != [] && t[0].1 > x.1 {
      InsertWithScore(x, t[1..], v);
      assert Insert(x, t)[1..] == Insert(x, t[1..]);
    }
  }

  /** The sort is stable: the entries of any one score come out in the order they went in. */
  lemma {:induction false} SortIsStable(s: seq<Entry>, v: int)
    ensures WithScore(SortByScore(s), v) == WithScore(s, v)
  {
    if s != [] {
      SortIsStable(s[1..], v);
      InsertWithScore(s[0], SortByScore(s[1..]), v);
    }
  }

  lemma {:induction false} InsertKeepsKeysDistinct(x: Entry, t: seq<Entry>)
    requires DistinctKeys(t)
    requires forall e :: e in t ==> e.0 != x.0
    ensures DistinctKeys(Insert(x, t))
  {
    if t != [] && t[0].1 > x.1 {
      InsertKeepsKeysDistinct(x, t[1..]);
      InsertElements(x, t[1..]);
      var r := Insert(x, t);
      forall i | 1 <= i < |r| ensures r[i].0 != r[0].0 {
        assert r[i] in Insert(x, t[1..]);
      }
    }
  }

  /** Sorting a table whose keys are distinct gives a list whose keys are distinct. */
  lemma {:induction false} SortKeepsKeysDistinct(s: seq<Entry>)
    requires DistinctKeys(s)
    ensures DistinctKeys(SortByScore(s))
  {
    if s != [] {
      SortKeepsKeysDistinct(s[1..]);
      SortElements(s[1..]);
      InsertKeepsKeysDistinct(s[0], SortByScore(s[1..]));
    }
  }

  /** `[e for e in s if e.score >= m]` */
  function AtLeast(s: seq<Entry>, m: int): seq<Entry> {
    if s == [] then [] else (if s[0].1 >= m then [s[0]] else []) + AtLeast(s[1..], m)
  }

  lemma {:induction false} AtLeastElements(s: seq<Entry>, m: int)
    ensures |AtLeast(s, m)| <= |s|
    ensures forall e :: e in AtLeast(s, m) <==> e in s && e.1 >= m
  {
    if s != [] {
      AtLeastElements(s[1..], m);
      assert s == [s[0]] + s[1..];
    }
  }

  lemma {:induction false} AtLeastKeepsAll(s: seq<Entry>, m: int)
    requires forall i :: 0 <= i < |s| ==> s[i].1 >= m
    ensures AtLeast(s, m) == s
  {
    if s != [] {
      AtLeastKeepsAll(s[1..], m);
    }
  }

  lemma {:induction false} AtLeastKeepsOrder(s: seq<Entry>, m: int)
    ensures SortedDesc(s) ==> SortedDesc(AtLeast(s, m))
    ensures DistinctKeys(s) ==> DistinctKeys(AtLeast(s, m))
  {
    if s != [] {
      AtLeastKeepsOrder(s[1..], m);
      AtLeastElements(s[1..], m);
      var r := AtLeast(s, m);
      if s[0].1 >= m {
        forall i | 1 <= i < |r| ensures r[i] in s[1..] {
          assert r[i] in AtLeast(s[1..], m);
        }
      }
    }
  }

  function Min(a: nat, b: nat): nat {
    if a <= b then a else b
  }

  /** `[(u, c) for (u, c) in sorted(table.items(), key=score, reverse=True)[:3] if c >= 5]` */
  function Selected(table: Dict<int>): seq<Entry> {
    var sorted := SortByScore(table);
    AtLeast(sorted[..Min(MaxLinks, |sorted|)], MinConfidence)
  }

  /** The URLs `find_pagination_links` returns for a finished candidate table. */
  function TopCandidates(table: Dict<int>): seq<string> {
    Keys(Selected(table))
  }

  lemma SelectedFacts(table: Dict<int>)
    requires DistinctKeys(table)
    ensures |Selected(table)| <= MaxLinks
    ensures DistinctKeys(Selected(table))
    ensures SortedDesc(Selected(table))
    ensures forall e :: e in Selected(table) ==> e in table && e.1 >= MinConfidence
    ensures forall e :: e in table && e.1 >= MinConfidence && e !in Selected(table) ==>
      |Selected(table)| == MaxLinks && forall i :: 0 <= i < MaxLinks ==> Selected(table)[i].1 >= e.1
  {
    var sorted := SortByScore(table);
    var k := Min(MaxLinks, |sorted|);
    var top := sorted[..k];
    SortKeepsKeysDistinct(table);
    SortIsSorted(table);
    SortElements(table);
    AtLeastElements(top, MinConfidence);
    AtLeastKeepsOrder(top, MinConfidence);
    forall e | e in Selected(table) ensures e in table {
      assert e in top;
    }
    forall e | e in table && e.1 >= MinConfidence && e !in Selected(table)
      ensures |Selected(table)| == MaxLinks && forall i :: 0 <= i < MaxLinks ==> Selected(table)[i].1 >= e.1
    {
      assert e in sorted;
      var p :| 0 <= p < |sorted| && sorted[p] == e;
      assert e !in top;
      assert p >= k;
      assert forall i :: 0 <= i < k ==> top[i].1 >= e.1;
      AtLeastKeepsAll(top, MinConfidence);
    }
  }

  /**
   * `find_pagination_links` returns at most three URLs, none twice, each with
   * its table score at least 5, in non-increasing score order; and a URL of
   * the table that scores at least 5 is left out only when three URLs scoring
   * no less than it are returned.
   */
  lemma TopCandidatesFacts(table: Dict<int>)
    requires DistinctKeys(table)
    ensures |TopCandidates(table)| <= MaxLinks
    ensures forall i, j :: 0 <= i < j < |TopCandidates(table)| ==> TopCandidates(table)[i] != TopCandidates(table)[j]
    ensures forall i :: 0 <= i < |TopCandidates(table)| ==>
      Lookup(table, TopCandidates(table)[i]).Some? && Lookup(table, TopCandidates(table)[i]).value >= MinConfidence
    ensures forall i, j :: 0 <= i < j < |TopCandidates(table)| ==>
      Lookup(table, TopCandidates(table)[i]).GetOr(0) >= Lookup(table, TopCandidates(table)[j]).GetOr(0)
    ensures forall k :: 0 <= k < |table| && table[k].1 >= MinConfidence && table[k].0 !in TopCandidates(table) ==>
      |TopCandidates(table)| == MaxLinks &&
      forall i :: 0 <= i < MaxLinks ==> Lookup(table, TopCandidates(table)[i]).GetOr(0) >= table[k].1
  {
    var sel := Selected(table);
    var urls := TopCandidates(table);
    SelectedFacts(table);
    assert forall i :: 0 <= i < |sel| ==> Lookup(table, urls[i]) == Some(sel[i].1) by {
      forall i | 0 <= i < |sel| ensures Lookup(table, urls[i]) == Some(sel[i].1) {
        assert sel[i] in table;
        var p :| 0 <= p < |table| && table[p] == sel[i];
        LookupItem(table, p);
      }
    }
    forall k | 0 <= k < |table| && table[k].1 >= MinConfidence && table[k].0 !in urls
      ensures |urls| == MaxLinks && forall i :: 0 <= i < MaxLinks ==> Lookup(table, urls[i]).GetOr(0) >= table[k].1
    {
      forall i | 0 <= i < |sel| ensures sel[i] != table[k] {
        assert urls[i] == sel[i].0;
      }
      assert table[k] in table;
    }
  }

  /**
   * When every score in the table is at least 5 (as every table the engine
   * builds is), the threshold removes nothing: the result is the first
   * three URLs of the sorted table.
   */
  lemma ThresholdRemovesNothing(table: Dict<int>)
    requires forall k :: 0 <= k < |table| ==> table[k].1 >= MinConfidence
    ensures TopCandidates(table) == Keys(SortByScore(table)[..Min(MaxLinks, |SortByScore(table)|)])
  {
    var sorted := SortByScore(table);
    SortElements(table);
    forall i | 0 <= i < |sorted| ensures sorted[i].1 >= MinConfidence {
      assert sorted[i] in table;
    }
    AtLeastKeepsAll(sorted[..Min(MaxLinks, |sorted|)], MinConfidence);
  }
}
