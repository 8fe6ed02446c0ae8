/**
 * `getTopCategories`: group records by their category, sum the amounts per category, sort the categories
 * by their sums in descending order and keep the labels of the first three.
 */
module CategoryRanking {
  import opened Optional
  import opened Dictionary
  import opened Records

  /** How many labels the ranking keeps (`.slice(0, 3)`). */
  const TopCount := 3

  /** One `[category, total]` pair of `Object.entries`. */
  datatype Entry = Entry(category: string, total: int)

  /**
   * The `categoryTotals` object: a dictionary whose `Object.entries` lists its keys in the order in which
   * they were first assigned.
   */
  datatype Tally = Tally(order: seq<string>, totals: map<string, int>)

  /** `if (transaction.categoria)`: only records with a non-empty category are ranked. */
  predicate Labelled(t: Transaction)
  {
    Truthy(t.category)
  }

  /** `categoryTotals[c] = (categoryTotals[c] || 0) + amount`, a new key going to the end of the order. */
  function Tallied(tl: Tally, c: string, amount: int): Tally
  {
    Tally(if c in tl.totals then tl.order else tl.order + [c], tl.totals[c := Lookup(tl.totals, c) + amount])
  }

  /** The dictionary after the `forEach` over `ts`. */
  function TallyOf(ts: seq<Transaction>): Tally
  {
    if ts == [] then Tally([], map[])
    else
      var before := TallyOf(ts[..|ts| - 1]);
      var t := ts[|ts| - 1];
      if Labelled(t) then Tallied(before, t.category.value, Amount(t)) else before
  }

  /** The summed amount of the records of `ts` whose category is exactly `c`. */
  function CategoryTotal(ts: seq<Transaction>, c: string): int
  {
    if ts == [] then 0
    else
      var t := ts[|ts| - 1];
      CategoryTotal(ts[..|ts| - 1], c) + (if t.category == Some(c) then Amount(t) else 0)
  }

  /** Some record of `ts` carries category `c`. */
  ghost predicate Mentions(ts: seq<Transaction>, c: string)
  {
    exists t :: t in ts && t.category == Some(c)
  }

  ghost predicate Distinct(s: seq<string>)
  {
    forall i, j :: 0 <= i < j < |s| ==> s[i] != s[j]
  }

  /** The key order lists every key of the dictionary exactly once. */
  ghost predicate WellFormed(tl: Tally)
  {
    Distinct(tl.order) && forall c :: c in tl.totals <==> c in tl.order
  }

  /** `Object.entries(categoryTotals)`. */
  function Entries(tl: Tally): seq<Entry>
  {
    seq(|tl.order|, i requires 0 <= i < |tl.order| => Entry(tl.order[i], Lookup(tl.totals, tl.order[i])))
  }

  ghost predicate SortedDesc(es: seq<Entry>)
  {
    forall i, j :: 0 <= i < j < |es| ==> es[i].total >= es[j].total
  }

  ghost predicate DistinctLabels(es: seq<Entry>)
  {
    forall i, j :: 0 <= i < j < |es| ==> es[i].category != es[j].category
  }

  /** Places `e` after every entry whose total is at least `e`'s, so that ties keep their order. */
  function Insert(sorted: seq<Entry>, e: Entry): seq<Entry>
    decreases |sorted|
  {
    if sorted == [] then [e]
    else if sorted[0].total < e.total then [e] + sorted
    else [sorted[0]] + Insert(sorted[1..], e)
  }

  /** `.sort(([, a], [, b]) => b - a)`: a stable sort by descending total. */
  function SortDesc(es: seq<Entry>): seq<Entry>
  {
    if es == [] then [] else Insert(SortDesc(es[..|es| - 1]), es[|es| - 1])
  }

  /** `.slice(0, 3)`. */
  function Take(es: seq<Entry>): seq<Entry>
  {
    if |es| <= TopCount then es else es[..TopCount]
  }

  /** `.map(([category]) => category)`. */
  function Labels(es: seq<Entry>): seq<string>
  {
    seq(|es|, i requires 0 <= i < |es| => es[i].category)
  }

  /** The ranking `getTopCategories` returns for `ts`. */
  function TopCategories(ts: seq<Transaction>): seq<string>
  {
    Labels(Take(Ranked(ts)))
  }

  /** `getTopCategories`: the tally is built by a loop that updates the dictionary in place. */
  method GetTopCategories(ts: seq<Transaction>) returns (top: seq<string>)
    ensures top == TopCategories(ts)
    ensures |top| <= TopCount && Distinct(top)
    ensures forall i :: 0 <= i < |top| ==> top[i] != "" && Mentions(ts, top[i])
    ensures forall i, j :: 0 <= i < j < |top| ==> CategoryTotal(ts, top[i]) >= CategoryTotal(ts, top[j])
    ensures forall c :: c != "" && Mentions(ts, c) && c !in top ==>
              |top| == TopCount && forall i :: 0 <= i < |top| ==> CategoryTotal(ts, c) <= CategoryTotal(ts, top[i])
  {
    var order: seq<string> := [];
    var totals: map<string, int> := map[];
    var i := 0;
    while i < |ts|
      invariant 0 <= i <= |ts|
      invariant Tally(order, totals) == TallyOf(ts[..i])
    {
      var t := ts[i];
      assert ts[..i + 1][..i] == ts[..i];
      if t.category.Some? && t.category.value != "" {
        var c := t.category.value;
        if c !in totals {
          order := order + [c];
        }
        totals := totals[c := Lookup(totals, c) + Amount(t)];
      }
      i := i + 1;
    }
    assert ts[..|ts|] == ts;
    top := Labels(Take(SortDesc(Entries(Tally(order, totals)))));
    TopCategoriesWellFormed(ts);
    TopCategoriesOrdered(ts);
    forall c | c != "" && Mentions(ts, c) && c !in top
      ensures |top| == TopCount && forall i :: 0 <= i < |top| ==> CategoryTotal(ts, c) <= CategoryTotal(ts, top[i])
    {
      TopCategoriesMaximal(ts, c);
    }
  }

  /** A list mentions `c` exactly when its prefix does or its last record carries `c`. */
  lemma MentionsLast(ts: seq<Transaction>, c: string)
    requires ts != []
    ensures Mentions(ts, c) <==> Mentions(ts[..|ts| - 1], c) || ts[|ts| - 1].category == Some(c)
  {
    var init, t := ts[..|ts| - 1], ts[|ts| - 1];
    assert ts == init + [t];
    if Mentions(ts, c) {
      var u :| u in ts && u.category == Some(c);
      assert u in init || u == t;
    }
    if Mentions(init, c) {
      var u :| u in init && u.category == Some(c);
      assert u in ts;
    }
  }

  /**
   * The dictionary built over `ts` is well formed, and its keys are exactly the non-empty categories that
   * occur in `ts`.
   */
  lemma {:induction false} TallyOfKeys(ts: seq<Transaction>)
    ensures WellFormed(TallyOf(ts))
    ensures forall c :: c in TallyOf(ts).totals <==> c != "" && Mentions(ts, c)
  {
    if ts != [] {
      var init, t := ts[..|ts| - 1], ts[|ts| - 1];
      TallyOfKeys(init);
      forall c ensures Mentions(ts, c) <==> Mentions(init, c) || t.category == Some(c) {
        MentionsLast(ts, c);
      }
      var before := TallyOf(init);
      if Labelled(t) && t.category.value !in before.totals {
        var o := before.order + [t.category.value];
        forall i, j | 0 <= i < j < |o| ensures o[i] != o[j] {
          if j == |o| - 1 {
            assert o[i] in before.order;
          }
        }
      }
    }
  }

  /** Under each non-empty category the dictionary holds that category's total. */
  lemma {:induction false} TallyOfTotals(ts: seq<Transaction>, c: string)
    requires c != ""
    ensures Lookup(TallyOf(ts).totals, c) == CategoryTotal(ts, c)
  {
    if ts != [] {
      TallyOfTotals(ts[..|ts| - 1], c);
    }
  }

  /** The three facts about the dictionary together. */
  lemma TallyOfSound(ts: seq<Transaction>)
    ensures WellFormed(TallyOf(ts))
    ensures forall c :: c in TallyOf(ts).totals <==> c != "" && Mentions(ts, c)
    ensures forall c :: c != "" ==> Lookup(TallyOf(ts).totals, c) == CategoryTotal(ts, c)
  {
    TallyOfKeys(ts);
    forall c | c != "" ensures Lookup(TallyOf(ts).totals, c) == CategoryTotal(ts, c) {
      TallyOfTotals(ts, c);
    }
  }

  /** Inserting adds exactly `e` to the entries. */
  lemma {:induction false} InsertAdds(s: seq<Entry>, e: Entry)
    ensures multiset(Insert(s, e)) == multiset(s) + multiset{e}
    decreases |s|
  {
    if s != [] && s[0].total >= e.total {
      InsertAdds(s[1..], e);
      assert s == [s[0]] + s[1..];
    }
  }

  /** Inserting an entry under a bound into entries under that bound keeps every entry under it. */
  lemma {:induction false} InsertBelow(s: seq<Entry>, e: Entry, bound: int)
    requires forall k :: 0 <= k < |s| ==> s[k].total <= bound
    requires e.total <= bound
    ensures forall k :: 0 <= k < |Insert(s, e)| ==> Insert(s, e)[k].total <= bound
    decreases |s|
  {
    if s != [] && s[0].total >= e.total {
      InsertBelow(s[1..], e, bound);
    }
  }

  lemma {:induction false} InsertSorted(s: seq<Entry>, e: Entry)
    requires SortedDesc(s)
    ensures SortedDesc(Insert(s, e))
    decreases |s|
  {
    if s != [] && s[0].total >= e.total {
      var rest := Insert(s[1..], e);
      InsertSorted(s[1..], e);
      InsertBelow(s[1..], e, s[0].total);
      var r := [s[0]] + rest;
      forall i, j | 0 <= i < j < |r| ensures r[i].total >= r[j].total {
        assert r[j] == rest[j - 1];
        if i > 0 {
          assert r[i] == rest[i - 1];
        }
      }
    }
  }

  /** Inserting an entry whose label is not `c` into entries none labelled `c` leaves none labelled `c`. */
  lemma {:induction false} InsertAvoids(s: seq<Entry>, e: Entry, c: string)
    requires forall k :: 0 <= k < |s| ==> s[k].category != c
    requires e.category != c
    ensures forall k :: 0 <= k < |Insert(s, e)| ==> Insert(s, e)[k].category != c
    decreases |s|
  {
    if s != [] && s[0].total >= e.total {
      InsertAvoids(s[1..], e, c);
    }
  }

  lemma {:induction false} InsertDistinct(s: seq<Entry>, e: Entry)
    requires DistinctLabels(s)
    requires forall k :: 0 <= k < |s| ==> s[k].category != e.category
    ensures DistinctLabels(Insert(s, e))
    decreases |s|
  {
    if s != [] && s[0].total >= e.total {
      var rest := Insert(s[1..], e);
      InsertDistinct(s[1..], e);
      InsertAvoids(s[1..], e, s[0].category);
      var r := [s[0]] + rest;
      forall i, j | 0 <= i < j < |r| ensures r[i].category != r[j].category {
        assert r[j] == rest[j - 1];
        if i > 0 {
          assert r[i] == rest[i - 1];
        }
      }
    }
  }

  /** The sort returns a permutation of its input, in descending order of totals. */
  lemma {:induction false} SortDescFacts(es: seq<Entry>)
    ensures SortedDesc(SortDesc(es))
    ensures multiset(SortDesc(es)) == multiset(es)
    ensures DistinctLabels(es) ==> DistinctLabels(SortDesc(es))
  {
    if es != [] {
      var init := es[..|es| - 1];
      var e := es[|es| - 1];
      assert es == init + [e];
      SortDescFacts(init);
      var s := SortDesc(init);
      InsertAdds(s, e);
      InsertSorted(s, e);
      if DistinctLabels(es) {
        assert DistinctLabels(init);
        forall k | 0 <= k < |s| ensures s[k].category != e.category {
          assert s[k] in multiset(init);
          var p :| 0 <= p < |init| && init[p] == s[k];
          assert es[p] == s[k];
        }
        InsertDistinct(s, e);
      }
    }
  }

  /** The dictionary's entries in ranking order. */
  function Ranked(ts: seq<Transaction>): seq<Entry>
  {
    SortDesc(Entries(TallyOf(ts)))
  }

  /** The ranked entries are sorted, with distinct labels, each a non-empty occurring category with its total. */
  lemma RankedSound(ts: seq<Transaction>)
    ensures SortedDesc(Ranked(ts)) && DistinctLabels(Ranked(ts))
    ensures forall k :: 0 <= k < |Ranked(ts)| ==>
              && Ranked(ts)[k].category != ""
              && Mentions(ts, Ranked(ts)[k].category)
              && Ranked(ts)[k].total == CategoryTotal(ts, Ranked(ts)[k].category)
  {
    var tl := TallyOf(ts);
    var es := Entries(tl);
    TallyOfSound(ts);
    assert DistinctLabels(es);
    SortDescFacts(es);
    var ss := Ranked(ts);
    forall k | 0 <= k < |ss|
      ensures ss[k].category in tl.totals && ss[k].total == CategoryTotal(ts, ss[k].category)
    {
      assert ss[k] in multiset(es);
    }
  }

  /** Every non-empty category that occurs in `ts` has an entry in the ranking. */
  lemma RankedComplete(ts: seq<Transaction>, c: string)
    requires c != "" && Mentions(ts, c)
    ensures exists k :: 0 <= k < |Ranked(ts)| && Ranked(ts)[k].category == c
  {
    var tl := TallyOf(ts);
    var es := Entries(tl);
    TallyOfSound(ts);
    SortDescFacts(es);
    var ss := Ranked(ts);
    assert c in tl.order;
    var p :| 0 <= p < |tl.order| && tl.order[p] == c;
    assert es[p] in multiset(ss);
    var k :| 0 <= k < |ss| && ss[k] == es[p];
  }

  /** At most three distinct labels, each a non-empty category occurring in the input. */
  lemma TopCategoriesWellFormed(ts: seq<Transaction>)
    ensures |TopCategories(ts)| <= TopCount
    ensures Distinct(TopCategories(ts))
    ensures forall i :: 0 <= i < |TopCategories(ts)| ==> TopCategories(ts)[i] != "" && Mentions(ts, TopCategories(ts)[i])
  {
    RankedSound(ts);
  }

  /** The labels come in non-increasing order of their category totals. */
  lemma TopCategoriesOrdered(ts: seq<Transaction>)
    ensures forall i, j :: 0 <= i < j < |TopCategories(ts)| ==>
              CategoryTotal(ts, TopCategories(ts)[i]) >= CategoryTotal(ts, TopCategories(ts)[j])
  {
    RankedSound(ts);
    var ss := Ranked(ts);
    var top := TopCategories(ts);
    forall i, j | 0 <= i < j < |top| ensures CategoryTotal(ts, top[i]) >= CategoryTotal(ts, top[j]) {
      assert top[i] == ss[i].category && top[j] == ss[j].category;
    }
  }

  /**
   * Every occurring category that is left out totals no more than each returned one, and is left out
   * only when three labels were returned.
   */
  lemma TopCategoriesMaximal(ts: seq<Transaction>, c: string)
    requires c != "" && Mentions(ts, c) && c !in TopCategories(ts)
    ensures |TopCategories(ts)| == TopCount
    ensures forall i :: 0 <= i < TopCount ==> CategoryTotal(ts, c) <= CategoryTotal(ts, TopCategories(ts)[i])
  {
    RankedSound(ts);
    RankedComplete(ts, c);
    var ss := Ranked(ts);
    var top := TopCategories(ts);
    var k :| 0 <= k < |ss| && ss[k].category == c;
    assert forall i :: 0 <= i < |top| ==> top[i] == ss[i].category && top[i] != c;
    assert k >= |top|;
    assert |top| == if |ss| <= TopCount then |ss| else TopCount;
    forall i | 0 <= i < TopCount ensures CategoryTotal(ts, c) <= CategoryTotal(ts, top[i]) {
      assert top[i] == ss[i].category;
    }
  }
}
