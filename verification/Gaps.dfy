/** The discarded observations of a Daemon, made explicit as merged ranges of sequences. */
module Gaps {

  datatype Gap = Gap(first: nat, last: nat, dropped: nat, firstAt: int, lastAt: int) {
    predicate Counted() { 1 <= first <= last && dropped == last - first + 1 }

    /** What the wire contract accepts: a counted range whose interval is not reversed. */
    predicate Valid() { Counted() && firstAt <= lastAt }
  }

  function Last(gaps: seq<Gap>): Gap
    requires gaps != []
  {
    gaps[|gaps| - 1]
  }

  function Front(gaps: seq<Gap>): seq<Gap>
    requires gaps != []
  {
    gaps[..|gaps| - 1]
  }

  predicate Within(g: Gap, q: nat) { g.first <= q <= g.last }

  predicate Covered(gaps: seq<Gap>, q: nat) { gaps != [] && (Within(Last(gaps), q) || Covered(Front(gaps), q)) }

  predicate AllCounted(gaps: seq<Gap>) { gaps != [] ==> Last(gaps).Counted() && AllCounted(Front(gaps)) }

  /** Every range lies below a bound: the one read off the last of a sorted list. */
  predicate Below(gaps: seq<Gap>, bound: nat) { gaps != [] ==> Last(gaps).last < bound }

  /** Sorted, disjoint and not even adjacent, so each sequence has one place at most. */
  predicate Normal(gaps: seq<Gap>) {
    gaps != [] ==> Normal(Front(gaps)) && Last(gaps).Counted() && Below(Front(gaps), Last(gaps).first - 1)
  }

  predicate Ascending(gaps: seq<Gap>) {
    gaps != [] ==> Ascending(Front(gaps)) && (Front(gaps) != [] ==> Last(Front(gaps)).first <= Last(gaps).first)
  }

  lemma Appended(gaps: seq<Gap>, g: Gap)
    ensures Last(gaps + [g]) == g && Front(gaps + [g]) == gaps
  {
  }

  lemma {:induction false} NormalRangesAreApart(gaps: seq<Gap>, i: nat, j: nat)
    requires Normal(gaps) && i < j < |gaps|
    ensures 1 <= gaps[i].first <= gaps[i].last && gaps[i].last + 1 < gaps[j].first <= gaps[j].last
    decreases |gaps|
  {
    if j < |gaps| - 1 {
      NormalRangesAreApart(Front(gaps), i, j);
    } else if i < j - 1 {
      NormalRangesAreApart(Front(gaps), i, j - 1);
    }
  }

  lemma {:induction false} CoveredAreBelow(gaps: seq<Gap>, bound: nat, q: nat)
    requires Normal(gaps) && Below(gaps, bound) && Covered(gaps, q)
    ensures 1 <= q < bound
    decreases |gaps|
  {
    if !Within(Last(gaps), q) {
      CoveredAreBelow(Front(gaps), Last(gaps).first - 1, q);
    }
  }

  lemma {:induction false} NormalIsAscending(gaps: seq<Gap>)
    requires Normal(gaps)
    ensures Ascending(gaps) && AllCounted(gaps)
    decreases |gaps|
  {
    if gaps != [] {
      NormalIsAscending(Front(gaps));
    }
  }

  /** The later of two ranges that touch or overlap, poured into the earlier. */
  function Merged(earlier: Gap, later: Gap): Gap
    requires earlier.Counted()
  {
    var last := if later.last > earlier.last then later.last else earlier.last;
    Gap(earlier.first, last, last - earlier.first + 1, earlier.firstAt,
        if later.last > earlier.last then later.lastAt else earlier.lastAt)
  }

  /** A range added above every other one: what adding amounts to while gaps stay normal. */
  function Extended(gaps: seq<Gap>, g: Gap): seq<Gap>
    requires gaps != [] ==> Last(gaps).Counted()
  {
    if gaps == [] || Last(gaps).last + 1 < g.first then gaps + [g] else Front(gaps) + [Merged(Last(gaps), g)]
  }

  /** Normal again, and covering exactly that much more. */
  lemma Extending(gaps: seq<Gap>, g: Gap)
    requires Normal(gaps) && g.Counted() && (gaps != [] ==> Last(gaps).first <= g.first)
    ensures Extended(gaps, g) != []
    ensures Normal(Extended(gaps, g)) && Last(Extended(gaps, g)).first <= g.first
    ensures forall q :: Covered(Extended(gaps, g), q) <==> Covered(gaps, q) || Within(g, q)
  {
    if gaps == [] || Last(gaps).last + 1 < g.first {
      Appended(gaps, g);
    } else {
      Appended(Front(gaps), Merged(Last(gaps), g));
    }
  }

  // ---- The order sort.Slice puts gaps in; among gaps of one first sequence any order would do

  function Inserted(sorted: seq<Gap>, g: Gap): seq<Gap> {
    if sorted == [] || Last(sorted).first <= g.first then sorted + [g]
    else Inserted(Front(sorted), g) + [Last(sorted)]
  }

  function SortedByFirst(gaps: seq<Gap>): seq<Gap> {
    if gaps == [] then [] else Inserted(SortedByFirst(Front(gaps)), Last(gaps))
  }

  lemma {:induction false} Insertion(sorted: seq<Gap>, g: Gap)
    requires Ascending(sorted) && AllCounted(sorted) && g.Counted()
    ensures Inserted(sorted, g) != []
    ensures Ascending(Inserted(sorted, g)) && AllCounted(Inserted(sorted, g))
    ensures Last(Inserted(sorted, g)).first == g.first || (sorted != [] && Last(Inserted(sorted, g)) == Last(sorted))
    ensures forall q :: Covered(Inserted(sorted, g), q) <==> Covered(sorted, q) || Within(g, q)
    decreases |sorted|
  {
    if sorted == [] || Last(sorted).first <= g.first {
      Appended(sorted, g);
    } else {
      Insertion(Front(sorted), g);
      Appended(Inserted(Front(sorted), g), Last(sorted));
    }
  }

  lemma {:induction false} Sorting(gaps: seq<Gap>)
    requires AllCounted(gaps)
    ensures Ascending(SortedByFirst(gaps)) && AllCounted(SortedByFirst(gaps))
    ensures forall q :: Covered(SortedByFirst(gaps), q) <==> Covered(gaps, q)
    decreases |gaps|
  {
    if gaps != [] {
      Sorting(Front(gaps));
      Insertion(SortedByFirst(Front(gaps)), Last(gaps));
    }
  }

  lemma InsertedOnTop(gaps: seq<Gap>)
    requires gaps != [] && (Front(gaps) != [] ==> Last(Front(gaps)).first <= Last(gaps).first)
    ensures Inserted(Front(gaps), Last(gaps)) == gaps
  {
    assert Front(gaps) + [Last(gaps)] == gaps;
  }

  lemma {:induction false} SortingASortedList(gaps: seq<Gap>)
    requires Ascending(gaps)
    ensures SortedByFirst(gaps) == gaps
    decreases |gaps|
  {
    if gaps != [] {
      SortingASortedList(Front(gaps));
      InsertedOnTop(gaps);
    }
  }

  // ---- The merging pass

  /** Every range added in turn. */
  function Folded(sorted: seq<Gap>): (r: seq<Gap>)
    requires Ascending(sorted) && AllCounted(sorted)
    ensures Normal(r)
    ensures sorted != [] ==> r != [] && Last(r).first <= Last(sorted).first
    ensures forall q :: Covered(r, q) <==> Covered(sorted, q)
  {
    if sorted == [] then []
    else
      Extending(Folded(Front(sorted)), Last(sorted));
      Extended(Folded(Front(sorted)), Last(sorted))
  }

  lemma {:induction false} FoldingNormalGaps(gaps: seq<Gap>)
    requires Normal(gaps) && Ascending(gaps) && AllCounted(gaps)
    ensures Folded(gaps) == gaps
    decreases |gaps|
  {
    if gaps != [] {
      FoldingNormalGaps(Front(gaps));
      assert Front(gaps) + [Last(gaps)] == gaps;
    }
  }

  lemma OneMoreFolded(sorted: seq<Gap>, n: nat)
    requires Ascending(sorted) && AllCounted(sorted) && n < |sorted|
    ensures Ascending(sorted[..n]) && AllCounted(sorted[..n]) && Ascending(sorted[..n + 1]) && AllCounted(sorted[..n + 1])
    ensures Folded(sorted[..n]) != [] ==> Last(Folded(sorted[..n])).Counted()
    ensures Folded(sorted[..n + 1]) == Extended(Folded(sorted[..n]), sorted[n])
  {
    PrefixOfSorted(sorted, n);
    PrefixOfSorted(sorted, n + 1);
    assert Front(sorted[..n + 1]) == sorted[..n] && Last(sorted[..n + 1]) == sorted[n];
  }

  /** A range apart from the last one is added after it; any other is poured into it. */
  method Pour(merged: seq<Gap>, gap: Gap) returns (r: seq<Gap>)
    requires merged != [] ==> Last(merged).Counted()
    ensures r == Extended(merged, gap)
  {
    if |merged| == 0 || merged[|merged| - 1].last + 1 < gap.first {
      return merged + [gap];
    }
    var last := merged[|merged| - 1];
    if gap.last > last.last {
      last := last.(last := gap.last, lastAt := gap.lastAt);
    }
    last := last.(dropped := last.last - last.first + 1);
    r := merged[..|merged| - 1] + [last];
  }

  /** One sweep over ranges in the order of their first sequence. */
  method Merge(sorted: seq<Gap>) returns (merged: seq<Gap>)
    requires Ascending(sorted) && AllCounted(sorted)
    ensures merged == Folded(sorted)
  {
    merged := [];
    for n := 0 to |sorted|
      invariant Ascending(sorted[..n]) && AllCounted(sorted[..n])
      invariant merged == Folded(sorted[..n])
    {
      OneMoreFolded(sorted, n);
      merged := Pour(merged, sorted[n]);
    }
    assert sorted[..|sorted|] == sorted;
  }

  lemma {:induction false} PrefixOfSorted(gaps: seq<Gap>, n: nat)
    requires Ascending(gaps) && AllCounted(gaps) && n <= |gaps|
    ensures Ascending(gaps[..n]) && AllCounted(gaps[..n])
    decreases |gaps|
  {
    if n < |gaps| {
      PrefixOfSorted(Front(gaps), n);
      assert Front(gaps)[..n] == gaps[..n];
    } else {
      assert gaps[..n] == gaps;
    }
  }

  /**
   * addGap: whatever it is given, the ranges come out normal and cover exactly what they covered
   * and the new one; above normal ranges it is the simple extension of the list.
   */
  method AddGap(gaps: seq<Gap>, g: Gap) returns (merged: seq<Gap>)
    requires AllCounted(gaps) && g.Counted()
    ensures Normal(merged)
    ensures forall q :: Covered(merged, q) <==> Covered(gaps, q) || Within(g, q)
    ensures Normal(gaps) && Below(gaps, g.first) ==> merged == Extended(gaps, g)
  {
    var appended := gaps + [g];
    Appended(gaps, g);
    Sorting(appended);
    merged := Merge(SortedByFirst(appended));
    if Normal(gaps) && Below(gaps, g.first) {
      NormalIsAscending(gaps);
      SortingASortedList(appended);
      FoldingNormalGaps(gaps);
    }
  }

  // ---- The observed interval of a merged range

  predicate AllValid(gaps: seq<Gap>) { gaps != [] ==> Last(gaps).Valid() && AllValid(Front(gaps)) }

  /**
   * The interval of a merged range is the first instant of its oldest part and the last of its
   * newest, so one range added above valid ones leaves them all valid exactly when it does not
   * touch the last of them or was not observed before that one began.
   */
  lemma ExtendingStaysValidIff(gaps: seq<Gap>, g: Gap)
    requires Normal(gaps) && AllValid(gaps) && g.Valid() && Below(gaps, g.first)
    ensures AllValid(Extended(gaps, g)) <==> gaps == [] || Last(gaps).last + 1 < g.first || Last(gaps).firstAt <= g.lastAt
  {
    if gaps == [] || Last(gaps).last + 1 < g.first {
      Appended(gaps, g);
    } else {
      Appended(Front(gaps), Merged(Last(gaps), g));
    }
  }

  /** Two neighbouring observations, the clock having stepped back between them. */
  lemma AClockSteppingBackReversesAnInterval()
    ensures var earlier, later := Gap(1, 1, 1, 10, 10), Gap(2, 2, 1, 5, 5);
            earlier.Valid() && later.Valid() && Extended([earlier], later) == [Gap(1, 2, 2, 10, 5)] && !AllValid(Extended([earlier], later))
  {
    assert Last([Gap(1, 2, 2, 10, 5)]) == Gap(1, 2, 2, 10, 5);
  }
}
