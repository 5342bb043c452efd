/** The values the dashboard derives from the signed-in user's partner list
    on every render: the pledged and confirmed totals, the supporter count,
    the next-steps card (at most four upcoming actions, earliest first, each
    with an action label) and the confirmed contributions that feed the chart. */
module Dashboard {
  import opened Partners
  import opened Lists

  /* ---------------- Totals ---------------- */

  function PledgedOrZero(p: Partner): int { AmountOrZero(p.pledgedAmount) }

  function ConfirmedOrZero(p: Partner): int { AmountOrZero(p.confirmedAmount) }

  /** `ps.reduce((sum, p) => sum + amount(p), 0)`: a left-to-right running sum. */
  function SumOf(ps: seq<Partner>, amount: Partner -> int): int
  {
    if ps == [] then 0 else SumOf(ps[..|ps| - 1], amount) + amount(ps[|ps| - 1])
  }

  /** The running sum is never negative when no amount is. */
  lemma {:induction false} SumOfNonNegative(ps: seq<Partner>, amount: Partner -> int)
    requires forall p :: p in ps ==> amount(p) >= 0
    ensures SumOf(ps, amount) >= 0
  {
    if ps != [] {
      assert forall p :: p in ps[..|ps| - 1] ==> p in ps;
      SumOfNonNegative(ps[..|ps| - 1], amount);
      assert ps[|ps| - 1] in ps;
    }
  }

  /** Total pledged: every partner's pledged amount, a missing one counting 0. */
  function TotalPledged(ps: seq<Partner>): int { SumOf(ps, PledgedOrZero) }

  /** Total support: every partner's confirmed amount, a missing one counting 0. */
  function Support(ps: seq<Partner>): int { SumOf(ps, ConfirmedOrZero) }

  lemma {:induction false} SumOfAppend(a: seq<Partner>, b: seq<Partner>, amount: Partner -> int)
    ensures SumOf(a + b, amount) == SumOf(a, amount) + SumOf(b, amount)
    decreases |b|
  {
    if b == [] {
      assert a + b == a;
    } else {
      SumOfAppend(a, b[..|b| - 1], amount);
      assert (a + b)[..|a + b| - 1] == a + b[..|b| - 1];
    }
  }

  /** Taking one element out of the list takes its amount out of the sum. */
  lemma SumOfRemove(b: seq<Partner>, k: nat, amount: Partner -> int)
    requires k < |b|
    ensures SumOf(b, amount) == SumOf(b[..k] + b[k + 1..], amount) + amount(b[k])
  {
    var front, x, back := b[..k], b[k], b[k + 1..];
    assert b == front + ([x] + back);
    SumOfAppend(front, [x] + back, amount);
    SumOfAppend([x], back, amount);
    assert SumOf([x], amount) == amount(x) by {
      assert [x][..0] == [];
    }
    SumOfAppend(front, back, amount);
  }

  /** Taking the last element off one list and the same element off another
      with the same elements leaves two lists with the same elements. */
  lemma MultisetRemove(a: seq<Partner>, b: seq<Partner>, k: nat)
    requires multiset(a) == multiset(b)
    requires a != [] && k < |b| && b[k] == a[|a| - 1]
    ensures multiset(a[..|a| - 1]) == multiset(b[..k] + b[k + 1..])
  {
    var x := a[|a| - 1];
    var a0, b0 := a[..|a| - 1], b[..k] + b[k + 1..];
    assert multiset(a) == multiset(a0) + multiset{x} by {
      assert a == a0 + [x];
    }
    assert multiset(b) == multiset(b0) + multiset{x} by {
      assert b[..k + 1] == b[..k] + [x];
      assert b == b[..k + 1] + b[k + 1..];
      assert multiset(b0) == multiset(b[..k]) + multiset(b[k + 1..]);
    }
    forall y ensures multiset(a0)[y] == multiset(b0)[y] {
      assert multiset(a)[y] == multiset(b)[y];
    }
  }

  /** The running sum does not depend on the order of the list. */
  lemma {:induction false} SumOfPermutation(a: seq<Partner>, b: seq<Partner>, amount: Partner -> int)
    requires multiset(a) == multiset(b)
    ensures SumOf(a, amount) == SumOf(b, amount)
    decreases |a|
  {
    if a == [] {
      assert |multiset(b)| == 0;
    } else {
      var x := a[|a| - 1];
      assert x in multiset(b) by {
        assert x in a;
      }
      var k :| 0 <= k < |b| && b[k] == x;
      MultisetRemove(a, b, k);
      SumOfPermutation(a[..|a| - 1], b[..k] + b[k + 1..], amount);
      SumOfRemove(b, k, amount);
    }
  }

  /** With no negative amounts, the running sum is at least every single amount. */
  lemma {:induction false} SumOfBoundsEach(ps: seq<Partner>, amount: Partner -> int, i: nat)
    requires i < |ps|
    requires forall p :: p in ps ==> amount(p) >= 0
    ensures 0 <= amount(ps[i]) <= SumOf(ps, amount)
    decreases |ps|
  {
    var init := ps[..|ps| - 1];
    assert forall p :: p in init ==> p in ps;
    if i < |ps| - 1 {
      assert ps[i] == init[i];
      SumOfBoundsEach(init, amount, i);
    } else if init != [] {
      SumOfBoundsEach(init, amount, 0);
    }
  }

  /** Reordering the partner list (as the next-steps sort does) changes
      neither total. */
  lemma TotalsReorder(a: seq<Partner>, b: seq<Partner>)
    requires multiset(a) == multiset(b)
    ensures TotalPledged(a) == TotalPledged(b)
    ensures Support(a) == Support(b)
  {
    SumOfPermutation(a, b, PledgedOrZero);
    SumOfPermutation(a, b, ConfirmedOrZero);
  }

  /** Adding one more partner adds exactly that partner's amounts (0 when absent). */
  lemma TotalsAddPartner(ps: seq<Partner>, p: Partner)
    ensures TotalPledged(ps + [p]) == TotalPledged(ps) + AmountOrZero(p.pledgedAmount)
    ensures Support(ps + [p]) == Support(ps) + AmountOrZero(p.confirmedAmount)
  {
    assert (ps + [p])[..|ps|] == ps;
  }

  /** When no amount is negative, each partner's pledge is part of the pledged total. */
  lemma PledgeWithinTotal(ps: seq<Partner>, i: nat)
    requires i < |ps|
    requires forall p :: p in ps ==> AmountOrZero(p.pledgedAmount) >= 0
    ensures 0 <= AmountOrZero(ps[i].pledgedAmount) <= TotalPledged(ps)
  {
    SumOfBoundsEach(ps, PledgedOrZero, i);
  }

  /* ---------------- Supporters ---------------- */

  predicate HasConfirmedAmount(p: Partner) { p.confirmedAmount.Some? }

  /** `partners.filter(p => p.confirmedAmount != null).length`. */
  function Supporters(ps: seq<Partner>): (n: nat)
    ensures n <= |ps|
  {
    |Filter(ps, HasConfirmedAmount)|
  }

  /** The positions of the records that have a confirmed amount. */
  ghost function ConfirmedPositions(ps: seq<Partner>): set<int>
  {
    set i | 0 <= i < |ps| && ps[i].confirmedAmount.Some?
  }

  lemma ConfirmedPositionsStep(ps: seq<Partner>)
    requires ps != []
    ensures |ConfirmedPositions(ps)| ==
      |ConfirmedPositions(ps[..|ps| - 1])| + (if ps[|ps| - 1].confirmedAmount.Some? then 1 else 0)
  {
    var n := |ps| - 1;
    var before, after := ConfirmedPositions(ps[..n]), ConfirmedPositions(ps);
    assert forall i :: i in before <==> 0 <= i < n && ps[i].confirmedAmount.Some?;
    assert forall i :: i in after <==> (i in before || (i == n && ps[n].confirmedAmount.Some?));
    if ps[n].confirmedAmount.Some? {
      assert after == before + {n};
    } else {
      assert after == before;
    }
  }

  /** The supporter count is the number of records with a confirmed amount
      present, whatever that amount is. */
  lemma {:induction false} SupportersCountsRecords(ps: seq<Partner>)
    ensures Supporters(ps) == |ConfirmedPositions(ps)|
  {
    if ps != [] {
      var init, last := ps[..|ps| - 1], ps[|ps| - 1];
      SupportersCountsRecords(init);
      assert Supporters(ps) == Supporters(init) + (if last.confirmedAmount.Some? then 1 else 0) by {
        assert Filter(ps, HasConfirmedAmount) ==
          Filter(init, HasConfirmedAmount) + (if HasConfirmedAmount(last) then [last] else []);
      }
      ConfirmedPositionsStep(ps);
    }
  }

  lemma SupportersReorder(a: seq<Partner>, b: seq<Partner>)
    requires multiset(a) == multiset(b)
    ensures Supporters(a) == Supporters(b)
  {
    FilterPermutation(a, b, HasConfirmedAmount);
    assert |multiset(Filter(a, HasConfirmedAmount))| == |multiset(Filter(b, HasConfirmedAmount))|;
  }

  /** A partner whose confirmed amount is 0 is still counted as a supporter,
      though it adds nothing to the support total. */
  lemma ZeroConfirmedStillCounts(ps: seq<Partner>, p: Partner)
    requires p.confirmedAmount == Some(0)
    ensures Supporters(ps + [p]) == Supporters(ps) + 1
    ensures Support(ps + [p]) == Support(ps)
  {
    assert (ps + [p])[..|ps|] == ps;
  }

  /* ---------------- The in-place sort ---------------- */

  /** Records in positions below `n` are in the model's date order. */
  ghost predicate SortedBelow(a: array<Partner>, n: int, f: DateField)
    reads a
  {
    forall k, m :: 0 <= k < m < n && m < a.Length ==> DateLe(DateOf(a[k], f), DateOf(a[m], f))
  }

  /** `partners.sort(compare on f)`, as an insertion sort in place. The
      records are only moved: the array holds the same records afterwards,
      and they are in date order with null and invalid dates last. */
  method SortByDate(a: array<Partner>, f: DateField)
    modifies a
    ensures multiset(a[..]) == old(multiset(a[..]))
    ensures SortedByDate(a[..], f)
  {
    var i := 0;
    while i < a.Length
      invariant 0 <= i <= a.Length
      invariant SortedBelow(a, i, f)
      invariant multiset(a[..]) == old(multiset(a[..]))
    {
      InsertBelow(a, i, f);
      i := i + 1;
    }
  }

  /** One step of the insertion sort: moves the record at `i` down past the
      records later than it, so that the first i + 1 records are in order. */
  method InsertBelow(a: array<Partner>, i: nat, f: DateField)
    requires i < a.Length
    requires SortedBelow(a, i, f)
    modifies a
    ensures SortedBelow(a, i + 1, f)
    ensures a[i + 1..] == old(a[i + 1..])
    ensures multiset(a[..]) == old(multiset(a[..]))
  {
    var j := i;
    while j > 0 && !DateLe(DateOf(a[j - 1], f), DateOf(a[j], f))
      invariant 0 <= j <= i
      invariant forall k, m :: 0 <= k < m <= i && k != j && m != j ==> DateLe(DateOf(a[k], f), DateOf(a[m], f))
      invariant forall k, m :: 0 <= k < j < m <= i ==> DateLe(DateOf(a[k], f), DateOf(a[m], f))
      invariant forall m :: j < m <= i ==> DateLe(DateOf(a[j], f), DateOf(a[m], f))
      invariant forall m :: i < m < a.Length ==> a[m] == old(a[m])
      invariant multiset(a[..]) == old(multiset(a[..]))
    {
      Swap(a, j - 1, j);
      j := j - 1;
    }
  }

  method Swap(a: array<Partner>, i: nat, j: nat)
    requires i < j < a.Length
    modifies a
    ensures a[i] == old(a[j]) && a[j] == old(a[i])
    ensures forall m :: 0 <= m < a.Length && m != i && m != j ==> a[m] == old(a[m])
    ensures multiset(a[..]) == old(multiset(a[..]))
  {
    a[i], a[j] := a[j], a[i];
  }

  /** A filtered list keeps the date order of the list it came from. */
  lemma {:induction false} FilterKeepsSortedByDate(s: seq<Partner>, keep: Partner -> bool, f: DateField)
    ensures SortedByDate(s, f) ==> SortedByDate(Filter(s, keep), f)
  {
    if s != [] && SortedByDate(s, f) {
      var init, last := s[..|s| - 1], s[|s| - 1];
      FilterKeepsSortedByDate(init, keep, f);
      var fi := Filter(init, keep);
      var r := Filter(s, keep);
      assert r == fi + (if keep(last) then [last] else []);
      forall i, j | 0 <= i < j < |r|
        ensures DateLe(DateOf(r[i], f), DateOf(r[j], f))
      {
        if j == |fi| {
          assert r[i] in init;
          var k :| 0 <= k < |init| && init[k] == r[i];
          assert s[k] == r[i] && s[|s| - 1] == r[j];
        } else {
          assert r[i] == fi[i] && r[j] == fi[j];
        }
      }
    }
  }

  /* ---------------- Next steps ---------------- */

  /** Kept on the next-steps card: the next-step date is not null (an
      invalid date passes) and the partner has not confirmed. */
  predicate IsNextStep(p: Partner) { !p.nextStepDate.Null? && p.status != Confirmed }

  /** How many next steps the card shows. */
  const NextStepsShown: nat := 4

  /** The partners that qualify for the next-steps card, in list order. */
  function NextStepCandidates(ps: seq<Partner>): seq<Partner>
  {
    Filter(ps, IsNextStep)
  }

  /** `sorted.filter(IsNextStep).slice(0, 4)` on the list after the sort:
      up to four qualifying partners; when the list is in next-step-date
      order they are the earliest ones, earliest first. */
  function NextStepsOf(sorted: seq<Partner>): (steps: seq<Partner>)
    ensures |steps| == if |NextStepCandidates(sorted)| < NextStepsShown then |NextStepCandidates(sorted)| else NextStepsShown
    ensures forall p :: p in steps ==> IsNextStep(p) && p in sorted
    ensures multiset(steps) <= multiset(sorted)
    ensures steps <= NextStepCandidates(sorted)
  {
    var kept := NextStepCandidates(sorted);
    var steps := Prefix(kept, NextStepsShown);
    assert kept == steps + kept[|steps|..];
    assert forall p :: p in steps ==> p in kept;
    FilterCounts(sorted, IsNextStep);
    steps
  }

  /** After the sort, the card shows the earliest qualifying partners,
      earliest first, invalid dates after every day: no qualifying partner
      left off the card comes before one shown. */
  lemma NextStepsAreEarliest(sorted: seq<Partner>)
    requires SortedByDate(sorted, NextStep)
    ensures SortedByDate(NextStepsOf(sorted), NextStep)
    ensures forall i, j :: 0 <= i < |NextStepsOf(sorted)| <= j < |NextStepCandidates(sorted)| ==>
      DateLe(NextStepsOf(sorted)[i].nextStepDate, NextStepCandidates(sorted)[j].nextStepDate)
  {
    var kept := NextStepCandidates(sorted);
    var steps := NextStepsOf(sorted);
    FilterKeepsSortedByDate(sorted, IsNextStep, NextStep);
    assert forall i :: 0 <= i < |steps| ==> steps[i] == kept[i];
  }

  /** The next-steps sort as the source writes it, on an engine that sorts a
      short array by insertion: each record is inserted into the sorted
      prefix by moving it down past the records the comparator places after
      it, stopping at the first record the comparator does not. */
  function InsertByComparator(sorted: seq<Partner>, p: Partner): (r: seq<Partner>)
    ensures |r| == |sorted| + 1
  {
    if sorted == [] then [p]
    else if CompareDates(sorted[|sorted| - 1].nextStepDate, p.nextStepDate) > 0 then
      InsertByComparator(sorted[..|sorted| - 1], p) + [sorted[|sorted| - 1]]
    else sorted + [p]
  }

  /** The whole as-written sort: each record in list order is inserted into
      the records before it. */
  function SortByComparator(s: seq<Partner>): (r: seq<Partner>)
    ensures |r| == |s|
  {
    if s == [] then [] else InsertByComparator(SortByComparator(s[..|s| - 1]), s[|s| - 1])
  }

  lemma {:induction false} InsertByComparatorPermutes(sorted: seq<Partner>, p: Partner)
    ensures multiset(InsertByComparator(sorted, p)) == multiset(sorted) + multiset{p}
  {
    if sorted != [] && CompareDates(sorted[|sorted| - 1].nextStepDate, p.nextStepDate) > 0 {
      InsertByComparatorPermutes(sorted[..|sorted| - 1], p);
      assert sorted == sorted[..|sorted| - 1] + [sorted[|sorted| - 1]];
    }
  }

  /** The as-written sort only moves records. */
  lemma {:induction false} SortByComparatorPermutes(s: seq<Partner>)
    ensures multiset(SortByComparator(s)) == multiset(s)
  {
    if s != [] {
      SortByComparatorPermutes(s[..|s| - 1]);
      InsertByComparatorPermutes(SortByComparator(s[..|s| - 1]), s[|s| - 1]);
      assert s == s[..|s| - 1] + [s[|s| - 1]];
    }
  }

  /** An insertion stops at once when the comparator does not place the
      last sorted record after the new one. */
  lemma InsertStops(sorted: seq<Partner>, p: Partner)
    requires sorted != [] && CompareDates(sorted[|sorted| - 1].nextStepDate, p.nextStepDate) <= 0
    ensures InsertByComparator(sorted, p) == sorted + [p]
  {
  }

  /** The comparator calls a record with a null date equal to both its neighbours,
      so neither insertion moves anything. */
  lemma SortByComparatorKeepsThree(a: Partner, b: Partner, c: Partner)
    requires a.nextStepDate == Day(1) && b.nextStepDate == Null && c.nextStepDate == Day(0)
    ensures SortByComparator([a, b, c]) == [a, b, c]
  {
    assert SortByComparator([a]) == [a] by {
      assert [a][..0] == [];
    }
    assert SortByComparator([a, b]) == [a, b] by {
      assert [a, b][..1] == [a];
      InsertStops([a], b);
    }
    assert [a, b, c][..2] == [a, b];
    InsertStops([a, b], c);
  }

  lemma NextStepCandidatesOfThree(a: Partner, b: Partner, c: Partner)
    requires IsNextStep(a) && !IsNextStep(b) && IsNextStep(c)
    ensures NextStepCandidates([a, b, c]) == [a, c]
  {
    FilterSnoc([], a, IsNextStep);
    assert [] + [a] == [a];
    FilterSnoc([a], b, IsNextStep);
    assert [a] + [b] == [a, b];
    FilterSnoc([a, b], c, IsNextStep);
    assert [a, b] + [c] == [a, b, c];
  }

  /** With the source's comparator a record with a null date between two days
      stops both insertions, so the card can list a later next step before
      an earlier one. */
  lemma {:induction false} ComparatorSortMisordersNextSteps()
    ensures exists s :: !DatedAscending(NextStepsOf(SortByComparator(s)), NextStep)
  {
    var later := Partner("a", "A", None, None, ToAsk, Day(1), None, Null, None, "", false);
    var undated := Partner("b", "B", None, None, ToAsk, Null, None, Null, None, "", false);
    var earlier := Partner("c", "C", None, None, ToAsk, Day(0), None, Null, None, "", false);
    var s := [later, undated, earlier];
    SortByComparatorKeepsThree(later, undated, earlier);
    NextStepCandidatesOfThree(later, undated, earlier);
    var steps := NextStepsOf(SortByComparator(s));
    assert steps == [later, earlier];
    assert !DatedAscending(steps, NextStep) by {
      assert DateOf(steps[0], NextStep).day > DateOf(steps[1], NextStep).day;
    }
  }

  /** The action label shown next to a next step: "To Ask" asks for support,
      "Asked" sends the letter, "Letter Sent" follows up on the letter,
      "Contacted" follows up on the decision, any other status follows up on
      the pledge. */
  function NextStepLabel(s: Status): (text: string)
    ensures text in {"Ask for Support", "Send Letter", "Contact regarding letter",
                      "Follow up regarding decision", "Follow up on pledge"}
    ensures text == "Follow up on pledge" <==> s == Pledged || s == Confirmed || s == Rejected
  {
    match s
    case ToAsk => "Ask for Support"
    case Asked => "Send Letter"
    case LetterSent => "Contact regarding letter"
    case Contacted => "Follow up regarding decision"
    case Pledged | Confirmed | Rejected => "Follow up on pledge"
  }

  /** Each of the four early stages has its own label, so the label names
      the stage; the pledge follow-up is the one label they share with no stage. */
  lemma NextStepLabelNamesStage(s: Status, t: Status)
    requires s in {ToAsk, Asked, LetterSent, Contacted}
    ensures NextStepLabel(s) == NextStepLabel(t) <==> s == t
  {
  }

  /* ---------------- Confirmed contributions ---------------- */

  /** Plotted on the chart: a positive confirmed amount and a confirmation
      date that is not null (an invalid date passes). */
  predicate IsConfirmedContribution(p: Partner)
  {
    p.confirmedAmount.Some? && p.confirmedAmount.value > 0 && !p.confirmedDate.Null?
  }

  /** `partners.filter(IsConfirmedContribution).sort(compare on confirmedDate)`:
      exactly the qualifying partners, each as often as in the input, in
      order of confirmation date with invalid dates last. */
  method ConfirmedContributions(partners: seq<Partner>) returns (contributions: seq<Partner>)
    ensures forall p :: multiset(contributions)[p] ==
                       (if IsConfirmedContribution(p) then multiset(partners)[p] else 0)
    ensures forall p :: p in contributions ==> IsConfirmedContribution(p)
    ensures SortedByDate(contributions, ConfirmedOn)
  {
    var kept := Filter(partners, IsConfirmedContribution);
    FilterCounts(partners, IsConfirmedContribution);
    contributions := SortedCopy(kept, ConfirmedOn);
    assert forall p :: p in contributions ==> p in multiset(kept);
  }

  /** `.sort` applied to the fresh array a `.filter` returned: the same
      records, in date order. */
  method SortedCopy(s: seq<Partner>, f: DateField) returns (r: seq<Partner>)
    ensures multiset(r) == multiset(s)
    ensures SortedByDate(r, f)
  {
    var a := new Partner[|s|](i requires 0 <= i < |s| => s[i]);
    assert a[..] == s;
    SortByDate(a, f);
    r := a[..];
  }

  /** The chart's sum grows by the last partner's confirmed amount exactly
      when that partner is plotted. */
  lemma ChartSumStep(ps: seq<Partner>)
    requires ps != []
    ensures SumOf(Filter(ps, IsConfirmedContribution), ConfirmedOrZero) ==
      SumOf(Filter(ps[..|ps| - 1], IsConfirmedContribution), ConfirmedOrZero) +
      (if IsConfirmedContribution(ps[|ps| - 1]) then ConfirmedOrZero(ps[|ps| - 1]) else 0)
  {
    var last := ps[|ps| - 1];
    var fi := Filter(ps[..|ps| - 1], IsConfirmedContribution);
    var r := Filter(ps, IsConfirmedContribution);
    assert r == fi + (if IsConfirmedContribution(last) then [last] else []);
    if IsConfirmedContribution(last) {
      assert r[..|r| - 1] == fi && r[|r| - 1] == last;
      assert SumOf(r, ConfirmedOrZero) == SumOf(fi, ConfirmedOrZero) + ConfirmedOrZero(last);
    } else {
      assert r == fi;
    }
  }

  /** When no confirmed amount is negative and every positive one has a
      non-null date, the chart's contributions add up to the support total. */
  lemma {:induction false} ChartAddsUpToSupport(ps: seq<Partner>)
    requires forall p :: p in ps ==> AmountOrZero(p.confirmedAmount) >= 0
    requires forall p :: p in ps && AmountOrZero(p.confirmedAmount) > 0 ==> !p.confirmedDate.Null?
    ensures SumOf(Filter(ps, IsConfirmedContribution), ConfirmedOrZero) == Support(ps)
  {
    if ps != [] {
      var init, last := ps[..|ps| - 1], ps[|ps| - 1];
      assert forall p :: p in init ==> p in ps;
      ChartAddsUpToSupport(init);
      ChartSumStep(ps);
      assert Support(ps) == Support(init) + ConfirmedOrZero(last);
      assert IsConfirmedContribution(last) || ConfirmedOrZero(last) == 0 by {
        assert last in ps;
      }
    }
  }

  /* ---------------- One render ---------------- */

  /** Everything the dashboard shows that depends on the partner list. */
  datatype View = View(
    totalPledged: int,
    support: int,
    supporters: nat,
    nextSteps: seq<Partner>,
    confirmed: seq<Partner>
  )

  /** The derivations in source order. The totals and the count are taken
      before the sort; the next-steps sort reorders the list in place, and
      the confirmed list is drawn from the reordered list. */
  method DeriveView(partners: array<Partner>) returns (view: View)
    modifies partners
    ensures multiset(partners[..]) == old(multiset(partners[..]))
    ensures SortedByDate(partners[..], NextStep)
    ensures view.totalPledged == TotalPledged(old(partners[..]))
    ensures view.support == Support(old(partners[..]))
    ensures view.supporters == Supporters(old(partners[..]))
    ensures view.nextSteps == NextStepsOf(partners[..])
    ensures forall p :: multiset(view.confirmed)[p] ==
                       (if IsConfirmedContribution(p) then old(multiset(partners[..]))[p] else 0)
    ensures SortedByDate(view.confirmed, ConfirmedOn)
  {
    var totalPledged := TotalPledged(partners[..]);
    var support := Support(partners[..]);
    var supporters := Supporters(partners[..]);
    SortByDate(partners, NextStep);
    var nextSteps := NextStepsOf(partners[..]);
    var confirmed := ConfirmedContributions(partners[..]);
    view := View(totalPledged, support, supporters, nextSteps, confirmed);
  }
}
