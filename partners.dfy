/** The partner record shared by the dashboard and the record editor, and the
    date comparison both of the dashboard's sorts use. */
module Partners {

  datatype Option<+T> = None | Some(value: T)

  /** The closed set of relationship stages offered by the editor's status selector. */
  datatype Status = ToAsk | Asked | LetterSent | Contacted | Pledged | Confirmed | Rejected

  /** A date as the application holds it: null, a calendar day, or an
      invalid date. An invalid date is what the date library makes of a null
      or unparsable value; it is written to the store as the text
      "Invalid Date", which is not null. */
  datatype Date = Null | Day(day: int) | Invalid

  /** One tracked supporter relationship. A missing amount is None (the
      store's null). */
  datatype Partner = Partner(
    id: string,
    name: string,
    email: Option<string>,
    number: Option<string>,
    status: Status,
    nextStepDate: Date,
    pledgedAmount: Option<int>,
    confirmedDate: Date,
    confirmedAmount: Option<int>,
    notes: string,
    saved: bool
  )

  /** `amount ?? 0`. */
  function AmountOrZero(a: Option<int>): (n: int)
    ensures a.None? ==> n == 0
    ensures a.Some? ==> n == a.value
  {
    match a
    case None => 0
    case Some(v) => v
  }

  /** Which of a record's two dates a sort orders by. */
  datatype DateField = NextStep | ConfirmedOn

  function DateOf(p: Partner, f: DateField): Date
  {
    match f
    case NextStep => p.nextStepDate
    case ConfirmedOn => p.confirmedDate
  }

  /** The dashboard's sort comparator: -1 when `a` is before `b`, 1 when it is
      after, 0 otherwise. Null and the stored "Invalid Date" text both parse
      to an invalid date, which is neither before nor after anything, so it
      compares 0 with every date. */
  function CompareDates(a: Date, b: Date): (c: int)
    ensures -1 <= c <= 1
    ensures !a.Day? || !b.Day? ==> c == 0
    ensures a.Day? && b.Day? ==> (c < 0 <==> a.day < b.day) && (c > 0 <==> a.day > b.day)
  {
    if a.Day? && b.Day? && a.day < b.day then -1
    else if a.Day? && b.Day? && a.day > b.day then 1
    else 0
  }

  /** Swapping the arguments negates the comparator's answer. */
  lemma CompareDatesAntisymmetric(a: Date, b: Date)
    ensures CompareDates(a, b) == -CompareDates(b, a)
  {
  }

  /** The comparator is not a consistent ordering once null dates are
      involved: it calls 1 and 0 both "equal" to a null date but orders them. */
  lemma {:induction false} CompareDatesNotTransitive()
    ensures exists a, b, c: Date ::
      CompareDates(a, b) == 0 && CompareDates(b, c) == 0 && CompareDates(a, c) != 0
  {
    var a, b, c := Day(1), Null, Day(0);
    assert CompareDates(a, b) == 0 && CompareDates(b, c) == 0 && CompareDates(a, c) == 1;
  }

  /** The total preorder the model sorts by: days before null and invalid
      dates, days in ascending order, null and invalid dates all alike. */
  predicate DateLe(a: Date, b: Date)
  {
    match (a, b)
    case (Day(x), Day(y)) => x <= y
    case (Day(_), _) => true
    case (_, Day(_)) => false
    case (_, _) => true
  }

  /** Between two days the model's order is exactly the comparator's
      "not after"; DateLe is total and transitive. */
  lemma DateLeAgreesWithComparator(a: Date, b: Date)
    ensures a.Day? && b.Day? ==> (DateLe(a, b) <==> CompareDates(a, b) <= 0)
    ensures DateLe(a, b) || DateLe(b, a)
    ensures forall c :: DateLe(a, b) && DateLe(b, c) ==> DateLe(a, c)
  {
  }

  /** Every two records whose `f` dates are both days are in ascending order
      of that day (records without a day may sit anywhere). */
  ghost predicate DatedAscending(s: seq<Partner>, f: DateField)
  {
    forall i, j :: 0 <= i < j < |s| && DateOf(s[i], f).Day? && DateOf(s[j], f).Day? ==>
      DateOf(s[i], f).day <= DateOf(s[j], f).day
  }

  /** Sorted by the model's total preorder on `f`. */
  ghost predicate SortedByDate(s: seq<Partner>, f: DateField)
  {
    forall i, j :: 0 <= i < j < |s| ==> DateLe(DateOf(s[i], f), DateOf(s[j], f))
  }

  lemma SortedIsDatedAscending(s: seq<Partner>, f: DateField)
    requires SortedByDate(s, f)
    ensures DatedAscending(s, f)
    ensures forall i, j :: 0 <= i < j < |s| && !DateOf(s[i], f).Day? ==> !DateOf(s[j], f).Day?
  {
  }
}
