/** The assignments page: a status filter, three sort orders over the shared assignment list,
    the overdue / due-soon badges and the status counts. Dates are milliseconds; `now` is the
    clock reading the page takes. */
module Assignments {
  import opened Common
  import opened Types
  import opened Sorting

  datatype StatusFilter = AllStatuses | PendingOnly | SubmittedOnly | LateOnly

  datatype SortKey = ByDueDate | BySubject | ByPriority

  /** The status a filter other than 'all' selects. */
  function FilterStatus(f: StatusFilter): AssignmentStatus
    requires f != AllStatuses
  {
    match f
    case PendingOnly => Pending
    case SubmittedOnly => Submitted
    case LateOnly => Late
  }

  predicate Shown(f: StatusFilter, a: Assignment) {
    f == AllStatuses || a.status == FilterStatus(f)
  }

  /** The filter step: the whole list for 'all', otherwise the assignments of that status. */
  function Selected(all: seq<Assignment>, f: StatusFilter): (r: seq<Assignment>)
    ensures f == AllStatuses ==> r == all
    ensures forall a :: a in r <==> a in all && Shown(f, a)
    ensures forall a :: Shown(f, a) ==> multiset(r)[a] == multiset(all)[a]
  {
    if f == AllStatuses then all
    else
      var r := Filter(all, (a: Assignment) => Shown(f, a));
      forall a | Shown(f, a)
        ensures multiset(r)[a] == multiset(all)[a]
      {
        FilterMultiset(all, (a: Assignment) => Shown(f, a), a);
      }
      r
  }

  /** `{ high: 3, medium: 2, low: 1 }` */
  function PriorityRank(p: Priority): int {
    match p
    case High => 3
    case Medium => 2
    case Low => 1
  }

  /** `cmp(a, b) <= 0` for the comparator of each sort key: due date ascending, subject in
      string order, priority rank descending. */
  function Le(key: SortKey): (Assignment, Assignment) -> bool {
    match key
    case ByDueDate => (a: Assignment, b: Assignment) => a.dueDate <= b.dueDate
    case BySubject => (a: Assignment, b: Assignment) => StrLe(a.subject, b.subject)
    case ByPriority => (a: Assignment, b: Assignment) => PriorityRank(b.priority) <= PriorityRank(a.priority)
  }

  /** Every comparator is consistent, so the sort's outcome is determined up to ties. */
  lemma LeTotalPreorder(key: SortKey)
    ensures TotalPreorder(Le(key))
  {
    if key == BySubject {
      forall a: Assignment, b: Assignment
        ensures Le(key)(a, b) || Le(key)(b, a)
      {
        StrLeTotal(a.subject, b.subject);
      }
      forall a: Assignment, b: Assignment, c: Assignment | Le(key)(a, b) && Le(key)(b, c)
        ensures Le(key)(a, c)
      {
        StrLeTransitive(a.subject, b.subject, c.subject);
      }
    }
  }

  /** What each sort order guarantees about neighbours in the result: due dates never
      decrease; subjects are in string order; every high-priority assignment comes before
      every medium one, and every medium one before every low one. */
  lemma SortedMeans(s: seq<Assignment>, key: SortKey, i: int, j: int)
    requires SortedBy(s, Le(key)) && 0 <= i < j < |s|
    ensures key == ByDueDate ==> s[i].dueDate <= s[j].dueDate
    ensures key == BySubject ==> StrLe(s[i].subject, s[j].subject)
    ensures key == ByPriority ==> (s[j].priority == High ==> s[i].priority == High)
    ensures key == ByPriority ==> (s[i].priority == Low ==> s[j].priority == Low)
  {
    assert Le(key)(s[i], s[j]);
  }

  /** `getFilteredAssignments`. With 'all', `mockAssignments.sort(...)` reorders the shared
      list itself and returns it; otherwise `filter` made a new array and only that is
      sorted. */
  method GetFilteredAssignments(mock: array<Assignment>, f: StatusFilter, key: SortKey)
    returns (result: array<Assignment>)
    modifies mock
    ensures f == AllStatuses ==> result == mock
    ensures f != AllStatuses ==> fresh(result) && mock[..] == old(mock[..])
    ensures SortedBy(result[..], Le(key))
    ensures multiset(result[..]) == multiset(Selected(old(mock[..]), f))
  {
    LeTotalPreorder(key);
    if f == AllStatuses {
      InsertionSort(mock, Le(key));
      result := mock;
    } else {
      result := SortedCopy(Selected(mock[..], f), Le(key));
    }
  }

  // ---------------------------------------------------------------------------------------
  // Badges

  const DueSoonWindow: int := 3 * MillisPerDay

  /** `isOverdue`: still pending after the due date. */
  function IsOverdue(a: Assignment, now: int): (r: bool)
    ensures r ==> a.status == Pending && a.dueDate < now
    ensures a.status != Pending || now <= a.dueDate ==> !r
  {
    a.status == Pending && now > a.dueDate
  }

  /** Once overdue, a pending assignment stays overdue as the clock moves on. */
  lemma OverdueStays(a: Assignment, now: int, later: int)
    requires now <= later && IsOverdue(a, now)
    ensures IsOverdue(a, later)
  {
  }

  /** `isDueSoon`: pending, due before three days from now, and not yet past due. The two
      badges never show together. */
  function IsDueSoon(a: Assignment, now: int): (r: bool)
    ensures r <==> a.status == Pending && now <= a.dueDate < now + DueSoonWindow
    ensures r ==> !IsOverdue(a, now)
  {
    a.status == Pending && a.dueDate < now + DueSoonWindow && !(now > a.dueDate)
  }

  /** A pending assignment wears exactly one of: overdue, due soon, or neither with at least
      three days to go. */
  lemma PendingBadges(a: Assignment, now: int)
    requires a.status == Pending
    ensures IsOverdue(a, now) || IsDueSoon(a, now) || a.dueDate >= now + DueSoonWindow
    ensures !(IsOverdue(a, now) && IsDueSoon(a, now))
  {
  }

  // ---------------------------------------------------------------------------------------
  // Stats

  predicate IsPending(a: Assignment) { a.status == Pending }
  predicate IsSubmitted(a: Assignment) { a.status == Submitted }
  predicate IsLate(a: Assignment) { a.status == Late }
  predicate IsGraded(a: Assignment) { a.status == Graded }

  datatype Stats = Stats(total: nat, pending: nat, submitted: nat, late: nat)

  function GetStats(all: seq<Assignment>): (st: Stats)
    ensures st.total == |all|
    ensures st.pending + st.submitted + st.late <= st.total
  {
    StatusCountsPartition(all);
    Stats(|all|, CountWhere(all, IsPending), CountWhere(all, IsSubmitted), CountWhere(all, IsLate))
  }

  /** The four statuses partition the list; graded assignments are the ones no counter shows. */
  lemma {:induction false} StatusCountsPartition(s: seq<Assignment>)
    ensures CountWhere(s, IsPending) + CountWhere(s, IsSubmitted) + CountWhere(s, IsLate)
      + CountWhere(s, IsGraded) == |s|
  {
    if s != [] {
      StatusCountsPartition(s[1..]);
    }
  }

  /** Each counter equals the number of rows its filter shows. */
  lemma CountMatchesFilter(all: seq<Assignment>, f: StatusFilter)
    requires f != AllStatuses
    ensures |Selected(all, f)| == CountWhere(all, (a: Assignment) => Shown(f, a))
    ensures f == PendingOnly ==> |Selected(all, f)| == GetStats(all).pending
    ensures f == SubmittedOnly ==> |Selected(all, f)| == GetStats(all).submitted
    ensures f == LateOnly ==> |Selected(all, f)| == GetStats(all).late
  {
    var p := (a: Assignment) => Shown(f, a);
    CountFilter(all, p);
    if f == PendingOnly {
      FilterExt(all, p, IsPending);
      CountFilter(all, IsPending);
    } else if f == SubmittedOnly {
      FilterExt(all, p, IsSubmitted);
      CountFilter(all, IsSubmitted);
    } else {
      FilterExt(all, p, IsLate);
      CountFilter(all, IsLate);
    }
  }
}
