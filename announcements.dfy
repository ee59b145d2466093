/** The announcements board: category and unread filters, newest-first ordering of the shared
    list, marking one announcement as read in place, and the header counts. */
module Announcements {
  import opened Common
  import opened Types
  import opened Sorting

  datatype CategoryFilter = AllCategories | OnlyCategory(category: Category)

  predicate Shown(f: CategoryFilter, showRead: bool, a: Announcement) {
    (f == AllCategories || a.category == f.category) && (showRead || !a.isRead)
  }

  /** The two filter steps: by category unless 'all', then dropping read ones unless
      `showRead`. */
  function Selected(items: seq<Announcement>, f: CategoryFilter, showRead: bool): (r: seq<Announcement>)
    ensures f == AllCategories && showRead ==> r == items
    ensures forall a :: a in r <==> a in items && Shown(f, showRead, a)
    ensures forall a :: Shown(f, showRead, a) ==> multiset(r)[a] == multiset(items)[a]
  {
    var byCategory := if f == AllCategories then items else Filter(items, (a: Announcement) => a.category == f.category);
    var r := if showRead then byCategory else Filter(byCategory, (a: Announcement) => !a.isRead);
    forall a | Shown(f, showRead, a)
      ensures multiset(r)[a] == multiset(items)[a]
    {
      if f != AllCategories {
        FilterMultiset(items, (a: Announcement) => a.category == f.category, a);
      }
      if !showRead {
        FilterMultiset(byCategory, (a: Announcement) => !a.isRead, a);
      }
    }
    r
  }

  /** `cmp(a, b) = date(b) - date(a)`, so `cmp(a, b) <= 0` when `a` is not older than `b`. */
  function NewestFirst(): (Announcement, Announcement) -> bool {
    (a: Announcement, b: Announcement) => b.date <= a.date
  }

  lemma NewestFirstTotalPreorder()
    ensures TotalPreorder(NewestFirst())
  {
  }

  /** `mockAnnouncements.find(a => a.id === id)`, as an index. */
  function FindId(s: seq<Announcement>, id: string): (k: Option<nat>)
    ensures k.None? <==> forall i :: 0 <= i < |s| ==> s[i].id != id
    ensures k.Some? ==> k.value < |s| && s[k.value].id == id && forall i :: 0 <= i < k.value ==> s[i].id != id
  {
    if s == [] then None
    else if s[0].id == id then Some(0)
    else match FindId(s[1..], id)
      case None => None
      case Some(k) => Some(k + 1)
  }

  /** `markAsRead` on the list: the first announcement with that id becomes read; every
      other entry, and every other field of that one, is unchanged. */
  function MarkRead(s: seq<Announcement>, id: string): (r: seq<Announcement>)
    ensures |r| == |s|
    ensures FindId(s, id).None? ==> r == s
    ensures FindId(s, id).Some? ==>
      var k := FindId(s, id).value;
      r[k] == s[k].(isRead := true) && forall i :: 0 <= i < |s| && i != k ==> r[i] == s[i]
  {
    match FindId(s, id)
    case None => s
    case Some(k) => s[k := s[k].(isRead := true)]
  }

  /** Marking the same id twice is the same as marking it once. */
  lemma MarkReadIdempotent(s: seq<Announcement>, id: string)
    ensures MarkRead(MarkRead(s, id), id) == MarkRead(s, id)
  {
    var r := MarkRead(s, id);
    if FindId(s, id).Some? {
      var k := FindId(s, id).value;
      assert forall i :: 0 <= i < k ==> r[i].id != id;
      assert FindId(r, id) == Some(k) by {
        FindIdFirst(r, id, k);
      }
    }
  }

  lemma {:induction false} FindIdFirst(s: seq<Announcement>, id: string, k: nat)
    requires k < |s| && s[k].id == id && forall i :: 0 <= i < k ==> s[i].id != id
    ensures FindId(s, id) == Some(k)
  {
    if k > 0 {
      FindIdFirst(s[1..], id, k - 1);
    }
  }

  predicate IsUnread(a: Announcement) { !a.isRead }

  /** `unreadCount`: the announcements not yet read. */
  function UnreadCount(s: seq<Announcement>): (n: nat)
    ensures n <= |s|
  {
    CountWhere(s, IsUnread)
  }

  lemma {:induction false} CountAfterUpdate(s: seq<Announcement>, k: nat, x: Announcement)
    requires k < |s|
    ensures CountWhere(s[k := x], IsUnread) + (if IsUnread(s[k]) then 1 else 0)
         == CountWhere(s, IsUnread) + (if IsUnread(x) then 1 else 0)
  {
    if k > 0 {
      assert s[k := x][1..] == s[1..][k - 1 := x];
      CountAfterUpdate(s[1..], k - 1, x);
    } else {
      assert s[k := x][1..] == s[1..];
    }
  }

  /** Marking an unread announcement lowers the unread count by exactly one; marking one that
      is already read, or an unknown id, leaves it as it was. */
  lemma MarkReadUnreadCount(s: seq<Announcement>, id: string)
    ensures FindId(s, id).Some? && !s[FindId(s, id).value].isRead ==>
      UnreadCount(MarkRead(s, id)) == UnreadCount(s) - 1
    ensures FindId(s, id).None? || s[FindId(s, id).value].isRead ==>
      UnreadCount(MarkRead(s, id)) == UnreadCount(s)
  {
    if FindId(s, id).Some? {
      var k := FindId(s, id).value;
      CountAfterUpdate(s, k, s[k].(isRead := true));
    }
  }

  // ---------------------------------------------------------------------------------------
  // Header counts

  datatype Stats = Stats(total: nat, unread: nat, highPriority: nat, thisWeek: nat)

  predicate IsHighPriority(a: Announcement) { a.priority == High }

  /** Posted within the last seven days: `date > now - 7 days`. */
  function IsThisWeek(now: int): Announcement -> bool {
    (a: Announcement) => a.date > now - 7 * MillisPerDay
  }

  function GetStats(s: seq<Announcement>, now: int): (st: Stats)
    ensures st.total == |s|
    ensures st.unread <= st.total && st.highPriority <= st.total && st.thisWeek <= st.total
  {
    Stats(|s|, UnreadCount(s), CountWhere(s, IsHighPriority), CountWhere(s, IsThisWeek(now)))
  }

  /** As time passes the "this week" count can only lose announcements that were already
      counted: it never counts an announcement the earlier reading did not. */
  lemma {:induction false} ThisWeekShrinks(s: seq<Announcement>, now: int, later: int)
    requires now <= later
    ensures CountWhere(s, IsThisWeek(later)) <= CountWhere(s, IsThisWeek(now))
  {
    if s != [] {
      ThisWeekShrinks(s[1..], now, later);
    }
  }

  /** The board over the shared announcement list. */
  class Board {
    var items: array<Announcement>

    constructor (initial: seq<Announcement>)
      ensures fresh(items) && items[..] == initial
    {
      items := new Announcement[|initial|](i requires 0 <= i < |initial| => initial[i]);
    }

    /** `getFilteredAnnouncements`. With no filter in force, `sort` reorders the shared list
        itself and returns it; otherwise only the filtered copy is sorted. */
    method GetFilteredAnnouncements(f: CategoryFilter, showRead: bool) returns (result: array<Announcement>)
      modifies items
      ensures f == AllCategories && showRead ==> result == items
      ensures !(f == AllCategories && showRead) ==> fresh(result) && items[..] == old(items[..])
      ensures forall i, j :: 0 <= i < j < result.Length ==> result[i].date >= result[j].date
      ensures multiset(result[..]) == multiset(Selected(old(items[..]), f, showRead))
    {
      NewestFirstTotalPreorder();
      if f == AllCategories && showRead {
        InsertionSort(items, NewestFirst());
        result := items;
      } else {
        result := SortedCopy(Selected(items[..], f, showRead), NewestFirst());
      }
      assert SortedBy(result[..], NewestFirst());
      forall i, j | 0 <= i < j < result.Length
        ensures result[i].date >= result[j].date
      {
        assert NewestFirst()(result[..][i], result[..][j]);
      }
    }

    /** `markAsRead`: find the first entry with the id and set its flag in place. */
    method MarkAsRead(id: string)
      modifies items
      ensures items[..] == MarkRead(old(items[..]), id)
    {
      var i := 0;
      while i < items.Length && items[i].id != id
        invariant 0 <= i <= items.Length
        invariant forall j :: 0 <= j < i ==> items[j].id != id
      {
        i := i + 1;
      }
      if i < items.Length {
        FindIdFirst(items[..], id, i);
        items[i] := items[i].(isRead := true);
      }
    }
  }
}
