/** The grades page: the subject list and filter, the per-letter distribution, the
    per-subject rows with their shortened labels, the percentage bands, the letter badges, and
    the two date sorts that reorder the filtered list in place. Percentages are taken as the
    integers the page shows. */
module Grades {
  import opened Common
  import opened Types
  import opened Sorting

  predicate Distinct(s: seq<string>) {
    forall i, j :: 0 <= i < j < |s| ==> s[i] != s[j]
  }

  /** `Array.from(new Set(xs))`: every value once, in the order it first occurs. */
  function Unique(xs: seq<string>): (r: seq<string>)
    ensures Distinct(r)
    ensures forall x :: x in r <==> x in xs
    decreases |xs|
  {
    if xs == [] then []
    else
      var p, x := xs[..|xs| - 1], xs[|xs| - 1];
      assert xs == p + [x];
      var u := Unique(p);
      if x in u then u else u + [x]
  }

  /** The order of the result is the order of first occurrence: whenever `r[i]` comes before
      `r[j]`, some `r[i]` occurs in `xs` before any `r[j]` does. */
  lemma {:induction false} UniqueFirstOccurrence(xs: seq<string>)
    ensures forall i, j, q :: 0 <= i < j < |Unique(xs)| && 0 <= q < |xs| && xs[q] == Unique(xs)[j] ==>
      Unique(xs)[i] in xs[..q]
    decreases |xs|
  {
    if xs != [] {
      var p, x := xs[..|xs| - 1], xs[|xs| - 1];
      assert xs == p + [x];
      UniqueFirstOccurrence(p);
      var u, r := Unique(p), Unique(xs);
      forall i, j, q | 0 <= i < j < |r| && 0 <= q < |xs| && xs[q] == r[j]
        ensures r[i] in xs[..q]
      {
        assert r[i] in u;
        if q < |p| {
          assert xs[..q] == p[..q];
          assert p[q] in u;
          assert j < |u| && r[j] == u[j];
        } else {
          assert xs[..q] == p;
        }
      }
    }
  }

  /** A list holding one value, however often, has that value alone as its set. */
  lemma {:induction false} UniqueConstant(xs: seq<string>, s: string)
    requires |xs| > 0 && forall i :: 0 <= i < |xs| ==> xs[i] == s
    ensures Unique(xs) == [s]
    decreases |xs|
  {
    if |xs| > 1 {
      UniqueConstant(xs[..|xs| - 1], s);
    }
  }

  // ---------------------------------------------------------------------------------------
  // Columns and counts

  function Subject(g: Grade): string { g.subject }
  function Letter(g: Grade): string { g.grade }

  /** `grades.map(key)`. */
  function Column(gs: seq<Grade>, key: Grade -> string): (c: seq<string>)
    ensures |c| == |gs| && forall i :: 0 <= i < |gs| ==> c[i] == key(gs[i])
  {
    seq(|gs|, i requires 0 <= i < |gs| => key(gs[i]))
  }

  lemma ColumnSnoc(p: seq<Grade>, g: Grade, key: Grade -> string)
    ensures Column(p + [g], key) == Column(p, key) + [key(g)]
  {
  }

  function KeyIs(key: Grade -> string, k: string): Grade -> bool {
    (g: Grade) => key(g) == k
  }

  lemma CountSnoc(p: seq<Grade>, g: Grade, q: Grade -> bool)
    ensures CountWhere(p + [g], q) == CountWhere(p, q) + (if q(g) then 1 else 0)
  {
    CountConcat(p, [g], q);
    CountCons(g, [], q);
  }

  /** The grades per key, added up over a list of keys. */
  function Tallies(keys: seq<string>, gs: seq<Grade>, key: Grade -> string): nat
    decreases |keys|
  {
    if keys == [] then 0
    else Tallies(keys[..|keys| - 1], gs, key) + CountWhere(gs, KeyIs(key, keys[|keys| - 1]))
  }

  /** One more grade raises the total over distinct keys by one if its key is among them. */
  lemma {:induction false} TalliesSnoc(keys: seq<string>, p: seq<Grade>, g: Grade, key: Grade -> string)
    requires Distinct(keys)
    ensures Tallies(keys, p + [g], key) == Tallies(keys, p, key) + (if key(g) in keys then 1 else 0)
    decreases |keys|
  {
    if keys != [] {
      var ks, k := keys[..|keys| - 1], keys[|keys| - 1];
      assert keys == ks + [k];
      TalliesSnoc(ks, p, g, key);
      CountSnoc(p, g, KeyIs(key, k));
      assert key(g) in keys <==> key(g) in ks || key(g) == k;
      assert key(g) == k ==> key(g) !in ks;
    }
  }

  /** Every grade is counted under exactly one key: the counts over the distinct keys of a
      column add up to the number of grades. */
  lemma {:induction false} TalliesCoverAll(gs: seq<Grade>, key: Grade -> string)
    ensures Tallies(Unique(Column(gs, key)), gs, key) == |gs|
    decreases |gs|
  {
    if gs != [] {
      var p, g := gs[..|gs| - 1], gs[|gs| - 1];
      assert gs == p + [g];
      ColumnSnoc(p, g, key);
      var col := Column(p, key);
      assert Column(gs, key)[..|gs| - 1] == col;
      var u := Unique(col);
      TalliesCoverAll(p, key);
      TalliesSnoc(u, p, g, key);
      if key(g) !in u {
        var ug := u + [key(g)];
        assert ug[..|ug| - 1] == u;
        CountSnoc(p, g, KeyIs(key, key(g)));
        forall x | x in p
          ensures !KeyIs(key, key(g))(x)
        {
          var i :| 0 <= i < |p| && p[i] == x;
          assert col[i] == key(x);
        }
        CountNone(p, KeyIs(key, key(g)));
      }
    }
  }

  // ---------------------------------------------------------------------------------------
  // Subjects and the filter

  /** `subjects`: each subject of the grades once, in order of first appearance. */
  function Subjects(gs: seq<Grade>): (r: seq<string>)
    ensures Distinct(r)
    ensures forall s :: s in r <==> s in Column(gs, Subject)
  {
    Unique(Column(gs, Subject))
  }

  /** `filteredGrades`: every grade for 'all', otherwise the grades of the selected subject,
      in their original order. */
  function FilteredGrades(gs: seq<Grade>, selected: string): (r: seq<Grade>)
    ensures selected == "all" ==> r == gs
    ensures selected != "all" ==> forall g :: g in r <==> g in gs && g.subject == selected
    ensures selected != "all" ==> forall g: Grade :: g.subject == selected ==> multiset(r)[g] == multiset(gs)[g]
    ensures selected != "all" ==> |r| == CountWhere(gs, KeyIs(Subject, selected))
  {
    if selected == "all" then gs
    else
      var q := KeyIs(Subject, selected);
      forall g: Grade | g.subject == selected
        ensures multiset(Filter(gs, q))[g] == multiset(gs)[g]
      {
        FilterMultiset(gs, q, g);
      }
      CountFilter(gs, q);
      Filter(gs, q)
  }

  /** The "Subjects" card shows the number of subjects for 'all' and 1 otherwise. */
  function SubjectsCard(gs: seq<Grade>, selected: string): (n: nat)
    ensures selected != "all" ==> n == 1
    ensures selected == "all" ==> (n == 0 <==> gs == [])
  {
    if selected == "all" then
      assert gs != [] ==> Column(gs, Subject)[0] in Subjects(gs);
      |Subjects(gs)|
    else 1
  }

  /** The card is right: a chosen subject of the list is the one subject of the grades the
      filter keeps, and for 'all' the card counts the subjects of every grade shown. */
  lemma SubjectsCardCounts(gs: seq<Grade>, selected: string)
    requires selected == "all" || selected in Subjects(gs)
    ensures SubjectsCard(gs, selected) == |Subjects(FilteredGrades(gs, selected))|
    ensures selected != "all" ==> Subjects(FilteredGrades(gs, selected)) == [selected]
  {
    if selected != "all" {
      var r := FilteredGrades(gs, selected);
      var i :| 0 <= i < |gs| && Column(gs, Subject)[i] == selected;
      assert gs[i] in r;
      var c := Column(r, Subject);
      forall k | 0 <= k < |c|
        ensures c[k] == selected
      {
        assert r[k] in r;
      }
      UniqueConstant(c, selected);
    }
  }

  // ---------------------------------------------------------------------------------------
  // The letter distribution

  /** One entry of `gradeDistribution`, in `Object.entries` order. */
  datatype Tally = Tally(grade: string, count: nat)

  function Keys(d: seq<Tally>): (ks: seq<string>)
    ensures |ks| == |d| && forall i :: 0 <= i < |d| ==> ks[i] == d[i].grade
  {
    seq(|d|, i requires 0 <= i < |d| => d[i].grade)
  }

  function SumCounts(d: seq<Tally>): nat
    decreases |d|
  {
    if d == [] then 0 else SumCounts(d[..|d| - 1]) + d[|d| - 1].count
  }

  lemma {:induction false} SumCountsUpdate(d: seq<Tally>, i: nat, t: Tally)
    requires i < |d|
    ensures SumCounts(d[i := t]) + d[i].count == SumCounts(d) + t.count
    decreases |d|
  {
    var n := |d| - 1;
    if i < n {
      assert d[i := t][..n] == d[..n][i := t];
      SumCountsUpdate(d[..n], i, t);
    } else {
      assert d[i := t][..n] == d[..n];
    }
  }

  /** The entry for a key, if there is one. */
  function FindKey(d: seq<Tally>, k: string): (i: Option<nat>)
    ensures i.None? ==> k !in Keys(d)
    ensures i.Some? ==> i.value < |d| && d[i.value].grade == k
    decreases |d|
  {
    if d == [] then None
    else if d[0].grade == k then Some(0)
    else match FindKey(d[1..], k)
      case None =>
        assert Keys(d) == [d[0].grade] + Keys(d[1..]);
        None
      case Some(i) => Some(i + 1)
  }

  /** `acc[key] = (acc[key] || 0) + 1`: the entry for the key goes up by one, and a new key
      joins at the end with count 1. */
  function Bump(d: seq<Tally>, k: string): (r: seq<Tally>)
    ensures SumCounts(r) == SumCounts(d) + 1
  {
    match FindKey(d, k)
    case Some(i) =>
      SumCountsUpdate(d, i, Tally(k, d[i].count + 1));
      d[i := Tally(k, d[i].count + 1)]
    case None =>
      var r := d + [Tally(k, 1)];
      assert r[..|r| - 1] == d;
      r
  }

  /** `gradeDistribution`, built by the same left-to-right `reduce`; the counts add up to the
      number of grades shown. */
  function Distribution(gs: seq<Grade>): (d: seq<Tally>)
    ensures SumCounts(d) == |gs|
    decreases |gs|
  {
    if gs == [] then [] else Bump(Distribution(gs[..|gs| - 1]), gs[|gs| - 1].grade)
  }

  /** What one `Bump` does to a tally with distinct keys: the key list grows only by a new
      key, and exactly the entry for that key goes up by one. */
  lemma BumpShape(d: seq<Tally>, x: string)
    requires Distinct(Keys(d))
    ensures x in Keys(d) ==> Keys(Bump(d, x)) == Keys(d)
    ensures x !in Keys(d) ==> Keys(Bump(d, x)) == Keys(d) + [x] && Bump(d, x)[|d|].count == 1
    ensures forall i :: 0 <= i < |d| ==>
      Bump(d, x)[i].count == d[i].count + (if d[i].grade == x then 1 else 0)
  {
    var r := Bump(d, x);
    match FindKey(d, x)
    case Some(k) =>
      assert Keys(d)[k] == x;
      assert Keys(r) == Keys(d);
      forall i | 0 <= i < |d| && i != k
        ensures d[i].grade != x
      {
        assert Keys(d)[i] != Keys(d)[k];
      }
    case None =>
      assert Keys(r) == Keys(d) + [x];
  }

  /** The distribution has one entry per distinct letter, in order of first appearance, and
      each entry counts exactly the grades with that letter. */
  lemma {:induction false} DistributionCounts(gs: seq<Grade>)
    ensures Keys(Distribution(gs)) == Unique(Column(gs, Letter))
    ensures forall i :: 0 <= i < |Distribution(gs)| ==>
      Distribution(gs)[i].count == CountWhere(gs, KeyIs(Letter, Distribution(gs)[i].grade))
    decreases |gs|
  {
    DistributionKeys(gs);
    if gs != [] {
      var p, g := gs[..|gs| - 1], gs[|gs| - 1];
      assert gs == p + [g];
      DistributionCounts(p);
      var d := Distribution(p);
      forall k | 0 <= k < |p|
        ensures p[k].grade in Keys(d)
      {
        assert Column(p, Letter)[k] == p[k].grade;
      }
      BumpCounts(d, p, g);
      assert Distribution(gs) == Bump(d, g.grade);
    }
  }

  /** The keys of the distribution are the distinct letters in order of first appearance. */
  lemma {:induction false} DistributionKeys(gs: seq<Grade>)
    ensures Keys(Distribution(gs)) == Unique(Column(gs, Letter))
    decreases |gs|
  {
    if gs != [] {
      var p, g := gs[..|gs| - 1], gs[|gs| - 1];
      assert gs == p + [g];
      DistributionKeys(p);
      ColumnSnoc(p, g, Letter);
      assert Column(gs, Letter)[..|gs| - 1] == Column(p, Letter);
      BumpShape(Distribution(p), g.grade);
    }
  }

  /** Every entry of `d` counts the grades of `gs` with its letter. */
  predicate CountsMatch(d: seq<Tally>, gs: seq<Grade>) {
    forall i :: 0 <= i < |d| ==> d[i].count == CountWhere(gs, KeyIs(Letter, d[i].grade))
  }

  /** Bumping a matching tally for one more grade gives a matching tally. */
  lemma BumpCounts(d: seq<Tally>, p: seq<Grade>, g: Grade)
    requires Distinct(Keys(d)) && CountsMatch(d, p)
    requires forall k :: 0 <= k < |p| ==> p[k].grade in Keys(d)
    ensures CountsMatch(Bump(d, g.grade), p + [g])
  {
    var x, r := g.grade, Bump(d, g.grade);
    BumpShape(d, x);
    forall i | 0 <= i < |r|
      ensures r[i].count == CountWhere(p + [g], KeyIs(Letter, r[i].grade))
    {
      if x in Keys(d) || i < |d| {
        assert Keys(r)[i] == Keys(d)[i];
        KeyCountSnoc(p, g, d[i].grade);
      } else {
        assert Keys(r)[i] == x;
        KeyCountSnoc(p, g, x);
        NewKeyCount(d, p, x);
      }
    }
  }

  /** One more grade adds one to the count of its own letter and nothing to the others. */
  lemma KeyCountSnoc(p: seq<Grade>, g: Grade, k: string)
    ensures CountWhere(p + [g], KeyIs(Letter, k)) == CountWhere(p, KeyIs(Letter, k)) + (if g.grade == k then 1 else 0)
  {
    CountSnoc(p, g, KeyIs(Letter, k));
    assert KeyIs(Letter, k)(g) == (g.grade == k);
  }

  /** A letter outside the tally's keys occurs in no grade the tally covers. */
  lemma NewKeyCount(d: seq<Tally>, p: seq<Grade>, x: string)
    requires forall k :: 0 <= k < |p| ==> p[k].grade in Keys(d)
    requires x !in Keys(d)
    ensures CountWhere(p, KeyIs(Letter, x)) == 0
  {
    CountNone(p, KeyIs(Letter, x));
  }

  // ---------------------------------------------------------------------------------------
  // Per-subject rows

  /** `subject.length > 15 ? subject.substring(0, 12) + '...' : subject` */
  function ShortLabel(s: string): (r: string)
    ensures |r| <= 15
    ensures |s| <= 15 ==> r == s
    ensures |s| > 15 ==> |r| == 15 && r[..12] == s[..12] && r[12..] == "..."
  {
    if |s| > 15 then s[..12] + "..." else s
  }

  /** Shortening a label that is already short changes nothing. */
  lemma ShortLabelIdempotent(s: string)
    ensures ShortLabel(ShortLabel(s)) == ShortLabel(s)
  {
  }

  /** One bar of the subject chart: its label, the full subject and the number of grades. */
  datatype SubjectRow = SubjectRow(subject: string, fullSubject: string, grades: nat)

  /** A subject's bar: the shortened label, the full name, and how many grades it has. */
  function Row(gs: seq<Grade>, s: string): (r: SubjectRow)
    ensures r.subject == ShortLabel(s) && r.fullSubject == s
    ensures r.grades == CountWhere(gs, KeyIs(Subject, s))
  {
    CountFilter(gs, KeyIs(Subject, s));
    SubjectRow(ShortLabel(s), s, |Filter(gs, KeyIs(Subject, s))|)
  }

  /** `subjects.map(...)`. */
  function Rows(subjects: seq<string>, gs: seq<Grade>): (rows: seq<SubjectRow>)
    ensures |rows| == |subjects|
    ensures forall i :: 0 <= i < |rows| ==> rows[i] == Row(gs, subjects[i])
    decreases |subjects|
  {
    if subjects == [] then []
    else Rows(subjects[..|subjects| - 1], gs) + [Row(gs, subjects[|subjects| - 1])]
  }

  function SubjectPerformance(gs: seq<Grade>): (rows: seq<SubjectRow>)
    ensures |rows| == |Subjects(gs)|
    ensures forall i :: 0 <= i < |rows| ==>
      rows[i].fullSubject == Subjects(gs)[i] && rows[i].grades == CountWhere(gs, KeyIs(Subject, Subjects(gs)[i]))
  {
    Rows(Subjects(gs), gs)
  }

  function RowsTotal(rows: seq<SubjectRow>): nat
    decreases |rows|
  {
    if rows == [] then 0 else RowsTotal(rows[..|rows| - 1]) + rows[|rows| - 1].grades
  }

  lemma {:induction false} RowsTally(subjects: seq<string>, gs: seq<Grade>)
    ensures RowsTotal(Rows(subjects, gs)) == Tallies(subjects, gs, Subject)
    decreases |subjects|
  {
    if subjects != [] {
      var ss, s := subjects[..|subjects| - 1], subjects[|subjects| - 1];
      RowsTally(ss, gs);
      var rows := Rows(subjects, gs);
      assert rows[..|rows| - 1] == Rows(ss, gs);
      CountFilter(gs, KeyIs(Subject, s));
    }
  }

  /** The subject chart has one bar per subject and the bars count every grade exactly once. */
  lemma PerformanceCoversAll(gs: seq<Grade>)
    ensures |SubjectPerformance(gs)| == |Subjects(gs)|
    ensures RowsTotal(SubjectPerformance(gs)) == |gs|
  {
    RowsTally(Subjects(gs), gs);
    TalliesCoverAll(gs, Subject);
  }

  // ---------------------------------------------------------------------------------------
  // Bands and badges

  /** The five bands of `getGradeColor` and `getBgColor` (green, blue, yellow, orange, red). */
  datatype Band = Excellent | Good | Fair | Pass | Poor

  function BandRank(b: Band): nat {
    match b
    case Poor => 0
    case Pass => 1
    case Fair => 2
    case Good => 3
    case Excellent => 4
  }

  /** Cut points 90, 80, 70 and 60, each inclusive. */
  function BandOf(percentage: int): (b: Band)
    ensures b == Excellent <==> percentage >= 90
    ensures b == Good <==> 80 <= percentage < 90
    ensures b == Fair <==> 70 <= percentage < 80
    ensures b == Pass <==> 60 <= percentage < 70
    ensures b == Poor <==> percentage < 60
  {
    if percentage >= 90 then Excellent
    else if percentage >= 80 then Good
    else if percentage >= 70 then Fair
    else if percentage >= 60 then Pass
    else Poor
  }

  /** A higher percentage never lands in a lower band. */
  lemma BandMonotone(p: int, q: int)
    requires p <= q
    ensures BandRank(BandOf(p)) <= BandRank(BandOf(q))
  {
  }

  /** The colour of a letter badge. */
  datatype Badge = Green | Blue | Yellow | Red

  function BadgeOf(letter: string): (b: Badge)
    ensures b == Green <==> letter == "A" || letter == "A+"
    ensures b == Blue <==> letter != "A" && letter != "A+" && ('A' in letter || letter == "B+")
    ensures b == Yellow <==> 'A' !in letter && letter != "B+" && 'B' in letter
    ensures b == Red <==> 'A' !in letter && 'B' !in letter
  {
    if letter == "A" || letter == "A+" then Green
    else if 'A' in letter || letter == "B+" then Blue
    else if 'B' in letter then Yellow
    else Red
  }

  function BadgeRank(b: Badge): nat {
    match b
    case Red => 0
    case Yellow => 1
    case Blue => 2
    case Green => 3
  }

  /** The usual letter scale, best first. */
  const LetterScale: seq<string> := ["A+", "A", "A-", "B+", "B", "B-", "C+", "C", "C-", "D", "F"]

  /** Along the letter scale the badge never gets better as the letter gets worse. */
  lemma BadgeFollowsScale(i: int, j: int)
    requires 0 <= i <= j < |LetterScale|
    ensures BadgeRank(BadgeOf(LetterScale[j])) <= BadgeRank(BadgeOf(LetterScale[i]))
  {
    assert BadgeOf("A+") == Green && BadgeOf("A") == Green;
    assert BadgeOf("A-") == Blue && BadgeOf("B+") == Blue;
    assert BadgeOf("B") == Yellow && BadgeOf("B-") == Yellow;
    assert BadgeOf("C+") == Red && BadgeOf("C") == Red && BadgeOf("C-") == Red;
    assert BadgeOf("D") == Red && BadgeOf("F") == Red;
  }

  // ---------------------------------------------------------------------------------------
  // The two in-place sorts

  /** `new Date(a.date) - new Date(b.date)`: oldest first. */
  function OldestFirst(): (Grade, Grade) -> bool {
    (a: Grade, b: Grade) => a.date <= b.date
  }

  /** `new Date(b.date) - new Date(a.date)`: newest first. */
  function NewestFirst(): (Grade, Grade) -> bool {
    (a: Grade, b: Grade) => b.date <= a.date
  }

  lemma DateOrdersTotal()
    ensures TotalPreorder(OldestFirst()) && TotalPreorder(NewestFirst())
  {
  }

  /** The page over the shared grade list and the subject selector. */
  class GradesView {
    var grades: array<Grade>
    var selectedSubject: string

    constructor (initial: seq<Grade>)
      ensures fresh(grades) && grades[..] == initial && selectedSubject == "all"
    {
      grades := new Grade[|initial|](i requires 0 <= i < |initial| => initial[i]);
      selectedSubject := "all";
    }

    method SelectSubject(subject: string)
      modifies this
      ensures selectedSubject == subject && grades == old(grades)
    {
      selectedSubject := subject;
    }

    /** One render: `progressData` sorts `filteredGrades` oldest first, then the table sorts
        the same array newest first. With 'all' that array is the shared list itself, which is
        left newest first; otherwise `filter` made a copy and the shared list is untouched. */
    method Render() returns (progress: seq<Grade>, table: seq<Grade>)
      modifies grades
      ensures SortedBy(progress, OldestFirst())
      ensures SortedBy(table, NewestFirst())
      ensures multiset(progress) == multiset(FilteredGrades(old(grades[..]), selectedSubject))
      ensures multiset(table) == multiset(FilteredGrades(old(grades[..]), selectedSubject))
      ensures selectedSubject == "all" ==> grades[..] == table
      ensures selectedSubject != "all" ==> grades[..] == old(grades[..])
    {
      DateOrdersTotal();
      var filtered: array<Grade>;
      if selectedSubject == "all" {
        filtered := grades;
      } else {
        var s := FilteredGrades(grades[..], selectedSubject);
        filtered := new Grade[|s|](i requires 0 <= i < |s| => s[i]);
        assert filtered[..] == s;
      }
      InsertionSort(filtered, OldestFirst());
      progress := filtered[..];
      InsertionSort(filtered, NewestFirst());
      table := filtered[..];
    }
  }
}
