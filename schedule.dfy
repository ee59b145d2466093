/** The weekly timetable: which slot is live now, which class sits in a (day, slot) cell, the
    Monday-to-Friday week shown, and moving a week back or forward. Calendar dates are day
    numbers counted from 1 January 1970 (a Thursday); the clock is given as the current day
    name, hour and minute. */
module Schedule {
  import opened Common
  import opened Decimal
  import opened Types

  const DayNames: seq<string> := ["Monday", "Tuesday", "Wednesday", "Thursday", "Friday"]
  const TimeSlots: seq<string> := ["08:00", "09:15", "10:30", "12:30"]

  /** Full weekday names, Monday first: what `format(date, 'EEEE')` gives. */
  const WeekdayNames: seq<string> :=
    ["Monday", "Tuesday", "Wednesday", "Thursday", "Friday", "Saturday", "Sunday"]

  // ---------------------------------------------------------------------------------------
  // Start times

  /** `s.split(sep)`: the pieces between separators, in order; always at least one. */
  function Split(s: string, sep: char): (parts: seq<string>)
    ensures |parts| >= 1
    ensures forall i :: 0 <= i < |parts| ==> sep !in parts[i]
    decreases |s|
  {
    if s == [] then [""]
    else
      var rest := Split(s[1..], sep);
      if s[0] == sep then [""] + rest
      else [[s[0]] + rest[0]] + rest[1..]
  }

  lemma {:induction false} SplitNoSep(a: string, sep: char)
    requires sep !in a
    ensures Split(a, sep) == [a]
    decreases |a|
  {
    if a != [] {
      SplitNoSep(a[1..], sep);
      assert a == [a[0]] + a[1..];
    }
  }

  /** Splitting `a + sep + b`, with no separator in `a` or `b`, gives back `[a, b]`. */
  lemma {:induction false} SplitPair(a: string, b: string, sep: char)
    requires sep !in a && sep !in b
    ensures Split(a + [sep] + b, sep) == [a, b]
    decreases |a|
  {
    if a == [] {
      assert a + [sep] + b == [sep] + b;
      assert ([sep] + b)[1..] == b;
      SplitNoSep(b, sep);
    } else {
      assert (a + [sep] + b)[1..] == a[1..] + [sep] + b;
      SplitPair(a[1..], b, sep);
      assert [a[0]] + a[1..] == a;
    }
  }

  /** `Number(s)` for the strings a start time can hold: digits read as their value, the
      empty string as 0, anything else as NaN (`None`). */
  function ToNumber(s: string): (n: Option<int>)
    ensures AllDigits(s) ==> n == Some(ParseDigits(s))
    ensures !AllDigits(s) ==> n == None
  {
    if AllDigits(s) then Some(ParseDigits(s)) else None
  }

  /** `const [hour, minute] = startTime.split(':').map(Number); hour * 60 + minute`; a
      missing minute or a NaN part makes the whole value NaN. */
  function SlotStart(startTime: string): Option<int> {
    var parts := Split(startTime, ':');
    if |parts| < 2 then None
    else match (ToNumber(parts[0]), ToNumber(parts[1]))
      case (Some(h), Some(m)) => Some(h * 60 + m)
      case _ => None
  }

  /** The text `HH:MM` of an hour and a minute, each zero-padded to two digits. */
  function TimeText(h: nat, m: nat): string {
    PadStart2(NatToString(h)) + ":" + PadStart2(NatToString(m))
  }

  /** Reading a start time back: `"HH:MM"` means `HH * 60 + MM` minutes after midnight. */
  lemma SlotStartOfTimeText(h: nat, m: nat)
    ensures SlotStart(TimeText(h, m)) == Some(h * 60 + m)
  {
    var a, b := PadStart2(NatToString(h)), PadStart2(NatToString(m));
    ParsePadded(h);
    ParsePadded(m);
    NoColonInDigits(a);
    NoColonInDigits(b);
    SplitPair(a, b, ':');
  }

  lemma NoColonInDigits(s: string)
    requires AllDigits(s)
    ensures ':' !in s
  {
    assert forall i :: 0 <= i < |s| ==> s[i] != ':' by {
      forall i | 0 <= i < |s|
        ensures s[i] != ':'
      {
        assert IsDigit(s[i]);
      }
    }
  }

  /** The four slot labels of the timetable are the zero-padded times they name. */
  lemma TimeSlotsAreTimes()
    ensures TimeSlots == [TimeText(8, 0), TimeText(9, 15), TimeText(10, 30), TimeText(12, 30)]
  {
    assert NatToString(0) == "0" && NatToString(8) == "8" && NatToString(9) == "9";
    assert NatToString(1) == "1" && NatToString(2) == "2" && NatToString(3) == "3" && NatToString(5) == "5";
    assert NatToString(15) == "15" && NatToString(10) == "10" && NatToString(30) == "30" && NatToString(12) == "12";
    assert TimeText(8, 0) == "08:00";
    assert TimeText(9, 15) == "09:15";
    assert TimeText(10, 30) == "10:30";
    assert TimeText(12, 30) == "12:30";
  }

  // ---------------------------------------------------------------------------------------
  // The live slot

  /** What the page reads from `new Date()`. */
  datatype Clock = Clock(dayName: string, hour: int, minute: int)

  /** `isCurrentTimeSlot`: the current day, and the current minute inside the hour that
      starts at the slot, both ends included. */
  function IsCurrentTimeSlot(day: string, startTime: string, now: Clock): (r: bool)
    ensures day != now.dayName ==> !r
    ensures r <==> (day == now.dayName && SlotStart(startTime).Some? &&
                    SlotStart(startTime).value <= now.hour * 60 + now.minute <= SlotStart(startTime).value + 60)
  {
    if day != now.dayName then false
    else match SlotStart(startTime)
      case None => false
      case Some(start) =>
        var current := now.hour * 60 + now.minute;
        current >= start && current <= start + 60
  }

  /** A slot at `HH:MM` is live from `HH:MM` through `HH:MM` plus 60 minutes inclusive: 61
      minute readings, and none just before or just after. */
  lemma LiveWindow(day: string, h: nat, m: nat, now: Clock)
    requires day == now.dayName
    ensures IsCurrentTimeSlot(day, TimeText(h, m), now) <==>
      h * 60 + m <= now.hour * 60 + now.minute <= h * 60 + m + 60
  {
    SlotStartOfTimeText(h, m);
  }

  /** Minutes after midnight at which each timetable slot starts. */
  const SlotStartMinutes: seq<int> := [480, 555, 630, 750]

  lemma StartsAt0800() ensures SlotStart("08:00") == Some(480) {}
  lemma StartsAt0915() ensures SlotStart("09:15") == Some(555) {}
  lemma StartsAt1030() ensures SlotStart("10:30") == Some(630) {}
  lemma StartsAt1230() ensures SlotStart("12:30") == Some(750) {}

  /** Every slot label of the timetable reads back as its start minute. */
  lemma SlotStartOf(k: int)
    requires 0 <= k < |TimeSlots|
    ensures SlotStart(TimeSlots[k]) == Some(SlotStartMinutes[k])
  {
    if k == 0 { StartsAt0800(); }
    else if k == 1 { StartsAt0915(); }
    else if k == 2 { StartsAt1030(); }
    else { StartsAt1230(); }
  }

  /** The timetable's slots are more than an hour apart, so at any moment at most one of them
      is live. */
  lemma AtMostOneLiveSlot(day: string, now: Clock, i: int, j: int)
    requires 0 <= i < j < |TimeSlots|
    ensures !(IsCurrentTimeSlot(day, TimeSlots[i], now) && IsCurrentTimeSlot(day, TimeSlots[j], now))
  {
    SlotStartOf(i);
    SlotStartOf(j);
  }

  /** `mockSchedule.find(c => c.day === day && c.startTime === timeSlot)`, as an index. */
  function FindClass(schedule: seq<ClassSchedule>, day: string, timeSlot: string): (k: Option<nat>)
    ensures k.None? <==> forall i :: 0 <= i < |schedule| ==>
      !(schedule[i].day == day && schedule[i].startTime == timeSlot)
    ensures k.Some? ==> (k.value < |schedule| &&
                         schedule[k.value].day == day && schedule[k.value].startTime == timeSlot &&
                         forall i :: 0 <= i < k.value ==> !(schedule[i].day == day && schedule[i].startTime == timeSlot))
  {
    if schedule == [] then None
    else if schedule[0].day == day && schedule[0].startTime == timeSlot then Some(0)
    else match FindClass(schedule[1..], day, timeSlot)
      case None => None
      case Some(k) => Some(k + 1)
  }

  /** `getClassForTimeSlot`: the first class in that cell, if any. */
  function GetClassForTimeSlot(schedule: seq<ClassSchedule>, day: string, timeSlot: string): (c: Option<ClassSchedule>)
    ensures c.None? <==> forall x :: x in schedule ==> !(x.day == day && x.startTime == timeSlot)
    ensures c.Some? ==> c.value in schedule && c.value.day == day && c.value.startTime == timeSlot
  {
    match FindClass(schedule, day, timeSlot)
    case None => None
    case Some(k) => Some(schedule[k])
  }

  /** Adding classes after the list never changes what an occupied cell shows. */
  lemma {:induction false} FirstClassStable(schedule: seq<ClassSchedule>, more: seq<ClassSchedule>, day: string, timeSlot: string)
    requires GetClassForTimeSlot(schedule, day, timeSlot).Some?
    ensures GetClassForTimeSlot(schedule + more, day, timeSlot) == GetClassForTimeSlot(schedule, day, timeSlot)
    ensures FindClass(schedule + more, day, timeSlot) == FindClass(schedule, day, timeSlot)
  {
    var s := schedule;
    if !(s[0].day == day && s[0].startTime == timeSlot) {
      assert (s + more)[1..] == s[1..] + more;
      FirstClassStable(s[1..], more, day, timeSlot);
    }
  }

  /** "Today's Classes": the classes held on the current day, in timetable order. */
  function TodaysClasses(schedule: seq<ClassSchedule>, currentDay: string): (r: seq<ClassSchedule>)
    ensures forall c :: c in r <==> c in schedule && c.day == currentDay
  {
    Filter(schedule, (c: ClassSchedule) => c.day == currentDay)
  }

  /** Every class the grid shows in today's column is listed under today's classes. */
  lemma GridTodayListed(schedule: seq<ClassSchedule>, now: Clock, timeSlot: string)
    requires GetClassForTimeSlot(schedule, now.dayName, timeSlot).Some?
    ensures GetClassForTimeSlot(schedule, now.dayName, timeSlot).value in TodaysClasses(schedule, now.dayName)
  {
  }

  // ---------------------------------------------------------------------------------------
  // The week shown

  /** Monday = 0 ... Sunday = 6; day 0 was a Thursday. */
  function Weekday(d: int): (w: int)
    ensures 0 <= w < 7
  {
    (d + 3) % 7
  }

  /** `startOfWeek(d, { weekStartsOn: 1 })`: the Monday on or before `d`. */
  function WeekStart(d: int): (m: int)
    ensures Weekday(m) == 0
    ensures m <= d < m + 7
  {
    d - Weekday(d)
  }

  /** The five days shown: Monday to Friday of the reference date's week. */
  function WeekDays(d: int): (days: seq<int>)
    ensures |days| == 5
    ensures days[0] == WeekStart(d)
    ensures forall i :: 0 <= i < 5 ==> days[i] == WeekStart(d) + i && Weekday(days[i]) == i
    ensures forall i :: 0 <= i < 5 ==> WeekdayNames[Weekday(days[i])] == DayNames[i]
  {
    var m := WeekStart(d);
    [m, m + 1, m + 2, m + 3, m + 4]
  }

  /** Every day of a week has the same Monday. */
  lemma SameWeek(d: int, k: int)
    requires 0 <= k < 7 - Weekday(d)
    ensures WeekStart(d + k) == WeekStart(d)
  {
  }

  /** Moving the reference date by seven days moves the shown week by exactly one week. */
  lemma WeekStartShift(d: int)
    ensures WeekStart(d + 7) == WeekStart(d) + 7
    ensures WeekStart(d - 7) == WeekStart(d) - 7
  {
    assert Weekday(d + 7) == Weekday(d);
    assert Weekday(d - 7) == Weekday(d);
  }

  datatype Direction = Prev | Next

  /** The page's reference date, changed only by the week arrows. */
  class ScheduleView {
    var currentWeek: int

    constructor (today: int)
      ensures currentWeek == today
    {
      currentWeek := today;
    }

    /** The "Today" button: back to the current date. */
    method GoToToday(today: int)
      modifies this
      ensures currentWeek == today
    {
      currentWeek := today;
    }

    /** `navigateWeek`: seven days forward or back; the week shown moves with it. */
    method NavigateWeek(direction: Direction)
      modifies this
      ensures currentWeek == old(currentWeek) + (if direction == Next then 7 else -7)
      ensures WeekStart(currentWeek) == WeekStart(old(currentWeek)) + (if direction == Next then 7 else -7)
    {
      WeekStartShift(currentWeek);
      currentWeek := currentWeek + (if direction == Next then 7 else -7);
    }
  }
}
