/** The appointment store behind the calendar screen
    (src/components/AppointmentsCalendar.tsx): status lists, the date-sorted
    upcoming list, selection by calendar day, and cancellation. */
module Calendar {
  import opened Wrappers
  import opened Seqs

  /** A calendar day. Time of day and time zone play no part in it. */
  datatype Day = Day(year: int, month: int, day: int)

  /** Chronological order on days: year, then month, then day of month. */
  predicate DayLe(a: Day, b: Day) {
    || a.year < b.year
    || (a.year == b.year && a.month < b.month)
    || (a.year == b.year && a.month == b.month && a.day <= b.day)
  }

  /** `DayLe` is a total order, so sorting by it is well defined. */
  lemma DayLeIsTotalOrder(a: Day, b: Day, c: Day)
    ensures DayLe(a, a)
    ensures DayLe(a, b) || DayLe(b, a)
    ensures DayLe(a, b) && DayLe(b, a) ==> a == b
    ensures DayLe(a, b) && DayLe(b, c) ==> DayLe(a, c)
  {
  }

  datatype Status = Upcoming | Completed | Cancelled

  /** A booked session. The professional's name, specialty and avatar are
      copied in when booking, not referenced. `kind` is the session modality,
      the source's `type` field. */
  datatype Appointment = Appointment(
    id: int,
    professional: string,
    specialty: string,
    date: Day,
    time: string,
    kind: string,
    avatar: string,
    status: Status)

  predicate IsUpcoming(a: Appointment) {
    a.status == Upcoming
  }

  predicate IsCompleted(a: Appointment) {
    a.status == Completed
  }

  function DateIs(d: Day): Appointment -> bool {
    (a: Appointment) => a.date == d
  }

  /** The appointments that fall on day `d`, in list order. */
  function OnDay(s: seq<Appointment>, d: Day): seq<Appointment> {
    Filter(s, DateIs(d))
  }

  /** The upcoming appointments in list order, before any sorting. */
  function UpcomingInOrder(s: seq<Appointment>): seq<Appointment> {
    Filter(s, IsUpcoming)
  }

  predicate SortedByDate(s: seq<Appointment>) {
    forall i, j :: 0 <= i < j < |s| ==> DayLe(s[i].date, s[j].date)
  }

  /** Inserts `a` into a date-sorted list, ahead of every entry on the same
      day or later. */
  function Insert(a: Appointment, s: seq<Appointment>): (r: seq<Appointment>)
    requires SortedByDate(s)
    ensures SortedByDate(r)
    ensures multiset(r) == multiset(s) + multiset{a}
  {
    if |s| == 0 || DayLe(a.date, s[0].date) then
      [a] + s
    else
      var rest := Insert(a, s[1..]);
      assert [s[0]] + s[1..] == s;
      assert forall j :: 0 <= j < |rest| ==> DayLe(s[0].date, rest[j].date) by {
        forall j | 0 <= j < |rest|
          ensures DayLe(s[0].date, rest[j].date)
        {
          assert rest[j] in multiset(s[1..]) + multiset{a};
          if rest[j] != a {
            var k :| 0 <= k < |s[1..]| && s[1..][k] == rest[j];
            assert s[k + 1] == rest[j];
          }
        }
      }
      [s[0]] + rest
  }

  /** Inserting `a` adds it in front of the other appointments on its day and
      leaves every other day's list alone. */
  lemma {:induction false} InsertKeepsDayOrder(a: Appointment, s: seq<Appointment>, d: Day)
    requires SortedByDate(s)
    ensures OnDay(Insert(a, s), d) == (if a.date == d then [a] + OnDay(s, d) else OnDay(s, d))
    decreases |s|
  {
    if |s| == 0 || DayLe(a.date, s[0].date) {
      assert ([a] + s)[1..] == s;
    } else {
      var rest := Insert(a, s[1..]);
      InsertKeepsDayOrder(a, s[1..], d);
      assert ([s[0]] + rest)[1..] == rest;
      assert Insert(a, s) == [s[0]] + rest;
      assert OnDay(s, d) == (if s[0].date == d then [s[0]] + OnDay(s[1..], d) else OnDay(s[1..], d));
    }
  }

  /** A stable sort by date, the behaviour of `Array.prototype.sort` with a
      date-difference comparator. */
  function SortByDate(s: seq<Appointment>): (r: seq<Appointment>)
    ensures SortedByDate(r)
    ensures multiset(r) == multiset(s)
  {
    if |s| == 0 then []
    else
      assert [s[0]] + s[1..] == s;
      Insert(s[0], SortByDate(s[1..]))
  }

  /** Sorting is stable: the appointments of any one day keep their list order. */
  lemma {:induction false} SortKeepsDayOrder(s: seq<Appointment>, d: Day)
    ensures OnDay(SortByDate(s), d) == OnDay(s, d)
    decreases |s|
  {
    if |s| > 0 {
      SortKeepsDayOrder(s[1..], d);
      InsertKeepsDayOrder(s[0], SortByDate(s[1..]), d);
    }
  }

  lemma SortKeepsEveryDay(s: seq<Appointment>)
    ensures forall d :: OnDay(SortByDate(s), d) == OnDay(s, d)
  {
    forall d
      ensures OnDay(SortByDate(s), d) == OnDay(s, d)
    {
      SortKeepsDayOrder(s, d);
    }
  }

  /** `upcomingAppointments`: the upcoming appointments, earliest day first,
      same-day appointments in list order. */
  function UpcomingAppointments(s: seq<Appointment>): (r: seq<Appointment>)
    ensures forall x :: x in r ==> x in s && x.status == Upcoming
    ensures SortedByDate(r)
    ensures multiset(r) == multiset(UpcomingInOrder(s))
    ensures forall d :: OnDay(r, d) == OnDay(UpcomingInOrder(s), d)
  {
    var upcoming := UpcomingInOrder(s);
    var r := SortByDate(upcoming);
    SortKeepsEveryDay(upcoming);
    assert forall x :: x in r ==> x in upcoming by {
      forall x | x in r
        ensures x in upcoming
      {
        assert x in multiset(r);
      }
    }
    r
  }

  /** `completedAppointments`: the completed appointments, in list order. */
  function CompletedAppointments(s: seq<Appointment>): (r: seq<Appointment>)
    ensures forall x :: x in r ==> x in s && x.status == Completed
    ensures forall x :: x in s && x.status == Completed ==> x in r
    ensures IsSubsequence(r, s)
  {
    Filter(s, IsCompleted)
  }

  /** `selectedDateAppointments`: nothing when no day is selected, otherwise
      the appointments on the selected day, whatever their status. */
  function SelectedDateAppointments(s: seq<Appointment>, selected: Option<Day>): (r: seq<Appointment>)
    ensures selected.None? ==> r == []
    ensures selected.Some? ==>
      && (forall x :: x in r ==> x in s && x.date == selected.value)
      && (forall x :: x in s && x.date == selected.value ==> x in r)
      && IsSubsequence(r, s)
  {
    match selected
    case None => []
    case Some(d) => OnDay(s, d)
  }

  /** `appointmentDates`: the day of each upcoming appointment, one entry per
      appointment, in list order; these are the days the calendar highlights. */
  function AppointmentDates(s: seq<Appointment>): (r: seq<Day>)
    ensures |r| == |UpcomingInOrder(s)|
    ensures forall i :: 0 <= i < |r| ==> r[i] == UpcomingInOrder(s)[i].date
  {
    var upcoming := UpcomingInOrder(s);
    seq(|upcoming|, i requires 0 <= i < |upcoming| => upcoming[i].date)
  }

  /** A day is highlighted exactly when some upcoming appointment falls on it. */
  lemma HighlightedDays(s: seq<Appointment>, d: Day)
    ensures d in AppointmentDates(s) <==> exists x :: x in s && x.status == Upcoming && x.date == d
  {
    var upcoming := UpcomingInOrder(s);
    if d in AppointmentDates(s) {
      var i :| 0 <= i < |upcoming| && AppointmentDates(s)[i] == d;
      assert upcoming[i] in upcoming;
    }
    if x :| x in s && x.status == Upcoming && x.date == d {
      var i :| 0 <= i < |upcoming| && upcoming[i] == x;
      assert AppointmentDates(s)[i] == d;
    }
  }

  /** `handleCancelAppointment(id)`: marks every appointment with that id
      cancelled, whatever its status was. */
  function CancelAppointment(s: seq<Appointment>, id: int): (r: seq<Appointment>)
    ensures |r| == |s|
    ensures forall i :: 0 <= i < |r| ==>
      && r[i].status == (if s[i].id == id then Cancelled else s[i].status)
      && r[i].(status := s[i].status) == s[i]
  {
    seq(|s|, i requires 0 <= i < |s| => if s[i].id == id then s[i].(status := Cancelled) else s[i])
  }

  /** Cancelling the same id a second time changes nothing more. */
  lemma CancelIsIdempotent(s: seq<Appointment>, id: int)
    ensures CancelAppointment(CancelAppointment(s, id), id) == CancelAppointment(s, id)
  {
    var once := CancelAppointment(s, id);
    var twice := CancelAppointment(once, id);
    forall i | 0 <= i < |s|
      ensures twice[i] == once[i]
    {
      assert once[i].id == s[i].id;
    }
  }

  /** The update does not look at the old status: a completed appointment with
      the given id becomes cancelled too. Only the screen keeps the cancel
      button away from appointments that are not upcoming. */
  lemma CancelOverridesCompleted(s: seq<Appointment>, id: int, i: int)
    requires 0 <= i < |s| && s[i].id == id && s[i].status == Completed
    ensures CancelAppointment(s, id)[i].status == Cancelled
    ensures s[i] !in CompletedAppointments(CancelAppointment(s, id))
  {
    var r := CancelAppointment(s, id);
    forall j | 0 <= j < |r|
      ensures r[j] != s[i]
    {
      if r[j].id == id {
        assert r[j].status == Cancelled;
      }
    }
  }

  /** After cancelling `id`, the upcoming list is the old one without the
      appointments that carry `id`. */
  lemma CancelRemovesFromUpcoming(s: seq<Appointment>, id: int, x: Appointment)
    ensures x in UpcomingInOrder(CancelAppointment(s, id)) <==> x in UpcomingInOrder(s) && x.id != id
  {
    var r := CancelAppointment(s, id);
    if x in UpcomingInOrder(r) {
      var i :| 0 <= i < |r| && r[i] == x;
      assert s[i] == x;
    }
    if x in UpcomingInOrder(s) && x.id != id {
      var i :| 0 <= i < |s| && s[i] == x;
      assert r[i] == x;
    }
  }

  /** The calendar's initial list: the appointments passed in by the caller,
      even an empty list, and the built-in examples only when none are passed. */
  function InitialAppointments(passed: Option<seq<Appointment>>): (r: seq<Appointment>)
    ensures passed.Some? ==> r == passed.value
    ensures passed.None? ==> r == SampleAppointments
  {
    match passed
    case Some(list) => list
    case None => SampleAppointments
  }

  /** An empty list passed in still replaces the four built-in examples. */
  lemma EmptyListReplacesSamples()
    ensures InitialAppointments(Some([])) == []
    ensures |InitialAppointments(None)| == 4
  {
  }

  function AppointmentId(a: Appointment): int {
    a.id
  }

  /** The built-in example appointments (avatar URLs left empty). */
  const Sample1 := Appointment(1, "Dra. María González", "Psicóloga Clínica", Day(2025, 10, 20), "10:00", "Videollamada", "", Upcoming)
  const Sample2 := Appointment(2, "Dr. Carlos Méndez", "Terapeuta Cognitivo", Day(2025, 10, 24), "16:30", "Presencial", "", Upcoming)
  const Sample3 := Appointment(3, "Lic. Ana Martínez", "Psicóloga Infantil", Day(2025, 10, 18), "11:00", "Online", "", Upcoming)
  const Sample4 := Appointment(4, "Dra. María González", "Psicóloga Clínica", Day(2025, 10, 15), "10:00", "Videollamada", "", Completed)

  const SampleAppointments: seq<Appointment> := [Sample1, Sample2, Sample3, Sample4]

  /** Three appointments listed middle, latest, earliest come out earliest,
      middle, latest. */
  lemma SortThree(a: Appointment, b: Appointment, c: Appointment)
    requires !DayLe(a.date, c.date) && !DayLe(b.date, a.date)
    ensures SortByDate([a, b, c]) == [c, a, b]
  {
    var u := [a, b, c];
    assert u[1..] == [b, c] && u[2..] == [c] && u[3..] == [];
    assert SortByDate([c]) == [c];
    assert Insert(b, [c]) == [c, b];
    assert Insert(a, [b]) == [a, b];
    assert Insert(a, [c, b]) == [c, a, b];
  }

  /** Dropping a trailing completed appointment from three upcoming ones. */
  lemma UpcomingOfThreeAndOne(a: Appointment, b: Appointment, c: Appointment, done: Appointment)
    requires a.status == Upcoming && b.status == Upcoming && c.status == Upcoming
    requires done.status == Completed
    ensures UpcomingInOrder([a, b, c, done]) == [a, b, c]
  {
    var s := [a, b, c, done];
    assert s[1..] == [b, c, done] && s[2..] == [c, done] && s[3..] == [done] && s[4..] == [];
    assert Filter(s[3..], IsUpcoming) == [];
    assert Filter(s[2..], IsUpcoming) == [c];
    assert Filter(s[1..], IsUpcoming) == [b, c];
  }

  /** Three upcoming appointments listed middle, latest, earliest, followed by
      one completed appointment, give the upcoming list earliest, middle, latest. */
  lemma UpcomingOfFour(a: Appointment, b: Appointment, c: Appointment, done: Appointment)
    requires a.status == Upcoming && b.status == Upcoming && c.status == Upcoming
    requires done.status == Completed
    requires !DayLe(a.date, c.date) && !DayLe(b.date, a.date)
    ensures UpcomingAppointments([a, b, c, done]) == [c, a, b]
  {
    UpcomingOfThreeAndOne(a, b, c, done);
    SortThree(a, b, c);
  }

  /** On the built-in examples the upcoming list runs ids 3, 1, 2: 18, 20
      and 24 October 2025. */
  lemma SampleUpcomingOrder()
    ensures Map(UpcomingAppointments(SampleAppointments), AppointmentId) == [3, 1, 2]
  {
    UpcomingOfFour(Sample1, Sample2, Sample3, Sample4);
  }

  /** On the built-in examples the completed list holds id 4 alone. */
  lemma SampleCompleted()
    ensures Map(CompletedAppointments(SampleAppointments), AppointmentId) == [4]
  {
    var s := SampleAppointments;
    assert s[3..][1..] == [];
    assert Filter(s[3..], IsCompleted) == [Sample4];
    assert s[2..][1..] == s[3..];
    assert Filter(s[2..], IsCompleted) == [Sample4];
    assert s[1..][1..] == s[2..];
    assert Filter(s[1..], IsCompleted) == [Sample4];
  }
}
