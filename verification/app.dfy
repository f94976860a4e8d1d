/** The application shell (src/App.tsx): which screen is shown, which
    professional is selected, the mobile menu flag, and the appointments list
    that bookings append to. */
module App {
  import opened Wrappers
  import opened Catalog
  import opened Calendar
  import opened Booking

  datatype View = Dashboard | Professionals | CalendarView | ContentView | Profile

  datatype AppState = AppState(
    view: View,
    selected: Option<Professional>,
    menuOpen: bool,
    appointments: seq<Appointment>)

  /** The shell at start-up: dashboard, nothing selected, menu closed, no appointments. */
  const InitialApp: AppState := AppState(Dashboard, None, false, [])

  /** `handleNavigate`: go to a view, dropping the selection and closing the menu. */
  function Navigate(s: AppState, v: View): (r: AppState)
    ensures r.view == v && r.selected.None? && !r.menuOpen
    ensures r.appointments == s.appointments
  {
    AppState(v, None, false, s.appointments)
  }

  /** `handleSelectProfessional`: remember the professional; nothing else changes. */
  function SelectProfessional(s: AppState, p: Professional): (r: AppState)
    ensures r.selected == Some(p)
    ensures r.view == s.view && r.menuOpen == s.menuOpen && r.appointments == s.appointments
  {
    s.(selected := Some(p))
  }

  /** `handleBackToProfessionals`: forget the selection and stay on the same view. */
  function BackToProfessionals(s: AppState): (r: AppState)
    ensures r.selected.None?
    ensures r.view == s.view && r.menuOpen == s.menuOpen && r.appointments == s.appointments
  {
    s.(selected := None)
  }

  /** The menu button flips the mobile menu. */
  function ToggleMenu(s: AppState): (r: AppState)
    ensures r.menuOpen == !s.menuOpen
    ensures r.view == s.view && r.selected == s.selected && r.appointments == s.appointments
  {
    s.(menuOpen := !s.menuOpen)
  }

  /** The record a booking adds: id is the current count plus 100, the
      professional's name, specialty and avatar are copied, and the slot and
      modality come from the request. */
  function NewAppointment(count: nat, req: BookingRequest): (a: Appointment)
    ensures a.id == count + 100 && a.status == Upcoming
    ensures a.professional == req.professional.name && a.specialty == req.professional.specialty
    ensures a.avatar == req.professional.avatar
    ensures a.date == req.date && a.time == req.time && a.kind == req.modality
  {
    Appointment(count + 100, req.professional.name, req.professional.specialty,
                req.date, req.time, req.modality, req.professional.avatar, Upcoming)
  }

  /** `handleBookAppointment`: append the new appointment, drop the selection
      and switch to the calendar. */
  function BookAppointment(s: AppState, req: BookingRequest): (r: AppState)
    ensures |r.appointments| == |s.appointments| + 1
    ensures r.appointments[..|s.appointments|] == s.appointments
    ensures r.appointments[|s.appointments|] == NewAppointment(|s.appointments|, req)
    ensures r.view == CalendarView && r.selected.None? && r.menuOpen == s.menuOpen
  {
    AppState(CalendarView, None, s.menuOpen, s.appointments + [NewAppointment(|s.appointments|, req)])
  }

  datatype AppEvent =
    | GoTo(view: View)
    | Select(professional: Professional)
    | Back
    | Book(request: BookingRequest)
    | MenuButton

  function Step(s: AppState, e: AppEvent): AppState {
    match e
    case GoTo(v) => Navigate(s, v)
    case Select(p) => SelectProfessional(s, p)
    case Back => BackToProfessionals(s)
    case Book(req) => BookAppointment(s, req)
    case MenuButton => ToggleMenu(s)
  }

  function Run(s: AppState, es: seq<AppEvent>): AppState
    decreases |es|
  {
    if |es| == 0 then s else Run(Step(s, es[0]), es[1..])
  }

  /** The i-th appointment has id 100 + i. */
  predicate IdsFrom100(appointments: seq<Appointment>) {
    forall i :: 0 <= i < |appointments| ==> appointments[i].id == 100 + i
  }

  /** Every step keeps the ids numbered 100, 101, ... in list order. */
  lemma {:induction false} RunKeepsIdsFrom100(s: AppState, es: seq<AppEvent>)
    requires IdsFrom100(s.appointments)
    ensures IdsFrom100(Run(s, es).appointments)
    decreases |es|
  {
    if |es| > 0 {
      var next := Step(s, es[0]);
      assert IdsFrom100(next.appointments);
      RunKeepsIdsFrom100(next, es[1..]);
    }
  }

  /** Since only bookings write the list, any sequence of user actions from
      start-up leaves ids 100, 101, ... in order, no two equal. */
  lemma ReachableIdsAreDistinct(es: seq<AppEvent>)
    ensures IdsFrom100(Run(InitialApp, es).appointments)
    ensures var a := Run(InitialApp, es).appointments;
      forall i, j :: 0 <= i < j < |a| ==> a[i].id != a[j].id
  {
    RunKeepsIdsFrom100(InitialApp, es);
  }

  /** What the main area shows. */
  datatype Screen =
    | DashboardScreen
    | ListScreen
    | DetailScreen(professional: Professional)
    | CalendarScreen(appointments: seq<Appointment>)
    | ContentScreen
    | ProfileScreen

  /** The main area: the professionals view shows the detail page while a
      professional is selected and the list otherwise; the calendar is handed
      the shell's appointments. */
  function CurrentScreen(s: AppState): (screen: Screen)
    ensures screen.DetailScreen? <==> s.view == Professionals && s.selected.Some?
    ensures screen.ListScreen? <==> s.view == Professionals && s.selected.None?
    ensures screen.CalendarScreen? <==> s.view == CalendarView
    ensures screen == DashboardScreen <==> s.view == Dashboard
    ensures screen == ContentScreen <==> s.view == ContentView
    ensures screen == ProfileScreen <==> s.view == Profile
    ensures screen.DetailScreen? ==> screen.professional == s.selected.value
    ensures screen.CalendarScreen? ==> screen.appointments == s.appointments
  {
    match s.view
    case Dashboard => DashboardScreen
    case Professionals => if s.selected.Some? then DetailScreen(s.selected.value) else ListScreen
    case CalendarView => CalendarScreen(s.appointments)
    case ContentView => ContentScreen
    case Profile => ProfileScreen
  }

  /** Selecting then going back returns the professionals view to its list. */
  lemma SelectThenBackShowsList(s: AppState, p: Professional)
    requires s.view == Professionals
    ensures CurrentScreen(SelectProfessional(s, p)) == DetailScreen(p)
    ensures CurrentScreen(BackToProfessionals(SelectProfessional(s, p))) == ListScreen
  {
  }

  /** After a booking the calendar opens on the shell's list, not on its
      built-in examples, and the new appointment is among its upcoming ones. */
  lemma BookingShowsInCalendar(s: AppState, req: BookingRequest)
    ensures CurrentScreen(BookAppointment(s, req)) == CalendarScreen(BookAppointment(s, req).appointments)
    ensures InitialAppointments(Some(BookAppointment(s, req).appointments)) == BookAppointment(s, req).appointments
    ensures NewAppointment(|s.appointments|, req) in UpcomingAppointments(BookAppointment(s, req).appointments)
  {
    var r := BookAppointment(s, req);
    var a := NewAppointment(|s.appointments|, req);
    assert r.appointments[|s.appointments|] == a;
    assert a in r.appointments;
    var upcoming := UpcomingAppointments(r.appointments);
    assert a in multiset(UpcomingInOrder(r.appointments));
  }
}
