# MindCare list logic and booking state, in Dafny

MindCare is a mental-health services front end: users browse a catalogue of
professionals, open a profile, book a session, follow their sessions on a
calendar and browse a content library. Almost all of it is markup over
hard-coded sample data. This project models the small layer of pure logic
under that markup, with immutable records held in sequences and every screen
state passed in and out explicitly:

- `Text`: ASCII lower-casing and `String.prototype.includes`, the search
  predicate shared by every list screen, and the `"all"` wildcard.
- `Seqs`: `Array.prototype.filter` as `Filter`, with the subsequence relation
  it always satisfies.
- `Catalog`: the web catalogue's `Professional` record, its three-way filter
  (search, specialty, modality) and its six sample professionals.
- `MobileCatalog`: the mobile catalogue, whose only input is the search box: the specialty and modality filters exist in its state but no control changes them.
- `Content`: content items, the search-and-category filter, the type tabs,
  the favourites list and the favourite toggle.
- `Calendar`: appointments and their status, the date-sorted upcoming list,
  the completed list, selection by calendar day, the highlighted days,
  cancellation, and the initial list with its four samples.
- `Booking`: the booking dialog's draft, the nine fixed time slots, the
  dialog inputs and the confirm guard that emits a booking request.
- `App`: the shell's view, selection, menu flag and appointments list;
  booking appends with id `count + 100`; which screen the main area shows.
- `Wrappers`: `Option`, for an unset date, no selection or no list passed in.

Dates are calendar days `Day(year, month, day)` in chronological order;
time of day and time zones play no part.

## Model

| member | source | states |
|---|---|---|
| `Text.IncludesIffOccurs` | src/components/ProfessionalsList.tsx:122-123 | the recursive `includes` holds exactly when some contiguous window of the text equals the search term |
| `Text.EmptySearchMatchesAll` | src/components/ProfessionalsList.tsx:122-123 | an empty search term matches every pair of fields |
| `Text.SearchIgnoresCase` | src/components/ProfessionalsList.tsx:122-123 | a search term and its lower-cased form match exactly the same fields |
| `Text.AbsentLetterBlocksMatch` | src/components/ProfessionalsList.tsx:122-123 | a term holding a letter that neither field contains in either case matches neither field |
| `Seqs.Filter` | src/components/ProfessionalsList.tsx:121 | an element is in the result iff it is in the input and passes; the result is an order-preserving subsequence no longer than the input, and is the input itself when every element passes |
| `Seqs.FilterKeepsMultiplicity` | src/components/ProfessionalsList.tsx:121 | each passing element occurs in the result as often as in the input, a failing one not at all, so the result is a sub-multiset of the input |
| `Seqs.FilterMonotone` | src/components/ProfessionalsList.tsx:124-125 | filtering with a stronger predicate yields a subsequence of the weaker predicate's result |
| `Catalog.FilterProfessionals` | src/components/ProfessionalsList.tsx:121-127 | a professional is listed iff the lower-cased search occurs in the lower-cased name or specialty, the specialty is the chosen one or "all" is chosen, and the modality list holds the chosen modality or "all" is chosen; the list is an order-preserving subsequence of the catalogue |
| `Catalog.OpenFiltersKeepAll` | src/components/ProfessionalsList.tsx:121-127 | with search "", specialty "all" and modality "all" the catalogue is returned unchanged |
| `Catalog.ConcreteChoicesAreExact` | src/components/ProfessionalsList.tsx:124-125 | a concrete specialty choice is the specialty of every result; a concrete modality choice is in every result's modality list |
| `Catalog.NarrowingShrinks` | src/components/ProfessionalsList.tsx:124-125 | replacing "all" by a concrete specialty or modality yields a subsequence of the previous result, hence no longer |
| `Catalog.PresencialSample` | src/components/ProfessionalsList.tsx:34-127 | on the six sample professionals, modality "Presencial" with the other filters open lists ids 1, 3, 4, 6 in that order |
| `MobileCatalog.DropDownsStayOpen` | mobile-app/components/ProfessionalsList.tsx:25-27 | after any run of search-box inputs from "all" filters, specialty and modality are still "all" and the search is the text typed last |
| `MobileCatalog.MobileFilter` | mobile-app/components/ProfessionalsList.tsx:60-66 | after any run of inputs, a professional is listed iff the current search matches the name or specialty, as an order-preserving subsequence |
| `MobileCatalog.OnlyLastSearchCounts` | mobile-app/components/ProfessionalsList.tsx:85-89 | the list after a run of inputs equals the list after its last input alone |
| `MobileCatalog.EmptySearchListsSample` | mobile-app/components/ProfessionalsList.tsx:29-66 | before any input (empty search) both sample professionals are listed in source order, ids 1 and 2 |
| `MobileCatalog.CognitivoMatchesCarlos` | mobile-app/components/ProfessionalsList.tsx:44-62 | "cognitivo" occurs in the lower-cased specialty "terapeuta cognitivo" of id 2 |
| `MobileCatalog.CognitivoSample` | mobile-app/components/ProfessionalsList.tsx:29-66 | after typing "cognitivo" only id 2 is listed |
| `Content.FilteredContent` | src/components/ContentLibrary.tsx:110-115 | an item is listed iff the lower-cased search occurs in its lower-cased title or description and the category is "all" or the item's own, as an order-preserving subsequence |
| `Content.OpenQueryKeepsAll` | src/components/ContentLibrary.tsx:110-115 | with search "" and category "all" the whole library is listed unchanged |
| `Content.ToggleFavorite` | src/components/ContentLibrary.tsx:117-121 | length and order are kept; items with the id have their favourite flag flipped, all other items and every other field are unchanged |
| `Content.ToggleTwiceRestores` | src/components/ContentLibrary.tsx:117-121 | toggling the same id twice gives back the original library |
| `Content.ToggleUnknownIdIsNoop` | src/components/ContentLibrary.tsx:117-121 | toggling an id no item carries leaves the library unchanged |
| `Content.FilterByType` | src/components/ContentLibrary.tsx:141-144 | "all" returns the filtered list itself; a concrete type keeps exactly the filtered items of that type, in order |
| `Content.TypeTabsPartition` | src/components/ContentLibrary.tsx:141-144 | the lengths of `filterByType` over the four types add up to the length of the filtered list |
| `Content.VisibleTabsMissExercises` | src/components/ContentLibrary.tsx:187-200 | the article, video and podcast tab counts add up to the "all" count iff the filtered list holds no exercise |
| `Content.Favorites` | src/components/ContentLibrary.tsx:146 | the favourites are exactly the favourite items of the whole, unfiltered library, in order |
| `Calendar.DayLeIsTotalOrder` | src/components/AppointmentsCalendar.tsx:87 | day order is reflexive, total, antisymmetric and transitive |
| `Calendar.Insert` | src/components/AppointmentsCalendar.tsx:87 | inserting into a date-sorted list keeps it sorted and adds exactly the one element |
| `Calendar.SortByDate` | src/components/AppointmentsCalendar.tsx:87 | the result is sorted by day and a permutation of the input |
| `Calendar.SortKeepsDayOrder` | src/components/AppointmentsCalendar.tsx:87 | the sort is stable: the appointments of any one day keep their relative order |
| `Calendar.UpcomingAppointments` | src/components/AppointmentsCalendar.tsx:85-87 | every element is upcoming, the list is sorted by day, it is a permutation of the upcoming subsequence, and same-day appointments keep list order |
| `Calendar.CompletedAppointments` | src/components/AppointmentsCalendar.tsx:89 | exactly the completed appointments, in list order |
| `Calendar.SelectedDateAppointments` | src/components/AppointmentsCalendar.tsx:79-83 | empty when no day is selected; otherwise exactly the appointments on that day, of any status, in list order |
| `Calendar.AppointmentDates` | src/components/AppointmentsCalendar.tsx:75-77 | one day per upcoming appointment, in list order |
| `Calendar.HighlightedDays` | src/components/AppointmentsCalendar.tsx:75-77 | a day is highlighted iff some upcoming appointment falls on it |
| `Calendar.CancelAppointment` | src/components/AppointmentsCalendar.tsx:91-94 | length and order are kept; appointments with the id become cancelled, all others and every other field are unchanged |
| `Calendar.CancelIsIdempotent` | src/components/AppointmentsCalendar.tsx:91-94 | cancelling the same id twice equals cancelling it once |
| `Calendar.CancelOverridesCompleted` | src/components/AppointmentsCalendar.tsx:91-94 | a completed appointment with the id becomes cancelled and leaves the completed list: the update ignores the prior status |
| `Calendar.CancelRemovesFromUpcoming` | src/components/AppointmentsCalendar.tsx:85-94 | after cancelling an id, an appointment is upcoming iff it was upcoming before and carries another id |
| `Calendar.InitialAppointments` | src/components/AppointmentsCalendar.tsx:30-73 | a passed list, even an empty one, is the initial list; the samples are used only when none is passed |
| `Calendar.EmptyListReplacesSamples` | src/components/AppointmentsCalendar.tsx:30-73 | passing an empty list starts the calendar empty, while passing none starts it with the four samples |
| `Calendar.SampleUpcomingOrder` | src/components/AppointmentsCalendar.tsx:30-87 | on the samples the upcoming list runs ids 3, 1, 2 |
| `Calendar.SampleCompleted` | src/components/AppointmentsCalendar.tsx:30-89 | on the samples the completed list is id 4 alone |
| `Booking.InitialDraft` | src/components/ProfessionalDetail.tsx:37-41 | the draft starts closed, dated today, with no time, no reason and the professional's first modality, and is well formed |
| `Booking.Apply` | src/components/ProfessionalDetail.tsx:147-210 | each dialog input sets its own field (open, closed, the picked day, the picked slot, the picked modality, the typed reason), changes no other field, and keeps the draft well formed |
| `Booking.DraftsStayWellFormed` | src/components/ProfessionalDetail.tsx:39-45 | after any sequence of dialog inputs the time is "" or one of the nine slots and the modality is one the professional offers |
| `Booking.PickableTimes` | src/components/ProfessionalDetail.tsx:190-196 | the times a slot button can set are exactly the nine slots |
| `Booking.PickableModalities` | src/components/ProfessionalDetail.tsx:164-172 | the modalities the radio group can set are exactly the professional's modality list |
| `Booking.HandleBooking` | src/components/ProfessionalDetail.tsx:71-82 | a request is emitted iff a date is set and the time is non-empty; it carries the professional, date, time, modality and reason of the draft and the dialog closes; otherwise nothing changes |
| `Booking.RequestsUseOfferedChoices` | src/components/ProfessionalDetail.tsx:71-82 | every emitted request names one of the nine slots and a modality the professional offers |
| `App.Navigate` | src/App.tsx:55-59 | the view becomes the target, the selection is cleared and the menu closed; appointments are untouched |
| `App.SelectProfessional` | src/App.tsx:61-63 | the professional becomes selected and nothing else changes |
| `App.BackToProfessionals` | src/App.tsx:65-67 | the selection is cleared and the view is unchanged |
| `App.ToggleMenu` | src/App.tsx:137 | the menu flag flips and nothing else changes |
| `App.NewAppointment` | src/App.tsx:70-79 | the new record has id count + 100, status upcoming, name, specialty and avatar from the professional, and date, time and modality (as `type`) from the request |
| `App.BookAppointment` | src/App.tsx:69-93 | the list grows by exactly one, the old list is its prefix, the last record is the new appointment, the view becomes the calendar and the selection is cleared |
| `App.RunKeepsIdsFrom100` | src/App.tsx:45-81 | every user action keeps the list's ids equal to 100, 101, ... in order |
| `App.ReachableIdsAreDistinct` | src/App.tsx:45-81 | from start-up, after any actions, the ids are 100, 101, ... and pairwise distinct |
| `App.CurrentScreen` | src/App.tsx:172-190 | each view shows its own screen (the detail page exactly when a professional is selected, the list otherwise); the detail page gets the selected professional and the calendar the shell's appointment list |
| `App.SelectThenBackShowsList` | src/App.tsx:61-67 | in the professionals view, selecting shows that professional's page and going back shows the list again |
| `App.BookingShowsInCalendar` | src/App.tsx:69-93 | after a booking the calendar is shown, starts from the shell's list rather than its samples, and lists the new appointment as upcoming |

## Left out

- Rendering, styling, icons, tabs, dialogs as widgets, the toast after booking (src/App.tsx:83-89) and the `console.log` in mobile-app/App.js: side effects without logic.
- src/components/Dashboard.tsx and src/components/UserProfile.tsx: static figures and a form whose save does nothing.
- The floating-point rating of a professional and the progress percentages: not needed by any filter or booking step.
- JavaScript `Date`: days are abstract `Day` values. Parsing `"YYYY-MM-DD"`, `toDateString`, `toISOString().split('T')[0]` and `toLocaleDateString` are not modelled, so time-zone effects of converting a local date to a UTC string are outside the model; "today" is a parameter instead of `new Date()`.
- The date picker's rule that disables past days (src/components/ProfessionalDetail.tsx:182): it depends on the clock.
- Text.LowerStr: folds only ASCII `A`-`Z`; JavaScript's full Unicode `toLowerCase` also folds accented capitals such as `Á`, which no sample field searched here contains.
- Booking.InitialDraft: requires a non-empty modality list; with an empty list the page would start with an undefined modality, which the model does not represent.
- Calendar.SortByDate: orders by `DayLe`; the source subtracts parsed timestamps, and an unparsable date string (a `NaN` comparison) is not modelled.
- The calendar keeps its own copy of the list: cancellations change that copy, not the shell's list, and the detail dialog's open flag closed by `handleCancelAppointment` is not modelled.
- Sample data: descriptions, avatar and image URLs are left empty, and the eight sample content items are not reproduced.
- Booking closes the dialog and leaves the draft's fields as they were (src/components/ProfessionalDetail.tsx:71-82); cancellation overwrites any status, completed included (src/components/AppointmentsCalendar.tsx:91-94). The model does the same.
- The content screen has tabs for all items, articles, videos, podcasts and favourites but none for exercises (src/components/ContentLibrary.tsx:187-200), so an exercise shows only under "all"; `Content.VisibleTabsMissExercises` states when the visible counts add up.
