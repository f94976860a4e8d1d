/** The booking dialog on a professional's page
    (src/components/ProfessionalDetail.tsx): the draft the dialog edits, the
    fixed time slots, and the confirm guard that emits a booking request. */
module Booking {
  import opened Wrappers
  import opened Catalog
  import opened Calendar

  /** The nine time slots the dialog offers. */
  const AvailableTimes: seq<string> :=
    ["09:00", "10:00", "11:00", "12:00", "14:00", "15:00", "16:00", "17:00", "18:00"]

  /** The dialog's state: whether it is open, the chosen day (the calendar
      widget can clear it), the chosen slot ("" until one is picked), the
      chosen modality and the optional reason text. */
  datatype Draft = Draft(dialogOpen: bool, date: Option<Day>, time: string, modality: string, reason: string)

  /** What confirming hands to the application shell. */
  datatype BookingRequest = BookingRequest(professional: Professional, date: Day, time: string, modality: string, reason: string)

  /** The time is unset or one of the slots, and the modality is one the
      professional offers. */
  predicate WellFormed(p: Professional, d: Draft) {
    && (d.time == "" || d.time in AvailableTimes)
    && d.modality in p.modality
  }

  /** The draft when the page opens: today's date, no time, the professional's
      first modality, no reason, dialog closed. The first modality must exist. */
  function InitialDraft(p: Professional, today: Day): (d: Draft)
    requires |p.modality| > 0
    ensures WellFormed(p, d)
    ensures !d.dialogOpen && d.date == Some(today) && d.time == "" && d.reason == ""
    ensures d.modality == p.modality[0]
  {
    Draft(false, Some(today), "", p.modality[0], "")
  }

  /** The inputs of the dialog: the trigger and cancel buttons, the calendar,
      the slot buttons, the modality radio group and the reason text box. */
  datatype DraftEvent =
    | OpenDialog
    | CloseDialog
    | PickDate(date: Option<Day>)
    | PickTime(slot: nat)
    | PickModality(index: nat)
    | EditReason(text: string)

  /** The event comes from a control the dialog actually shows: a slot button
      or a radio item of this professional. */
  predicate Offered(p: Professional, e: DraftEvent) {
    match e
    case PickTime(slot) => slot < |AvailableTimes|
    case PickModality(index) => index < |p.modality|
    case _ => true
  }

  /** One dialog input applied to the draft. */
  function Apply(p: Professional, d: Draft, e: DraftEvent): (r: Draft)
    requires Offered(p, e)
    ensures WellFormed(p, d) ==> WellFormed(p, r)
    ensures e.OpenDialog? ==> r.dialogOpen
    ensures e.CloseDialog? ==> !r.dialogOpen
    ensures e.PickDate? ==> r.date == e.date
    ensures e.PickTime? ==> r.time == AvailableTimes[e.slot]
    ensures e.PickModality? ==> r.modality == p.modality[e.index]
    ensures e.EditReason? ==> r.reason == e.text
    ensures r.dialogOpen != d.dialogOpen ==> e.OpenDialog? || e.CloseDialog?
    ensures r.date != d.date ==> e.PickDate?
    ensures r.time != d.time ==> e.PickTime?
    ensures r.modality != d.modality ==> e.PickModality?
    ensures r.reason != d.reason ==> e.EditReason?
  {
    match e
    case OpenDialog => d.(dialogOpen := true)
    case CloseDialog => d.(dialogOpen := false)
    case PickDate(date) => d.(date := date)
    case PickTime(slot) => d.(time := AvailableTimes[slot])
    case PickModality(index) => d.(modality := p.modality[index])
    case EditReason(text) => d.(reason := text)
  }

  predicate AllOffered(p: Professional, es: seq<DraftEvent>) {
    forall i :: 0 <= i < |es| ==> Offered(p, es[i])
  }

  function ApplyAll(p: Professional, d: Draft, es: seq<DraftEvent>): Draft
    requires AllOffered(p, es)
    decreases |es|
  {
    if |es| == 0 then d else ApplyAll(p, Apply(p, d, es[0]), es[1..])
  }

  /** Whatever the user does in the dialog, the time stays unset or a slot and
      the modality stays one the professional offers. */
  lemma {:induction false} DraftsStayWellFormed(p: Professional, d: Draft, es: seq<DraftEvent>)
    requires AllOffered(p, es) && WellFormed(p, d)
    ensures WellFormed(p, ApplyAll(p, d, es))
    decreases |es|
  {
    if |es| > 0 {
      assert Offered(p, es[0]);
      DraftsStayWellFormed(p, Apply(p, d, es[0]), es[1..]);
    }
  }

  /** The times a slot button can set are exactly the nine slots. */
  lemma PickableTimes(p: Professional, d: Draft, t: string)
    ensures (exists slot: nat :: slot < |AvailableTimes| && Apply(p, d, PickTime(slot)).time == t)
        <==> t in AvailableTimes
  {
    if t in AvailableTimes {
      var slot :| 0 <= slot < |AvailableTimes| && AvailableTimes[slot] == t;
      assert Apply(p, d, PickTime(slot)).time == t;
    }
  }

  /** The modalities the radio group can set are exactly the professional's. */
  lemma PickableModalities(p: Professional, d: Draft, m: string)
    ensures (exists i: nat :: i < |p.modality| && Apply(p, d, PickModality(i)).modality == m)
        <==> m in p.modality
  {
    if m in p.modality {
      var i :| 0 <= i < |p.modality| && p.modality[i] == m;
      assert Apply(p, d, PickModality(i)).modality == m;
    }
  }

  /** `handleBooking`: with a date and a time chosen, emits the request built
      from the draft and closes the dialog; otherwise does nothing. */
  function HandleBooking(p: Professional, d: Draft): (r: (Draft, Option<BookingRequest>))
    ensures r.1.Some? <==> d.date.Some? && d.time != ""
    ensures r.1.Some? ==>
      && r.1.value.professional == p
      && Some(r.1.value.date) == d.date
      && r.1.value.time == d.time
      && r.1.value.modality == d.modality
      && r.1.value.reason == d.reason
      && !r.0.dialogOpen
      && r.0.(dialogOpen := d.dialogOpen) == d
    ensures r.1.None? ==> r.0 == d
  {
    match d.date
    case Some(day) =>
      if d.time != "" then (d.(dialogOpen := false), Some(BookingRequest(p, day, d.time, d.modality, d.reason)))
      else (d, None)
    case None => (d, None)
  }

  /** Every request the page emits names one of the nine slots and a modality
      the professional offers. */
  lemma RequestsUseOfferedChoices(p: Professional, today: Day, es: seq<DraftEvent>)
    requires |p.modality| > 0 && AllOffered(p, es)
    ensures var out := HandleBooking(p, ApplyAll(p, InitialDraft(p, today), es)).1;
      out.Some? ==> out.value.time in AvailableTimes && out.value.modality in p.modality
  {
    DraftsStayWellFormed(p, InitialDraft(p, today), es);
  }
}
