/**
 * The admin event page's form logic: the edit form filled from a stored
 * event (dates cut to the day, the recurrence defaulting to `none`), the
 * blank form, and the recurrence mapping applied on submit.
 */
module AdminEventPage {
  import opened Wrappers
  import opened Text
  import opened Events

  /** The recurrence the edit form shows: `recurrence_pattern || 'none'`. */
  function FormRecurrence(stored: Option<string>): (r: string)
    ensures Truthy(stored) ==> r == stored.value
    ensures !Truthy(stored) ==> r == "none"
  {
    if Truthy(stored) then stored.value else "none"
  }

  /** The edit form for a stored event: the event itself with its dates cut at the first `T`. */
  function EditForm(e: Event): (f: Event)
    ensures f.(startDate := e.startDate, endDate := e.endDate, recurrencePattern := e.recurrencePattern) == e
    ensures 'T' !in f.startDate && f.startDate <= e.startDate
    ensures 'T' in e.startDate ==> e.startDate[|f.startDate|] == 'T'
    ensures 'T' !in e.startDate ==> f.startDate == e.startDate
    ensures f.endDate.None? <==> !Truthy(e.endDate)
    ensures f.endDate.Some? ==> 'T' !in f.endDate.value && f.endDate.value <= e.endDate.value
    ensures f.recurrencePattern == Some(FormRecurrence(e.recurrencePattern))
  {
    SplitAtFirst(e.startDate, 'T');
    SplitAtFirst(e.endDate.GetOr(""), 'T');
    e.(startDate := BeforeChar(e.startDate, 'T'),
       endDate := if Truthy(e.endDate) then Some(BeforeChar(e.endDate.value, 'T')) else None,
       recurrencePattern := Some(FormRecurrence(e.recurrencePattern)))
  }

  /** The blank form a create starts from. */
  const BlankForm := Event(
    None, 1, None, "Song Night", Some("Describe your event..."), "2025-09-16", Some("2025-09-24"),
    Some("Enter event location"), Some("none"), "Planned")

  /** `recurrence_pattern === 'none' ? '' : recurrence_pattern`, the rest of the form as it is. */
  function SubmitData(form: Event): (d: Event)
    ensures d.(recurrencePattern := form.recurrencePattern) == form
    ensures form.recurrencePattern == Some("none") ==> d.recurrencePattern == Some("")
    ensures form.recurrencePattern != Some("none") ==> d.recurrencePattern == form.recurrencePattern
  {
    if form.recurrencePattern == Some("none") then form.(recurrencePattern := Some("")) else form
  }

  /**
   * Editing and saving without touching the recurrence: a stored absent,
   * empty or `none` recurrence goes back as the empty string, any other
   * value goes back as it was.
   */
  lemma RecurrenceRoundTrip(e: Event)
    ensures !Truthy(e.recurrencePattern) ==> SubmitData(EditForm(e)).recurrencePattern == Some("")
    ensures e.recurrencePattern == Some("none") ==> SubmitData(EditForm(e)).recurrencePattern == Some("")
    ensures Truthy(e.recurrencePattern) && e.recurrencePattern != Some("none") ==>
      SubmitData(EditForm(e)).recurrencePattern == e.recurrencePattern
  {
  }

  /** A stored ISO timestamp `day + "T" + time` shows in the edit form as just the day. */
  lemma EditFormKeepsTheDay(e: Event, day: string, time: string)
    requires 'T' !in day
    requires e.startDate == day + "T" + time
    ensures EditForm(e).startDate == day
  {
    BeforeCharAppend(day, "T" + time, 'T');
    assert e.startDate == day + ("T" + time);
  }

  /** The blank form submits a one-off planned event of ministry 1 with no team. */
  lemma BlankFormSubmits()
    ensures SubmitData(BlankForm).recurrencePattern == Some("")
    ensures SubmitData(BlankForm).status == "Planned"
    ensures SubmitData(BlankForm).ministryId == 1 && SubmitData(BlankForm).teamId.None?
  {
  }
}
