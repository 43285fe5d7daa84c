/**
 * The staff event page's form logic: the edit form's date-and-time
 * fields cut to minutes, the blank form, and the team select's mapping
 * between a team id and the option value it shows.
 */
module StaffEventPage {
  import opened Wrappers
  import opened Text
  import opened Events

  /**
   * `s.split('T')[0] + 'T' + s.split('T')[1]?.substring(0, 5)`: the day,
   * `T`, and the first five characters of the time. Without a `T` the
   * second piece is `undefined`, which the concatenation spells out.
   */
  function DateTimeField(s: string): (r: string)
    ensures 'T' !in s ==> r == s + "Tundefined"
    ensures 'T' in s ==> r <= s
    ensures 'T' in s ==> BeforeChar(s, 'T') + "T" <= r && |r| <= |BeforeChar(s, 'T')| + 6
  {
    SplitAtFirst(s, 'T');
    match SecondPiece(s, 'T')
    case None => BeforeChar(s, 'T') + "T" + "undefined"
    case Some(time) =>
      SplitAtFirst(AfterChar(s, 'T').value, 'T');
      assert BeforeChar(s, 'T') + "T" + Prefix(time, 5) <= BeforeChar(s, 'T') + "T" + AfterChar(s, 'T').value;
      BeforeChar(s, 'T') + "T" + Prefix(time, 5)
  }

  /**
   * A stored ISO timestamp `day + "T" + hh:mm + rest` shows as `day + "T" + hh:mm`,
   * the value a date-and-time input takes.
   */
  lemma DateTimeFieldOfTimestamp(day: string, minutes: string, rest: string)
    requires 'T' !in day && 'T' !in minutes && |minutes| == 5
    ensures DateTimeField(day + "T" + minutes + rest) == day + "T" + minutes
  {
    var s := day + "T" + minutes + rest;
    assert s == day + ("T" + (minutes + rest));
    BeforeCharAppend(day, "T" + (minutes + rest), 'T');
    AfterCharAppend(day, "T" + (minutes + rest), 'T');
    assert AfterChar(s, 'T') == Some(minutes + rest);
    BeforeCharAppend(minutes, rest, 'T');
    assert Prefix(minutes + BeforeChar(rest, 'T'), 5) == minutes;
  }

  /** The edit form for a stored event: both dates cut by `DateTimeField`, an absent or empty end date null. */
  function EditForm(e: Event): (f: Event)
    ensures f.(startDate := e.startDate, endDate := e.endDate) == e
    ensures f.startDate == DateTimeField(e.startDate)
    ensures f.endDate.None? <==> !Truthy(e.endDate)
    ensures f.endDate.Some? ==> f.endDate.value == DateTimeField(e.endDate.value)
  {
    e.(startDate := DateTimeField(e.startDate),
       endDate := if Truthy(e.endDate) then Some(DateTimeField(e.endDate.value)) else None)
  }

  /** The blank form a create starts from. */
  const BlankForm := Event(None, 0, None, "", Some(""), "", None, Some(""), Some(""), "Planned")

  /** The team select's state: null, or `Number(value)` (`None` standing for NaN). */
  datatype TeamSelection = NoTeam | TeamNumber(number: Option<int>)

  /** The option value the select shows: `team_id?.toString() || ''`. */
  function SelectValue(teamId: Option<int>): (v: string)
    ensures v == "" <==> teamId.None?
  {
    match teamId
    case None => ""
    case Some(id) => IntToString(id)
  }

  /** `value ? Number(value) : null`. */
  function OnTeamChange(value: string): (r: TeamSelection)
    ensures r.NoTeam? <==> value == ""
    ensures r.TeamNumber? && r.number.Some? ==> ParseInt(value) == r.number
  {
    if value == "" then NoTeam else TeamNumber(ParseInt(value))
  }

  /** Choosing the option a team id shows selects that team again; clearing it selects none. */
  lemma TeamSelectRoundTrip(teamId: Option<int>)
    ensures teamId.None? ==> OnTeamChange(SelectValue(teamId)) == NoTeam
    ensures teamId.Some? ==> OnTeamChange(SelectValue(teamId)) == TeamNumber(Some(teamId.value))
  {
    if teamId.Some? {
      IntToStringRoundTrip(teamId.value);
    }
  }
}
