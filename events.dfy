/**
 * What the admin and the staff event pages share: the event and team
 * records, the unwrapping of a list reply, the teams of one ministry, the
 * status badge and the local `events` list updates after a save or a delete.
 */
module Events {
  import opened Wrappers
  import opened Seqs
  import opened Badges

  datatype Event = Event(
    eventId: Option<int>,
    ministryId: int,
    teamId: Option<int>,
    title: string,
    description: Option<string>,
    startDate: string,
    endDate: Option<string>,
    location: Option<string>,
    recurrencePattern: Option<string>,
    status: string)

  datatype Team = Team(teamId: int, name: string, ministryId: int)

  /**
   * The body of a list reply: either the array itself, or an object whose
   * `data` field holds the array (`None`: the field is missing or null).
   */
  datatype ListBody<T> = ArrayBody(items: seq<T>) | ObjectBody(data: Option<seq<T>>)

  /** `Array.isArray(body) ? body : body?.data || []`. */
  function UnwrapList<T>(body: ListBody<T>): (r: seq<T>)
    ensures body.ArrayBody? ==> r == body.items
    ensures body.ObjectBody? && body.data.Some? ==> r == body.data.value
    ensures body.ObjectBody? && body.data.None? ==> r == []
  {
    match body
    case ArrayBody(items) => items
    case ObjectBody(data) => data.GetOr([])
  }

  /** The page reads the same list from a bare array as from one wrapped in a `data` field. */
  lemma UnwrapEitherShape<T>(items: seq<T>)
    ensures UnwrapList(ArrayBody(items)) == UnwrapList(ObjectBody(Some(items)))
    ensures UnwrapList(ListBody<T>.ObjectBody(None)) == []
  {
  }

  /** The record a save returns: `response.data.data || response.data`. */
  function RecordOf<T>(inner: Option<T>, body: T): (r: T)
    ensures inner.Some? ==> r == inner.value
    ensures inner.None? ==> r == body
  {
    inner.GetOr(body)
  }

  /** A JavaScript string value that is present and not empty, i.e. truthy. */
  predicate Truthy(v: Option<string>)
  {
    v.Some? && v.value != ""
  }

  /** `getTeamsByMinistry`. */
  function TeamsByMinistry(teams: seq<Team>, ministryId: int): (r: seq<Team>)
    ensures |r| <= |teams|
    ensures forall t :: t in r ==> t in teams && t.ministryId == ministryId
  {
    Filter(teams, (t: Team) => t.ministryId == ministryId)
  }

  /** The team select offers exactly the teams of the chosen ministry, in their order. */
  lemma TeamsByMinistryExactly(teams: seq<Team>, ministryId: int, t: Team)
    ensures t in TeamsByMinistry(teams, ministryId) <==> t in teams && t.ministryId == ministryId
    ensures IsSubsequence(TeamsByMinistry(teams, ministryId), teams)
  {
    FilterKeeps(teams, (t: Team) => t.ministryId == ministryId, t);
    FilterIsSubsequence(teams, (t: Team) => t.ministryId == ministryId);
  }

  /** `getStatusVariant`: every status but the three named ones, `Completed` included, is outlined. */
  function GetStatusVariant(status: string): (v: Variant)
    ensures v == Default <==> status == "Active"
    ensures v == Secondary <==> status == "Planned"
    ensures v == Destructive <==> status == "Cancelled"
    ensures v == Outline <==> status !in {"Active", "Planned", "Cancelled"}
  {
    match status
    case "Active" => Default
    case "Planned" => Secondary
    case "Cancelled" => Destructive
    case "Completed" => Outline
    case _ => Outline
  }

  predicate HasId(e: Event, eventId: Option<int>)
  {
    e.eventId == eventId
  }

  /** The page's `events` list. */
  class EventList {
    var events: seq<Event>

    constructor (events: seq<Event>)
      ensures this.events == events
    {
      this.events := events;
    }

    /** After an update: each event with the edited event's id becomes the server's record. */
    method Replace(eventId: Option<int>, record: Event)
      modifies this
      ensures events == ReplaceWhere(old(events), (e: Event) => HasId(e, eventId), record)
    {
      events := ReplaceWhere(events, (e: Event) => HasId(e, eventId), record);
    }

    /** After a create: the server's record goes at the end. */
    method Append(record: Event)
      modifies this
      ensures events == old(events) + [record]
    {
      events := events + [record];
    }

    /** After a delete: every event with that id goes. */
    method Delete(eventId: int)
      modifies this
      ensures events == Filter(old(events), (e: Event) => !HasId(e, Some(eventId)))
    {
      events := Filter(events, (e: Event) => !HasId(e, Some(eventId)));
    }
  }

  /** An update touches only the events with the edited id and keeps the list's length and order. */
  lemma ReplaceTouchesOnlyThatId(events: seq<Event>, eventId: Option<int>, record: Event, i: int)
    requires 0 <= i < |events|
    ensures |ReplaceWhere(events, (e: Event) => HasId(e, eventId), record)| == |events|
    ensures events[i].eventId != eventId ==> ReplaceWhere(events, (e: Event) => HasId(e, eventId), record)[i] == events[i]
    ensures events[i].eventId == eventId ==> ReplaceWhere(events, (e: Event) => HasId(e, eventId), record)[i] == record
  {
  }

  /** A delete removes exactly the events with that id and keeps the rest in order. */
  lemma DeleteRemovesExactly(events: seq<Event>, eventId: int, e: Event)
    ensures e in Filter(events, (x: Event) => !HasId(x, Some(eventId))) <==> e in events && e.eventId != Some(eventId)
    ensures IsSubsequence(Filter(events, (x: Event) => !HasId(x, Some(eventId))), events)
  {
    FilterKeeps(events, (x: Event) => !HasId(x, Some(eventId)), e);
    FilterIsSubsequence(events, (x: Event) => !HasId(x, Some(eventId)));
  }
}
