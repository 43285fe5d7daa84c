/**
 * The admin team page: the ministry filter over the team cards, the
 * ministry badge (its style and its name), and the grid/detail view that
 * opens a team once its record has been fetched.
 */
module AdminTeamPage {
  import opened Wrappers
  import opened Seqs
  import opened Text
  import opened Badges

  datatype Ministry = Ministry(ministryId: int, name: string)

  datatype MinistryTeam = MinistryTeam(
    teamId: int,
    ministryId: int,
    ministryName: Option<string>,
    name: string,
    description: Option<string>,
    meetingSchedule: Option<string>)

  datatype ViewMode = Grid | Detail

  /** The ministries the page lists in place of a ministry endpoint. */
  const MockMinistries := [
    Ministry(1, "Worship Ministry"),
    Ministry(2, "Youth Ministry"),
    Ministry(3, "Outreach Program"),
    Ministry(4, "Prayer Ministry")]

  predicate TeamMatches(t: MinistryTeam, filterMinistry: string)
  {
    filterMinistry == "all" || IntToString(t.ministryId) == filterMinistry
  }

  /** `filteredTeams`. */
  function FilteredTeams(teams: seq<MinistryTeam>, filterMinistry: string): (r: seq<MinistryTeam>)
    ensures |r| <= |teams|
    ensures forall t :: t in r ==> t in teams
  {
    Filter(teams, (t: MinistryTeam) => TeamMatches(t, filterMinistry))
  }

  /**
   * `all` shows every team; the decimal form of a ministry id shows exactly
   * that ministry's teams; both keep the order of the cards.
   */
  lemma FilteredTeamsExactly(teams: seq<MinistryTeam>, ministryId: int, t: MinistryTeam)
    ensures FilteredTeams(teams, "all") == teams
    ensures t in FilteredTeams(teams, IntToString(ministryId)) <==> t in teams && t.ministryId == ministryId
    ensures IsSubsequence(FilteredTeams(teams, IntToString(ministryId)), teams)
  {
    FilterAllPass(teams, (t: MinistryTeam) => TeamMatches(t, "all"));
    FilterKeeps(teams, (t: MinistryTeam) => TeamMatches(t, IntToString(ministryId)), t);
    IntToStringInjective(t.ministryId, ministryId);
    FilterIsSubsequence(teams, (t: MinistryTeam) => TeamMatches(t, IntToString(ministryId)));
  }

  /** The badge styles in the order the page cycles through them. */
  const Variants := [Default, Secondary, Outline, Destructive]

  /** JavaScript's `%` by the four styles: the remainder takes the sign of the dividend. */
  function JsRemainderByFour(a: int): (r: int)
    ensures a >= 0 ==> r == a % 4
    ensures a < 0 ==> -4 < r <= 0 && (r == 0 <==> a % 4 == 0)
  {
    if a >= 0 then a % 4 else -((-a) % 4)
  }

  /**
   * `variants[ministryId % variants.length]`. A negative id gives a negative
   * index, which reads `undefined` (`None`), except where the remainder is
   * zero.
   */
  function GetMinistryVariant(ministryId: int): (v: Option<Variant>)
    ensures ministryId >= 0 ==> v == Some(Variants[ministryId % 4])
    ensures ministryId < 0 ==> (v.Some? <==> ministryId % 4 == 0)
    ensures v.Some? ==> v.value in Variants
  {
    var i := JsRemainderByFour(ministryId);
    if 0 <= i then Some(Variants[i]) else None
  }

  /** The badge style repeats every four ids and changes from one id to the next. */
  lemma MinistryVariantCycles(ministryId: int)
    requires ministryId >= 0
    ensures GetMinistryVariant(ministryId + 4) == GetMinistryVariant(ministryId)
    ensures GetMinistryVariant(ministryId + 1) != GetMinistryVariant(ministryId)
  {
    assert (ministryId + 4) % 4 == ministryId % 4;
    assert (ministryId + 1) % 4 == (ministryId % 4 + 1) % 4;
  }

  /** `ministries[i]` is the first ministry with that id. */
  predicate FirstWithId(ministries: seq<Ministry>, ministryId: int, i: int)
  {
    0 <= i < |ministries| && ministries[i].ministryId == ministryId &&
    forall j :: 0 <= j < i ==> ministries[j].ministryId != ministryId
  }

  /** `ministries.find(m => m.ministry_id === ministryId)`. */
  function FindMinistry(ministries: seq<Ministry>, ministryId: int): (r: Option<Ministry>)
    ensures r.None? <==> forall i :: 0 <= i < |ministries| ==> ministries[i].ministryId != ministryId
    ensures r.Some? ==> exists i :: FirstWithId(ministries, ministryId, i) && ministries[i] == r.value
    decreases |ministries|
  {
    if ministries == [] then None
    else if ministries[0].ministryId == ministryId then Some(ministries[0])
    else
      var r := FindMinistry(ministries[1..], ministryId);
      if r.Some? then
        var i :| FirstWithId(ministries[1..], ministryId, i) && ministries[1..][i] == r.value;
        assert FirstWithId(ministries, ministryId, i + 1) && ministries[i + 1] == r.value;
        r
      else r
  }

  /**
   * `getMinistryName` where a ministry has that id: the first such
   * ministry's name. The other branch reads an undefined `team`; it is
   * `None` here.
   */
  function GetMinistryName(ministries: seq<Ministry>, ministryId: int): (name: Option<string>)
    ensures name.Some? <==> exists i :: 0 <= i < |ministries| && ministries[i].ministryId == ministryId
    ensures name.Some? ==> exists i :: FirstWithId(ministries, ministryId, i) && ministries[i].name == name.value
  {
    match FindMinistry(ministries, ministryId)
    case None => None
    case Some(m) => Some(m.name)
  }

  /** In a list whose ministries are numbered 1, 2, 3, ... in order, an id finds the ministry at its place, and only those ids find one. */
  lemma FindNumberedMinistry(ministries: seq<Ministry>, ministryId: int)
    requires forall i :: 0 <= i < |ministries| ==> ministries[i].ministryId == i + 1
    ensures FindMinistry(ministries, ministryId) ==
      if 1 <= ministryId <= |ministries| then Some(ministries[ministryId - 1]) else None
  {
    var r := FindMinistry(ministries, ministryId);
    if 1 <= ministryId <= |ministries| {
      assert ministries[ministryId - 1].ministryId == ministryId;
      var i :| FirstWithId(ministries, ministryId, i) && ministries[i] == r.value;
      assert i == ministryId - 1;
    }
  }

  /** Exactly the ids 1 to 4 have a name among the listed ministries, each the name of the ministry listed at that place. */
  lemma MockMinistryNames(ministryId: int)
    ensures GetMinistryName(MockMinistries, ministryId).Some? <==> 1 <= ministryId <= 4
    ensures 1 <= ministryId <= 4 ==> GetMinistryName(MockMinistries, ministryId) == Some(MockMinistries[ministryId - 1].name)
  {
    FindNumberedMinistry(MockMinistries, ministryId);
  }

  const DetailsError := "Failed to load team details."

  /** The page's view state: the teams, the team shown and the filter. */
  class TeamBrowser {
    var teams: seq<MinistryTeam>
    var selectedTeam: Option<MinistryTeam>
    var viewMode: ViewMode
    var filterMinistry: string
    var error: Option<string>

    /** The grid shows no team; the detail view shows exactly one. */
    predicate Valid()
      reads this
    {
      viewMode == Grid <==> selectedTeam.None?
    }

    constructor ()
      ensures teams == [] && selectedTeam.None? && viewMode == Grid
      ensures filterMinistry == "all" && error.None?
      ensures Valid()
    {
      teams := [];
      selectedTeam := None;
      viewMode := Grid;
      filterMinistry := "all";
      error := None;
    }

    /** The cards on screen. */
    function Shown(): (r: seq<MinistryTeam>)
      reads this
      ensures forall t :: t in r ==> t in teams
    {
      FilteredTeams(teams, filterMinistry)
    }

    /**
     * A click on a card, given the fetch's result (`None`: the fetch failed).
     * The detail view opens on the fetched record only; a failure sets the
     * error and leaves the view as it was.
     */
    method ViewTeamDetails(fetched: Option<MinistryTeam>)
      requires Valid()
      modifies this
      ensures fetched.Some? ==> selectedTeam == fetched && viewMode == Detail && error == old(error)
      ensures fetched.None? ==> selectedTeam == old(selectedTeam) && viewMode == old(viewMode) && error == Some(DetailsError)
      ensures teams == old(teams) && filterMinistry == old(filterMinistry)
      ensures Valid()
    {
      if fetched.Some? {
        selectedTeam := fetched;
        viewMode := Detail;
      } else {
        error := Some(DetailsError);
      }
    }

    /** Back to the grid. */
    method CloseTeamDetails()
      requires Valid()
      modifies this
      ensures selectedTeam.None? && viewMode == Grid
      ensures teams == old(teams) && filterMinistry == old(filterMinistry) && error == old(error)
      ensures Valid()
    {
      selectedTeam := None;
      viewMode := Grid;
    }
  }
}
