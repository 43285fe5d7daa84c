/**
 * The staff team page: the teams of the one ministry the page serves,
 * the local list updates after a save or a delete, and the grid/detail
 * view with the team it shows.
 */
module StaffTeamPage {
  import opened Wrappers
  import opened Seqs
  import opened Events

  datatype MinistryTeam = MinistryTeam(
    teamId: int,
    ministryId: int,
    name: string,
    description: Option<string>,
    meetingSchedule: Option<string>,
    memberCount: Option<int>)

  datatype ViewMode = Grid | Detail

  /** The ministry the page serves; the id is fixed in the page. */
  const CurrentMinistry := 1

  /** The teams kept after a load: those of the current ministry, in the reply's order. */
  function MinistryTeams(teams: seq<MinistryTeam>): (r: seq<MinistryTeam>)
    ensures forall t :: t in r ==> t in teams && t.ministryId == CurrentMinistry
  {
    Filter(teams, (t: MinistryTeam) => t.ministryId == CurrentMinistry)
  }

  lemma MinistryTeamsExactly(teams: seq<MinistryTeam>, t: MinistryTeam)
    ensures t in MinistryTeams(teams) <==> t in teams && t.ministryId == CurrentMinistry
    ensures IsSubsequence(MinistryTeams(teams), teams)
  {
    FilterKeeps(teams, (t: MinistryTeam) => t.ministryId == CurrentMinistry, t);
    FilterIsSubsequence(teams, (t: MinistryTeam) => t.ministryId == CurrentMinistry);
  }

  /** The server's record with the member count of the team that was edited. */
  function Updated(editing: MinistryTeam, record: MinistryTeam): (t: MinistryTeam)
    ensures t.(memberCount := record.memberCount) == record
    ensures t.memberCount == editing.memberCount
  {
    record.(memberCount := editing.memberCount)
  }

  predicate SameTeam(t: MinistryTeam, teamId: int)
  {
    t.teamId == teamId
  }

  class TeamPage {
    var teams: seq<MinistryTeam>
    var selectedTeam: Option<MinistryTeam>
    var viewMode: ViewMode
    var teamToDelete: Option<MinistryTeam>
    var deleteConfirmOpen: bool

    /** The grid shows no team; the detail view shows exactly one. */
    predicate Valid()
      reads this
    {
      viewMode == Grid <==> selectedTeam.None?
    }

    constructor ()
      ensures teams == [] && selectedTeam.None? && viewMode == Grid
      ensures teamToDelete.None? && !deleteConfirmOpen
      ensures Valid()
    {
      teams := [];
      selectedTeam := None;
      viewMode := Grid;
      teamToDelete := None;
      deleteConfirmOpen := false;
    }

    /** A load: the teams of the reply that belong to the current ministry. */
    method Load(body: ListBody<MinistryTeam>)
      requires Valid()
      modifies this
      ensures teams == MinistryTeams(UnwrapList(body))
      ensures forall t :: t in teams ==> t.ministryId == CurrentMinistry
      ensures selectedTeam == old(selectedTeam) && viewMode == old(viewMode)
      ensures teamToDelete == old(teamToDelete) && deleteConfirmOpen == old(deleteConfirmOpen)
      ensures Valid()
    {
      teams := MinistryTeams(UnwrapList(body));
    }

    /** After an update: the edited team becomes the server's record, keeping its member count. */
    method Update(editing: MinistryTeam, record: MinistryTeam)
      requires Valid()
      modifies this
      ensures teams == ReplaceWhere(old(teams), (t: MinistryTeam) => SameTeam(t, editing.teamId), Updated(editing, record))
      ensures selectedTeam == old(selectedTeam) && viewMode == old(viewMode)
      ensures teamToDelete == old(teamToDelete) && deleteConfirmOpen == old(deleteConfirmOpen)
      ensures Valid()
    {
      teams := ReplaceWhere(teams, (t: MinistryTeam) => SameTeam(t, editing.teamId), Updated(editing, record));
    }

    /** After a create: the server's record goes at the end. */
    method Append(record: MinistryTeam)
      requires Valid()
      modifies this
      ensures teams == old(teams) + [record]
      ensures selectedTeam == old(selectedTeam) && viewMode == old(viewMode)
      ensures teamToDelete == old(teamToDelete) && deleteConfirmOpen == old(deleteConfirmOpen)
      ensures Valid()
    {
      teams := teams + [record];
    }

    /** A click on a card: show that team. */
    method ViewTeamDetails(team: MinistryTeam)
      requires Valid()
      modifies this
      ensures selectedTeam == Some(team) && viewMode == Detail
      ensures teams == old(teams)
      ensures teamToDelete == old(teamToDelete) && deleteConfirmOpen == old(deleteConfirmOpen)
      ensures Valid()
    {
      selectedTeam := Some(team);
      viewMode := Detail;
    }

    /** Back to the grid. */
    method CloseTeamDetails()
      requires Valid()
      modifies this
      ensures selectedTeam.None? && viewMode == Grid
      ensures teams == old(teams)
      ensures teamToDelete == old(teamToDelete) && deleteConfirmOpen == old(deleteConfirmOpen)
      ensures Valid()
    {
      selectedTeam := None;
      viewMode := Grid;
    }

    /** The delete button on a card: ask about that team. */
    method OpenDeleteConfirm(team: MinistryTeam)
      requires Valid()
      modifies this
      ensures teamToDelete == Some(team) && deleteConfirmOpen
      ensures teams == old(teams) && selectedTeam == old(selectedTeam) && viewMode == old(viewMode)
      ensures Valid()
    {
      teamToDelete := Some(team);
      deleteConfirmOpen := true;
    }

    /**
     * The confirmed delete, once the server has accepted it: the team
     * leaves the list and the dialog closes; a detail view of that team
     * goes back to the grid, a view of another team stays.
     */
    method ConfirmDelete()
      requires Valid()
      modifies this
      ensures old(teamToDelete).None? ==> teams == old(teams) && selectedTeam == old(selectedTeam) && viewMode == old(viewMode)
      ensures old(teamToDelete).None? ==> teamToDelete == old(teamToDelete) && deleteConfirmOpen == old(deleteConfirmOpen)
      ensures old(teamToDelete).Some? ==>
        var id := old(teamToDelete).value.teamId;
        && teams == Filter(old(teams), (t: MinistryTeam) => !SameTeam(t, id))
        && teamToDelete.None? && !deleteConfirmOpen
        && (old(selectedTeam).Some? && old(selectedTeam).value.teamId == id ==> selectedTeam.None? && viewMode == Grid)
        && (!(old(selectedTeam).Some? && old(selectedTeam).value.teamId == id) ==>
             selectedTeam == old(selectedTeam) && viewMode == old(viewMode))
      ensures Valid()
    {
      if teamToDelete.None? {
        return;
      }
      var id := teamToDelete.value.teamId;
      teams := Filter(teams, (t: MinistryTeam) => !SameTeam(t, id));
      deleteConfirmOpen := false;
      teamToDelete := None;
      if selectedTeam.Some? && selectedTeam.value.teamId == id {
        CloseTeamDetails();
      }
    }
  }

  /** An update keeps the list's length, rewrites only the edited team, and keeps its member count. */
  lemma UpdateKeepsMemberCount(teams: seq<MinistryTeam>, editing: MinistryTeam, record: MinistryTeam, i: int)
    requires 0 <= i < |teams|
    ensures |ReplaceWhere(teams, (t: MinistryTeam) => SameTeam(t, editing.teamId), Updated(editing, record))| == |teams|
    ensures teams[i].teamId == editing.teamId ==>
      ReplaceWhere(teams, (t: MinistryTeam) => SameTeam(t, editing.teamId), Updated(editing, record))[i].memberCount == editing.memberCount
    ensures teams[i].teamId != editing.teamId ==>
      ReplaceWhere(teams, (t: MinistryTeam) => SameTeam(t, editing.teamId), Updated(editing, record))[i] == teams[i]
  {
  }

  /** A delete removes exactly the teams with that id and keeps the rest in order. */
  lemma DeleteRemovesExactly(teams: seq<MinistryTeam>, teamId: int, t: MinistryTeam)
    ensures t in Filter(teams, (x: MinistryTeam) => !SameTeam(x, teamId)) <==> t in teams && t.teamId != teamId
    ensures IsSubsequence(Filter(teams, (x: MinistryTeam) => !SameTeam(x, teamId)), teams)
  {
    FilterKeeps(teams, (x: MinistryTeam) => !SameTeam(x, teamId), t);
    FilterIsSubsequence(teams, (x: MinistryTeam) => !SameTeam(x, teamId));
  }
}
