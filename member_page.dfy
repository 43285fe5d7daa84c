/**
 * The admin member page: the status and team filters, the user lists the
 * page keeps and offers, the spiritual-gift checkboxes and the local list
 * updates after a save, a team change or a delete.
 */
module MemberPage {
  import opened Wrappers
  import opened Seqs
  import opened Text

  datatype TeamParticipation = TeamParticipation(teamId: int, isActive: bool)

  datatype Member = Member(
    memberId: int,
    userId: int,
    membershipStatus: string,
    teamParticipation: Option<seq<TeamParticipation>>,
    spiritualGifts: Option<seq<string>>)

  datatype MemberUser = MemberUser(userId: int, firstName: string, lastName: string, email: string, userType: string)

  /** The `members` state: the load stores the reply's `data` field, which need not be an array. */
  datatype MembersState = MemberArray(members: seq<Member>) | NotAnArray

  /** The array guard in front of the filter. */
  function GuardedMembers(state: MembersState): (members: seq<Member>)
    ensures state.NotAnArray? ==> members == []
    ensures state.MemberArray? ==> members == state.members
  {
    match state
    case MemberArray(members) => members
    case NotAnArray => []
  }

  /** At least one active team participation. */
  predicate HasActiveTeam(m: Member)
  {
    m.teamParticipation.Some? && Seqs.Some(m.teamParticipation.value, (t: TeamParticipation) => t.isActive)
  }

  /** No participation list, or an empty one. */
  predicate HasNoTeam(m: Member)
  {
    m.teamParticipation.None? || |m.teamParticipation.value| == 0
  }

  /** The team filter as written: `has_team` is checked inside the `some`, `no_team` beside it. */
  predicate TeamMatches(m: Member, filterTeam: string)
  {
    filterTeam == "all"
    || (m.teamParticipation.Some? && Seqs.Some(m.teamParticipation.value, (t: TeamParticipation) => t.isActive && filterTeam == "has_team"))
    || (HasNoTeam(m) && filterTeam == "no_team")
  }

  predicate MemberMatches(m: Member, filterStatus: string, filterTeam: string)
  {
    (filterStatus == "all" || m.membershipStatus == filterStatus) && TeamMatches(m, filterTeam)
  }

  /** `filteredMembers`. */
  function FilteredMembers(state: MembersState, filterStatus: string, filterTeam: string): (r: seq<Member>)
    ensures |r| <= |GuardedMembers(state)|
    ensures forall m :: m in r ==> m in GuardedMembers(state)
    ensures filterStatus != "all" ==> forall m :: m in r ==> m.membershipStatus == filterStatus
  {
    Filter(GuardedMembers(state), m => MemberMatches(m, filterStatus, filterTeam))
  }

  /** The team filter, value by value: `has_team` and `no_team` mean what they say and any other value but `all` keeps no one. */
  lemma TeamFilterMeaning(m: Member, filterTeam: string)
    ensures filterTeam == "has_team" ==> (TeamMatches(m, filterTeam) <==> HasActiveTeam(m))
    ensures filterTeam == "no_team" ==> (TeamMatches(m, filterTeam) <==> HasNoTeam(m))
    ensures filterTeam !in {"all", "has_team", "no_team"} ==> !TeamMatches(m, filterTeam)
  {
    if m.teamParticipation.Some? {
      var ts := m.teamParticipation.value;
      if filterTeam == "has_team" {
        if Seqs.Some(ts, (t: TeamParticipation) => t.isActive) {
          var i :| 0 <= i < |ts| && ts[i].isActive;
          var p := (t: TeamParticipation) => t.isActive && filterTeam == "has_team";
          assert p(ts[i]);
        }
      }
    }
  }

  /** A member whose participations are all inactive passes neither `has_team` nor `no_team`. */
  lemma OnlyInactiveTeamsPassNeither(m: Member)
    requires m.teamParticipation.Some? && |m.teamParticipation.value| > 0
    requires forall i :: 0 <= i < |m.teamParticipation.value| ==> !m.teamParticipation.value[i].isActive
    ensures !TeamMatches(m, "has_team") && !TeamMatches(m, "no_team")
  {
    TeamFilterMeaning(m, "has_team");
    TeamFilterMeaning(m, "no_team");
  }

  /** With both filters at `all`, the list is shown whole; in every case the order is kept. */
  lemma FilteredMembersShape(state: MembersState, filterStatus: string, filterTeam: string)
    ensures FilteredMembers(state, "all", "all") == GuardedMembers(state)
    ensures IsSubsequence(FilteredMembers(state, filterStatus, filterTeam), GuardedMembers(state))
  {
    FilterAllPass(GuardedMembers(state), m => MemberMatches(m, "all", "all"));
    FilterIsSubsequence(GuardedMembers(state), m => MemberMatches(m, filterStatus, filterTeam));
  }

  /** A non-`all` status filter keeps exactly the members with that status (the team filter at `all`). */
  lemma StatusFilterExactly(state: MembersState, filterStatus: string, m: Member)
    requires filterStatus != "all"
    ensures m in FilteredMembers(state, filterStatus, "all") <==> m in GuardedMembers(state) && m.membershipStatus == filterStatus
  {
    FilterKeeps(GuardedMembers(state), m => MemberMatches(m, filterStatus, "all"), m);
  }

  /** The users the page keeps after a load: only those of type `Member`. */
  function MemberUsers(users: seq<MemberUser>): (r: seq<MemberUser>)
    ensures forall u :: u in r ==> u in users && u.userType == "Member"
  {
    Filter(users, (u: MemberUser) => u.userType == "Member")
  }

  lemma MemberUsersExactly(users: seq<MemberUser>, u: MemberUser)
    ensures u in MemberUsers(users) <==> u in users && u.userType == "Member"
  {
    FilterKeeps(users, (u: MemberUser) => u.userType == "Member", u);
  }

  /** The users the create dialog offers: no member points to them yet. `None`: the `members` state is not an array and the render fails. */
  function SelectableUsers(users: seq<MemberUser>, state: MembersState): (r: Option<seq<MemberUser>>)
    ensures r.None? <==> state.NotAnArray?
    ensures r.Some? ==> forall u :: u in r.value ==> u in users
  {
    match state
    case NotAnArray => None
    case MemberArray(members) => Some(Filter(users, (u: MemberUser) => !Seqs.Some(members, (m: Member) => m.userId == u.userId)))
  }

  lemma SelectableUsersExactly(users: seq<MemberUser>, members: seq<Member>, u: MemberUser)
    ensures u in SelectableUsers(users, MemberArray(members)).value <==>
      u in users && forall i :: 0 <= i < |members| ==> members[i].userId != u.userId
  {
    FilterKeeps(users, (u: MemberUser) => !Seqs.Some(members, (m: Member) => m.userId == u.userId), u);
  }

  /** A spiritual-gift checkbox: checking appends the gift, unchecking removes every occurrence of it. */
  function ToggleGift(current: Option<seq<string>>, gift: string, checked: bool): (r: seq<string>)
    ensures checked ==> r == current.GetOr([]) + [gift]
    ensures !checked ==> gift !in r && |r| <= |current.GetOr([])|
    ensures !checked ==> forall g :: g != gift ==> (g in r <==> g in current.GetOr([]))
  {
    var gifts := current.GetOr([]);
    if checked then gifts + [gift]
    else
      var r := Filter(gifts, g => g != gift);
      assert forall g :: g != gift ==> (g in r <==> g in gifts) by {
        forall g | g != gift
          ensures g in r <==> g in gifts
        {
          FilterKeeps(gifts, g => g != gift, g);
        }
      }
      r
  }

  /** Unchecking keeps the other gifts in their order. */
  lemma UncheckKeepsOrder(current: Option<seq<string>>, gift: string)
    ensures IsSubsequence(ToggleGift(current, gift, false), current.GetOr([]))
  {
    FilterIsSubsequence(current.GetOr([]), g => g != gift);
  }

  /** The collection path the create posts to; an update and a delete append the id to it. */
  const MemberCollection := "/members/members"

  /** The URL an update and a delete of a member are sent to, with no separator before the id. */
  function MemberUrl(memberId: int): (url: string)
    ensures |url| > |MemberCollection| && url[..|MemberCollection|] == MemberCollection
  {
    MemberCollection + IntToString(memberId)
  }

  /** What follows the collection path reads back as the member's id, so distinct members get distinct URLs. */
  lemma MemberUrlNamesMember(memberId: int, otherId: int)
    ensures ParseInt(MemberUrl(memberId)[|MemberCollection|..]) == Some(memberId)
    ensures MemberUrl(memberId) == MemberUrl(otherId) <==> memberId == otherId
  {
    assert MemberUrl(memberId)[|MemberCollection|..] == IntToString(memberId);
    assert MemberUrl(otherId)[|MemberCollection|..] == IntToString(otherId);
    IntToStringRoundTrip(memberId);
    IntToStringInjective(memberId, otherId);
  }

  /** The page's `members` list. */
  class MemberList {
    var members: seq<Member>

    constructor (members: seq<Member>)
      ensures this.members == members
    {
      this.members := members;
    }

    /** After a save, a team submit or a team removal: each member with that id becomes the server's record. */
    method Replace(memberId: int, record: Member)
      modifies this
      ensures members == ReplaceWhere(old(members), (m: Member) => m.memberId == memberId, record)
    {
      members := ReplaceWhere(members, (m: Member) => m.memberId == memberId, record);
    }

    /** After a create: the server's record goes at the end. */
    method Append(record: Member)
      modifies this
      ensures members == old(members) + [record]
    {
      members := members + [record];
    }

    /** After a delete: every member with that id goes. */
    method Delete(memberId: int)
      modifies this
      ensures members == Filter(old(members), (m: Member) => m.memberId != memberId)
    {
      members := Filter(members, (m: Member) => m.memberId != memberId);
    }
  }

  /** A delete removes exactly the members with that id and keeps the rest in order. */
  lemma DeleteRemovesExactly(members: seq<Member>, memberId: int, m: Member)
    ensures m in Filter(members, (x: Member) => x.memberId != memberId) <==> m in members && m.memberId != memberId
    ensures IsSubsequence(Filter(members, (x: Member) => x.memberId != memberId), members)
  {
    FilterKeeps(members, (x: Member) => x.memberId != memberId, m);
    FilterIsSubsequence(members, (x: Member) => x.memberId != memberId);
  }
}
