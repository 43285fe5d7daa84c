/**
 * The admin staff page: the filter pipeline, the local list updates after
 * a save or delete, the qualification editors, the users the create
 * dialog offers, and the badge styles.
 *
 * A staff record's qualifications are a JavaScript array that records
 * share by reference; `QualificationList` is that array, so the model
 * keeps the difference between the editor that pushes into the existing
 * array and the one that builds a new array.
 */
module StaffPage {
  import opened Wrappers
  import opened Text
  import opened Seqs
  import opened Badges

  datatype StaffUser = StaffUser(userId: int, firstName: string, lastName: string, email: string)

  datatype Qualification = Qualification(kind: string, name: string, institution: string, dateEarned: string)

  /** A qualifications array, updated in place by `push`. */
  class QualificationList {
    var items: seq<Qualification>

    constructor (items: seq<Qualification>)
      ensures this.items == items
    {
      this.items := items;
    }

    method Push(q: Qualification)
      modifies this
      ensures items == old(items) + [q]
    {
      items := items + [q];
    }
  }

  datatype Staff = Staff(
    staffId: int,
    userId: int,
    user: Option<StaffUser>,
    position: string,
    ministryId: Option<int>,
    employmentType: string,
    isActive: bool,
    qualifications: Option<QualificationList>)

  /** A template-literal piece that may be `undefined`. */
  function Interpolate(v: Option<string>): string
  {
    v.GetOr("undefined")
  }

  /** `${user?.first_name} ${user?.last_name}`: a record without a user reads "undefined undefined". */
  function FullName(s: Staff): (name: string)
    ensures s.user.None? ==> name == "undefined undefined"
    ensures s.user.Some? ==> name == s.user.value.firstName + " " + s.user.value.lastName
  {
    Interpolate(if s.user.Some? then Some(s.user.value.firstName) else None) + " "
      + Interpolate(if s.user.Some? then Some(s.user.value.lastName) else None)
  }

  /** The search: the query, ignoring case, occurs in the full name, the user's email or the position. */
  predicate SearchMatches(s: Staff, query: string)
  {
    Includes(ToLower(FullName(s)), ToLower(query))
    || (s.user.Some? && Includes(ToLower(s.user.value.email), ToLower(query)))
    || Includes(ToLower(s.position), ToLower(query))
  }

  /** The status filter: `active` keeps active staff, any other value inactive staff. */
  predicate StatusMatches(s: Staff, filterStatus: string)
  {
    if filterStatus == "active" then s.isActive else !s.isActive
  }

  predicate EmploymentMatches(s: Staff, filterEmployment: string)
  {
    s.employmentType == filterEmployment
  }

  /** `ministry_id?.toString() === filter`: a record without a ministry never matches. */
  predicate MinistryMatches(s: Staff, filterMinistry: string)
  {
    s.ministryId.Some? && IntToString(s.ministryId.value) == filterMinistry
  }

  /** A record passes the whole pipeline: each stage that is switched on keeps it. */
  predicate StaffMatches(s: Staff, query: string, filterStatus: string, filterEmployment: string, filterMinistry: string)
  {
    (query == "" || SearchMatches(s, query))
    && (filterStatus == "all" || StatusMatches(s, filterStatus))
    && (filterEmployment == "all" || EmploymentMatches(s, filterEmployment))
    && (filterMinistry == "all" || MinistryMatches(s, filterMinistry))
  }

  /** The filter effect: the list narrowed stage by stage, as one filter by the conjunction. */
  method FilterStaff(staff: seq<Staff>, query: string, filterStatus: string, filterEmployment: string, filterMinistry: string)
    returns (filtered: seq<Staff>)
    ensures filtered == Filter(staff, s => StaffMatches(s, query, filterStatus, filterEmployment, filterMinistry))
  {
    ghost var acc0: Staff -> bool := _ => true;
    ghost var acc1: Staff -> bool := s => acc0(s) && (query == "" || SearchMatches(s, query));
    ghost var acc2: Staff -> bool := s => acc1(s) && (filterStatus == "all" || StatusMatches(s, filterStatus));
    ghost var acc3: Staff -> bool := s => acc2(s) && (filterEmployment == "all" || EmploymentMatches(s, filterEmployment));
    ghost var acc4: Staff -> bool := s => acc3(s) && (filterMinistry == "all" || MinistryMatches(s, filterMinistry));
    FilterAllPass(staff, acc0);
    filtered := staff;
    ghost var before := filtered;
    if query != "" {
      filtered := Filter(filtered, s => SearchMatches(s, query));
    }
    FilterStep(staff, acc0, s => SearchMatches(s, query), s => query == "" || SearchMatches(s, query), acc1,
               query != "", before, filtered);
    before := filtered;
    if filterStatus != "all" {
      filtered := Filter(filtered, s => StatusMatches(s, filterStatus));
    }
    FilterStep(staff, acc1, s => StatusMatches(s, filterStatus), s => filterStatus == "all" || StatusMatches(s, filterStatus), acc2,
               filterStatus != "all", before, filtered);
    before := filtered;
    if filterEmployment != "all" {
      filtered := Filter(filtered, s => EmploymentMatches(s, filterEmployment));
    }
    FilterStep(staff, acc2, s => EmploymentMatches(s, filterEmployment), s => filterEmployment == "all" || EmploymentMatches(s, filterEmployment), acc3,
               filterEmployment != "all", before, filtered);
    before := filtered;
    if filterMinistry != "all" {
      filtered := Filter(filtered, s => MinistryMatches(s, filterMinistry));
    }
    FilterStep(staff, acc3, s => MinistryMatches(s, filterMinistry), s => filterMinistry == "all" || MinistryMatches(s, filterMinistry), acc4,
               filterMinistry != "all", before, filtered);
    FilterCongruent(staff, acc4, s => StaffMatches(s, query, filterStatus, filterEmployment, filterMinistry));
  }

  /** With an empty search and every filter at `all`, the whole list is shown. */
  lemma NoFilterShowsAllStaff(staff: seq<Staff>)
    ensures Filter(staff, s => StaffMatches(s, "", "all", "all", "all")) == staff
  {
    FilterAllPass(staff, s => StaffMatches(s, "", "all", "all", "all"));
  }

  /** The pipeline keeps order, and keeps a record exactly when every switched-on stage does. */
  lemma FilterStaffExactly(staff: seq<Staff>, query: string, filterStatus: string, filterEmployment: string, filterMinistry: string, s: Staff)
    ensures IsSubsequence(Filter(staff, x => StaffMatches(x, query, filterStatus, filterEmployment, filterMinistry)), staff)
    ensures s in Filter(staff, x => StaffMatches(x, query, filterStatus, filterEmployment, filterMinistry)) <==>
      s in staff && (query == "" || SearchMatches(s, query))
      && (filterStatus == "all" || (filterStatus == "active" && s.isActive) || (filterStatus != "active" && !s.isActive))
      && (filterEmployment == "all" || s.employmentType == filterEmployment)
      && (filterMinistry == "all" || (s.ministryId.Some? && IntToString(s.ministryId.value) == filterMinistry))
  {
    FilterIsSubsequence(staff, x => StaffMatches(x, query, filterStatus, filterEmployment, filterMinistry));
    FilterKeeps(staff, x => StaffMatches(x, query, filterStatus, filterEmployment, filterMinistry), s);
  }

  /** A ministry filter value names at most one ministry id. */
  lemma MinistryFilterNamesOneId(a: Staff, b: Staff, filterMinistry: string)
    requires MinistryMatches(a, filterMinistry) && MinistryMatches(b, filterMinistry)
    ensures a.ministryId == b.ministryId
  {
    IntToStringInjective(a.ministryId.value, b.ministryId.value);
  }

  /** A record without a user matches the query "undefined", through the text of its missing name. */
  lemma UserlessRecordMatchesUndefined(s: Staff)
    requires s.user.None?
    ensures SearchMatches(s, "undefined")
  {
    var name := ToLower(FullName(s));
    assert name[..9] == "undefined";
    assert OccursAt(name, ToLower("undefined"), 0);
  }

  /** `filter((_, index) => index !== i)`: drops the entry at index `i`, if there is one. */
  function WithoutIndex<T>(s: seq<T>, i: int): (r: seq<T>)
    ensures 0 <= i < |s| ==> |r| == |s| - 1 && (forall j :: 0 <= j < |r| ==> r[j] == if j < i then s[j] else s[j + 1])
    ensures !(0 <= i < |s|) ==> r == s
  {
    if 0 <= i < |s| then s[..i] + s[i + 1..] else s
  }

  /** The contents of a record's qualifications array; none when it has no array. */
  function ItemsOf(s: Staff): seq<Qualification>
    reads if s.qualifications.Some? then {s.qualifications.value} else {}
  {
    if s.qualifications.Some? then s.qualifications.value.items else []
  }

  const StaffCollection := "/staff/staff"

  /** The update URL as the save handler builds it: the id follows the collection path with no separator. */
  function UpdateUrl(staffId: int): (url: string)
    ensures |url| > |StaffCollection| && url[..|StaffCollection|] == StaffCollection
  {
    StaffCollection + IntToString(staffId)
  }

  /** The id is still recoverable from the URL: what follows the collection path reads back as the record's id. */
  lemma UpdateUrlNamesRecord(staffId: int)
    ensures ParseInt(UpdateUrl(staffId)[|StaffCollection|..]) == Some(staffId)
  {
    assert UpdateUrl(staffId)[|StaffCollection|..] == IntToString(staffId);
    IntToStringRoundTrip(staffId);
  }

  /** Two records are apart: different ids and no shared qualifications array. */
  predicate Apart(a: Staff, b: Staff)
  {
    a.staffId != b.staffId
    && (a.qualifications.Some? && b.qualifications.Some? ==> a.qualifications.value != b.qualifications.value)
  }

  /** The users the create dialog offers: staff-type users that no staff record points to yet. */
  datatype Candidate = Candidate(userId: int, firstName: string, lastName: string, email: string, userType: string)

  function EligibleUsers(users: seq<Candidate>, staff: seq<Staff>): (r: seq<Candidate>)
    ensures forall u :: u in r ==> u in users && u.userType == "Staff"
  {
    Filter(users, (u: Candidate) => u.userType == "Staff" && !Seqs.Some(staff, (s: Staff) => s.userId == u.userId))
  }

  lemma EligibleUsersExactly(users: seq<Candidate>, staff: seq<Staff>, u: Candidate)
    ensures u in EligibleUsers(users, staff) <==>
      u in users && u.userType == "Staff" && forall i :: 0 <= i < |staff| ==> staff[i].userId != u.userId
  {
    FilterKeeps(users, (u: Candidate) => u.userType == "Staff" && !Seqs.Some(staff, (s: Staff) => s.userId == u.userId), u);
  }

  /** `getEmploymentVariant`. */
  function GetEmploymentVariant(employmentType: string): (v: Variant)
    ensures v == Default <==> employmentType == "full-time"
    ensures v == Secondary <==> employmentType == "part-time"
    ensures v == Outline <==> employmentType !in {"full-time", "part-time"}
  {
    match employmentType
    case "full-time" => Default
    case "part-time" => Secondary
    case "volunteer" => Outline
    case _ => Outline
  }

  /** `getStatusVariant`, by the active flag. */
  function GetStatusVariant(isActive: bool): (v: Variant)
    ensures isActive <==> v == Default
    ensures !isActive <==> v == Secondary
  {
    if isActive then Default else Secondary
  }

  /** The page's `staff` state. */
  class StaffList {
    var staff: seq<Staff>

    /** The qualifications arrays the records hold. */
    ghost function Lists(): set<QualificationList>
      reads this
    {
      set i | 0 <= i < |staff| && staff[i].qualifications.Some? :: staff[i].qualifications.value
    }

    /** Records come from the server: distinct ids, and each holds its own array. */
    ghost predicate Valid()
      reads this
    {
      Pairwise(staff, Apart)
    }

    constructor (staff: seq<Staff>)
      requires Pairwise(staff, Apart)
      ensures this.staff == staff && Valid()
    {
      this.staff := staff;
    }

    /** The local update after an edit: the record with the edited id is replaced by the server's record. */
    method Replace(staffId: int, updated: Staff)
      requires Valid()
      requires updated.qualifications.Some? ==> updated.qualifications.value !in Lists()
      requires forall i :: 0 <= i < |staff| && staff[i].staffId != staffId ==> staff[i].staffId != updated.staffId
      modifies this
      ensures staff == ReplaceWhere(old(staff), (s: Staff) => s.staffId == staffId, updated)
      ensures Valid()
    {
      staff := ReplaceWhere(staff, (s: Staff) => s.staffId == staffId, updated);
    }

    /** The local update after a create: the server's record goes at the end. */
    method Append(created: Staff)
      requires Valid()
      requires created.qualifications.Some? ==> created.qualifications.value !in Lists()
      requires forall i :: 0 <= i < |staff| ==> staff[i].staffId != created.staffId
      modifies this
      ensures staff == old(staff) + [created]
      ensures Valid()
    {
      staff := staff + [created];
    }

    /** The local update after a delete: every record with that id goes. */
    method Delete(staffId: int)
      requires Valid()
      modifies this
      ensures staff == Filter(old(staff), (s: Staff) => s.staffId != staffId)
      ensures Valid()
    {
      FilterPairwise(staff, (s: Staff) => s.staffId != staffId, Apart);
      staff := Filter(staff, (s: Staff) => s.staffId != staffId);
    }

    /**
     * `onQualificationSubmit`: the selected record's array gets `q` pushed
     * onto it in place (a record without one gets a new array); every other
     * record, and its array, is left as it was.
     */
    method AddQualification(selected: Option<int>, q: Qualification)
      requires Valid()
      modifies this, Lists()
      ensures Valid()
      ensures selected.None? ==> staff == old(staff) && unchanged(old(Lists()))
      ensures |staff| == |old(staff)|
      ensures selected.Some? ==> forall i :: 0 <= i < |staff| ==>
        if old(staff[i].staffId) == selected.value then
          staff[i].qualifications.Some?
          && staff[i] == old(staff[i]).(qualifications := staff[i].qualifications)
          && staff[i].qualifications.value.items == old(ItemsOf(staff[i])) + [q]
          && (old(staff[i].qualifications).Some? ==> staff[i].qualifications == old(staff[i].qualifications))
          && (old(staff[i].qualifications).None? ==> fresh(staff[i].qualifications.value))
        else
          staff[i] == old(staff[i])
          && (staff[i].qualifications.Some? ==> staff[i].qualifications.value.items == old(staff[i].qualifications.value.items))
    {
      if selected.None? {
        return;
      }
      var id := selected.value;
      var records := staff;
      var updated: seq<Staff> := [];
      for i := 0 to |records|
        invariant |updated| == i
        invariant forall j :: i <= j < |records| && records[j].qualifications.Some? ==>
          records[j].qualifications.value.items == old(records[j].qualifications.value.items)
        invariant forall j :: 0 <= j < i ==>
          if records[j].staffId == id then
            updated[j].qualifications.Some?
            && updated[j] == records[j].(qualifications := updated[j].qualifications)
            && updated[j].qualifications.value.items == old(ItemsOf(records[j])) + [q]
            && (records[j].qualifications.Some? ==> updated[j].qualifications == records[j].qualifications)
            && (records[j].qualifications.None? ==> fresh(updated[j].qualifications.value))
          else
            updated[j] == records[j]
            && (records[j].qualifications.Some? ==> records[j].qualifications.value.items == old(records[j].qualifications.value.items))
        invariant forall j, k :: 0 <= j < k < i && updated[j].qualifications.Some? && updated[k].qualifications.Some? ==>
          updated[j].qualifications.value != updated[k].qualifications.value
      {
        var record := records[i];
        if record.staffId == id {
          var existing: QualificationList;
          if record.qualifications.Some? {
            existing := record.qualifications.value;
          } else {
            existing := new QualificationList([]);
          }
          existing.Push(q);
          updated := updated + [record.(qualifications := Some(existing))];
        } else {
          updated := updated + [record];
        }
      }
      staff := updated;
    }

    /**
     * `removeQualification`: the record with `staffId` gets a new array
     * without the entry at `index` (or an empty one if it had none); no
     * existing array changes.
     */
    method RemoveQualification(staffId: int, index: int)
      requires Valid()
      modifies this
      ensures Valid()
      ensures |staff| == |old(staff)|
      ensures forall i :: 0 <= i < |staff| ==>
        if old(staff[i].staffId) == staffId then
          staff[i].qualifications.Some? && fresh(staff[i].qualifications.value)
          && staff[i] == old(staff[i]).(qualifications := staff[i].qualifications)
          && staff[i].qualifications.value.items == WithoutIndex(old(ItemsOf(staff[i])), index)
        else
          staff[i] == old(staff[i])
    {
      var records := staff;
      var updated: seq<Staff> := [];
      for i := 0 to |records|
        invariant |updated| == i
        invariant forall j :: 0 <= j < i ==>
          if records[j].staffId == staffId then
            updated[j].qualifications.Some? && fresh(updated[j].qualifications.value)
            && updated[j] == records[j].(qualifications := updated[j].qualifications)
            && updated[j].qualifications.value.items == WithoutIndex(old(ItemsOf(records[j])), index)
          else
            updated[j] == records[j]
        invariant forall j, k :: 0 <= j < k < i && updated[j].qualifications.Some? && updated[k].qualifications.Some? ==>
          updated[j].qualifications.value != updated[k].qualifications.value
      {
        var record := records[i];
        if record.staffId == staffId {
          var remaining := new QualificationList(WithoutIndex(ItemsOf(record), index));
          updated := updated + [record.(qualifications := Some(remaining))];
        } else {
          updated := updated + [record];
        }
      }
      staff := updated;
    }
  }
}
