/**
 * The admin ministry page: the search and type filter, the type badge
 * and the four stats cards.
 */
module MinistryPage {
  import opened Text
  import opened Seqs
  import opened Badges

  datatype Ministry = Ministry(ministryId: int, name: string, kind: string, description: string)

  /** The search: the query, ignoring case, occurs in the name or the description. */
  predicate SearchMatches(m: Ministry, query: string)
  {
    Includes(ToLower(m.name), ToLower(query)) || Includes(ToLower(m.description), ToLower(query))
  }

  /** The type filter: equal ignoring case. */
  predicate TypeMatches(m: Ministry, filterType: string)
  {
    ToLower(m.kind) == ToLower(filterType)
  }

  predicate MinistryMatches(m: Ministry, query: string, filterType: string)
  {
    (query == "" || SearchMatches(m, query)) && (filterType == "all" || TypeMatches(m, filterType))
  }

  /** The filter effect: search, then type, as one filter by the conjunction. */
  method FilterMinistries(ministries: seq<Ministry>, query: string, filterType: string) returns (result: seq<Ministry>)
    ensures result == Filter(ministries, m => MinistryMatches(m, query, filterType))
  {
    ghost var acc0: Ministry -> bool := _ => true;
    ghost var acc1: Ministry -> bool := m => acc0(m) && (query == "" || SearchMatches(m, query));
    ghost var acc2: Ministry -> bool := m => acc1(m) && (filterType == "all" || TypeMatches(m, filterType));
    FilterAllPass(ministries, acc0);
    result := ministries;
    ghost var before := result;
    if query != "" {
      result := Filter(result, m => SearchMatches(m, query));
    }
    FilterStep(ministries, acc0, m => SearchMatches(m, query), m => query == "" || SearchMatches(m, query), acc1,
               query != "", before, result);
    before := result;
    if filterType != "all" {
      result := Filter(result, m => TypeMatches(m, filterType));
    }
    FilterStep(ministries, acc1, m => TypeMatches(m, filterType), m => filterType == "all" || TypeMatches(m, filterType), acc2,
               filterType != "all", before, result);
    FilterCongruent(ministries, acc2, m => MinistryMatches(m, query, filterType));
  }

  /** With an empty search and type `all` every ministry is shown; in every case order is kept. */
  lemma FilterShape(ministries: seq<Ministry>, query: string, filterType: string)
    ensures Filter(ministries, m => MinistryMatches(m, "", "all")) == ministries
    ensures IsSubsequence(Filter(ministries, m => MinistryMatches(m, query, filterType)), ministries)
  {
    FilterAllPass(ministries, m => MinistryMatches(m, "", "all"));
    FilterIsSubsequence(ministries, m => MinistryMatches(m, query, filterType));
  }

  /** A ministry is shown exactly when the search and the case-insensitive type test keep it. */
  lemma FilterExactly(ministries: seq<Ministry>, query: string, filterType: string, m: Ministry)
    ensures m in Filter(ministries, x => MinistryMatches(x, query, filterType)) <==>
      m in ministries
      && (query == "" || Includes(ToLower(m.name), ToLower(query)) || Includes(ToLower(m.description), ToLower(query)))
      && (filterType == "all" || ToLower(m.kind) == ToLower(filterType))
  {
    FilterKeeps(ministries, x => MinistryMatches(x, query, filterType), m);
  }

  /** The type filter does not see case: a filter value and its lower-case form keep the same ministries. */
  lemma TypeFilterIgnoresCase(m: Ministry, filterType: string)
    ensures TypeMatches(m, filterType) <==> TypeMatches(m, ToLower(filterType))
  {
    ToLowerIdempotent(filterType);
  }

  /** `getMinistryTypeVariant`, on the lower-cased type. */
  function GetMinistryTypeVariant(kind: string): (v: Variant)
    ensures ToLower(kind) == "music" ==> v == Secondary
    ensures ToLower(kind) in {"youth", "education"} ==> v == Default
    ensures ToLower(kind) == "spiritual" ==> v == Destructive
    ensures ToLower(kind) !in {"music", "youth", "spiritual", "education"} ==> v == Outline
  {
    match ToLower(kind)
    case "music" => Secondary
    case "youth" => Default
    case "community" => Outline
    case "spiritual" => Destructive
    case "education" => Default
    case _ => Outline
  }

  /** The badge does not see case. */
  lemma MinistryTypeVariantIgnoresCase(kind: string)
    ensures GetMinistryTypeVariant(kind) == GetMinistryTypeVariant(ToLower(kind))
  {
    ToLowerIdempotent(kind);
  }

  /** The stats cards: the total and the exact, case-sensitive counts of three types. */
  datatype Stats = Stats(total: nat, music: nat, spiritual: nat, youth: nat)

  function ComputeStats(ministries: seq<Ministry>): (r: Stats)
    ensures r.total == |ministries|
    ensures r.music == |Filter(ministries, (m: Ministry) => m.kind == "Music")|
    ensures r.spiritual == |Filter(ministries, (m: Ministry) => m.kind == "Spiritual")|
    ensures r.youth == |Filter(ministries, (m: Ministry) => m.kind == "Youth")|
  {
    Stats(|ministries|,
          Count(ministries, (m: Ministry) => m.kind == "Music"),
          Count(ministries, (m: Ministry) => m.kind == "Spiritual"),
          Count(ministries, (m: Ministry) => m.kind == "Youth"))
  }

  /** The "Music" card never counts more than the `music` type filter shows, and a lower-case `music` ministry shows the gap. */
  lemma MusicCardVersusFilter(ministries: seq<Ministry>)
    ensures ComputeStats(ministries).music <= |Filter(ministries, m => MinistryMatches(m, "", "music"))|
    ensures var one := [Ministry(1, "Choir", "music", "")];
      ComputeStats(one).music == 0 && |Filter(one, m => MinistryMatches(m, "", "music"))| == 1
  {
    forall m: Ministry | m.kind == "Music"
      ensures MinistryMatches(m, "", "music")
    {
      assert ToLower(m.kind) == "music";
      assert ToLower("music") == "music";
    }
    FilterMonotone(ministries, (m: Ministry) => m.kind == "Music", m => MinistryMatches(m, "", "music"));
    var one := [Ministry(1, "Choir", "music", "")];
    assert ToLower("music") == "music";
    assert MinistryMatches(one[0], "", "music");
    assert Filter(one, m => MinistryMatches(m, "", "music")) == one;
  }
}
