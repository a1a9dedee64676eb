/** The missions store (src/stores/missions.ts): the catalogue of job postings and the
    applications made to them, the derived open/urgent/by-type views, the
    multi-criteria search, and submitting an application. */
module Missions {
  import opened Wrappers
  import opened Seqs
  import opened Text
  import opened Entities

  // ---------------------------------------------------------------------------
  // Derived views

  predicate IsOpen(m: Mission) {
    m.status == Open
  }

  /** `openMissions`: the missions whose status is `'open'`, in catalogue order. */
  function OpenMissions(missions: seq<Mission>): (r: seq<Mission>)
    ensures forall i :: 0 <= i < |r| ==> r[i] in missions && r[i].status == Open
    ensures forall i :: 0 <= i < |missions| && missions[i].status == Open ==> missions[i] in r
  {
    Filter(missions, IsOpen)
  }

  /** The urgency tags `urgentMissions` accepts. */
  predicate IsUrgentTag(m: Mission) {
    m.urgency == Some(Immediate) || m.urgency == Some(SameDay)
  }

  /** `urgentMissions`: the open missions tagged `'immediate'` or `'same-day'`. */
  function UrgentMissions(missions: seq<Mission>): seq<Mission> {
    Filter(OpenMissions(missions), IsUrgentTag)
  }

  predicate IsOpenAndUrgent(m: Mission) {
    m.status == Open && IsUrgentTag(m)
  }

  /** `urgentMissions` keeps exactly the open missions with an immediate or same-day tag, in order. */
  lemma UrgentMissionsSpec(missions: seq<Mission>)
    ensures UrgentMissions(missions) == Filter(missions, IsOpenAndUrgent)
  {
    FilterTwice(missions, IsOpen, IsUrgentTag, IsOpenAndUrgent);
  }

  /** The missions of one type, in order. */
  function TypeIs(t: MissionType): Mission -> bool {
    (m: Mission) => m.missionType == t
  }

  /** The `reduce` that groups missions by type: each mission is appended to its type's group,
      creating the group on first use. */
  function GroupByType(missions: seq<Mission>): map<MissionType, seq<Mission>>
    decreases |missions|
  {
    if missions == [] then map[]
    else
      var acc := GroupByType(missions[..|missions| - 1]);
      var m := missions[|missions| - 1];
      acc[m.missionType := (if m.missionType in acc then acc[m.missionType] else []) + [m]]
  }

  /** `missionsByType`: the open missions grouped by type. */
  function MissionsByType(missions: seq<Mission>): map<MissionType, seq<Mission>> {
    GroupByType(OpenMissions(missions))
  }

  /** A type has a group exactly when some mission has that type. */
  lemma {:induction false} GroupByTypeKeys(missions: seq<Mission>)
    ensures forall t :: t in GroupByType(missions) <==> exists i :: 0 <= i < |missions| && missions[i].missionType == t
    decreases |missions|
  {
    if missions != [] {
      var init, m := missions[..|missions| - 1], missions[|missions| - 1];
      GroupByTypeKeys(init);
      forall t ensures t in GroupByType(missions) <==> exists i :: 0 <= i < |missions| && missions[i].missionType == t {
        if t in GroupByType(init) {
          var i :| 0 <= i < |init| && init[i].missionType == t;
          assert missions[i] == init[i];
        }
        if exists i :: 0 <= i < |missions| && missions[i].missionType == t {
          var i :| 0 <= i < |missions| && missions[i].missionType == t;
          if i < |init| {
            assert init[i] == missions[i];
          }
        }
      }
    }
  }

  /** Each group holds exactly the missions of its type, in their original order. */
  lemma {:induction false} GroupByTypeGroups(missions: seq<Mission>)
    ensures forall t :: t in GroupByType(missions) ==> GroupByType(missions)[t] == Filter(missions, TypeIs(t))
    decreases |missions|
  {
    if missions != [] {
      var init, m := missions[..|missions| - 1], missions[|missions| - 1];
      assert missions == init + [m];
      GroupByTypeKeys(init);
      GroupByTypeGroups(init);
      forall t | t in GroupByType(missions)
        ensures GroupByType(missions)[t] == Filter(missions, TypeIs(t))
      {
        FilterAppend(init, [m], TypeIs(t));
        if t != m.missionType {
          assert Filter([m], TypeIs(t)) == [];
        } else if t !in GroupByType(init) {
          FilterNone(init, TypeIs(t));
        }
      }
    }
  }

  /** The grouping is a partition: a type has a group exactly when some mission has that type,
      the group holds exactly the missions of that type in their original order, and it is never empty. */
  lemma GroupByTypeSpec(missions: seq<Mission>)
    ensures forall t :: t in GroupByType(missions) <==> exists i :: 0 <= i < |missions| && missions[i].missionType == t
    ensures forall t :: t in GroupByType(missions) ==> GroupByType(missions)[t] == Filter(missions, TypeIs(t))
    ensures forall t :: t in GroupByType(missions) ==> |GroupByType(missions)[t]| > 0
  {
    GroupByTypeKeys(missions);
    GroupByTypeGroups(missions);
    forall t | t in GroupByType(missions)
      ensures |GroupByType(missions)[t]| > 0
    {
      var i :| 0 <= i < |missions| && missions[i].missionType == t;
      assert missions[i] in Filter(missions, TypeIs(t));
    }
  }

  /** `missionsByType` partitions `openMissions`: every open mission is in the group of its type,
      in `openMissions` order, and no group is empty. */
  lemma MissionsByTypeSpec(missions: seq<Mission>)
    ensures forall t :: t in MissionsByType(missions) <==> exists m :: m in missions && m.status == Open && m.missionType == t
    ensures forall t :: t in MissionsByType(missions) ==> MissionsByType(missions)[t] == Filter(OpenMissions(missions), TypeIs(t))
    ensures forall t :: t in MissionsByType(missions) ==> |MissionsByType(missions)[t]| > 0
  {
    var open := OpenMissions(missions);
    GroupByTypeSpec(open);
    forall t ensures t in MissionsByType(missions) <==> exists m :: m in missions && m.status == Open && m.missionType == t {
      if exists m :: m in missions && m.status == Open && m.missionType == t {
        var m :| m in missions && m.status == Open && m.missionType == t;
        var i :| 0 <= i < |missions| && missions[i] == m;
        var j :| 0 <= j < |open| && open[j] == m;
      }
    }
  }

  // ---------------------------------------------------------------------------
  // Search

  /** The search criteria; an empty string, a zero bound or `false` is a filter that is not set. */
  datatype SearchFilters = SearchFilters(
    position: string,
    missionType: string,
    location: string,
    minRate: int,
    maxRate: int,
    urgentOnly: bool)

  function HasPosition(position: string): Mission -> bool {
    (m: Mission) => PositionName(m.position) == position
  }

  function HasType(missionType: string): Mission -> bool {
    (m: Mission) => MissionTypeName(m.missionType) == missionType
  }

  function InCity(location: string): Mission -> bool {
    (m: Mission) => Contains(LowerAscii(m.location.city), LowerAscii(location))
  }

  function RateAtLeast(minRate: int): Mission -> bool {
    (m: Mission) => m.hourlyRate >= minRate
  }

  function RateAtMost(maxRate: int): Mission -> bool {
    (m: Mission) => m.hourlyRate <= maxRate
  }

  predicate HasAnyUrgency(m: Mission) {
    m.urgency.Some?
  }

  /** `searchMissions`: start from the open missions and narrow by each filter that is set. */
  function SearchMissions(missions: seq<Mission>, filters: SearchFilters): seq<Mission> {
    var f0 := OpenMissions(missions);
    var f1 := if filters.position != "" then Filter(f0, HasPosition(filters.position)) else f0;
    var f2 := if filters.missionType != "" then Filter(f1, HasType(filters.missionType)) else f1;
    var f3 := if filters.location != "" then Filter(f2, InCity(filters.location)) else f2;
    var f4 := if filters.minRate != 0 then Filter(f3, RateAtLeast(filters.minRate)) else f3;
    var f5 := if filters.maxRate != 0 then Filter(f4, RateAtMost(filters.maxRate)) else f4;
    var f6 := if filters.urgentOnly then Filter(f5, HasAnyUrgency) else f5;
    f6
  }

  /** What a mission must satisfy to be found: open, and every filter that is set holds
      (exact position and type, case-insensitive city substring, inclusive rate bounds,
      some urgency tag). */
  predicate Matches(filters: SearchFilters, m: Mission) {
    MatchesUpTo(filters, 6, m)
  }

  /** The conjunction of "open" and the first `k` filters of the chain. */
  predicate MatchesUpTo(filters: SearchFilters, k: nat, m: Mission) {
    && m.status == Open
    && (k < 1 || filters.position == "" || PositionName(m.position) == filters.position)
    && (k < 2 || filters.missionType == "" || MissionTypeName(m.missionType) == filters.missionType)
    && (k < 3 || filters.location == "" || Contains(LowerAscii(m.location.city), LowerAscii(filters.location)))
    && (k < 4 || filters.minRate == 0 || m.hourlyRate >= filters.minRate)
    && (k < 5 || filters.maxRate == 0 || m.hourlyRate <= filters.maxRate)
    && (k < 6 || !filters.urgentOnly || m.urgency.Some?)
  }

  function MatchesFirst(filters: SearchFilters, k: nat): Mission -> bool {
    (m: Mission) => MatchesUpTo(filters, k, m)
  }

  /** One link of the chain: narrowing `Filter(s, p)` by `q` when `active` is `Filter(s, pq)`. */
  lemma ChainStep(s: seq<Mission>, p: Mission -> bool, active: bool, q: Mission -> bool, pq: Mission -> bool)
    requires forall m :: pq(m) == (p(m) && (!active || q(m)))
    ensures (if active then Filter(Filter(s, p), q) else Filter(s, p)) == Filter(s, pq)
  {
    if active {
      FilterTwice(s, p, q, pq);
    } else {
      FilterAgree(s, p, pq);
    }
  }

  /** The chained filters select, in catalogue order, exactly the missions that match every
      filter that is set: the filters combine with AND. */
  lemma SearchSpec(missions: seq<Mission>, filters: SearchFilters)
    ensures SearchMissions(missions, filters) == Filter(missions, MatchesFirst(filters, 6))
  {
    var f := filters;
    var f0 := OpenMissions(missions);
    assert f0 == Filter(missions, MatchesFirst(f, 0)) by {
      FilterAgree(missions, IsOpen, MatchesFirst(f, 0));
    }
    var f1 := if f.position != "" then Filter(f0, HasPosition(f.position)) else f0;
    assert f1 == Filter(missions, MatchesFirst(f, 1)) by {
      ChainStep(missions, MatchesFirst(f, 0), f.position != "", HasPosition(f.position), MatchesFirst(f, 1));
    }
    var f2 := if f.missionType != "" then Filter(f1, HasType(f.missionType)) else f1;
    assert f2 == Filter(missions, MatchesFirst(f, 2)) by {
      ChainStep(missions, MatchesFirst(f, 1), f.missionType != "", HasType(f.missionType), MatchesFirst(f, 2));
    }
    var f3 := if f.location != "" then Filter(f2, InCity(f.location)) else f2;
    assert f3 == Filter(missions, MatchesFirst(f, 3)) by {
      ChainStep(missions, MatchesFirst(f, 2), f.location != "", InCity(f.location), MatchesFirst(f, 3));
    }
    var f4 := if f.minRate != 0 then Filter(f3, RateAtLeast(f.minRate)) else f3;
    assert f4 == Filter(missions, MatchesFirst(f, 4)) by {
      ChainStep(missions, MatchesFirst(f, 3), f.minRate != 0, RateAtLeast(f.minRate), MatchesFirst(f, 4));
    }
    var f5 := if f.maxRate != 0 then Filter(f4, RateAtMost(f.maxRate)) else f4;
    assert f5 == Filter(missions, MatchesFirst(f, 5)) by {
      ChainStep(missions, MatchesFirst(f, 4), f.maxRate != 0, RateAtMost(f.maxRate), MatchesFirst(f, 5));
    }
    var f6 := if f.urgentOnly then Filter(f5, HasAnyUrgency) else f5;
    assert f6 == Filter(missions, MatchesFirst(f, 6)) by {
      ChainStep(missions, MatchesFirst(f, 5), f.urgentOnly, HasAnyUrgency, MatchesFirst(f, 6));
    }
    assert SearchMissions(missions, filters) == f6;
  }

  /** A mission is found exactly when it is in the catalogue and matches every filter that is set. */
  lemma SearchMembership(missions: seq<Mission>, filters: SearchFilters)
    ensures forall m :: m in SearchMissions(missions, filters) <==> m in missions && Matches(filters, m)
  {
    SearchSpec(missions, filters);
    var r := Filter(missions, MatchesFirst(filters, 6));
    forall m ensures m in r <==> m in missions && Matches(filters, m) {
      if m in missions && Matches(filters, m) {
        var i :| 0 <= i < |missions| && missions[i] == m;
      }
      if m in r {
        var i :| 0 <= i < |r| && r[i] == m;
      }
    }
  }

  /** With no filter set (absent, empty or zero), the search returns `openMissions` unchanged. */
  lemma SearchWithoutFilters(missions: seq<Mission>)
    ensures SearchMissions(missions, SearchFilters("", "", "", 0, 0, false)) == OpenMissions(missions)
  {
  }

  /** `urgentOnly` is wider than `urgentMissions`: it keeps every urgent mission and also
      open missions tagged `'within-week'`, which `urgentMissions` drops. */
  lemma UrgentOnlyVersusUrgentMissions(missions: seq<Mission>)
    ensures forall m :: m in UrgentMissions(missions) ==> m in SearchMissions(missions, SearchFilters("", "", "", 0, 0, true))
    ensures forall m :: m in missions && m.status == Open && m.urgency == Some(WithinWeek) ==>
      m in SearchMissions(missions, SearchFilters("", "", "", 0, 0, true)) && m !in UrgentMissions(missions)
  {
    var only := SearchFilters("", "", "", 0, 0, true);
    SearchMembership(missions, only);
    UrgentMissionsSpec(missions);
    forall m | m in UrgentMissions(missions)
      ensures m in SearchMissions(missions, only)
    {
      var i :| 0 <= i < |UrgentMissions(missions)| && UrgentMissions(missions)[i] == m;
    }
  }

  // ---------------------------------------------------------------------------
  // Lookups

  function HasId(id: string): Mission -> bool {
    (m: Mission) => m.id == id
  }

  /** `getMissionById`: the first mission with that id, or none. */
  function GetMissionById(missions: seq<Mission>, id: string): (r: Option<Mission>)
    ensures r.None? <==> forall i :: 0 <= i < |missions| ==> missions[i].id != id
    ensures r.Some? ==> exists i :: 0 <= i < |missions| && missions[i] == r.value && r.value.id == id &&
                                    forall j :: 0 <= j < i ==> missions[j].id != id
  {
    Find(missions, HasId(id))
  }

  function ForMission(missionId: string): Application -> bool {
    (a: Application) => a.missionId == missionId
  }

  /** `getApplicationsForMission`: the applications naming that mission, in submission order. */
  function GetApplicationsForMission(applications: seq<Application>, missionId: string): (r: seq<Application>)
    ensures forall i :: 0 <= i < |r| ==> r[i] in applications && r[i].missionId == missionId
    ensures forall i :: 0 <= i < |applications| && applications[i].missionId == missionId ==> applications[i] in r
  {
    Filter(applications, ForMission(missionId))
  }

  // ---------------------------------------------------------------------------
  // Applying

  /** The mission list after `applyToMission`: the first mission with that id has one more
      applicant; an unknown id leaves the list as it was. */
  function BumpApplicants(missions: seq<Mission>, missionId: string): (r: seq<Mission>)
    ensures |r| == |missions|
  {
    match FindIndex(missions, HasId(missionId))
    case None => missions
    case Some(k) => missions[k := missions[k].(applicants := missions[k].applicants + 1)]
  }

  /** Exactly one mission changes, the first with the id, and only by one more applicant;
      with no such mission nothing changes. */
  lemma BumpApplicantsSpec(missions: seq<Mission>, missionId: string)
    ensures (forall j :: 0 <= j < |missions| ==> missions[j].id != missionId) ==> BumpApplicants(missions, missionId) == missions
    ensures forall k :: 0 <= k < |missions| && missions[k].id == missionId && (forall j :: 0 <= j < k ==> missions[j].id != missionId) ==>
      BumpApplicants(missions, missionId) == missions[k := missions[k].(applicants := missions[k].applicants + 1)]
  {
  }

  function Applicants(m: Mission): int {
    m.applicants
  }

  /** Summed over the catalogue, applying raises the applicant count by one for a known id
      and leaves it unchanged for an unknown one. */
  lemma BumpApplicantsTotal(missions: seq<Mission>, missionId: string)
    ensures Sum(BumpApplicants(missions, missionId), Applicants) ==
      Sum(missions, Applicants) + (if exists i :: 0 <= i < |missions| && missions[i].id == missionId then 1 else 0)
  {
    var found := FindIndex(missions, HasId(missionId));
    if found.Some? {
      BumpedTotal(missions, missionId, found.value);
    } else {
      assert BumpApplicants(missions, missionId) == missions;
    }
  }

  lemma BumpedTotal(missions: seq<Mission>, missionId: string, k: nat)
    requires FindIndex(missions, HasId(missionId)) == Some(k)
    ensures Sum(BumpApplicants(missions, missionId), Applicants) == Sum(missions, Applicants) + 1
  {
    var bumped := missions[k].(applicants := missions[k].applicants + 1);
    assert BumpApplicants(missions, missionId) == missions[k := bumped];
    SumUpdate(missions, k, bumped, Applicants);
  }

  /** After an application is appended, the applications of its mission gain exactly that
      application at the end, and every other mission's applications are unchanged. */
  lemma ApplicationsAfterApply(applications: seq<Application>, app: Application, missionId: string)
    ensures GetApplicationsForMission(applications + [app], missionId) ==
      GetApplicationsForMission(applications, missionId) + (if app.missionId == missionId then [app] else [])
  {
    FilterAppend(applications, [app], ForMission(missionId));
  }

  // ---------------------------------------------------------------------------
  // Seed data

  /** An open posting of the seed: mission `k` (0-based) has id `k + 1`, belongs to bakery
      `bakery<k + 1>` and shows its avatar `boulangerie<k + 1>.jpeg`. */
  function Posting(k: nat, bakeryName: string, missionType: MissionType, position: Position,
                   hourlyRate: int, applicants: int, location: Location, urgency: Option<Urgency>): (m: Mission)
    ensures m.id == NatToString(k + 1) && m.status == Open
  {
    var n := NatToString(k + 1);
    Mission(n, "bakery" + n, bakeryName, Some("boulangerie" + n + ".jpeg"), missionType, position,
            hourlyRate, Open, applicants, location, urgency)
  }

  /** Mission `k` (0-based) of the list `generateMockMissions` installs (display text and
      dates not kept). */
  function SeedMission(k: nat): (m: Mission)
    requires k < 22
    ensures m.id == NatToString(k + 1) && m.status == Open
  {
    match k
    case 0 => Posting(k, "Boulangerie du Moulin", Ponctuel, Boulanger, 28, 5, Location("Paris", "75001"), None)
    case 1 => Posting(k, "Pâtisserie Délices", Urgence, Patissier, 35, 2, Location("Paris", "75008"), Some(SameDay))
    case 2 => Posting(k, "La Mie Dorée", Recurrent, Vendeur, 22, 8, Location("Paris", "75006"), None)
    case 3 => Posting(k, "Artisan Boulanger", Ponctuel, Tourneur, 26, 3, Location("Paris", "75005"), None)
    case 4 => Posting(k, "Le Levain Parisien", Ponctuel, Boulanger, 29, 1, Location("Paris", "75011"), None)
    case 5 => Posting(k, "Maison Sucrée", Ponctuel, Patissier, 32, 4, Location("Paris", "75007"), None)
    case 6 => Posting(k, "La Feuilletée", Recurrent, Tourneur, 27, 3, Location("Paris", "75009"), None)
    case 7 => Posting(k, "Champs Gourmands", Ponctuel, Vendeur, 21, 6, Location("Paris", "75016"), None)
    case 8 => Posting(k, "Graines & Levains", Evenement, Boulanger, 30, 2, Location("Boulogne-Billancourt", "92100"), None)
    case 9 => Posting(k, "Classiques Gourmands", Recurrent, Patissier, 26, 5, Location("Vincennes", "94300"), None)
    case 10 => Posting(k, "La Fournée", Ponctuel, Boulanger, 31, 1, Location("Paris", "75020"), None)
    case 11 => Posting(k, "Au Blé d’Or", Urgence, Vendeur, 23, 7, Location("Paris", "75006"), Some(Immediate))
    case 12 => Posting(k, "Tradition & Levain", Ponctuel, Boulanger, 30, 2, Location("Paris", "75003"), None)
    case 13 => Posting(k, "Bio & Graines", Recurrent, Boulanger, 31, 4, Location("Paris", "75017"), None)
    case 14 => Posting(k, "Beurre & Feuilletage", Ponctuel, Tourneur, 28, 5, Location("Paris", "75015"), None)
    case 15 => Posting(k, "Pâtisserie Élégante", Evenement, Patissier, 34, 2, Location("Paris", "75016"), None)
    case 16 => Posting(k, "Four des Mondes", Ponctuel, Boulanger, 29, 1, Location("Paris", "75011"), None)
    case 17 => Posting(k, "Salé & Gourmand", Recurrent, Boulanger, 25, 6, Location("Paris", "75116"), None)
    case 18 => Posting(k, "Grain Libre", Ponctuel, Boulanger, 32, 2, Location("Sceaux", "92330"), None)
    case 19 => Posting(k, "Au Feu de Bois", Evenement, Boulanger, 33, 1, Location("Nogent-sur-Marne", "94130"), None)
    case 20 => Posting(k, "La Table Sucrée", Ponctuel, Patissier, 36, 3, Location("Paris", "75006"), None)
    case _ => Posting(k, "World Bakery", Recurrent, Boulanger, 27, 4, Location("Saint-Denis", "93200"), None)
  }

  /** The 22 missions `generateMockMissions` installs. */
  function SeedMissions(): (r: seq<Mission>)
    ensures |r| == 22
  {
    seq(22, k requires 0 <= k < 22 => SeedMission(k))
  }

  /** The seed has 22 open missions whose ids are "1" to "22", in order, hence all distinct. */
  lemma SeedMissionsSpec()
    ensures forall i :: 0 <= i < 22 ==> SeedMissions()[i].id == NatToString(i + 1) && SeedMissions()[i].status == Open
    ensures forall i, j :: 0 <= i < j < 22 ==> SeedMissions()[i].id != SeedMissions()[j].id
  {
    var s := SeedMissions();
    forall i | 0 <= i < 22
      ensures s[i].id == NatToString(i + 1) && s[i].status == Open
    {
    }
    forall i, j | 0 <= i < j < 22
      ensures s[i].id != s[j].id
    {
      if s[i].id == s[j].id {
        NatToStringInjective(i + 1, j + 1);
      }
    }
  }

  // ---------------------------------------------------------------------------
  // The store

  class MissionsStore {
    var missions: seq<Mission>
    var applications: seq<Application>
    var isLoading: bool

    /** Store creation: empty lists, then the seed missions. */
    constructor ()
      ensures missions == SeedMissions() && applications == [] && !isLoading
    {
      missions := [];
      applications := [];
      isLoading := false;
      new;
      GenerateMockMissions();
    }

    /** `generateMockMissions`: overwrite the catalogue with the seed, discarding earlier
        applicant increments; applications are kept. */
    method GenerateMockMissions()
      modifies this
      ensures missions == SeedMissions()
      ensures applications == old(applications) && isLoading == old(isLoading)
    {
      missions := SeedMissions();
    }

    /** `applyToMission`: append one pending application and count it on the mission.
        `newId` and `appliedAt` stand for the random id and the current instant. */
    method ApplyToMission(missionId: string, professionalId: string, professionalName: string,
                          message: string, proposedRate: Option<int>, newId: string, appliedAt: string)
      returns (app: Application)
      modifies this
      ensures app == Application(newId, missionId, professionalId, professionalName, None, message,
                                 proposedRate, Pending, appliedAt)
      ensures applications == old(applications) + [app]
      ensures missions == BumpApplicants(old(missions), missionId)
      ensures isLoading == old(isLoading)
    {
      app := Application(newId, missionId, professionalId, professionalName, None, message,
                         proposedRate, Pending, appliedAt);
      applications := applications + [app];
      var k := FindIndex(missions, HasId(missionId));
      if k.Some? {
        var mission := missions[k.value];
        missions := missions[k.value := mission.(applicants := mission.applicants + 1)];
      }
    }
  }
}
