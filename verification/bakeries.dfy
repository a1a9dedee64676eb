/** The bakeries store (src/stores/bakeries.ts): the bakery accounts, the logged-in bakery
    with its missions, applications and six-month statistics, and their persistence under
    the `choukette_bakery_data` key of local storage. */
module Bakeries {
  import opened Wrappers
  import opened Seqs
  import opened Text
  import opened Calendar
  import opened Randomness
  import opened Entities
  import opened Storage
  import Missions

  /** Everything the store holds in memory. */
  datatype BakeryState = BakeryState(
    bakeries: seq<Bakery>,
    currentBakery: Option<Bakery>,
    missions: seq<Mission>,
    applications: seq<Application>,
    monthlyStats: seq<MonthEntry<BakeryMonthRow>>)

  // ---------------------------------------------------------------------------
  // Counters shown on the dashboard

  predicate IsFilled(m: Mission) {
    m.status == Filled
  }

  predicate IsPending(a: Application) {
    a.status == Pending
  }

  /** `openMissions`: how many of the bakery's missions are open. */
  function OpenMissionCount(st: BakeryState): (n: nat)
    ensures n <= |st.missions|
  {
    |Missions.OpenMissions(st.missions)|
  }

  /** `filledMissions`: how many of the bakery's missions are filled. */
  function FilledMissionCount(st: BakeryState): (n: nat)
    ensures n <= |st.missions|
  {
    |Filter(st.missions, IsFilled)|
  }

  /** `pendingApplications`: how many applications are still pending. */
  function PendingApplicationCount(st: BakeryState): (n: nat)
    ensures n <= |st.applications|
  {
    |Filter(st.applications, IsPending)|
  }

  /** A mission is never both open and filled, so the two counters together never exceed
      `totalMissions`. */
  lemma OpenAndFilledWithinTotal(st: BakeryState)
    ensures OpenMissionCount(st) + FilledMissionCount(st) <= |st.missions|
  {
    FilterDisjointCount(st.missions, Missions.IsOpen, IsFilled);
  }

  // ---------------------------------------------------------------------------
  // Six-month statistics

  /** The fixed demonstration figures, oldest month first. */
  function BakeryRows(): seq<BakeryMonthRow> {
    [ BakeryMonthRow(5, 3, 12, 4.3),
      BakeryMonthRow(7, 5, 18, 4.5),
      BakeryMonthRow(6, 4, 15, 4.4),
      BakeryMonthRow(8, 6, 20, 4.6),
      BakeryMonthRow(9, 7, 22, 4.7),
      BakeryMonthRow(10, 8, 25, 4.8) ]
  }

  /** The demonstration figures are coherent: every month fills two fewer missions than it
      posts, draws more applications than postings, and rates between 4 and 5; ratings
      improve from the third month on. */
  lemma BakeryRowsCoherent()
    ensures |BakeryRows()| == 6
    ensures forall k :: 0 <= k < 6 ==>
      var row := BakeryRows()[k];
      row.missionsFilled == row.missionsPosted - 2 && row.applicationsReceived > row.missionsPosted &&
      4.0 <= row.avgRating <= 5.0
    ensures forall k :: 2 <= k < 5 ==> BakeryRows()[k].avgRating < BakeryRows()[k + 1].avgRating
  {
  }

  // ---------------------------------------------------------------------------
  // Persistence

  /** The object `saveBakeryDataToStorage` serialises. */
  function Snapshot(st: BakeryState): BakerySnapshot {
    BakerySnapshot(st.currentBakery, Some(st.missions), Some(st.applications), Some(st.monthlyStats))
  }

  /** `saveBakeryDataToStorage`: with a logged-in bakery, store the snapshot; otherwise do nothing. */
  function SaveStep(st: BakeryState, entries: map<string, Raw>): (r: map<string, Raw>)
    ensures st.currentBakery.Some? ==> r == entries[BAKERY_DATA_KEY := Encoded(BakeryJson(Snapshot(st)))]
    ensures st.currentBakery.None? ==> r == entries
  {
    if st.currentBakery.Some? then entries[BAKERY_DATA_KEY := Encoded(BakeryJson(Snapshot(st)))] else entries
  }

  /** Saving twice stores the same thing as saving once. */
  lemma SaveIdempotent(st: BakeryState, entries: map<string, Raw>)
    ensures SaveStep(st, SaveStep(st, entries)) == SaveStep(st, entries)
  {
  }

  /** Reading the key: nothing stored (or the empty string), text that does not parse, or an
      object. An object of another shape parses too, and then has none of the four fields. */
  function DecodeBakeryData(entries: map<string, Raw>): (r: Parsed<BakerySnapshot>)
    ensures r.NotFound? <==> Lookup(entries, BAKERY_DATA_KEY).None?
    ensures r.Corrupt? <==> Lookup(entries, BAKERY_DATA_KEY).Some? && entries[BAKERY_DATA_KEY].Malformed?
  {
    match Lookup(entries, BAKERY_DATA_KEY)
    case None => NotFound
    case Some(Malformed(_)) => Corrupt
    case Some(Encoded(BakeryJson(data))) => Value(data)
    case Some(Encoded(_)) => Value(BakerySnapshot(None, None, None, None))
  }

  /** The assignments of `loadBakeryDataFromStorage` once the text has parsed: the current
      bakery is taken as stored (absent means none), missing lists become empty, and the
      statistics are replaced only by a non-empty stored series. */
  function Restore(st: BakeryState, data: BakerySnapshot): (r: BakeryState)
    ensures r.bakeries == st.bakeries && r.currentBakery == data.currentBakery
    ensures r.missions == data.bakeryMissions.GetOr([]) && r.applications == data.bakeryApplications.GetOr([])
    ensures data.monthlyStatsData.Some? && |data.monthlyStatsData.value| > 0 ==> r.monthlyStats == data.monthlyStatsData.value
    ensures !(data.monthlyStatsData.Some? && |data.monthlyStatsData.value| > 0) ==> r.monthlyStats == st.monthlyStats
  {
    st.(currentBakery := data.currentBakery,
        missions := data.bakeryMissions.GetOr([]),
        applications := data.bakeryApplications.GetOr([]),
        monthlyStats := if data.monthlyStatsData.Some? && |data.monthlyStatsData.value| > 0
                        then data.monthlyStatsData.value else st.monthlyStats)
  }

  /** Restoring the same snapshot a second time changes nothing. */
  lemma RestoreIdempotent(st: BakeryState, data: BakerySnapshot)
    ensures Restore(Restore(st, data), data) == Restore(st, data)
  {
  }

  /** What `loadBakeryDataFromStorage` returns, and the state and storage it leaves. */
  datatype LoadOutcome = LoadOutcome(loaded: bool, state: BakeryState, entries: map<string, Raw>)

  /** `loadBakeryDataFromStorage`: restore a stored object and answer true; remove text that
      does not parse and answer false; with nothing stored, answer false and change nothing. */
  function LoadFromStorageStep(st: BakeryState, entries: map<string, Raw>): (r: LoadOutcome)
    ensures r.loaded <==> DecodeBakeryData(entries).Value?
    ensures r.loaded ==> r.state == Restore(st, DecodeBakeryData(entries).value) && r.entries == entries
    ensures DecodeBakeryData(entries).NotFound? ==> r.state == st && r.entries == entries
    ensures DecodeBakeryData(entries).Corrupt? ==> r.state == st && r.entries == entries - {BAKERY_DATA_KEY}
  {
    match DecodeBakeryData(entries)
    case NotFound => LoadOutcome(false, st, entries)
    case Corrupt => LoadOutcome(false, st, entries - {BAKERY_DATA_KEY})
    case Value(data) => LoadOutcome(true, Restore(st, data), entries)
  }

  /** Round trip: what a logged-in store saves, a load gives back exactly, and reports loaded. */
  lemma SaveThenLoad(st: BakeryState, entries: map<string, Raw>)
    requires st.currentBakery.Some?
    ensures LoadFromStorageStep(st, SaveStep(st, entries)) == LoadOutcome(true, st, SaveStep(st, entries))
  {
    var saved := SaveStep(st, entries);
    assert DecodeBakeryData(saved) == Value(Snapshot(st));
    assert Restore(st, Snapshot(st)) == st;
  }

  /** After `clearBakeryDataFromStorage` a load finds nothing and changes nothing. */
  lemma ClearThenLoad(st: BakeryState, entries: map<string, Raw>)
    ensures LoadFromStorageStep(st, entries - {BAKERY_DATA_KEY}) == LoadOutcome(false, st, entries - {BAKERY_DATA_KEY})
  {
  }

  /** A stored object of another shape parses, so the load succeeds but logs the bakery out
      and empties its missions and applications. */
  lemma LoadForeignShape(st: BakeryState, entries: map<string, Raw>)
    requires BAKERY_DATA_KEY in entries && entries[BAKERY_DATA_KEY].Encoded? && !entries[BAKERY_DATA_KEY].json.BakeryJson?
    ensures var r := LoadFromStorageStep(st, entries);
      r.loaded && r.state == st.(currentBakery := None, missions := [], applications := [])
  {
  }

  // ---------------------------------------------------------------------------
  // Loading one bakery's data

  function HasBakeryId(id: string): Bakery -> bool {
    (b: Bakery) => b.id == id
  }

  function BakeryIs(bakeryId: string): Mission -> bool {
    (m: Mission) => m.bakeryId == bakeryId
  }

  /** The bakery name the fillers show: the current bakery's, or `'Boulangerie'` when there is
      none or its name is empty. */
  function FillerName(current: Option<Bakery>): (name: string)
    ensures name != ""
    ensures current.Some? && current.value.name != "" ==> name == current.value.name
  {
    if current.Some? && current.value.name != "" then current.value.name else "Boulangerie"
  }

  /** The three missions added when a bakery has fewer than five: two filled and one open, all
      carrying the bakery's id, display name and, when the bakery is known, its avatar. */
  function FillerMissions(bakeryId: string, current: Option<Bakery>): (r: seq<Mission>)
    ensures |r| == 3
    ensures forall i :: 0 <= i < 3 ==> r[i].bakeryId == bakeryId && r[i].bakeryName == FillerName(current)
    ensures r[0].status == Filled && r[1].status == Filled && r[2].status == Open
  {
    var name := FillerName(current);
    var avatar := if current.Some? then current.value.avatar else None;
    var location := Location("Paris", "75001");
    [ Mission("bakery-mock-1", bakeryId, name, avatar, Ponctuel, Boulanger, 28, Filled, 2, location, None),
      Mission("bakery-mock-2", bakeryId, name, avatar, Evenement, Patissier, 32, Filled, 1, location, None),
      Mission("bakery-mock-3", bakeryId, name, avatar, Recurrent, Vendeur, 22, Open, 3, location, None) ]
  }

  /** The missions `loadBakeryData` keeps: the bakery's own, topped up with the fillers when
      there are fewer than five. */
  function RebuildMissions(missionsList: seq<Mission>, bakeryId: string, current: Option<Bakery>): seq<Mission> {
    var own := Filter(missionsList, BakeryIs(bakeryId));
    if |own| < 5 then own + FillerMissions(bakeryId, current) else own
  }

  /** Every rebuilt mission belongs to the bakery; the bakery's own missions come first in
      their order, and exactly three fillers follow when there were fewer than five. */
  lemma RebuildMissionsSpec(missionsList: seq<Mission>, bakeryId: string, current: Option<Bakery>)
    ensures var r := RebuildMissions(missionsList, bakeryId, current);
      var own := Filter(missionsList, BakeryIs(bakeryId));
      && (forall i :: 0 <= i < |r| ==> r[i].bakeryId == bakeryId)
      && r[..|own|] == own
      && |r| == (if |own| < 5 then |own| + 3 else |own|)
      && |r| >= 3
  {
    var own := Filter(missionsList, BakeryIs(bakeryId));
    forall i | 0 <= i < |own| ensures own[i].bakeryId == bakeryId {
      assert BakeryIs(bakeryId)(own[i]);
    }
    if |own| < 5 {
      var fillers := FillerMissions(bakeryId, current);
      var r := own + fillers;
      assert r[..|own|] == own;
      forall i | |own| <= i < |r| ensures r[i].bakeryId == bakeryId {
        assert r[i] == fillers[i - |own|];
      }
    }
  }

  /** The two pending applications `loadBakeryData` installs, whatever the bakery. */
  function FixedApplications(): seq<Application> {
    [ Application("app1", "1", "pro1", "Camille Moreau", Some("boulanger1.jpeg"),
                  "Intéressé par cette mission, j'ai 10 ans d'expérience en levain.", None, Pending,
                  "2024-01-20T10:30:00Z"),
      Application("app2", "1", "pro3", "Omar Bensaïd", Some("boulanger3.jpeg"),
                  "Disponible ce weekend, très motivé.", None, Pending, "2024-01-20T14:15:00Z") ]
  }

  /** Whether `loadBakeryData` stops right after the storage load: something was loaded and it
      is the requested bakery. */
  predicate AlreadyLoaded(o: LoadOutcome, bakeryId: string) {
    o.loaded && o.state.currentBakery.Some? && o.state.currentBakery.value.id == bakeryId
  }

  /** The second half of `loadBakeryData`: select the bakery by id, rebuild its missions,
      install the fixed applications and save. */
  function SelectStep(st: BakeryState, entries: map<string, Raw>, bakeryId: string, missionsList: seq<Mission>)
    : (BakeryState, map<string, Raw>)
  {
    var current := Find(st.bakeries, HasBakeryId(bakeryId));
    var next := st.(currentBakery := current,
                    missions := RebuildMissions(missionsList, bakeryId, current),
                    applications := FixedApplications());
    (next, SaveStep(next, entries))
  }

  /** `loadBakeryData`: keep what storage holds for this bakery; otherwise select it afresh. */
  function LoadDataStep(st: BakeryState, entries: map<string, Raw>, bakeryId: string, missionsList: seq<Mission>)
    : (BakeryState, map<string, Raw>)
  {
    var o := LoadFromStorageStep(st, entries);
    if AlreadyLoaded(o, bakeryId) then (o.state, o.entries)
    else SelectStep(o.state, o.entries, bakeryId, missionsList)
  }

  /** The bakery list is untouched; any current bakery afterwards is the requested one, and a
      known id always yields one. When storage already holds this bakery, the restored state is
      kept and nothing is written. Otherwise the bakery is selected by id, the missions are
      rebuilt and the fixed applications installed, everything else (the statistics included)
      stays as the load left it, and only the bakery key is saved; an unknown id leaves no
      current bakery and saves nothing.
      For a known id, reloading from storage reproduces the state exactly. */
  lemma LoadDataSpec(st: BakeryState, entries: map<string, Raw>, bakeryId: string, missionsList: seq<Mission>)
    ensures var (next, stored) := LoadDataStep(st, entries, bakeryId, missionsList);
      var o := LoadFromStorageStep(st, entries);
      && next.bakeries == st.bakeries
      && (AlreadyLoaded(o, bakeryId) ==> next == o.state && stored == entries)
      && (!AlreadyLoaded(o, bakeryId) ==>
            next == o.state.(currentBakery := Find(st.bakeries, HasBakeryId(bakeryId)),
                             missions := RebuildMissions(missionsList, bakeryId, Find(st.bakeries, HasBakeryId(bakeryId))),
                             applications := FixedApplications())
            && stored == SaveStep(next, o.entries))
      && (!AlreadyLoaded(o, bakeryId) && (forall i :: 0 <= i < |st.bakeries| ==> st.bakeries[i].id != bakeryId) ==>
            next.currentBakery == None && stored == o.entries)
      && (next.currentBakery.Some? ==> next.currentBakery.value.id == bakeryId)
      && ((exists i :: 0 <= i < |st.bakeries| && st.bakeries[i].id == bakeryId) ==> next.currentBakery.Some?)
      && (!AlreadyLoaded(LoadFromStorageStep(st, entries), bakeryId) ==>
            next.missions == RebuildMissions(missionsList, bakeryId, next.currentBakery) &&
            next.applications == FixedApplications())
      && (next.currentBakery.Some? ==> LoadFromStorageStep(next, stored) == LoadOutcome(true, next, stored))
  {
    var o := LoadFromStorageStep(st, entries);
    var (next, stored) := LoadDataStep(st, entries, bakeryId, missionsList);
    if AlreadyLoaded(o, bakeryId) {
      RestoreIdempotent(st, DecodeBakeryData(entries).value);
    } else if next.currentBakery.Some? {
      SaveThenLoad(next, o.entries);
    }
  }

  // ---------------------------------------------------------------------------
  // Login

  function HasCredentials(email: string, password: string): Bakery -> bool {
    (b: Bakery) => b.email == email && b.password == password
  }

  const LOGIN_ERROR := "Identifiants incorrects"

  /** `login`: the first bakery with that email and password becomes current, its data is loaded
      with no missions list, and the state is saved; otherwise the promise rejects. */
  function LoginStep(st: BakeryState, entries: map<string, Raw>, email: string, password: string)
    : (Result<Bakery, string>, BakeryState, map<string, Raw>)
  {
    match Find(st.bakeries, HasCredentials(email, password))
    case None => (Failure(LOGIN_ERROR), st, entries)
    case Some(bakery) =>
      var (loadedState, loadedEntries) := LoadDataStep(st.(currentBakery := Some(bakery)), entries, bakery.id, []);
      (Success(bakery), loadedState, SaveStep(loadedState, loadedEntries))
  }

  /** Login fails exactly when no bakery has those credentials, and then changes nothing;
      on success it returns a bakery of the list with those credentials, that bakery's id is
      the current one, and storage holds exactly the in-memory state. */
  lemma LoginSpec(st: BakeryState, entries: map<string, Raw>, email: string, password: string)
    ensures var (result, next, stored) := LoginStep(st, entries, email, password);
      && (result.Failure? <==> forall i :: 0 <= i < |st.bakeries| ==> !(st.bakeries[i].email == email && st.bakeries[i].password == password))
      && (result.Failure? ==> result.error == LOGIN_ERROR && next == st && stored == entries)
      && (result.Success? ==>
            && result.value in st.bakeries && result.value.email == email && result.value.password == password
            && (exists i :: 0 <= i < |st.bakeries| && st.bakeries[i] == result.value &&
                  forall j :: 0 <= j < i ==> !(st.bakeries[j].email == email && st.bakeries[j].password == password))
            && next.bakeries == st.bakeries
            && next.currentBakery.Some? && next.currentBakery.value.id == result.value.id
            && LoadFromStorageStep(next, stored) == LoadOutcome(true, next, stored))
  {
    var found := Find(st.bakeries, HasCredentials(email, password));
    if found.Some? {
      LoginLoadsBakery(st, entries, found.value);
      FirstWithCredentials(st.bakeries, email, password);
    } else {
      forall i | 0 <= i < |st.bakeries|
        ensures !(st.bakeries[i].email == email && st.bakeries[i].password == password)
      {
        assert !HasCredentials(email, password)(st.bakeries[i]);
      }
    }
  }

  /** The account `login` finds is the first one with those credentials. */
  lemma FirstWithCredentials(bakeries: seq<Bakery>, email: string, password: string)
    ensures var found := Find(bakeries, HasCredentials(email, password));
      found.Some? ==>
        exists i :: 0 <= i < |bakeries| && bakeries[i] == found.value &&
          forall j :: 0 <= j < i ==> !(bakeries[j].email == email && bakeries[j].password == password)
  {
    var found := Find(bakeries, HasCredentials(email, password));
    if found.Some? {
      var i :| 0 <= i < |bakeries| && bakeries[i] == found.value && HasCredentials(email, password)(bakeries[i]) &&
               forall j :: 0 <= j < i ==> !HasCredentials(email, password)(bakeries[j]);
      forall j | 0 <= j < i
        ensures !(bakeries[j].email == email && bakeries[j].password == password)
      {
        assert !HasCredentials(email, password)(bakeries[j]);
      }
    }
  }

  /** The success half of `login`: loading a bakery of the list as current keeps it current,
      and the saved state is what a reload finds. */
  lemma LoginLoadsBakery(st: BakeryState, entries: map<string, Raw>, bakery: Bakery)
    requires bakery in st.bakeries
    ensures var (loadedState, loadedEntries) := LoadDataStep(st.(currentBakery := Some(bakery)), entries, bakery.id, []);
      && loadedState.bakeries == st.bakeries
      && loadedState.currentBakery.Some? && loadedState.currentBakery.value.id == bakery.id
      && LoadFromStorageStep(loadedState, SaveStep(loadedState, loadedEntries))
           == LoadOutcome(true, loadedState, SaveStep(loadedState, loadedEntries))
  {
    var st1 := st.(currentBakery := Some(bakery));
    LoadDataSpec(st1, entries, bakery.id, []);
    var (loadedState, loadedEntries) := LoadDataStep(st1, entries, bakery.id, []);
    var i :| 0 <= i < |st.bakeries| && st.bakeries[i] == bakery;
    assert st1.bakeries[i].id == bakery.id;
    SaveThenLoad(loadedState, loadedEntries);
  }

  // ---------------------------------------------------------------------------
  // Startup

  /** `initializeBakeryData`: load from storage, and when no statistics came back, build the
      six-month series and save. */
  function InitDataStep(st: BakeryState, entries: map<string, Raw>, now: YearMonth): (BakeryState, map<string, Raw>)
    requires ValidMonth(now)
  {
    var o := LoadFromStorageStep(st, entries);
    if |o.state.monthlyStats| == 0 then
      var next := o.state.(monthlyStats := Window(now, BakeryRows()));
      (next, SaveStep(next, o.entries))
    else (o.state, o.entries)
  }

  /** After startup there are always statistics: the stored non-empty series, the series held
      before, or the six months ending with the current one. When the load leaves statistics,
      its state and storage are kept as they are; otherwise the new series is saved. */
  lemma InitDataSpec(st: BakeryState, entries: map<string, Raw>, now: YearMonth)
    requires ValidMonth(now)
    ensures var (next, stored) := InitDataStep(st, entries, now);
      var o := LoadFromStorageStep(st, entries);
      && |next.monthlyStats| > 0
      && (|o.state.monthlyStats| > 0 ==> next == o.state && stored == o.entries)
      && (|o.state.monthlyStats| == 0 ==>
            next == o.state.(monthlyStats := Window(now, BakeryRows())) && stored == SaveStep(next, o.entries))
      && next.bakeries == st.bakeries
  {
  }

  /** One of the 22 bakery pictures, `boulangerie1.jpeg` to `boulangerie22.jpeg`. */
  ghost predicate IsBakeryAvatar(s: string) {
    exists n :: 1 <= n <= 22 && s == "boulangerie" + NatToString(n) + ".jpeg"
  }

  /** `getRandomBakeryAvatar`: one of the 22 pictures. */
  function RandomBakeryAvatar(roll: real): (r: string)
    requires 0.0 <= roll < 1.0
    ensures IsBakeryAvatar(r)
  {
    var n := RandomIndex(roll, 22) + 1;
    "boulangerie" + NatToString(n) + ".jpeg"
  }

  /** The password of every demonstration account. */
  const DEMO_PASSWORD := "demo123"

  /** The avatars of the 23 seed accounts, one `getRandomBakeryAvatar` draw each. */
  function SeedAvatars(rolls: seq<real>): (r: seq<string>)
    requires ValidRolls(rolls, 23)
    ensures |r| == 23
    ensures forall i :: 0 <= i < 23 ==> IsBakeryAvatar(r[i])
  {
    seq(23, i requires 0 <= i < 23 => RandomBakeryAvatar(rolls[i]))
  }

  /** Account `k` (0-based) of the list `generateMockBakeries` installs, with its avatar
      (description and administrative fields not kept). */
  function SeedAccount(k: nat, avatar: string): (b: Bakery)
    requires k < 23
    ensures b.password == DEMO_PASSWORD && b.avatar == Some(avatar)
  {
    match k
    case 0 => Bakery("bakery1", "Boulangerie du Moulin", "boulangerie@moulin.fr", DEMO_PASSWORD, Some(avatar))
    case 1 => Bakery("bakery2", "Pâtisserie Délices", "contact@delices.fr", DEMO_PASSWORD, Some(avatar))
    case 2 => Bakery("bakery3", "La Mie Dorée", "contact@miedoree.fr", DEMO_PASSWORD, Some(avatar))
    case 3 => Bakery("bakery4", "Le Pain de la Terre", "contact@painterre.fr", DEMO_PASSWORD, Some(avatar))
    case 4 => Bakery("bakery5", "La Croûte Dorée", "contact@croute-doree.fr", DEMO_PASSWORD, Some(avatar))
    case 5 => Bakery("bakery6", "Pâtisserie Royale", "contact@royale.fr", DEMO_PASSWORD, Some(avatar))
    case 6 => Bakery("bakery7", "Le Fournil Artisanal", "contact@fournil-art.fr", DEMO_PASSWORD, Some(avatar))
    case 7 => Bakery("bakery8", "Boulangerie du Quartier", "contact@bq.fr", DEMO_PASSWORD, Some(avatar))
    case 8 => Bakery("bakery9", "La Maison du Pain", "contact@maison-pain.fr", DEMO_PASSWORD, Some(avatar))
    case 9 => Bakery("bakery10", "Pâtisserie des Rêves", "contact@reves.fr", DEMO_PASSWORD, Some(avatar))
    case 10 => Bakery("bakery11", "Le Grenier à Pain", "contact@grenier-pain.fr", DEMO_PASSWORD, Some(avatar))
    case 11 => Bakery("bakery12", "Boulangerie Moderne", "contact@moderne.fr", DEMO_PASSWORD, Some(avatar))
    case 12 => Bakery("bakery13", "La Tradition", "contact@tradition.fr", DEMO_PASSWORD, Some(avatar))
    case 13 => Bakery("bakery14", "Pâtisserie Fine", "contact@fine.fr", DEMO_PASSWORD, Some(avatar))
    case 14 => Bakery("bakery15", "Le Petit Four", "contact@petit-four.fr", DEMO_PASSWORD, Some(avatar))
    case 15 => Bakery("bakery16", "Boulangerie Bio", "contact@bio-boulange.fr", DEMO_PASSWORD, Some(avatar))
    case 16 => Bakery("bakery17", "La Mie Croustillante", "contact@mie-croustillante.fr", DEMO_PASSWORD, Some(avatar))
    case 17 => Bakery("bakery18", "Pâtisserie Élégante", "contact@elegante.fr", DEMO_PASSWORD, Some(avatar))
    case 18 => Bakery("bakery19", "Le Four à Bois", "contact@four-bois.fr", DEMO_PASSWORD, Some(avatar))
    case 19 => Bakery("bakery20", "Boulangerie du Matin", "contact@matin.fr", DEMO_PASSWORD, Some(avatar))
    case 20 => Bakery("bakery21", "La Pâte à Tartiner", "contact@tartiner.fr", DEMO_PASSWORD, Some(avatar))
    case 21 => Bakery("bakery22", "Pâtisserie du Bonheur", "contact@bonheur.fr", DEMO_PASSWORD, Some(avatar))
    case _ => Bakery("bakery23", "Le Pain Rustique", "contact@rustique.fr", DEMO_PASSWORD, Some(avatar))
  }

  /** The 23 accounts of `generateMockBakeries`, given their avatars. */
  function SeedBakeries(avatars: seq<string>): (r: seq<Bakery>)
    requires |avatars| == 23
    ensures |r| == 23
  {
    seq(23, k requires 0 <= k < 23 => SeedAccount(k, avatars[k]))
  }

  /** The seed accounts all use the demonstration password and each has its own avatar draw. */
  lemma SeedBakeriesSpec(avatars: seq<string>)
    requires |avatars| == 23
    ensures forall i :: 0 <= i < 23 ==> SeedBakeries(avatars)[i].password == DEMO_PASSWORD
    ensures forall i :: 0 <= i < 23 ==> SeedBakeries(avatars)[i].avatar == Some(avatars[i])
  {
  }

  /** The demo credentials `boulangerie@moulin.fr` / `demo123` log in as `bakery1`. */
  lemma DemoLogin(avatars: seq<string>, entries: map<string, Raw>)
    requires |avatars| == 23
    ensures var st := BakeryState(SeedBakeries(avatars), None, [], [], []);
      var (result, next, _) := LoginStep(st, entries, "boulangerie@moulin.fr", DEMO_PASSWORD);
      result == Success(SeedBakeries(avatars)[0]) && next.currentBakery.Some? && next.currentBakery.value.id == "bakery1"
  {
    var st := BakeryState(SeedBakeries(avatars), None, [], [], []);
    assert HasCredentials("boulangerie@moulin.fr", DEMO_PASSWORD)(st.bakeries[0]);
    LoginSpec(st, entries, "boulangerie@moulin.fr", DEMO_PASSWORD);
  }

  // ---------------------------------------------------------------------------
  // The store

  class BakeriesStore {
    var bakeries: seq<Bakery>
    var currentBakery: Option<Bakery>
    var bakeryMissions: seq<Mission>
    var bakeryApplications: seq<Application>
    var monthlyStatsData: seq<MonthEntry<BakeryMonthRow>>
    const storage: LocalStorage

    function State(): BakeryState
      reads this
    {
      BakeryState(bakeries, currentBakery, bakeryMissions, bakeryApplications, monthlyStatsData)
    }

    /** Store creation: install the seed accounts, then `initializeBakeryData`. */
    constructor (storage: LocalStorage, rolls: seq<real>, now: YearMonth)
      requires ValidRolls(rolls, 23) && ValidMonth(now)
      modifies storage
      ensures this.storage == storage
      ensures bakeries == SeedBakeries(SeedAvatars(rolls))
      ensures (State(), storage.entries) == InitDataStep(BakeryState(bakeries, None, [], [], []), old(storage.entries), now)
    {
      bakeries := [];
      currentBakery := None;
      bakeryMissions := [];
      bakeryApplications := [];
      monthlyStatsData := [];
      this.storage := storage;
      new;
      if |bakeries| == 0 {
        GenerateMockBakeries(rolls);
      }
      InitializeBakeryData(now);
    }

    method GenerateMockBakeries(rolls: seq<real>)
      requires ValidRolls(rolls, 23)
      modifies this
      ensures State() == old(State()).(bakeries := SeedBakeries(SeedAvatars(rolls)))
    {
      bakeries := SeedBakeries(SeedAvatars(rolls));
    }

    /** `initializeMonthlyStats`: build the six-month series unless one is already there. */
    method InitializeMonthlyStats(now: YearMonth)
      requires ValidMonth(now)
      modifies this
      ensures |old(monthlyStatsData)| > 0 ==> State() == old(State())
      ensures |old(monthlyStatsData)| == 0 ==> State() == old(State()).(monthlyStats := Window(now, BakeryRows()))
    {
      if |monthlyStatsData| > 0 {
        return;
      }
      monthlyStatsData := BuildWindow(now, BakeryRows());
    }

    /** `monthlyStats`: the series, built on first use. */
    method MonthlyStats(now: YearMonth) returns (stats: seq<MonthEntry<BakeryMonthRow>>)
      requires ValidMonth(now)
      modifies this
      ensures stats == monthlyStatsData && |stats| > 0
      ensures |old(monthlyStatsData)| > 0 ==> State() == old(State())
      ensures |old(monthlyStatsData)| == 0 ==> State() == old(State()).(monthlyStats := Window(now, BakeryRows()))
    {
      if |monthlyStatsData| == 0 {
        InitializeMonthlyStats(now);
      }
      stats := monthlyStatsData;
    }

    method SaveBakeryDataToStorage()
      modifies storage
      ensures storage.entries == SaveStep(State(), old(storage.entries))
    {
      if currentBakery.Some? {
        storage.SetItem(BAKERY_DATA_KEY, Encoded(BakeryJson(Snapshot(State()))));
      }
    }

    method LoadBakeryDataFromStorage() returns (loaded: bool)
      modifies this, storage
      ensures LoadOutcome(loaded, State(), storage.entries) == LoadFromStorageStep(old(State()), old(storage.entries))
    {
      var saved := storage.GetItem(BAKERY_DATA_KEY);
      if saved.Some? && Truthy(saved.value) {
        match saved.value
        case Malformed(_) =>
          storage.RemoveItem(BAKERY_DATA_KEY);
          return false;
        case Encoded(json) =>
          var data := if json.BakeryJson? then json.data else BakerySnapshot(None, None, None, None);
          currentBakery := data.currentBakery;
          bakeryMissions := data.bakeryMissions.GetOr([]);
          bakeryApplications := data.bakeryApplications.GetOr([]);
          if data.monthlyStatsData.Some? && |data.monthlyStatsData.value| > 0 {
            monthlyStatsData := data.monthlyStatsData.value;
          }
          return true;
      }
      return false;
    }

    method ClearBakeryDataFromStorage()
      modifies storage
      ensures storage.entries == old(storage.entries) - {BAKERY_DATA_KEY}
    {
      storage.RemoveItem(BAKERY_DATA_KEY);
    }

    method LoadBakeryData(bakeryId: string, missionsList: seq<Mission>)
      modifies this, storage
      ensures (State(), storage.entries) == LoadDataStep(old(State()), old(storage.entries), bakeryId, missionsList)
    {
      var loaded := LoadBakeryDataFromStorage();
      if loaded && currentBakery.Some? && currentBakery.value.id == bakeryId {
        return;
      }
      SelectBakery(bakeryId, missionsList);
    }

    method SelectBakery(bakeryId: string, missionsList: seq<Mission>)
      modifies this, storage
      ensures (State(), storage.entries) == SelectStep(old(State()), old(storage.entries), bakeryId, missionsList)
    {
      currentBakery := Find(bakeries, HasBakeryId(bakeryId));
      var filtered := Filter(missionsList, BakeryIs(bakeryId));
      if |filtered| < 5 {
        filtered := filtered + FillerMissions(bakeryId, currentBakery);
      }
      bakeryMissions := filtered;
      bakeryApplications := FixedApplications();
      SaveBakeryDataToStorage();
    }

    method Login(email: string, password: string) returns (result: Result<Bakery, string>)
      modifies this, storage
      ensures (result, State(), storage.entries) == LoginStep(old(State()), old(storage.entries), email, password)
    {
      var bakery := Find(bakeries, HasCredentials(email, password));
      if bakery.Some? {
        currentBakery := bakery;
        LoadBakeryData(bakery.value.id, []);
        SaveBakeryDataToStorage();
        return Success(bakery.value);
      }
      return Failure(LOGIN_ERROR);
    }

    method InitializeBakeryData(now: YearMonth)
      requires ValidMonth(now)
      modifies this, storage
      ensures (State(), storage.entries) == InitDataStep(old(State()), old(storage.entries), now)
      ensures bakeries == old(bakeries)
    {
      var _ := LoadBakeryDataFromStorage();
      if |monthlyStatsData| == 0 {
        InitializeMonthlyStats(now);
        SaveBakeryDataToStorage();
      }
    }
  }
}
