/** The professional statistics store (src/stores/professionalsStats.ts): the completed
    missions of the signed-in professional, the totals and average derived from them, and
    a six-month statistics window. */
module ProfessionalsStats {
  import opened Wrappers
  import opened Seqs
  import opened Calendar
  import opened Entities

  // ---------------------------------------------------------------------------
  // Totals

  function Earnings(m: CompletedMission): int {
    m.totalEarnings
  }

  function Hours(m: CompletedMission): int {
    m.hours
  }

  /** `totalEarnings`: the recorded earnings of every completed mission, added up. */
  function TotalEarnings(missions: seq<CompletedMission>): int {
    Sum(missions, Earnings)
  }

  /** `totalHours`: the hours of every completed mission, added up. */
  function TotalHours(missions: seq<CompletedMission>): int {
    Sum(missions, Hours)
  }

  /** Both totals are 0 on no missions and add up over concatenation, so each mission
      contributes its own earnings and hours exactly once. */
  lemma TotalsAdditive(a: seq<CompletedMission>, b: seq<CompletedMission>)
    ensures TotalEarnings([]) == 0 && TotalHours([]) == 0
    ensures TotalEarnings(a + b) == TotalEarnings(a) + TotalEarnings(b)
    ensures TotalHours(a + b) == TotalHours(a) + TotalHours(b)
  {
    SumAppend(a, b, Earnings);
    SumAppend(a, b, Hours);
  }

  // ---------------------------------------------------------------------------
  // Average rating

  /** `filter(m => m.rating)`: a rating is kept when present and non-zero. */
  predicate IsRated(m: CompletedMission) {
    m.rating.Some? && m.rating.value != 0
  }

  /** `m.rating || 0`. */
  function RatingOf(m: CompletedMission): int {
    if m.rating.Some? then m.rating.value else 0
  }

  /** `averageRating`: the mean of the truthy ratings, 0 when there are none. */
  function AverageRating(missions: seq<CompletedMission>): real {
    var rated := Filter(missions, IsRated);
    if |rated| == 0 then 0.0 else Sum(rated, RatingOf) as real / |rated| as real
  }

  /** With no rated mission the average is 0; an unrated mission changes neither the sum nor
      the count, so adding one leaves the average as it was. */
  lemma AverageIgnoresUnrated(missions: seq<CompletedMission>, m: CompletedMission)
    requires !IsRated(m)
    ensures (forall i :: 0 <= i < |missions| ==> !IsRated(missions[i])) ==> AverageRating(missions) == 0.0
    ensures AverageRating(missions + [m]) == AverageRating(missions)
  {
    if forall i :: 0 <= i < |missions| ==> !IsRated(missions[i]) {
      FilterNone(missions, IsRated);
    }
    FilterAppend(missions, [m], IsRated);
    assert Filter([m], IsRated) == [];
    assert Filter(missions + [m], IsRated) == Filter(missions, IsRated);
  }

  /** Unrated missions count nowhere, wherever they stand: the average is the average of the
      rated missions alone. */
  lemma AverageOnlyRated(missions: seq<CompletedMission>)
    ensures AverageRating(missions) == AverageRating(Filter(missions, IsRated))
  {
    FilterTwice(missions, IsRated, IsRated, IsRated);
  }

  /** When every rated mission's rating lies between `lo` and `hi` and at least one mission is
      rated, the average lies between them too. */
  lemma AverageRatingBounds(missions: seq<CompletedMission>, lo: int, hi: int)
    requires forall m :: m in missions && IsRated(m) ==> lo <= RatingOf(m) <= hi
    requires exists i :: 0 <= i < |missions| && IsRated(missions[i])
    ensures lo as real <= AverageRating(missions) <= hi as real
  {
    var rated := Filter(missions, IsRated);
    var i :| 0 <= i < |missions| && IsRated(missions[i]);
    assert missions[i] in rated;
    SumBounds(rated, RatingOf, lo, hi);
    DivideBounds(Sum(rated, RatingOf), |rated|, lo, hi);
  }

  /** A total between n*lo and n*hi, divided by n > 0, lies between lo and hi. */
  lemma DivideBounds(total: int, n: int, lo: int, hi: int)
    requires n > 0 && n * lo <= total <= n * hi
    ensures lo as real <= total as real / n as real <= hi as real
  {
    var q := total as real / n as real;
    assert q * n as real == total as real;
  }

  // ---------------------------------------------------------------------------
  // This month's missions

  function CompletedIn(now: YearMonth): CompletedMission -> bool {
    (m: CompletedMission) => m.completedOn.month == now.month && m.completedOn.year == now.year
  }

  /** `missionsThisMonth`: the completed missions of the current month, in order. */
  function MissionsThisMonth(missions: seq<CompletedMission>, now: YearMonth): seq<CompletedMission> {
    Filter(missions, CompletedIn(now))
  }

  /** A mission is listed for this month exactly when it was completed in this month's year and
      month; the listing keeps the original order, so listing it again changes nothing. */
  lemma MissionsThisMonthSpec(missions: seq<CompletedMission>, now: YearMonth)
    ensures forall m :: m in MissionsThisMonth(missions, now) <==> m in missions && m.completedOn == now
    ensures MissionsThisMonth(MissionsThisMonth(missions, now), now) == MissionsThisMonth(missions, now)
  {
    var r := MissionsThisMonth(missions, now);
    forall m ensures m in r <==> m in missions && m.completedOn == now {
      if m in r {
        var i :| 0 <= i < |r| && r[i] == m;
      }
      if m in missions && m.completedOn == now {
        var i :| 0 <= i < |missions| && missions[i] == m;
      }
    }
    FilterKeepsAll(r, CompletedIn(now));
  }

  // ---------------------------------------------------------------------------
  // Six-month statistics

  /** One line of the fixed demonstration table, with the hourly rate the earnings come from. */
  datatype DemoRow = DemoRow(missions: int, hours: int, rate: int, earnings: int, rating: real)

  function DemoRows(): (r: seq<DemoRow>)
    ensures |r| == 6
  {
    [ DemoRow(3, 36, 26, 936, 4.4),
      DemoRow(4, 48, 27, 1296, 4.5),
      DemoRow(5, 60, 28, 1680, 4.6),
      DemoRow(6, 72, 29, 2088, 4.7),
      DemoRow(7, 84, 30, 2520, 4.8),
      DemoRow(8, 96, 31, 2976, 4.9) ]
  }

  /** The figures a month entry keeps from a demonstration line (the rate is dropped). */
  function MonthRow(d: DemoRow): ProMonthRow {
    ProMonthRow(d.missions, d.hours, d.earnings, d.rating)
  }

  function ProRows(): (r: seq<ProMonthRow>)
    ensures |r| == 6
  {
    seq(6, k requires 0 <= k < 6 => MonthRow(DemoRows()[k]))
  }

  /** The demonstration table is coherent and increasing: twelve hours per mission, earnings
      equal to hours times rate, and every column strictly growing from one month to the next. */
  lemma DemoRowsCoherent()
    ensures forall k :: 0 <= k < 6 ==>
      DemoRows()[k].hours == 12 * DemoRows()[k].missions &&
      DemoRows()[k].earnings == DemoRows()[k].hours * DemoRows()[k].rate
    ensures forall k :: 0 <= k < 5 ==>
      var (d, e) := (DemoRows()[k], DemoRows()[k + 1]);
      d.missions < e.missions && d.hours < e.hours && d.rate < e.rate &&
      d.earnings < e.earnings && d.rating < e.rating
  {
  }

  // ---------------------------------------------------------------------------
  // Seed data

  /** The six completed missions `loadProfessionalData` installs, whatever the professional. */
  function SeedCompleted(): (r: seq<CompletedMission>)
    ensures |r| == 6
  {
    [ CompletedMission("cm1", "1", "Boulangerie du Moulin", YearMonth(2024, 0), 16, 28, 448, Some(5)),
      CompletedMission("cm2", "3", "La Mie Dorée", YearMonth(2024, 1), 14, 22, 308, Some(4)),
      CompletedMission("cm3", "5", "Le Levain Parisien", YearMonth(2024, 1), 24, 29, 696, Some(5)),
      CompletedMission("cm4", "7", "Pâtisserie Délices", YearMonth(2024, 1), 20, 32, 640, Some(5)),
      CompletedMission("cm5", "9", "La Feuilletée", YearMonth(2024, 1), 12, 28, 336, Some(4)),
      CompletedMission("cm6", "11", "Boulangerie du Canal", YearMonth(2024, 1), 18, 30, 540, Some(5)) ]
  }

  /** Each seed record's earnings are its hours times its rate, and together they earn 2968
      over 104 hours. */
  lemma SeedCompletedTotals()
    ensures forall i :: 0 <= i < 6 ==> SeedCompleted()[i].totalEarnings == SeedCompleted()[i].hours * SeedCompleted()[i].hourlyRate
    ensures TotalEarnings(SeedCompleted()) == 2968 && TotalHours(SeedCompleted()) == 104
  {
    var s := SeedCompleted();
    SumOfSix(s, Earnings);
    SumOfSix(s, Hours);
  }

  /** All six seed records are rated, and their average rating is 28/6. */
  lemma SeedCompletedAverage()
    ensures forall i :: 0 <= i < 6 ==> IsRated(SeedCompleted()[i])
    ensures AverageRating(SeedCompleted()) == 28.0 / 6.0
  {
    var s := SeedCompleted();
    AverageWhenAllRated(s);
    SumOfSix(s, RatingOf);
    SixthOf(AverageRating(s), Sum(s, RatingOf), 28);
  }

  /** Arithmetic step kept apart from the seed, whose unfolding would swamp it. */
  lemma SixthOf(mean: real, total: int, expected: int)
    requires mean == total as real / 6 as real && total == expected
    ensures mean == expected as real / 6.0
  {
  }

  /** When every mission is rated, the average is the plain mean of the ratings. */
  lemma AverageWhenAllRated(missions: seq<CompletedMission>)
    requires |missions| > 0
    requires forall i :: 0 <= i < |missions| ==> IsRated(missions[i])
    ensures AverageRating(missions) == Sum(missions, RatingOf) as real / |missions| as real
  {
    FilterKeepsAll(missions, IsRated);
  }

  /** A sum of six terms, written out. */
  lemma SumOfSix<T>(s: seq<T>, f: T -> int)
    requires |s| == 6
    ensures Sum(s, f) == f(s[0]) + f(s[1]) + f(s[2]) + f(s[3]) + f(s[4]) + f(s[5])
  {
    assert Sum(s, f) == Sum(s[..5], f) + f(s[5]);
    assert Sum(s[..5], f) == Sum(s[..4], f) + f(s[4]) by { assert s[..5][..4] == s[..4]; }
    assert Sum(s[..4], f) == Sum(s[..3], f) + f(s[3]) by { assert s[..4][..3] == s[..3]; }
    assert Sum(s[..3], f) == Sum(s[..2], f) + f(s[2]) by { assert s[..3][..2] == s[..2]; }
    assert Sum(s[..2], f) == Sum(s[..1], f) + f(s[1]) by { assert s[..2][..1] == s[..1]; }
    assert Sum(s[..1], f) == f(s[0]) by { assert s[..1][..0] == []; }
  }

  // ---------------------------------------------------------------------------
  // The store

  class ProfessionalsStatsStore {
    var completedMissions: seq<CompletedMission>
    var currentProfessionalId: Option<string>
    var monthlyStatsData: seq<MonthEntry<ProMonthRow>>

    constructor ()
      ensures completedMissions == [] && currentProfessionalId == None && monthlyStatsData == []
    {
      completedMissions := [];
      currentProfessionalId := None;
      monthlyStatsData := [];
    }

    /** `initializeMonthlyStats`: build the six-month window unless one is already there. */
    method InitializeMonthlyStats(now: YearMonth)
      requires ValidMonth(now)
      modifies this
      ensures monthlyStatsData == if |old(monthlyStatsData)| > 0 then old(monthlyStatsData) else Window(now, ProRows())
      ensures completedMissions == old(completedMissions) && currentProfessionalId == old(currentProfessionalId)
    {
      if |monthlyStatsData| > 0 {
        return;
      }
      monthlyStatsData := BuildWindow(now, ProRows());
    }

    /** `monthlyStats`: the window, built on first use. */
    method MonthlyStats(now: YearMonth) returns (stats: seq<MonthEntry<ProMonthRow>>)
      requires ValidMonth(now)
      modifies this
      ensures stats == monthlyStatsData && |stats| > 0
      ensures monthlyStatsData == if |old(monthlyStatsData)| > 0 then old(monthlyStatsData) else Window(now, ProRows())
      ensures completedMissions == old(completedMissions) && currentProfessionalId == old(currentProfessionalId)
    {
      if |monthlyStatsData| == 0 {
        InitializeMonthlyStats(now);
      }
      stats := monthlyStatsData;
    }

    /** `loadProfessionalData`: remember the professional, make sure the window exists, and
        install the six seed records; the totals then read 2968 and 104. */
    method LoadProfessionalData(professionalId: string, now: YearMonth)
      requires ValidMonth(now)
      modifies this
      ensures currentProfessionalId == Some(professionalId)
      ensures completedMissions == SeedCompleted()
      ensures monthlyStatsData == if |old(monthlyStatsData)| > 0 then old(monthlyStatsData) else Window(now, ProRows())
      ensures TotalEarnings(completedMissions) == 2968 && TotalHours(completedMissions) == 104
    {
      currentProfessionalId := Some(professionalId);
      InitializeMonthlyStats(now);
      completedMissions := SeedCompleted();
      SeedCompletedTotals();
    }
  }
}
