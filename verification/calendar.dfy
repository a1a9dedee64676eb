/** Calendar months and the six-month rolling window that both statistics stores
    build (`initializeMonthlyStats` in src/stores/bakeries.ts and
    src/stores/professionalsStats.ts). */
module Calendar {
  import opened Text

  /** A calendar month; `month` is 0-based, as `Date.getMonth()` returns it. */
  datatype YearMonth = YearMonth(year: int, month: int)

  predicate ValidMonth(ym: YearMonth) {
    0 <= ym.month < 12
  }

  /** Months elapsed since January of year 0. */
  function MonthIndex(ym: YearMonth): int {
    ym.year * 12 + ym.month
  }

  /** The month `d` months after `ym` (before it when `d < 0`), normalised the way
      `new Date(year, month + d, 1)` normalises an out-of-range month. */
  function AddMonths(ym: YearMonth, d: int): (r: YearMonth)
    requires ValidMonth(ym)
    ensures ValidMonth(r)
    ensures MonthIndex(r) == MonthIndex(ym) + d
  {
    var t := MonthIndex(ym) + d;
    YearMonth(t / 12, t % 12)
  }

  /** The `YYYY-MM` key: the year, a dash, and the 1-based month padded to two digits. */
  function MonthKey(ym: YearMonth): string
    requires ValidMonth(ym)
  {
    IntToString(ym.year) + "-" + PadTwo(ym.month + 1)
  }

  /** One month of a statistics window: its key and the fixed row paired with it. */
  datatype MonthEntry<R> = MonthEntry(monthKey: string, stats: R)

  /** The k-th month (k = 0..5) of the window that ends at `now`. */
  function WindowMonth(now: YearMonth, k: int): YearMonth
    requires ValidMonth(now)
  {
    AddMonths(now, k - 5)
  }

  /** Six entries, oldest first, for the six months ending at `now`; entry k carries `rows[k]`. */
  function Window<R>(now: YearMonth, rows: seq<R>): (w: seq<MonthEntry<R>>)
    requires ValidMonth(now) && |rows| == 6
  {
    seq(6, k requires 0 <= k < 6 => MonthEntry(MonthKey(WindowMonth(now, k)), rows[k]))
  }

  /** The `for (let i = 5; i >= 0; i--)` loop that pushes one entry per month. */
  method BuildWindow<R>(now: YearMonth, rows: seq<R>) returns (months: seq<MonthEntry<R>>)
    requires ValidMonth(now) && |rows| == 6
    ensures months == Window(now, rows)
  {
    months := [];
    var i := 5;
    while i >= 0
      invariant -1 <= i <= 5
      invariant months == Window(now, rows)[..5 - i]
    {
      var date := AddMonths(now, -i);
      var monthKey := MonthKey(date);
      var dataIndex := 5 - i;
      months := months + [MonthEntry(monthKey, rows[dataIndex])];
      i := i - 1;
    }
  }

  /** The window is six consecutive months, in chronological order, ending at `now`. */
  lemma WindowIsConsecutive(now: YearMonth)
    requires ValidMonth(now)
    ensures WindowMonth(now, 5) == now
    ensures forall k :: 0 <= k < 5 ==> MonthIndex(WindowMonth(now, k + 1)) == MonthIndex(WindowMonth(now, k)) + 1
  {
    var last := WindowMonth(now, 5);
    assert last.year * 12 + last.month == now.year * 12 + now.month;
  }

  /** Months before January fall in the previous year, with the month counted back from December. */
  lemma WindowRollover(now: YearMonth, k: int)
    requires ValidMonth(now) && 0 <= k < 6
    ensures var m := WindowMonth(now, k);
      if now.month + k - 5 < 0 then m.year == now.year - 1 && m.month == now.month + k - 5 + 12
      else m.year == now.year && m.month == now.month + k - 5
  {
    var m := WindowMonth(now, k);
    assert m.year * 12 + m.month == now.year * 12 + now.month + k - 5;
  }

  /** A key of a month in a non-negative year spells `YYYY-MM`: the year's digits, a dash,
      and two digits that read as the 1-based month. */
  lemma MonthKeyFormat(ym: YearMonth)
    requires ValidMonth(ym) && ym.year >= 0
    ensures var key := MonthKey(ym);
      |key| >= 4 && key[|key| - 3] == '-' &&
      IsDigits(key[..|key| - 3]) && ParseDigits(key[..|key| - 3]) == ym.year &&
      IsDigits(key[|key| - 2..]) && ParseDigits(key[|key| - 2..]) == ym.month + 1
  {
    var y := NatToString(ym.year);
    var mm := PadTwo(ym.month + 1);
    var key := MonthKey(ym);
    assert key == y + "-" + mm;
    assert key[..|key| - 3] == y;
    assert key[|key| - 2..] == mm;
    ParseNatToString(ym.year);
  }

  lemma MonthKeyInjective(a: YearMonth, b: YearMonth)
    requires ValidMonth(a) && a.year >= 0 && ValidMonth(b) && b.year >= 0
    requires MonthKey(a) == MonthKey(b)
    ensures a == b
  {
    MonthKeyFormat(a);
    MonthKeyFormat(b);
  }

  /** No two months of a window share a key (when the window starts in a non-negative year). */
  lemma WindowKeysDistinct<R>(now: YearMonth, rows: seq<R>)
    requires ValidMonth(now) && |rows| == 6 && now.year >= 1
    ensures forall j, k :: 0 <= j < k < 6 ==> Window(now, rows)[j].monthKey != Window(now, rows)[k].monthKey
  {
    forall j, k | 0 <= j < k < 6
      ensures Window(now, rows)[j].monthKey != Window(now, rows)[k].monthKey
    {
      var a, b := WindowMonth(now, j), WindowMonth(now, k);
      WindowRollover(now, j);
      WindowRollover(now, k);
      if MonthKey(a) == MonthKey(b) {
        MonthKeyInjective(a, b);
      }
    }
  }
}
