/** The home screen's year grid: one cell per day of the year so far, in the
    order given, padded with filler cells up to a minimum grid size. */
module HomeScreen {
  import opened Calendar

  /** The minimum grid: 18 rows of 5 cells. */
  const MinimumSummaryDays: nat := 18 * 5

  /** A grid cell: a day (keyed by its date only) or a filler keyed by its
      position among the fillers. */
  datatype Cell = DayCell(date: Day) | FillerCell(key: nat)

  function Max(a: int, b: int): int {
    if a < b then b else a
  }

  /** How many cells are missing to reach the minimum; negative once the
      days alone exceed it. */
  function AmountOfDaysToFill(days: seq<Day>): (n: int)
    ensures |days| + n == 90
    ensures n > 0 <==> |days| < 90
  {
    MinimumSummaryDays - |days|
  }

  /** The fillers rendered for an amount: `n` of them when `n` is positive,
      none otherwise. */
  function Fillers(n: int): (cells: seq<Cell>)
    ensures |cells| == Max(n, 0)
    ensures forall k :: 0 <= k < |cells| ==> cells[k] == FillerCell(k)
  {
    if n > 0 then seq(n, k requires 0 <= k < n => FillerCell(k)) else []
  }

  /** The rendered grid: the real days in their given order, then the
      fillers; never fewer than 90 cells. */
  function Grid(days: seq<Day>): (cells: seq<Cell>)
    ensures |cells| == Max(|days|, 90)
    ensures forall i :: 0 <= i < |days| ==> cells[i] == DayCell(days[i])
    ensures forall i :: |days| <= i < |cells| ==> cells[i] == FillerCell(i - |days|)
  {
    seq(|days|, i requires 0 <= i < |days| => DayCell(days[i])) + Fillers(AmountOfDaysToFill(days))
  }

  /** The number of filler cells in a sequence of cells. */
  function FillerCount(cells: seq<Cell>): nat {
    if cells == [] then 0
    else (if cells[0].FillerCell? then 1 else 0) + FillerCount(cells[1..])
  }

  lemma {:induction false} FillerCountConcat(a: seq<Cell>, b: seq<Cell>)
    ensures FillerCount(a + b) == FillerCount(a) + FillerCount(b)
  {
    if a == [] {
      assert a + b == b;
    } else {
      assert (a + b)[0] == a[0];
      assert (a + b)[1..] == a[1..] + b;
      FillerCountConcat(a[1..], b);
    }
  }

  lemma {:induction false} FillerCountAll(cells: seq<Cell>, fillers: bool)
    requires forall i :: 0 <= i < |cells| ==> cells[i].FillerCell? == fillers
    ensures FillerCount(cells) == if fillers then |cells| else 0
  {
    if cells != [] {
      FillerCountAll(cells[1..], fillers);
    }
  }

  /** The grid holds exactly `90 - |days|` fillers when the days fall short
      of the minimum, and none otherwise. */
  lemma GridFillerCount(days: seq<Day>)
    ensures |days| < 90 ==> FillerCount(Grid(days)) == 90 - |days|
    ensures |days| >= 90 ==> FillerCount(Grid(days)) == 0
  {
    var cells := Grid(days);
    assert cells == cells[..|days|] + cells[|days|..];
    FillerCountConcat(cells[..|days|], cells[|days|..]);
    FillerCountAll(cells[..|days|], false);
    FillerCountAll(cells[|days|..], true);
  }
}
