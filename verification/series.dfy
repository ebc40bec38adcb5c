/**
  The integer aggregates shown above the blink-creation charts: the total,
  the average per period rounded with `Math.round`, and the period label.
 */
module Series {

  /** One bar of the chart: `{ name, blinks }`. */
  datatype Point = Point(name: string, blinks: int)

  /** `data.reduce((sum, item) => sum + item.blinks, 0)`. */
  function Total(data: seq<Point>): int {
    if |data| == 0 then 0 else Total(data[..|data| - 1]) + data[|data| - 1].blinks
  }

  /** A series of non-negative counts never totals below zero. */
  lemma {:induction false} TotalNonNegative(data: seq<Point>)
    requires forall i :: 0 <= i < |data| ==> data[i].blinks >= 0
    ensures Total(data) >= 0
  {
    if |data| > 0 {
      TotalNonNegative(data[..|data| - 1]);
    }
  }

  /** The total of two adjacent runs is the sum of their totals. */
  lemma {:induction false} TotalAppend(a: seq<Point>, b: seq<Point>)
    ensures Total(a + b) == Total(a) + Total(b)
    decreases |b|
  {
    if |b| == 0 {
      assert a + b == a;
    } else {
      assert (a + b)[..|a + b| - 1] == a + b[..|b| - 1];
      TotalAppend(a, b[..|b| - 1]);
    }
  }

  /**
    `Math.round(total / n)` for `n > 0`: the nearest integer, halves rounded
    up. Computed exactly as `floor((2 * total + n) / (2 * n))`.
   */
  function RoundDiv(total: int, n: int): (r: int)
    requires n > 0
    ensures 2 * n * r - n <= 2 * total < 2 * n * r + n
  {
    var q := (2 * total + n) / (2 * n);
    assert 2 * n * q <= 2 * total + n < 2 * n * q + 2 * n;
    q
  }

  /** `data.length > 0 ? Math.round(total / data.length) : 0`. */
  function Average(data: seq<Point>): (r: int)
    ensures |data| == 0 ==> r == 0
    ensures |data| > 0 ==> 2 * |data| * r - |data| <= 2 * Total(data) < 2 * |data| * r + |data|
  {
    if |data| > 0 then RoundDiv(Total(data), |data|) else 0
  }

  /** The label "Average per …": `'1m'` is weekly, `'1y'` quarterly, anything else monthly. */
  function PeriodLabel(timeRange: string): (r: string)
    ensures r == "week" <==> timeRange == "1m"
    ensures r == "quarter" <==> timeRange == "1y"
    ensures r == "week" || r == "quarter" || r == "month"
  {
    if timeRange == "1m" then "week" else if timeRange == "1y" then "quarter" else "month"
  }
}
