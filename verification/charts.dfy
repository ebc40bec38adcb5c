/**
  The two blink-creation charts. The over-time chart compares the averages
  of the two halves of its series; the creation chart compares the last bar
  with the first as a percentage. Both show the series total and the
  rounded average from the series aggregates.
 */
module CreationOverTime {
  import opened Series

  datatype TimeRange = OneMonth | ThreeMonths | SixMonths | OneYear

  /** The select's value for a range. */
  function Key(range: TimeRange): (r: string)
    ensures |r| == 2
  {
    match range
    case OneMonth => "1m"
    case ThreeMonths => "3m"
    case SixMonths => "6m"
    case OneYear => "1y"
  }

  /** The mock series the simulated fetch returns for each range. */
  function MockData(range: TimeRange): seq<Point> {
    match range
    case OneMonth => [Point("Week 1", 12), Point("Week 2", 19), Point("Week 3", 15), Point("Week 4", 22)]
    case ThreeMonths => [Point("Jan", 45), Point("Feb", 52), Point("Mar", 61)]
    case SixMonths =>
      [Point("Jan", 45), Point("Feb", 52), Point("Mar", 61), Point("Apr", 58), Point("May", 70), Point("Jun", 75)]
    case OneYear => [Point("Q1", 158), Point("Q2", 203), Point("Q3", 187), Point("Q4", 225)]
  }

  datatype Trend = Neutral | Up | Down

  /** Exact comparison of two averages `a / b < c / d` with positive counts, by cross-multiplying. */
  lemma AverageLess(a: int, b: int, c: int, d: int)
    requires b > 0 && d > 0
    ensures (a as real) / (b as real) < (c as real) / (d as real) <==> a * d < c * b
  {
    var x := (a as real) / (b as real);
    var y := (c as real) / (d as real);
    assert x * (b as real) == a as real;
    assert y * (d as real) == c as real;
    assert (a * d) as real == x * (b as real) * (d as real);
    assert (c * b) as real == y * (d as real) * (b as real);
  }

  /** The exact average of a non-empty run of points. */
  function Mean(data: seq<Point>): real
    requires |data| > 0
  {
    (Total(data) as real) / (|data| as real)
  }

  /**
    Fewer than two points: neutral. Otherwise the series is split at
    `floor(n / 2)` and the trend is up when the second half's average is
    strictly greater than the first half's, down otherwise (ties included).
    The comparison is decided by cross-multiplying the integer totals.
   */
  function TrendOf(data: seq<Point>): (r: Trend)
    ensures r == Neutral <==> |data| < 2
    ensures |data| >= 2 ==> (r == Up <==> Mean(data[|data| / 2..]) > Mean(data[..|data| / 2]))
  {
    if |data| < 2 then Neutral
    else
      var h := |data| / 2;
      AverageLess(Total(data[..h]), h, Total(data[h..]), |data| - h);
      if Total(data[h..]) * h > Total(data[..h]) * (|data| - h) then Up else Down
  }

  /**
    The halves cover the series, so the trend is up exactly when the second
    half's average is above the average of the whole series.
   */
  lemma TrendAgainstOverall(data: seq<Point>)
    requires |data| >= 2
    ensures TrendOf(data) == Up <==> Total(data[|data| / 2..]) * |data| > Total(data) * (|data| - |data| / 2)
  {
    var h := |data| / 2;
    assert Total(data) == Total(data[..h]) + Total(data[h..]) by {
      assert data[..h] + data[h..] == data;
      TotalAppend(data[..h], data[h..]);
    }
    CrossAgainstSum(Total(data[..h]), Total(data[h..]), Total(data), h, |data| - h, |data|);
  }

  /** `b / q > a / p` exactly when `b / q` is above the pooled average `(a + b) / (p + q)`, with `t = a + b`. */
  lemma CrossAgainstSum(a: int, b: int, t: int, p: int, q: int, n: int)
    requires n == p + q && t == a + b
    ensures b * p > a * q <==> b * n > t * q
  {
    assert b * n == b * p + b * q;
    assert t * q == a * q + b * q;
  }

  /** A constant series never trends up. */
  lemma ConstantSeriesIsNotUp(data: seq<Point>, v: int)
    requires |data| >= 2
    requires forall i :: 0 <= i < |data| ==> data[i].blinks == v
    ensures TrendOf(data) == Down
  {
    var h := |data| / 2;
    ConstantTotal(data[..h], v);
    ConstantTotal(data[h..], v);
  }

  lemma {:induction false} ConstantTotal(data: seq<Point>, v: int)
    requires forall i :: 0 <= i < |data| ==> data[i].blinks == v
    ensures Total(data) == |data| * v
  {
    if |data| > 0 {
      ConstantTotal(data[..|data| - 1], v);
    }
  }

  /** Worked example for "Last Month": 68 blinks, 17 a week, trending up. */
  lemma OneMonthFigures()
    ensures Total(MockData(OneMonth)) == 68
    ensures Average(MockData(OneMonth)) == 17
    ensures TrendOf(MockData(OneMonth)) == Up
    ensures PeriodLabel(Key(OneMonth)) == "week"
  {
    var d := MockData(OneMonth);
    assert d == [d[0]] + [d[1]] + ([d[2]] + [d[3]]);
    TotalOne(d[0]);
    TotalOne(d[1]);
    TotalOne(d[2]);
    TotalOne(d[3]);
    TotalAppend([d[0]], [d[1]]);
    TotalAppend([d[2]], [d[3]]);
    TotalAppend([d[0]] + [d[1]], [d[2]] + [d[3]]);
    assert d[..2] == [d[0]] + [d[1]];
    assert d[2..] == [d[2]] + [d[3]];
  }

  lemma TotalOne(p: Point)
    ensures Total([p]) == p.blinks
  {
    assert [p][..0] == [];
  }
}

/** The creation chart's trend: the change of the last bar over the first, in percent. */
module CreationChart {
  import opened Series

  /**
    `trend > 0` for `trend = (last - first) / first * 100` (or `0` for fewer
    than two bars). A first bar of 0 divides by zero: JavaScript gives
    `Infinity` for a positive last bar, `-Infinity` for a negative one and
    `NaN` for 0, and only `Infinity` is greater than 0.
   */
  predicate TrendIsUp(data: seq<Point>)
    ensures |data| > 1 && data[0].blinks > 0 ==> (TrendIsUp(data) <==> data[|data| - 1].blinks > data[0].blinks)
    ensures TrendIsUp(data) ==> |data| > 1 && data[|data| - 1].blinks != data[0].blinks
  {
    if |data| <= 1 then false
    else
      var first := data[0].blinks;
      var last := data[|data| - 1].blinks;
      if first == 0 then last > 0
      else ((last - first) as real) / (first as real) * 100.0 > 0.0
  }

  /** The sign of a quotient. */
  lemma QuotientPositive(x: int, y: int)
    requires y != 0
    ensures (x as real) / (y as real) * 100.0 > 0.0 <==> (x > 0 && y > 0) || (x < 0 && y < 0)
  {
    var q := (x as real) / (y as real);
    assert q * (y as real) == x as real;
  }

  /**
    The icon and colour are green and up exactly when the series has at least
    two bars and the last bar moved away from the first in the first bar's
    direction: above a positive first bar, below a negative one, or above 0
    from 0.
   */
  lemma TrendIsUpIff(data: seq<Point>)
    ensures TrendIsUp(data) <==>
              |data| > 1 &&
              var first := data[0].blinks;
              var last := data[|data| - 1].blinks;
              (first > 0 && last > first) || (first < 0 && last < first) || (first == 0 && last > 0)
  {
    if |data| > 1 && data[0].blinks != 0 {
      QuotientPositive(data[|data| - 1].blinks - data[0].blinks, data[0].blinks);
    }
  }

  /** The trend's colour class. */
  function TrendColor(data: seq<Point>): (r: string)
    ensures r == "text-green-500" <==> TrendIsUp(data)
    ensures r == "text-green-500" || r == "text-red-500"
  {
    if TrendIsUp(data) then "text-green-500" else "text-red-500"
  }

  /** A flat series and a single bar both show red: no change is not an upward trend. */
  lemma FlatIsRed(data: seq<Point>)
    requires |data| > 0 && data[0].blinks == data[|data| - 1].blinks
    ensures TrendColor(data) == "text-red-500"
  {
    TrendIsUpIff(data);
  }
}
