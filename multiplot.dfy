/** Widgets::MultiPlot: one curve of points per dataset of a multiplot group,
    refilled from the dashboard, and the automatic Y range of the plot.
    Doubles are modelled as reals; the dashboard is passed in as a value. */
module Widgets {
  import opened Wrappers

  datatype Point = Point(x: real, y: real)

  /** The min and max a dataset of the group declares. */
  datatype Limits = Limits(min: real, max: real)

  /** What the dashboard knows of one multiplot group: its title and one
      Limits per dataset. */
  datatype MultiplotGroup = MultiplotGroup(title: string, limits: seq<Limits>)

  /** The dashboard as a multiplot sees it: the multiplot groups, the number
      of points a plot shows, and multiplotValues(), the latest values of
      each curve of each multiplot. */
  datatype Dashboard = Dashboard(multiplots: seq<MultiplotGroup>, points: nat, values: seq<seq<seq<real>>>)

  /** std::numeric_limits<double>::max(), written out exactly. */
  const DoubleMax: real := 179769313486231570814527423731704356798070567525844996598917476803157260780028538760589558632766878171540458953514382464234321326889464182768467546703537516986049910576551282076245490090389328944075868508455133942304583236903222948165808559332123348274797826204144723168738177180919299881250404026184124858368.0

  /** std::numeric_limits<double>::lowest() */
  const DoubleLowest: real := -DoubleMax

  predicate IsFinite(x: real) {
    DoubleLowest <= x <= DoubleMax
  }

  /** qMin and qMax */
  function Min(a: real, b: real): real {
    if a < b then a else b
  }

  function Max(a: real, b: real): real {
    if a < b then b else a
  }

  function Abs(x: real): real {
    if x < 0.0 then -x else x
  }

  /** std::floor and std::ceil */
  function Floor(x: real): real {
    x.Floor as real
  }

  function Ceil(x: real): real {
    (-((-x).Floor)) as real
  }

  predicate IsInteger(x: real) {
    x == x.Floor as real
  }

  lemma FloorCeil(x: real)
    ensures Floor(x) <= x < Floor(x) + 1.0 && IsInteger(Floor(x))
    ensures Ceil(x) - 1.0 < x <= Ceil(x) && IsInteger(Ceil(x))
  {
  }

  /** The running minimum and maximum of a loop that starts at acc. */
  function MinFrom(acc: real, xs: seq<real>): real
    decreases |xs|
  {
    if xs == [] then acc else MinFrom(Min(acc, xs[0]), xs[1..])
  }

  function MaxFrom(acc: real, xs: seq<real>): real
    decreases |xs|
  {
    if xs == [] then acc else MaxFrom(Max(acc, xs[0]), xs[1..])
  }

  function Mins(limits: seq<Limits>): seq<real> {
    seq(|limits|, k requires 0 <= k < |limits| => limits[k].min)
  }

  function Maxs(limits: seq<Limits>): seq<real> {
    seq(|limits|, k requires 0 <= k < |limits| => limits[k].max)
  }

  function Ys(curve: seq<Point>): seq<real> {
    seq(|curve|, k requires 0 <= k < |curve| => curve[k].y)
  }

  /** The running minimum and maximum over every point of every curve. */
  function DataMin(acc: real, data: seq<seq<Point>>): real
    decreases |data|
  {
    if data == [] then acc else DataMin(MinFrom(acc, Ys(data[0])), data[1..])
  }

  function DataMax(acc: real, data: seq<seq<Point>>): real
    decreases |data|
  {
    if data == [] then acc else DataMax(MaxFrom(acc, Ys(data[0])), data[1..])
  }

  /** Every dataset of the group declares min != max. */
  predicate LimitsDistinct(limits: seq<Limits>) {
    forall k :: 0 <= k < |limits| ==> limits[k].min != limits[k].max
  }

  predicate HasPoint(data: seq<seq<Point>>) {
    exists c :: 0 <= c < |data| && data[c] != []
  }

  predicate AllFinite(data: seq<seq<Point>>) {
    forall c, p :: 0 <= c < |data| && 0 <= p < |data[c]| ==> IsFinite(data[c][p].y)
  }

  /** lo is the smallest Y of all points, hi the largest. */
  predicate IsLowest(data: seq<seq<Point>>, lo: real) {
    && (exists c, p :: 0 <= c < |data| && 0 <= p < |data[c]| && data[c][p].y == lo)
    && forall c, p :: 0 <= c < |data| && 0 <= p < |data[c]| ==> lo <= data[c][p].y
  }

  predicate IsHighest(data: seq<seq<Point>>, hi: real) {
    && (exists c, p :: 0 <= c < |data| && 0 <= p < |data[c]| && data[c][p].y == hi)
    && forall c, p :: 0 <= c < |data| && 0 <= p < |data[c]| ==> data[c][p].y <= hi
  }

  /** The data-driven range from the lowest and highest Y: a margin, integer
      rounding outwards, and widening when the rounded bounds coincide. */
  function FallbackRange(lo: real, hi: real): (real, real) {
    var (a, b) :=
      if lo == hi then
        if lo == 0.0 then (-1.0, 1.0)
        else (lo - Abs(lo) * 0.1, hi + Abs(lo) * 0.1)
      else (lo - (hi - lo) * 0.1, hi + (hi - lo) * 0.1);
    var top, bottom := Ceil(b), Floor(a);
    if top == bottom then (bottom - 1.0, top + 1.0) else (bottom, top)
  }

  /** calculateAutoScaleRange as a function of the curves and of the limits
      the group's datasets declare: (minY, maxY). */
  function AutoScaleRange(data: seq<seq<Point>>, limits: seq<Limits>): (real, real) {
    if data == [] then (0.0, 1.0)
    else if LimitsDistinct(limits) then (MinFrom(DoubleMax, Mins(limits)), MaxFrom(DoubleLowest, Maxs(limits)))
    else FallbackRange(DataMin(DoubleMax, data), DataMax(DoubleLowest, data))
  }

  lemma {:induction false} MinFromMeaning(acc: real, xs: seq<real>)
    ensures MinFrom(acc, xs) <= acc
    ensures forall k :: 0 <= k < |xs| ==> MinFrom(acc, xs) <= xs[k]
    ensures MinFrom(acc, xs) == acc || exists k :: 0 <= k < |xs| && MinFrom(acc, xs) == xs[k]
    decreases |xs|
  {
    if xs != [] {
      MinFromMeaning(Min(acc, xs[0]), xs[1..]);
      assert forall k :: 1 <= k < |xs| ==> xs[k] == xs[1..][k - 1];
    }
  }

  lemma {:induction false} MaxFromMeaning(acc: real, xs: seq<real>)
    ensures acc <= MaxFrom(acc, xs)
    ensures forall k :: 0 <= k < |xs| ==> xs[k] <= MaxFrom(acc, xs)
    ensures MaxFrom(acc, xs) == acc || exists k :: 0 <= k < |xs| && MaxFrom(acc, xs) == xs[k]
    decreases |xs|
  {
    if xs != [] {
      MaxFromMeaning(Max(acc, xs[0]), xs[1..]);
      assert forall k :: 1 <= k < |xs| ==> xs[k] == xs[1..][k - 1];
    }
  }

  lemma {:induction false} DataMinMeaning(acc: real, data: seq<seq<Point>>)
    ensures DataMin(acc, data) <= acc
    ensures forall c, p :: 0 <= c < |data| && 0 <= p < |data[c]| ==> DataMin(acc, data) <= data[c][p].y
    ensures DataMin(acc, data) == acc
         || exists c, p :: 0 <= c < |data| && 0 <= p < |data[c]| && DataMin(acc, data) == data[c][p].y
    decreases |data|
  {
    if data != [] {
      var m := MinFrom(acc, Ys(data[0]));
      MinFromMeaning(acc, Ys(data[0]));
      DataMinMeaning(m, data[1..]);
      assert forall c :: 1 <= c < |data| ==> data[c] == data[1..][c - 1];
      assert forall p :: 0 <= p < |data[0]| ==> Ys(data[0])[p] == data[0][p].y;
      if DataMin(acc, data) == m && m != acc {
        var k :| 0 <= k < |Ys(data[0])| && m == Ys(data[0])[k];
        assert data[0][k].y == m;
      }
    }
  }

  lemma {:induction false} DataMaxMeaning(acc: real, data: seq<seq<Point>>)
    ensures acc <= DataMax(acc, data)
    ensures forall c, p :: 0 <= c < |data| && 0 <= p < |data[c]| ==> data[c][p].y <= DataMax(acc, data)
    ensures DataMax(acc, data) == acc
         || exists c, p :: 0 <= c < |data| && 0 <= p < |data[c]| && DataMax(acc, data) == data[c][p].y
    decreases |data|
  {
    if data != [] {
      var m := MaxFrom(acc, Ys(data[0]));
      MaxFromMeaning(acc, Ys(data[0]));
      DataMaxMeaning(m, data[1..]);
      assert forall c :: 1 <= c < |data| ==> data[c] == data[1..][c - 1];
      assert forall p :: 0 <= p < |data[0]| ==> Ys(data[0])[p] == data[0][p].y;
      if DataMax(acc, data) == m && m != acc {
        var k :| 0 <= k < |Ys(data[0])| && m == Ys(data[0])[k];
        assert data[0][k].y == m;
      }
    }
  }

  /** With at least one finite point, the running minimum and maximum that
      start at the sentinels are the lowest and highest Y. */
  lemma DataExtremes(data: seq<seq<Point>>)
    requires HasPoint(data) && AllFinite(data)
    ensures IsLowest(data, DataMin(DoubleMax, data))
    ensures IsHighest(data, DataMax(DoubleLowest, data))
  {
    DataMinMeaning(DoubleMax, data);
    DataMaxMeaning(DoubleLowest, data);
    var c :| 0 <= c < |data| && data[c] != [];
    assert IsFinite(data[c][0].y);
  }

  lemma LowestUnique(data: seq<seq<Point>>, a: real, b: real)
    requires IsLowest(data, a) && IsLowest(data, b)
    ensures a == b
  {
  }

  lemma HighestUnique(data: seq<seq<Point>>, a: real, b: real)
    requires IsHighest(data, a) && IsHighest(data, b)
    ensures a == b
  {
  }

  /** An empty curve buffer gives the range [0, 1]. */
  lemma EmptyBufferRange(limits: seq<Limits>)
    ensures AutoScaleRange([], limits) == (0.0, 1.0)
  {
  }

  /** When every dataset declares min != max, the range is the smallest
      declared min and the largest declared max, unrounded; a group with no
      datasets leaves the sentinels, an inverted range. */
  lemma DeclaredLimitsRange(data: seq<seq<Point>>, limits: seq<Limits>)
    requires data != [] && LimitsDistinct(limits)
    requires forall k :: 0 <= k < |limits| ==> IsFinite(limits[k].min) && IsFinite(limits[k].max)
    ensures var (lo, hi) := AutoScaleRange(data, limits);
      && (forall k :: 0 <= k < |limits| ==> lo <= limits[k].min && limits[k].max <= hi)
      && (|limits| > 0 ==> exists k :: 0 <= k < |limits| && lo == limits[k].min)
      && (|limits| > 0 ==> exists k :: 0 <= k < |limits| && hi == limits[k].max)
      && (|limits| == 0 ==> lo == DoubleMax && hi == DoubleLowest)
  {
    MinFromMeaning(DoubleMax, Mins(limits));
    MaxFromMeaning(DoubleLowest, Maxs(limits));
    assert forall k :: 0 <= k < |limits| ==> Mins(limits)[k] == limits[k].min && Maxs(limits)[k] == limits[k].max;
    if |limits| > 0 {
      assert Mins(limits)[0] == limits[0].min && Maxs(limits)[0] == limits[0].max;
    }
  }

  /** Curves that all hold the same value c (and some dataset with min ==
      max): [-1, 1] for c == 0, else c widened by 10% of |c| each way and
      rounded outwards, which never needs the final widening. */
  lemma ConstantDataRange(data: seq<seq<Point>>, limits: seq<Limits>, c: real)
    requires data != [] && !LimitsDistinct(limits) && AllFinite(data)
    requires IsLowest(data, c) && IsHighest(data, c)
    ensures c == 0.0 ==> AutoScaleRange(data, limits) == (-1.0, 1.0)
    ensures c != 0.0 ==> AutoScaleRange(data, limits) == (Floor(c - Abs(c) * 0.1), Ceil(c + Abs(c) * 0.1))
  {
    DataExtremes(data);
    LowestUnique(data, c, DataMin(DoubleMax, data));
    HighestUnique(data, c, DataMax(DoubleLowest, data));
    FloorCeil(c - Abs(c) * 0.1);
    FloorCeil(c + Abs(c) * 0.1);
  }

  /** Curves with lowest Y lo below highest Y hi: the range widened by 10%
      of hi - lo on each side and rounded outwards. */
  lemma SpreadDataRange(data: seq<seq<Point>>, limits: seq<Limits>, lo: real, hi: real)
    requires data != [] && !LimitsDistinct(limits) && AllFinite(data)
    requires IsLowest(data, lo) && IsHighest(data, hi) && lo < hi
    ensures AutoScaleRange(data, limits) == (Floor(lo - (hi - lo) * 0.1), Ceil(hi + (hi - lo) * 0.1))
  {
    DataExtremes(data);
    LowestUnique(data, lo, DataMin(DoubleMax, data));
    HighestUnique(data, hi, DataMax(DoubleLowest, data));
    FloorCeil(lo - (hi - lo) * 0.1);
    FloorCeil(hi + (hi - lo) * 0.1);
  }

  /** The data-driven range has integer bounds, minY < maxY, and holds every
      point of every curve. */
  lemma FallbackEnclosesData(data: seq<seq<Point>>, limits: seq<Limits>)
    requires data != [] && !LimitsDistinct(limits) && HasPoint(data) && AllFinite(data)
    ensures var (bottom, top) := AutoScaleRange(data, limits);
      && IsInteger(bottom) && IsInteger(top) && bottom < top
      && forall c, p :: 0 <= c < |data| && 0 <= p < |data[c]| ==> bottom <= data[c][p].y <= top
  {
    DataExtremes(data);
    var lo, hi := DataMin(DoubleMax, data), DataMax(DoubleLowest, data);
    var (a, b) :=
      if lo == hi then
        if lo == 0.0 then (-1.0, 1.0)
        else (lo - Abs(lo) * 0.1, hi + Abs(lo) * 0.1)
      else (lo - (hi - lo) * 0.1, hi + (hi - lo) * 0.1);
    FloorCeil(a);
    FloorCeil(b);
    FloorCeil(Floor(a) - 1.0);
    FloorCeil(Ceil(b) + 1.0);
    assert a <= lo && hi <= b;
  }

  /** With curves but no point at all, the sentinels survive the fallback
      and the range comes out inverted. */
  lemma NoPointsRange(data: seq<seq<Point>>, limits: seq<Limits>)
    requires data != [] && !LimitsDistinct(limits) && !HasPoint(data)
    ensures AutoScaleRange(data, limits).0 > AutoScaleRange(data, limits).1
  {
    DataMinMeaning(DoubleMax, data);
    DataMaxMeaning(DoubleLowest, data);
    var lo, hi := DoubleMax, DoubleLowest;
    FloorCeil(lo - (hi - lo) * 0.1);
    FloorCeil(hi + (hi - lo) * 0.1);
  }

  /** QVector::resize on a curve: truncates, or pads with (0, 0) points. */
  function Resize(curve: seq<Point>, n: nat): (r: seq<Point>)
    ensures |r| == n
    ensures forall j :: 0 <= j < n ==> r[j] == if j < |curve| then curve[j] else Point(0.0, 0.0)
  {
    if n <= |curve| then curve[..n] else curve + seq(n - |curve|, _ => Point(0.0, 0.0))
  }

  /** count curves of n (0, 0) points each. */
  function Blank(count: nat, n: nat): seq<seq<Point>> {
    seq(count, _ => seq(n, _ => Point(0.0, 0.0)))
  }

  /** The curve for a list of values: point j is (j, values[j]). */
  function CurveOf(values: seq<real>): seq<Point> {
    seq(|values|, j requires 0 <= j < |values| => Point(j as real, values[j]))
  }

  /** The buffer after updateData: the first |curves| curves replaced, the
      others as they were. */
  function Refreshed(data: seq<seq<Point>>, curves: seq<seq<real>>): seq<seq<Point>>
    requires |curves| <= |data|
  {
    seq(|data|, i requires 0 <= i < |data| => if i < |curves| then CurveOf(curves[i]) else data[i])
  }

  /** After a refresh, the data-driven range holds every value the dashboard
      supplied, when there is at least one and all are finite doubles. */
  lemma RefreshedRangeHoldsValues(data: seq<seq<Point>>, curves: seq<seq<real>>, limits: seq<Limits>)
    requires |curves| <= |data| && data != [] && !LimitsDistinct(limits)
    requires AllFinite(Refreshed(data, curves))
    requires exists i :: 0 <= i < |curves| && curves[i] != []
    ensures forall i, j :: 0 <= i < |curves| && 0 <= j < |curves[i]| ==>
      AutoScaleRange(Refreshed(data, curves), limits).0 <= curves[i][j] <= AutoScaleRange(Refreshed(data, curves), limits).1
  {
    var r: seq<seq<Point>> := Refreshed(data, curves);
    var i :| 0 <= i < |curves| && curves[i] != [];
    assert r[i] != [];
    FallbackEnclosesData(r, limits);
    forall i, j | 0 <= i < |curves| && 0 <= j < |curves[i]|
      ensures AutoScaleRange(r, limits).0 <= curves[i][j] <= AutoScaleRange(r, limits).1
    {
      assert r[i][j].y == curves[i][j];
    }
  }

  /** The first loop of calculateAutoScaleRange: it folds the declared
      limits into a range and stops at the first dataset whose min equals
      its max. */
  method ScanDeclaredLimits(limits: seq<Limits>) returns (ok: bool, lo: real, hi: real)
    ensures ok == LimitsDistinct(limits)
    ensures ok ==> lo == MinFrom(DoubleMax, Mins(limits)) && hi == MaxFrom(DoubleLowest, Maxs(limits))
  {
    ok := true;
    lo, hi := DoubleMax, DoubleLowest;
    var k := 0;
    while k < |limits|
      invariant 0 <= k <= |limits|
      invariant ok ==> LimitsDistinct(limits[..k])
      invariant ok ==> MinFrom(lo, Mins(limits)[k..]) == MinFrom(DoubleMax, Mins(limits))
      invariant ok ==> MaxFrom(hi, Maxs(limits)[k..]) == MaxFrom(DoubleLowest, Maxs(limits))
      invariant !ok ==> !LimitsDistinct(limits)
    {
      ok := ok && limits[k].min != limits[k].max;
      if ok {
        assert Mins(limits)[k..][1..] == Mins(limits)[k + 1..];
        assert Maxs(limits)[k..][1..] == Maxs(limits)[k + 1..];
        lo := Min(lo, limits[k].min);
        hi := Max(hi, limits[k].max);
      } else {
        assert !LimitsDistinct(limits) by {
          assert limits[k].min == limits[k].max;
        }
        break;
      }
      assert limits[..k + 1] == limits[..k] + [limits[k]];
      k := k + 1;
    }
    if ok {
      assert limits[..k] == limits;
      assert Mins(limits)[k..] == [] && Maxs(limits)[k..] == [];
    }
  }

  /** The fallback loop of calculateAutoScaleRange: the lowest and highest
      Y over every point of every curve, starting from the sentinels. */
  method ScanData(curves: seq<seq<Point>>) returns (lo: real, hi: real)
    ensures lo == DataMin(DoubleMax, curves) && hi == DataMax(DoubleLowest, curves)
  {
    lo, hi := DoubleMax, DoubleLowest;
    var c := 0;
    while c < |curves|
      invariant 0 <= c <= |curves|
      invariant DataMin(lo, curves[c..]) == DataMin(DoubleMax, curves)
      invariant DataMax(hi, curves[c..]) == DataMax(DoubleLowest, curves)
    {
      var curve := curves[c];
      assert curves[c..][1..] == curves[c + 1..];
      var p := 0;
      while p < |curve|
        invariant 0 <= p <= |curve|
        invariant DataMin(MinFrom(lo, Ys(curve)[p..]), curves[c + 1..]) == DataMin(DoubleMax, curves)
        invariant DataMax(MaxFrom(hi, Ys(curve)[p..]), curves[c + 1..]) == DataMax(DoubleLowest, curves)
      {
        assert Ys(curve)[p..][1..] == Ys(curve)[p + 1..];
        lo := Min(lo, curve[p].y);
        hi := Max(hi, curve[p].y);
        p := p + 1;
      }
      assert Ys(curve)[p..] == [];
      c := c + 1;
    }
    assert curves[c..] == [];
  }

  class MultiPlot {
    /** the position of this multiplot among the dashboard's multiplots */
    const index: int
    var minX: real
    var maxX: real
    var minY: real
    var maxY: real
    var yLabel: string
    /** one curve per dataset */
    var data: seq<seq<Point>>

    /** The limits calculateAutoScaleRange reads: those of this multiplot's
        group, looked up only when there are curves. */
    function GroupLimits(dash: Dashboard): seq<Limits>
      reads this
      requires data != [] ==> 0 <= index < |dash.multiplots|
    {
      if data == [] then [] else dash.multiplots[index].limits
    }

    /** The constructor: an index outside the dashboard's multiplots gives
        an empty plot. The dataset min/max folded into minY and maxY here
        are always overwritten by the range computation that follows, so
        they are not repeated. */
    constructor(index: int, dash: Dashboard)
      ensures this.index == index
      ensures 0 <= index < |dash.multiplots| ==>
        var group := dash.multiplots[index];
        && yLabel == group.title
        && data == Blank(|group.limits|, dash.points + 1)
        && minX == 0.0 && maxX == dash.points as real
        && (minY, maxY) == AutoScaleRange(Blank(|group.limits|, dash.points), group.limits)
      ensures 0 <= index < |dash.multiplots| ==>
        && Count() == |dash.multiplots[index].limits|
        && forall c :: 0 <= c < Count() ==> |data[c]| == dash.points + 1
      ensures !(0 <= index < |dash.multiplots|) ==>
        yLabel == "" && data == [] && minX == 0.0 && maxX == 0.0 && (minY, maxY) == (0.0, 1.0)
      ensures !(0 <= index < |dash.multiplots|) ==> Count() == 0
    {
      this.index := index;
      minX, maxX, minY, maxY := 0.0, 0.0, 0.0, 0.0;
      yLabel := "";
      data := [];
      if 0 <= index < |dash.multiplots| {
        var group := dash.multiplots[index];
        yLabel := group.title;
        data := Blank(|group.limits|, dash.points);
      }
      new;
      CalculateAutoScaleRange(dash);
      UpdateRange(dash);
    }

    function Count(): (n: nat)
      reads this
      ensures n == |data|
    {
      |data|
    }

    function MinX(): real
      reads this
    {
      minX
    }

    function MaxX(): real
      reads this
    {
      maxX
    }

    function MinY(): real
      reads this
    {
      minY
    }

    function MaxY(): real
      reads this
    {
      maxY
    }

    /** draw: a null series (hasSeries false) or an index outside the curves
        does nothing; otherwise index 0 first recomputes the range, and the
        series is given the curve at index. */
    method Draw(hasSeries: bool, curve: int, dash: Dashboard) returns (drawn: Option<seq<Point>>)
      requires hasSeries && curve == 0 && data != [] ==> 0 <= index < |dash.multiplots|
      modifies this`minY, this`maxY
      ensures data == old(data)
      ensures hasSeries && 0 <= curve < |data| ==> drawn == Some(data[curve])
      ensures !(hasSeries && 0 <= curve < |data|) ==> drawn == None
      ensures hasSeries && curve == 0 && data != [] ==> (minY, maxY) == AutoScaleRange(data, GroupLimits(dash))
      ensures !(hasSeries && curve == 0 && data != []) ==> minY == old(minY) && maxY == old(maxY)
    {
      drawn := None;
      if hasSeries && 0 <= curve < |data| {
        if curve == 0 {
          CalculateAutoScaleRange(dash);
        }
        drawn := Some(data[curve]);
      }
    }

    /** updateData: when the dashboard has values for this multiplot, curve
        i becomes the points (j, values[j]) of the i-th supplied list; the
        buffer must hold at least as many curves as supplied, which the
        source does not check. */
    method UpdateData(dash: Dashboard)
      requires 0 <= index < |dash.values| ==> |dash.values[index]| <= |data|
      modifies this`data
      ensures 0 <= index < |dash.values| ==> data == Refreshed(old(data), dash.values[index])
      ensures !(0 <= index < |dash.values|) ==> data == old(data)
    {
      if index >= 0 && |dash.values| > index {
        var curves := dash.values[index];
        var i := 0;
        while i < |curves|
          invariant 0 <= i <= |curves| && |data| == |old(data)|
          invariant forall k :: 0 <= k < i ==> data[k] == CurveOf(curves[k])
          invariant forall k :: i <= k < |data| ==> data[k] == old(data)[k]
        {
          var values := curves[i];
          if |data[i]| != |values| {
            data := data[i := Resize(data[i], |values|)];
          }
          var j := 0;
          while j < |values|
            invariant 0 <= j <= |values| && |data| == |old(data)|
            invariant |data[i]| == |values|
            invariant forall p :: 0 <= p < j ==> data[i][p] == Point(p as real, values[p])
            invariant forall k :: 0 <= k < i ==> data[k] == CurveOf(curves[k])
            invariant forall k :: i < k < |data| ==> data[k] == old(data)[k]
          {
            data := data[i := data[i][j := Point(j as real, values[j])]];
            j := j + 1;
          }
          assert data[i] == CurveOf(values);
          i := i + 1;
        }
        assert data == Refreshed(old(data), curves);
      }
    }

    /** updateRange: for a valid index, one curve of points + 1 (0, 0)
        points per dataset of the group and the X range [0, points]; for
        any other index nothing changes. */
    method UpdateRange(dash: Dashboard)
      modifies this`data, this`minX, this`maxX
      ensures 0 <= index < |dash.multiplots| ==>
        && data == Blank(|dash.multiplots[index].limits|, dash.points + 1)
        && minX == 0.0 && maxX == dash.points as real
      ensures 0 <= index < |dash.multiplots| ==>
        && Count() == |dash.multiplots[index].limits|
        && forall c :: 0 <= c < Count() ==>
             |data[c]| == dash.points + 1 && forall j :: 0 <= j < |data[c]| ==> data[c][j] == Point(0.0, 0.0)
      ensures !(0 <= index < |dash.multiplots|) ==>
        data == old(data) && minX == old(minX) && maxX == old(maxX)
    {
      if index < 0 || index >= |dash.multiplots| {
        return;
      }
      data := [];
      var count := |dash.multiplots[index].limits|;
      var i := 0;
      while i < count
        invariant 0 <= i <= count
        invariant data == Blank(i, dash.points + 1)
      {
        assert Resize([], dash.points + 1) == seq(dash.points + 1, _ => Point(0.0, 0.0));
        assert Blank(i + 1, dash.points + 1) == Blank(i, dash.points + 1) + [Resize([], dash.points + 1)];
        data := data + [Resize([], dash.points + 1)];
        i := i + 1;
      }
      minX := 0.0;
      maxX := dash.points as real;
    }

    /** calculateAutoScaleRange: the declared limits when every dataset
        has min != max, otherwise a range derived from the points. */
    method CalculateAutoScaleRange(dash: Dashboard)
      requires data != [] ==> 0 <= index < |dash.multiplots|
      modifies this`minY, this`maxY
      ensures (minY, maxY) == AutoScaleRange(data, GroupLimits(dash))
    {
      var ok := true;
      if |data| == 0 {
        minY, maxY := 0.0, 1.0;
      } else {
        ok, minY, maxY := ScanDeclaredLimits(dash.multiplots[index].limits);
      }

      if !ok {
        minY, maxY := ScanData(data);

        if minY == maxY {
          if minY == 0.0 {
            minY := -1.0;
            maxY := 1.0;
          } else {
            var absValue := Abs(minY);
            minY := minY - absValue * 0.1;
            maxY := maxY + absValue * 0.1;
          }
        } else {
          var range := maxY - minY;
          minY := minY - range * 0.1;
          maxY := maxY + range * 0.1;
        }

        maxY := Ceil(maxY);
        minY := Floor(minY);
        if maxY == minY {
          minY := minY - 1.0;
          maxY := maxY + 1.0;
        }
      }
    }
  }
}
