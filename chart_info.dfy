/*
 * The records the generic chart keeps while it assembles plots: series,
 * configured axes and plot descriptors, the plot-matching test, the two
 * first-match searches, and the range-tracking axis object.
 */
module ChartInfo {

  /** One curve as handed to addCurve: its data and the names of the two axes it uses. */
  datatype SeriesInfo = SeriesInfo(
    name: string,
    xseries: seq<real>,
    yseries: seq<real>,
    xname: string,
    yname: string,
    labels: seq<string>)

  /** What identifies a series when two plots are compared: its name and its axis names. */
  datatype SeriesKey = SeriesKey(name: string, xname: string, yname: string)

  function KeyOf(s: SeriesInfo): SeriesKey
  {
    SeriesKey(s.name, s.xname, s.yname)
  }

  /**
   * An axis as recorded by configureAxis. The constructor that builds these
   * sets the x range from the configured min and max only; orientation,
   * the fixed flag and the y range are left unset, so they are not part of it.
   */
  datatype AxisInfo = AxisInfo(
    name: string,
    visible: bool,
    align: int,
    minx: real,
    maxx: real,
    axisType: int,
    log: bool,
    categories: seq<string>)

  /** The life cycle of a plot descriptor while plots are reconciled. */
  datatype PlotState = Init | Active | Matched | DeleteMe

  /** A pointer to a plot widget: null, or the identity of one widget. */
  datatype PlotRef = NoPlot | PlotId(id: nat)

  /** One plot: its shared x axis, its series and the axes attached to it. */
  datatype PlotInfo = PlotInfo(
    state: PlotState,
    plot: PlotRef,
    xaxis: string,
    series: seq<SeriesInfo>,
    axes: seq<AxisInfo>)

  /** Some series of `ss` has key `k`. */
  predicate HasKey(ss: seq<SeriesInfo>, k: SeriesKey)
  {
    exists j :: 0 <= j < |ss| && KeyOf(ss[j]) == k
  }

  /**
   * `p` matches `other`: same x axis, same number of series, and every series
   * of `p` has a series with the same key in `other`.
   */
  predicate Matches(p: PlotInfo, other: PlotInfo)
  {
    && other.xaxis == p.xaxis
    && |other.series| == |p.series|
    && forall i :: 0 <= i < |p.series| ==> HasKey(other.series, KeyOf(p.series[i]))
  }

  /** The matching test as the source runs it: two early exits, then a nested scan with a found flag. */
  method CheckMatches(p: PlotInfo, other: PlotInfo) returns (r: bool)
    ensures other.xaxis != p.xaxis ==> !r
    ensures |other.series| != |p.series| ==> !r
    ensures r == Matches(p, other)
  {
    if other.xaxis != p.xaxis {
      return false;
    }
    if |other.series| != |p.series| {
      return false;
    }
    var i := 0;
    while i < |p.series|
      invariant 0 <= i <= |p.series|
      invariant forall k :: 0 <= k < i ==> HasKey(other.series, KeyOf(p.series[k]))
    {
      var info := p.series[i];
      var found := false;
      var j := 0;
      while j < |other.series|
        invariant 0 <= j <= |other.series|
        invariant found <==> exists m :: 0 <= m < j && KeyOf(other.series[m]) == KeyOf(info)
      {
        var oinfo := other.series[j];
        if oinfo.name == info.name && oinfo.yname == info.yname && oinfo.xname == info.xname {
          found := true;
        }
        j := j + 1;
      }
      if !found {
        return false;
      }
      i := i + 1;
    }
    return true;
  }

  /** The index of the first plot of `list` that matches `findme`, or -1. */
  function PlotIndex(list: seq<PlotInfo>, findme: PlotInfo): (r: int)
    ensures -1 <= r < |list|
    ensures r < 0 <==> forall k :: 0 <= k < |list| ==> !Matches(list[k], findme)
    ensures 0 <= r ==> Matches(list[r], findme)
    ensures forall k :: 0 <= k < r ==> !Matches(list[k], findme)
    decreases |list|
  {
    if |list| == 0 then -1
    else if Matches(list[0], findme) then 0
    else
      var r' := PlotIndex(list[1..], findme);
      if r' < 0 then -1 else r' + 1
  }

  /** findPlot: an index loop that returns at the first match. */
  method FindPlot(list: seq<PlotInfo>, findme: PlotInfo) returns (r: int)
    ensures r == PlotIndex(list, findme)
  {
    var i := 0;
    while i < |list|
      invariant 0 <= i <= |list|
      invariant forall k :: 0 <= k < i ==> !Matches(list[k], findme)
    {
      var m := CheckMatches(list[i], findme);
      if m {
        return i;
      }
      i := i + 1;
    }
    return -1;
  }

  /** The index of the first axis of `infos` called `name`, or -1. */
  function AxisIndex(infos: seq<AxisInfo>, name: string): (r: int)
    ensures -1 <= r < |infos|
    ensures r < 0 <==> forall k :: 0 <= k < |infos| ==> infos[k].name != name
    ensures 0 <= r ==> infos[r].name == name
    ensures forall k :: 0 <= k < r ==> infos[k].name != name
    decreases |infos|
  {
    if |infos| == 0 then -1
    else if infos[0].name == name then 0
    else
      var r' := AxisIndex(infos[1..], name);
      if r' < 0 then -1 else r' + 1
  }

  /** findAxis: an index loop that returns at the first axis with that name. */
  method FindAxis(infos: seq<AxisInfo>, name: string) returns (r: int)
    ensures r == AxisIndex(infos, name)
  {
    var i := 0;
    while i < |infos|
      invariant 0 <= i <= |infos|
      invariant forall k :: 0 <= k < i ==> infos[k].name != name
    {
      if infos[i].name == name {
        return i;
      }
      i := i + 1;
    }
    return -1;
  }

  /** A set of orientation flags; `Horizontal` is the horizontal flag alone. */
  datatype Orientations = Orientations(horizontal: bool, vertical: bool)

  const Horizontal := Orientations(true, false)

  /** The four axis types; an axis built from an orientation starts as a continuous range. */
  const Continuous := 0
  const DateRange := 1
  const Time := 2
  const Category := 3

  /** An axis built from an orientation and a name, whose range grows as points are seen. */
  class AxisRange {
    var name: string
    var orientation: Orientations
    var axisType: int
    var minx: real
    var maxx: real
    var miny: real
    var maxy: real
    var visible: bool
    var fixed: bool
    var log: bool
    var minorgrid: bool
    var majorgrid: bool

    /** Both ranges are well formed. */
    ghost predicate Valid()
      reads this
    {
      minx <= maxx && miny <= maxy
    }

    constructor (orientation: Orientations, name: string)
      ensures this.name == name && this.orientation == orientation
      ensures minx == 0.0 && maxx == 0.0 && miny == 0.0 && maxy == 0.0
      ensures !fixed && !log && visible && minorgrid && majorgrid
      ensures axisType == Continuous
      ensures Valid()
    {
      this.name := name;
      this.orientation := orientation;
      miny, maxy, minx, maxx := 0.0, 0.0, 0.0, 0.0;
      fixed, log := false, false;
      visible, minorgrid, majorgrid := true, true, true;
      axisType := Continuous;
    }

    /** Widen the range to take in the point (x, y), unless the axis is fixed. */
    method Point(x: real, y: real)
      modifies this`minx, this`maxx, this`miny, this`maxy
      ensures fixed ==> minx == old(minx) && maxx == old(maxx) && miny == old(miny) && maxy == old(maxy)
      ensures !fixed ==> minx <= x <= maxx && miny <= y <= maxy
      ensures !fixed ==> minx <= old(minx) && old(maxx) <= maxx && miny <= old(miny) && old(maxy) <= maxy
      ensures !fixed ==> (minx == old(minx) || minx == x) && (maxx == old(maxx) || maxx == x)
      ensures !fixed ==> (miny == old(miny) || miny == y) && (maxy == old(maxy) || maxy == y)
      ensures old(minx) <= x ==> minx == old(minx)
      ensures x <= old(maxx) ==> maxx == old(maxx)
      ensures old(miny) <= y ==> miny == old(miny)
      ensures y <= old(maxy) ==> maxy == old(maxy)
      ensures old(Valid()) ==> Valid()
    {
      if fixed {
        return;
      }
      if x > maxx {
        maxx := x;
      }
      if x < minx {
        minx := x;
      }
      if y > maxy {
        maxy := y;
      }
      if y < miny {
        miny := y;
      }
    }

    /** The lower bound along the axis' own direction. */
    function Min(): (r: real)
      reads this
      ensures orientation == Horizontal ==> r == minx
      ensures orientation != Horizontal ==> r == miny
      ensures Valid() ==> r <= Max()
    {
      if orientation == Horizontal then minx else miny
    }

    /** The upper bound along the axis' own direction. */
    function Max(): (r: real)
      reads this
      ensures orientation == Horizontal ==> r == maxx
      ensures orientation != Horizontal ==> r == maxy
    {
      if orientation == Horizontal then maxx else maxy
    }
  }
}
