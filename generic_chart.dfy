/*
 * The generic chart: settings and pending series/axes collected by the
 * configuration calls, and finaliseChart, which groups the pending series
 * into plots, reuses the plot widgets of matching current plots, releases
 * the widgets no new plot wanted, and makes the new plots current.
 */
module Chart {
  import opened ChartInfo

  /** The first index of `x` in `xs`, or -1 (a string list's indexOf). */
  function IndexOf(xs: seq<string>, x: string): (r: int)
    ensures -1 <= r < |xs|
    ensures r < 0 <==> x !in xs
    ensures 0 <= r ==> xs[r] == x
    ensures forall k :: 0 <= k < r ==> xs[k] != x
    decreases |xs|
  {
    if |xs| == 0 then -1
    else if xs[0] == x then 0
    else
      var r' := IndexOf(xs[1..], x);
      if r' < 0 then -1 else r' + 1
  }

  // ---------------------------------------------------------------------
  // Grouping pending series into plots
  // ---------------------------------------------------------------------

  /** The axes findAxis attaches for `name`: the first configured axis of that name, if any. */
  function AxisHit(axes: seq<AxisInfo>, name: string): (r: seq<AxisInfo>)
    ensures |r| <= 1
    ensures r == [] <==> forall k :: 0 <= k < |axes| ==> axes[k].name != name
    ensures forall a :: a in r ==> a in axes && a.name == name
  {
    var ax := AxisIndex(axes, name);
    if ax >= 0 then [axes[ax]] else []
  }

  /** The y axes attached for `members`, one findAxis lookup per series, in order. */
  function YAxisHits(axes: seq<AxisInfo>, members: seq<SeriesInfo>): seq<AxisInfo>
    decreases |members|
  {
    if |members| == 0 then []
    else YAxisHits(axes, members[..|members| - 1]) + AxisHit(axes, members[|members| - 1].yname)
  }

  /** A fresh plot for x axis `xaxis` holding `members`: the x axis hit first, then one y axis hit per member. */
  function NewPlot(xaxis: string, members: seq<SeriesInfo>, axes: seq<AxisInfo>): PlotInfo
  {
    PlotInfo(Init, NoPlot, xaxis, members, AxisHit(axes, xaxis) + YAxisHits(axes, members))
  }

  /** `p` with one more series `x`, and the y axis hit for it. */
  function Extended(p: PlotInfo, x: SeriesInfo, axes: seq<AxisInfo>): PlotInfo
  {
    p.(series := p.series + [x], axes := p.axes + AxisHit(axes, x.yname))
  }

  /** The distinct x axis names of `s`, in order of first appearance. */
  function DistinctXNames(s: seq<SeriesInfo>): seq<string>
    decreases |s|
  {
    if |s| == 0 then []
    else
      var d := DistinctXNames(s[..|s| - 1]);
      var x := s[|s| - 1].xname;
      if x in d then d else d + [x]
  }

  /** The series of `s` drawn against x axis `x`, in their original order. */
  function OnAxis(s: seq<SeriesInfo>, x: string): seq<SeriesInfo>
    decreases |s|
  {
    if |s| == 0 then []
    else
      var last := s[|s| - 1];
      OnAxis(s[..|s| - 1], x) + (if last.xname == x then [last] else [])
  }

  /** The y axes attached to a plot are configured axes, each named as the y axis of one of its series. */
  lemma {:induction false} YAxisHitsFrom(axes: seq<AxisInfo>, members: seq<SeriesInfo>)
    ensures |YAxisHits(axes, members)| <= |members|
    ensures forall a :: a in YAxisHits(axes, members) ==> a in axes && exists m :: m in members && m.yname == a.name
    decreases |members|
  {
    if |members| > 0 {
      var prior := members[..|members| - 1];
      YAxisHitsFrom(axes, prior);
      assert forall m :: m in prior ==> m in members;
    }
  }

  /** The x axis names are listed once each, and they are exactly the x axis names of the series. */
  lemma {:induction false} DistinctXNamesSound(s: seq<SeriesInfo>)
    ensures forall i, j :: 0 <= i < j < |DistinctXNames(s)| ==> DistinctXNames(s)[i] != DistinctXNames(s)[j]
    ensures forall x :: x in DistinctXNames(s) <==> exists i :: 0 <= i < |s| && s[i].xname == x
    decreases |s|
  {
    if |s| > 0 {
      var prior := s[..|s| - 1];
      DistinctXNamesSound(prior);
      assert forall i :: 0 <= i < |prior| ==> prior[i] == s[i];
    }
  }

  /** The series on axis `x` are series of `s` on that axis, and every such series is among them. */
  lemma {:induction false} OnAxisMembers(s: seq<SeriesInfo>, x: string)
    ensures |OnAxis(s, x)| <= |s|
    ensures forall m :: m in OnAxis(s, x) ==> m in s && m.xname == x
    ensures forall i :: 0 <= i < |s| && s[i].xname == x ==> s[i] in OnAxis(s, x)
    decreases |s|
  {
    if |s| > 0 {
      var prior := s[..|s| - 1];
      OnAxisMembers(prior, x);
      assert forall i :: 0 <= i < |prior| ==> prior[i] == s[i];
    }
  }

  /** The series on axis `x` are exactly the series of `s` whose x axis name is `x`, and there are none only when no series is on `x`. */
  lemma OnAxisSound(s: seq<SeriesInfo>, x: string)
    ensures |OnAxis(s, x)| <= |s|
    ensures forall m :: m in OnAxis(s, x) ==> m in s && m.xname == x
    ensures forall i :: 0 <= i < |s| && s[i].xname == x ==> s[i] in OnAxis(s, x)
    ensures OnAxis(s, x) == [] <==> forall i :: 0 <= i < |s| ==> s[i].xname != x
  {
    OnAxisMembers(s, x);
    if OnAxis(s, x) != [] {
      assert OnAxis(s, x)[0] in OnAxis(s, x);
    }
  }

  /**
   * The plots finaliseChart builds from the pending series: with `stack`,
   * one plot per series, in order; otherwise one plot per distinct x axis
   * name, in order of first appearance, holding the series drawn against it.
   */
  function Grouping(s: seq<SeriesInfo>, axes: seq<AxisInfo>, stack: bool): seq<PlotInfo>
  {
    if stack then
      seq(|s|, i requires 0 <= i < |s| => NewPlot(s[i].xname, [s[i]], axes))
    else
      var d := DistinctXNames(s);
      seq(|d|, k requires 0 <= k < |d| => NewPlot(d[k], OnAxis(s, d[k]), axes))
  }

  /** Adding `x` to the series adds it at the end of the series on its own x axis, and nowhere else. */
  lemma OnAxisStep(s: seq<SeriesInfo>, x: SeriesInfo, name: string)
    ensures x.xname == name ==> OnAxis(s + [x], name) == OnAxis(s, name) + [x]
    ensures x.xname != name ==> OnAxis(s + [x], name) == OnAxis(s, name)
  {
    assert (s + [x])[..|s|] == s;
  }

  /** The y axis hits grow by the hit of the added series. */
  lemma YAxisHitsStep(axes: seq<AxisInfo>, members: seq<SeriesInfo>, x: SeriesInfo)
    ensures YAxisHits(axes, members + [x]) == YAxisHits(axes, members) + AxisHit(axes, x.yname)
  {
    assert (members + [x])[..|members|] == members;
  }

  /** With `stack` set, one more series gives one more plot at the end. */
  lemma StackGroupingStep(s: seq<SeriesInfo>, x: SeriesInfo, axes: seq<AxisInfo>)
    ensures Grouping(s + [x], axes, true) == Grouping(s, axes, true) + [NewPlot(x.xname, [x], axes)]
  {
  }

  /** Without `stack`, plot k is the plot for the k-th x axis name, holding the series on it. */
  lemma NonStackGroupingAt(s: seq<SeriesInfo>, axes: seq<AxisInfo>, k: int)
    requires 0 <= k < |DistinctXNames(s)|
    ensures |Grouping(s, axes, false)| == |DistinctXNames(s)|
    ensures Grouping(s, axes, false)[k] == NewPlot(DistinctXNames(s)[k], OnAxis(s, DistinctXNames(s)[k]), axes)
  {
  }

  /** A series on an x axis already seen leaves the list of x axis names as it is. */
  lemma KnownXName(s: seq<SeriesInfo>, x: SeriesInfo)
    requires x.xname in DistinctXNames(s)
    ensures DistinctXNames(s + [x]) == DistinctXNames(s)
  {
    assert (s + [x])[..|s|] == s;
  }

  /** Extending a fresh plot by one series gives the fresh plot holding that series too. */
  lemma ExtendedNewPlot(xaxis: string, members: seq<SeriesInfo>, x: SeriesInfo, axes: seq<AxisInfo>)
    ensures NewPlot(xaxis, members + [x], axes) == Extended(NewPlot(xaxis, members, axes), x, axes)
  {
    YAxisHitsStep(axes, members, x);
    var hx, hy := AxisHit(axes, xaxis), YAxisHits(axes, members);
    assert hx + (hy + AxisHit(axes, x.yname)) == (hx + hy) + AxisHit(axes, x.yname);
  }

  /** Without `stack`, a series on a known x axis is appended to that axis' plot, with its y axis hit. */
  lemma {:induction false} SharedGroupingHit(s: seq<SeriesInfo>, x: SeriesInfo, axes: seq<AxisInfo>, index: int)
    requires 0 <= index < |DistinctXNames(s)| && DistinctXNames(s)[index] == x.xname
    ensures |Grouping(s + [x], axes, false)| == |Grouping(s, axes, false)| == |DistinctXNames(s)|
    ensures Grouping(s + [x], axes, false)[index] == Extended(Grouping(s, axes, false)[index], x, axes)
  {
    var n, m := x.xname, OnAxis(s, x.xname);
    assert Grouping(s, axes, false)[index] == NewPlot(n, m, axes) by {
      NonStackGroupingAt(s, axes, index);
    }
    assert Grouping(s + [x], axes, false)[index] == NewPlot(n, m + [x], axes) by {
      KnownXName(s, x);
      NonStackGroupingAt(s + [x], axes, index);
      OnAxisStep(s, x, n);
    }
    ExtendedNewPlot(n, m, x, axes);
    KnownXName(s, x);
  }

  /** Without `stack`, a series on a known x axis leaves the plot of every other x axis unchanged. */
  lemma {:induction false} SharedGroupingMiss(s: seq<SeriesInfo>, x: SeriesInfo, axes: seq<AxisInfo>, k: int)
    requires x.xname in DistinctXNames(s)
    requires 0 <= k < |DistinctXNames(s)| && DistinctXNames(s)[k] != x.xname
    ensures |Grouping(s + [x], axes, false)| == |Grouping(s, axes, false)| == |DistinctXNames(s)|
    ensures Grouping(s + [x], axes, false)[k] == Grouping(s, axes, false)[k]
  {
    var n := DistinctXNames(s)[k];
    assert Grouping(s, axes, false)[k] == NewPlot(n, OnAxis(s, n), axes) by {
      NonStackGroupingAt(s, axes, k);
    }
    assert Grouping(s + [x], axes, false)[k] == NewPlot(n, OnAxis(s, n), axes) by {
      KnownXName(s, x);
      NonStackGroupingAt(s + [x], axes, k);
      OnAxisStep(s, x, n);
    }
    KnownXName(s, x);
  }

  /** Without `stack`, a series on an x axis already seen changes only the plot for that axis. */
  lemma {:induction false} SharedGroupingAt(s: seq<SeriesInfo>, x: SeriesInfo, axes: seq<AxisInfo>, index: int, k: int)
    requires index == IndexOf(DistinctXNames(s), x.xname) && 0 <= index
    requires 0 <= k < |DistinctXNames(s)|
    ensures |Grouping(s + [x], axes, false)| == |Grouping(s, axes, false)| == |DistinctXNames(s)|
    ensures Grouping(s + [x], axes, false)[k]
         == if k == index then Extended(Grouping(s, axes, false)[k], x, axes) else Grouping(s, axes, false)[k]
  {
    var d := DistinctXNames(s);
    if k == index {
      SharedGroupingHit(s, x, axes, index);
    } else {
      assert d[k] != x.xname by {
        DistinctXNamesSound(s);
      }
      SharedGroupingMiss(s, x, axes, k);
    }
  }

  /** Without `stack`, a series on an x axis already seen extends that axis' plot and leaves the others alone. */
  lemma {:induction false} SharedGroupingStep(s: seq<SeriesInfo>, x: SeriesInfo, axes: seq<AxisInfo>, index: int)
    requires index == IndexOf(DistinctXNames(s), x.xname) && 0 <= index
    ensures |Grouping(s, axes, false)| == |DistinctXNames(s)|
    ensures Grouping(s + [x], axes, false)
         == Grouping(s, axes, false)[index := Extended(Grouping(s, axes, false)[index], x, axes)]
  {
    var plots := Grouping(s, axes, false);
    var plots' := Grouping(s + [x], axes, false);
    forall k | 0 <= k < |plots|
      ensures plots'[k] == plots[index := Extended(plots[index], x, axes)][k]
    {
      SharedGroupingAt(s, x, axes, index, k);
    }
    SharedGroupingAt(s, x, axes, index, index);
  }

  /** Without `stack`, a series on a new x axis opens a new plot at the end. */
  lemma {:induction false} NewAxisGroupingStep(s: seq<SeriesInfo>, x: SeriesInfo, axes: seq<AxisInfo>)
    requires IndexOf(DistinctXNames(s), x.xname) < 0
    ensures Grouping(s + [x], axes, false) == Grouping(s, axes, false) + [NewPlot(x.xname, [x], axes)]
  {
    var s' := s + [x];
    assert s'[..|s'| - 1] == s;
    var d := DistinctXNames(s);
    assert DistinctXNames(s') == d + [x.xname];
    var plots := Grouping(s, axes, false);
    var plots' := Grouping(s', axes, false);
    forall k | 0 <= k < |d|
      ensures plots'[k] == plots[k]
    {
      assert (d + [x.xname])[k] == d[k] != x.xname;
      OnAxisStep(s, x, d[k]);
    }
    DistinctXNamesSound(s);
    OnAxisSound(s, x.xname);
    OnAxisStep(s, x, x.xname);
    YAxisHitsStep(axes, [], x);
    assert plots'[|d|] == NewPlot(x.xname, [x], axes);
  }

  // ---------------------------------------------------------------------
  // Reconciling new plots with current plots
  // ---------------------------------------------------------------------

  /** How many of `plots` match no current plot, and so need a new widget. */
  function FreshCount(current: seq<PlotInfo>, plots: seq<PlotInfo>): (n: nat)
    ensures n <= |plots|
    decreases |plots|
  {
    if |plots| == 0 then 0
    else FreshCount(current, plots[..|plots| - 1]) + (if PlotIndex(current, plots[|plots| - 1]) < 0 then 1 else 0)
  }

  /**
   * The widget new plot `i` gets: that of the first matching current plot,
   * or else the next fresh widget, numbered from `next` in order of need.
   */
  function AssignedRef(current: seq<PlotInfo>, plots: seq<PlotInfo>, next: nat, i: nat): PlotRef
    requires i < |plots|
  {
    var index := PlotIndex(current, plots[i]);
    if 0 <= index then current[index].plot else PlotId(next + FreshCount(current, plots[..i]))
  }

  /** The new current plots: every new plot with its assigned widget, active. */
  function Reconciled(current: seq<PlotInfo>, plots: seq<PlotInfo>, next: nat): seq<PlotInfo>
  {
    seq(|plots|, i requires 0 <= i < |plots| => plots[i].(plot := AssignedRef(current, plots, next, i), state := Active))
  }

  /** Current plot `k` is the first match of some new plot. */
  predicate MatchedBy(current: seq<PlotInfo>, plots: seq<PlotInfo>, k: int)
  {
    exists i :: 0 <= i < |plots| && PlotIndex(current, plots[i]) == k
  }

  /**
   * The widgets deleted for the plots in `ps` that are marked for deletion,
   * one entry per delete, so a widget held by two such plots is deleted
   * twice (deleting null does nothing).
   */
  function DeletedHandles(ps: seq<PlotInfo>): multiset<nat>
    decreases |ps|
  {
    if |ps| == 0 then multiset{}
    else
      var last := ps[|ps| - 1];
      DeletedHandles(ps[..|ps| - 1]) + (if last.state == DeleteMe && last.plot.PlotId? then multiset{last.plot.id} else multiset{})
  }

  /** The deletion loop's step: plot j adds its widget to the deleted ones when it is marked for deletion. */
  lemma DeletedHandlesStep(ps: seq<PlotInfo>, j: int)
    requires 0 <= j < |ps|
    ensures ps[j].state == DeleteMe && ps[j].plot.PlotId? ==>
      DeletedHandles(ps[..j + 1]) == DeletedHandles(ps[..j]) + multiset{ps[j].plot.id}
    ensures !(ps[j].state == DeleteMe && ps[j].plot.PlotId?) ==>
      DeletedHandles(ps[..j + 1]) == DeletedHandles(ps[..j])
  {
    assert ps[..j + 1][..j] == ps[..j];
  }

  /** A widget is deleted exactly when some plot marked for deletion holds it. */
  lemma {:induction false} DeletedHandlesSound(ps: seq<PlotInfo>)
    ensures forall h :: h in DeletedHandles(ps) <==> exists k :: 0 <= k < |ps| && ps[k].state == DeleteMe && ps[k].plot == PlotId(h)
    decreases |ps|
  {
    if |ps| > 0 {
      var prior := ps[..|ps| - 1];
      DeletedHandlesSound(prior);
      assert forall k :: 0 <= k < |prior| ==> prior[k] == ps[k];
    }
  }

  /** The widgets finaliseChart deletes: those of the current plots no new plot matched. */
  function Released(current: seq<PlotInfo>, plots: seq<PlotInfo>): multiset<nat>
  {
    DeletedHandles(Marked(current, plots))
  }

  /** Matching looks only at the x axis and the series, so a change of state or widget does not move a first match. */
  lemma {:induction false} PlotIndexIgnoresState(a: seq<PlotInfo>, b: seq<PlotInfo>, findme: PlotInfo)
    requires |a| == |b|
    requires forall k :: 0 <= k < |a| ==> a[k].xaxis == b[k].xaxis && a[k].series == b[k].series
    ensures PlotIndex(a, findme) == PlotIndex(b, findme)
  {
    assert forall k :: 0 <= k < |a| ==> (Matches(a[k], findme) <==> Matches(b[k], findme));
  }

  /** Fresh widgets are numbered in order: a prefix never needs more than the whole list. */
  lemma {:induction false} FreshCountPrefix(current: seq<PlotInfo>, plots: seq<PlotInfo>, i: nat)
    requires i < |plots|
    ensures FreshCount(current, plots[..i]) + (if PlotIndex(current, plots[i]) < 0 then 1 else 0)
            <= FreshCount(current, plots)
    decreases |plots|
  {
    var n := |plots|;
    assert plots[..n][..i] == plots[..i];
    if i == n - 1 {
      assert plots[..i] == plots[..n - 1];
    } else {
      var prior := plots[..n - 1];
      assert prior[..i] == plots[..i];
      assert prior[i] == plots[i];
      FreshCountPrefix(current, prior, i);
    }
  }

  /** Taking one more new plot into account marks exactly its first match in addition. */
  lemma {:induction false} MatchedByStep(current: seq<PlotInfo>, plots: seq<PlotInfo>, i: nat)
    requires i < |plots|
    ensures forall k :: MatchedBy(current, plots[..i + 1], k)
                    <==> MatchedBy(current, plots[..i], k) || k == PlotIndex(current, plots[i])
  {
    var longer, shorter := plots[..i + 1], plots[..i];
    assert forall m :: 0 <= m < i ==> longer[m] == shorter[m] == plots[m];
    assert longer[i] == plots[i];
    forall k
      ensures MatchedBy(current, longer, k) <==> MatchedBy(current, shorter, k) || k == PlotIndex(current, plots[i])
    {
      if MatchedBy(current, longer, k) {
        var m :| 0 <= m < i + 1 && PlotIndex(current, longer[m]) == k;
        if m < i {
          assert 0 <= m < |shorter| && PlotIndex(current, shorter[m]) == k;
        }
      }
      if MatchedBy(current, shorter, k) {
        var m :| 0 <= m < i && PlotIndex(current, shorter[m]) == k;
        assert 0 <= m < |longer| && PlotIndex(current, longer[m]) == k;
      }
      if k == PlotIndex(current, plots[i]) {
        assert 0 <= i < |longer| && PlotIndex(current, longer[i]) == k;
      }
    }
  }

  /** The current plots while the matching loop has handled the first `i` new plots. */
  function MarkedPrefix(current: seq<PlotInfo>, plots: seq<PlotInfo>, i: nat): seq<PlotInfo>
    requires i <= |plots|
  {
    seq(|current|, k requires 0 <= k < |current| =>
      current[k].(state := if MatchedBy(current, plots[..i], k) then Matched else DeleteMe))
  }

  /** The current plots after the marking loops: those some new plot matched first are `Matched`, the rest `DeleteMe`. */
  function Marked(current: seq<PlotInfo>, plots: seq<PlotInfo>): seq<PlotInfo>
  {
    MarkedPrefix(current, plots, |plots|)
  }

  /** The new plots while the matching loop has handled the first `i` of them. */
  function AssignedPrefix(current: seq<PlotInfo>, plots: seq<PlotInfo>, next: nat, i: nat): seq<PlotInfo>
    requires i <= |plots|
  {
    seq(|plots|, k requires 0 <= k < |plots| =>
      if k < i then plots[k].(plot := AssignedRef(current, plots, next, k)) else plots[k])
  }

  /** Before the matching loop: no new plot is handled, no widget is made, and every current plot is marked for deletion. */
  lemma AssignStart(current: seq<PlotInfo>, plots: seq<PlotInfo>, next: nat, marked: seq<PlotInfo>)
    requires |marked| == |current|
    requires forall k :: 0 <= k < |current| ==> marked[k] == current[k].(state := DeleteMe)
    ensures marked == MarkedPrefix(current, plots, 0)
    ensures plots == AssignedPrefix(current, plots, next, 0)
    ensures FreshCount(current, plots[..0]) == 0
  {
    assert plots[..0] == [];
  }

  /** After the matching loop: every new plot is handled, and the current plots are `Marked`. */
  lemma AssignDone(current: seq<PlotInfo>, plots: seq<PlotInfo>, next: nat)
    ensures plots[..|plots|] == plots
    ensures MarkedPrefix(current, plots, |plots|) == Marked(current, plots)
    ensures forall k :: 0 <= k < |plots| ==>
      AssignedPrefix(current, plots, next, |plots|)[k] == plots[k].(plot := AssignedRef(current, plots, next, k))
  {
  }

  /** Handling new plot `i` marks its first match, if any, as matched. */
  lemma MarkedPrefixStep(current: seq<PlotInfo>, plots: seq<PlotInfo>, i: nat)
    requires i < |plots|
    ensures var index := PlotIndex(current, plots[i]);
      MarkedPrefix(current, plots, i + 1)
      == if index < 0 then MarkedPrefix(current, plots, i)
         else MarkedPrefix(current, plots, i)[index := MarkedPrefix(current, plots, i)[index].(state := Matched)]
  {
    MatchedByStep(current, plots, i);
  }

  /** Marking keeps each current plot's widget, and so where a plot first matches. */
  lemma MarkedPrefixKeeps(current: seq<PlotInfo>, plots: seq<PlotInfo>, i: nat, findme: PlotInfo)
    requires i <= |plots|
    ensures |MarkedPrefix(current, plots, i)| == |current|
    ensures forall k :: 0 <= k < |current| ==> MarkedPrefix(current, plots, i)[k].plot == current[k].plot
    ensures PlotIndex(MarkedPrefix(current, plots, i), findme) == PlotIndex(current, findme)
  {
    PlotIndexIgnoresState(MarkedPrefix(current, plots, i), current, findme);
  }

  /** Handling new plot `i` gives it its widget and counts it if the widget is new. */
  lemma AssignedPrefixStep(current: seq<PlotInfo>, plots: seq<PlotInfo>, next: nat, i: nat)
    requires i < |plots|
    ensures AssignedPrefix(current, plots, next, i + 1)
         == AssignedPrefix(current, plots, next, i)[i := plots[i].(plot := AssignedRef(current, plots, next, i))]
    ensures FreshCount(current, plots[..i + 1])
         == FreshCount(current, plots[..i]) + (if PlotIndex(current, plots[i]) < 0 then 1 else 0)
  {
    assert plots[..i + 1][..i] == plots[..i];
  }

  /** Every current plot has a widget, and every widget identity used so far is below `next`. */
  predicate Bound(current: seq<PlotInfo>, next: nat)
  {
    forall k :: 0 <= k < |current| ==> current[k].plot.PlotId? && current[k].plot.id < next
  }

  /** After reconciling, every plot has a widget: a reused one, or one of the fresh ones just numbered. */
  lemma {:induction false} ReconciledBound(current: seq<PlotInfo>, plots: seq<PlotInfo>, next: nat)
    requires Bound(current, next)
    ensures Bound(Reconciled(current, plots, next), next + FreshCount(current, plots))
  {
    var r := Reconciled(current, plots, next);
    forall k | 0 <= k < |r|
      ensures r[k].plot.PlotId? && r[k].plot.id < next + FreshCount(current, plots)
    {
      FreshCountPrefix(current, plots, k);
    }
  }

  /** Only widgets of current plots are released, so only widgets already numbered. */
  lemma ReleasedBound(current: seq<PlotInfo>, plots: seq<PlotInfo>, next: nat)
    requires Bound(current, next)
    ensures forall h :: h in Released(current, plots) ==> h < next
  {
    var m := Marked(current, plots);
    DeletedHandlesSound(m);
    assert forall k :: 0 <= k < |m| ==> m[k].plot == current[k].plot;
  }

  // ---------------------------------------------------------------------
  // The phases of finaliseChart that work on local lists
  // ---------------------------------------------------------------------

  /** Open a plot for series `s` on its own x axis: the x axis hit, then the y axis hit. */
  method OpenPlot(s: SeriesInfo, axes: seq<AxisInfo>) returns (add: PlotInfo)
    ensures add == NewPlot(s.xname, [s], axes)
  {
    add := PlotInfo(Init, NoPlot, s.xname, [s], []);
    var ax := FindAxis(axes, s.xname);
    if ax >= 0 {
      add := add.(axes := add.axes + [axes[ax]]);
    }
    assert add.axes == AxisHit(axes, s.xname);
    ax := FindAxis(axes, s.yname);
    if ax >= 0 {
      add := add.(axes := add.axes + [axes[ax]]);
    }
    assert add.axes == AxisHit(axes, s.xname) + AxisHit(axes, s.yname);
    YAxisHitsStep(axes, [], s);
    assert [] + [s] == [s];
  }

  /** Append series `s` to plot `p`, with the y axis hit for it. */
  method AppendToPlot(p: PlotInfo, s: SeriesInfo, axes: seq<AxisInfo>) returns (q: PlotInfo)
    ensures q == Extended(p, s, axes)
  {
    q := p.(series := p.series + [s]);
    var ax := FindAxis(axes, s.yname);
    if ax >= 0 {
      q := q.(axes := q.axes + [axes[ax]]);
    }
  }

  /**
   * One pass of the grouping loop, over series `series[i]`, which follows
   * `series[..i]`: with `stack`, or when no plot has its x axis yet, open a
   * new plot; otherwise append the series to the plot for its x axis.
   */
  method GroupOne(series: seq<SeriesInfo>, i: int, axes: seq<AxisInfo>, stack: bool,
                  newPlots: seq<PlotInfo>, xaxes: seq<string>)
    returns (plots': seq<PlotInfo>, xaxes': seq<string>)
    requires 0 <= i < |series|
    requires newPlots == Grouping(series[..i], axes, stack)
    requires |xaxes| == |newPlots|
    requires forall k :: 0 <= k < |xaxes| ==> xaxes[k] == newPlots[k].xaxis
    requires !stack ==> xaxes == DistinctXNames(series[..i])
    ensures plots' == Grouping(series[..i + 1], axes, stack)
    ensures |xaxes'| == |plots'|
    ensures forall k :: 0 <= k < |xaxes'| ==> xaxes'[k] == plots'[k].xaxis
    ensures !stack ==> xaxes' == DistinctXNames(series[..i + 1])
  {
    var prefix, s := series[..i], series[i];
    assert series[..i + 1] == prefix + [s];
    if stack {
      var add := OpenPlot(s, axes);
      StackGroupingStep(prefix, s, axes);
      plots', xaxes' := newPlots + [add], xaxes + [s.xname];
    } else {
      plots', xaxes' := GroupShared(prefix, s, axes, newPlots, xaxes);
    }
  }

  /** One pass of the grouping loop without `stack`: join the plot for the series' x axis, or open one. */
  method GroupShared(prefix: seq<SeriesInfo>, s: SeriesInfo, axes: seq<AxisInfo>,
                     newPlots: seq<PlotInfo>, xaxes: seq<string>)
    returns (plots': seq<PlotInfo>, xaxes': seq<string>)
    requires newPlots == Grouping(prefix, axes, false)
    requires |xaxes| == |newPlots|
    requires forall k :: 0 <= k < |xaxes| ==> xaxes[k] == newPlots[k].xaxis
    requires xaxes == DistinctXNames(prefix)
    ensures plots' == Grouping(prefix + [s], axes, false)
    ensures |xaxes'| == |plots'|
    ensures forall k :: 0 <= k < |xaxes'| ==> xaxes'[k] == plots'[k].xaxis
    ensures xaxes' == DistinctXNames(prefix + [s])
  {
    assert (prefix + [s])[..|prefix|] == prefix;
    var index := IndexOf(xaxes, s.xname);
    if index >= 0 {
      SharedGroupingStep(prefix, s, axes, index);
      var q := AppendToPlot(newPlots[index], s, axes);
      assert q.xaxis == newPlots[index].xaxis;
      plots', xaxes' := newPlots[index := q], xaxes;
    } else {
      var add := OpenPlot(s, axes);
      NewAxisGroupingStep(prefix, s, axes);
      plots', xaxes' := newPlots + [add], xaxes + [s.xname];
    }
  }

  /**
   * The grouping loop: walk the pending series once, opening a plot per
   * series (with `stack`) or per new x axis name, and otherwise appending
   * the series and its y axis to the plot already open for its x axis.
   * `xaxes` lists the x axis of each plot built.
   */
  method GroupSeries(series: seq<SeriesInfo>, axes: seq<AxisInfo>, stack: bool)
    returns (newPlots: seq<PlotInfo>, xaxes: seq<string>)
    ensures newPlots == Grouping(series, axes, stack)
    ensures |xaxes| == |newPlots|
    ensures forall k :: 0 <= k < |xaxes| ==> xaxes[k] == newPlots[k].xaxis
  {
    newPlots, xaxes := [], [];
    var i := 0;
    while i < |series|
      invariant 0 <= i <= |series|
      invariant newPlots == Grouping(series[..i], axes, stack)
      invariant |xaxes| == |newPlots|
      invariant forall k :: 0 <= k < |xaxes| ==> xaxes[k] == newPlots[k].xaxis
      invariant !stack ==> xaxes == DistinctXNames(series[..i])
    {
      newPlots, xaxes := GroupOne(series, i, axes, stack, newPlots, xaxes);
      i := i + 1;
    }
    assert series[..|series|] == series;
  }

  /** The last loop over the new plots: each becomes active. */
  method ActivateAll(plots: seq<PlotInfo>) returns (r: seq<PlotInfo>)
    ensures |r| == |plots|
    ensures forall k :: 0 <= k < |r| ==> r[k] == plots[k].(state := Active)
  {
    r := plots;
    var i := 0;
    while i < |r|
      invariant 0 <= i <= |r| == |plots|
      invariant forall k :: 0 <= k < |r| ==> r[k] == plots[k].(state := if k < i then Active else plots[k].state)
    {
      r := r[i := r[i].(state := Active)];
      i := i + 1;
    }
  }

  // ---------------------------------------------------------------------
  // The chart
  // ---------------------------------------------------------------------

  /**
   * The chart widget's bookkeeping. Widgets are numbered: `nextHandle` is
   * the identity the next new widget gets, and `released` records every
   * delete so far, one entry per delete of an identity.
   */
  class GenericChart {
    var title: string
    var chartType: int
    var animate: bool
    var legendPos: int
    var stack: bool
    var orientation: int

    var newSeries: seq<SeriesInfo>
    var newAxes: seq<AxisInfo>
    var currentPlots: seq<PlotInfo>

    var nextHandle: nat
    var released: multiset<nat>

    ghost predicate Valid()
      reads this
    {
      && Bound(currentPlots, nextHandle)
      && forall h :: h in released ==> h < nextHandle
    }

    constructor ()
      ensures Valid()
      ensures newSeries == [] && newAxes == [] && currentPlots == []
      ensures nextHandle == 0 && released == multiset{}
    {
      title, chartType, animate, legendPos, stack, orientation := "", 0, false, 0, false, 0;
      newSeries, newAxes, currentPlots := [], [], [];
      nextHandle, released := 0, multiset{};
    }

    /** Remember the settings and start collecting series and axes afresh. */
    method InitialiseChart(title: string, chartType: int, animate: bool, legendPos: int, stack: bool, orientation: int)
      returns (ok: bool)
      requires Valid()
      modifies this`title, this`chartType, this`animate, this`legendPos, this`stack, this`orientation
      modifies this`newSeries, this`newAxes
      ensures Valid()
      ensures ok
      ensures this.title == title && this.chartType == chartType && this.animate == animate
      ensures this.legendPos == legendPos && this.stack == stack && this.orientation == orientation
      ensures newSeries == [] && newAxes == []
    {
      this.title := title;
      this.chartType := chartType;
      this.animate := animate;
      this.legendPos := legendPos;
      this.stack := stack;
      this.orientation := orientation;
      newSeries := [];
      newAxes := [];
      return true;
    }

    /** Queue one curve at the end of the pending series. */
    method AddCurve(name: string, xseries: seq<real>, yseries: seq<real>, xname: string, yname: string, labels: seq<string>)
      returns (ok: bool)
      requires Valid()
      modifies this`newSeries
      ensures Valid()
      ensures ok
      ensures newSeries == old(newSeries) + [SeriesInfo(name, xseries, yseries, xname, yname, labels)]
    {
      newSeries := newSeries + [SeriesInfo(name, xseries, yseries, xname, yname, labels)];
      return true;
    }

    /** Queue one axis configuration at the end of the pending axes. */
    method ConfigureAxis(name: string, visible: bool, align: int, min: real, max: real, axisType: int,
                         log: bool, categories: seq<string>)
      returns (ok: bool)
      requires Valid()
      modifies this`newAxes
      ensures Valid()
      ensures ok
      ensures newAxes == old(newAxes) + [AxisInfo(name, visible, align, min, max, axisType, log, categories)]
    {
      newAxes := newAxes + [AxisInfo(name, visible, align, min, max, axisType, log, categories)];
      return true;
    }

    /** First loop over the current plots: mark every one for deletion. */
    method MarkAllForDeletion()
      modifies this`currentPlots
      ensures |currentPlots| == |old(currentPlots)|
      ensures forall k :: 0 <= k < |currentPlots| ==> currentPlots[k] == old(currentPlots)[k].(state := DeleteMe)
    {
      var j := 0;
      while j < |currentPlots|
        invariant 0 <= j <= |currentPlots| == |old(currentPlots)|
        invariant forall k :: 0 <= k < |currentPlots| ==>
          currentPlots[k] == if k < j then old(currentPlots)[k].(state := DeleteMe) else old(currentPlots)[k]
      {
        currentPlots := currentPlots[j := currentPlots[j].(state := DeleteMe)];
        j := j + 1;
      }
    }

    /**
     * One pass of the matching loop, for new plot `i`: take the widget of
     * its first match among the current plots and mark that plot
     * `Matched`, or take a new widget.
     */
    method AssignOne(plots: seq<PlotInfo>, ghost before: seq<PlotInfo>, ghost next: nat, i: nat, newPlots: seq<PlotInfo>)
      returns (newPlots': seq<PlotInfo>)
      requires i < |plots|
      requires newPlots == AssignedPrefix(before, plots, next, i)
      requires nextHandle == next + FreshCount(before, plots[..i])
      requires currentPlots == MarkedPrefix(before, plots, i)
      modifies this`currentPlots, this`nextHandle
      ensures newPlots' == AssignedPrefix(before, plots, next, i + 1)
      ensures nextHandle == next + FreshCount(before, plots[..i + 1])
      ensures currentPlots == MarkedPrefix(before, plots, i + 1)
    {
      assert newPlots[i] == plots[i];
      MarkedPrefixKeeps(before, plots, i, plots[i]);
      var index := FindPlot(currentPlots, newPlots[i]);
      MarkedPrefixStep(before, plots, i);
      AssignedPrefixStep(before, plots, next, i);
      if index < 0 {
        assert AssignedRef(before, plots, next, i) == PlotId(nextHandle);
        newPlots' := newPlots[i := newPlots[i].(plot := PlotId(nextHandle))];
        nextHandle := nextHandle + 1;
      } else {
        assert AssignedRef(before, plots, next, i) == currentPlots[index].plot;
        newPlots' := newPlots[i := newPlots[i].(plot := currentPlots[index].plot)];
        currentPlots := currentPlots[index := currentPlots[index].(state := Matched)];
      }
    }

    /**
     * The matching loop: each new plot takes the widget of the first current
     * plot it matches, which is marked `Matched`, or a new widget. `before`
     * is the list of current plots as it was before they were marked.
     */
    method AssignWidgets(plots: seq<PlotInfo>, ghost before: seq<PlotInfo>) returns (newPlots: seq<PlotInfo>)
      requires |currentPlots| == |before|
      requires forall k :: 0 <= k < |before| ==> currentPlots[k] == before[k].(state := DeleteMe)
      modifies this`currentPlots, this`nextHandle
      ensures |newPlots| == |plots|
      ensures forall k :: 0 <= k < |plots| ==> newPlots[k] == plots[k].(plot := AssignedRef(before, plots, old(nextHandle), k))
      ensures nextHandle == old(nextHandle) + FreshCount(before, plots)
      ensures currentPlots == Marked(before, plots)
    {
      newPlots := plots;
      ghost var next := nextHandle;
      AssignStart(before, plots, next, currentPlots);
      var i := 0;
      while i < |newPlots|
        invariant 0 <= i <= |newPlots| == |plots|
        invariant newPlots == AssignedPrefix(before, plots, next, i)
        invariant nextHandle == next + FreshCount(before, plots[..i])
        invariant currentPlots == MarkedPrefix(before, plots, i)
      {
        newPlots := AssignOne(plots, before, next, i, newPlots);
        i := i + 1;
      }
      AssignDone(before, plots, next);
    }

    /** The deletion loop: release the widget of every plot still marked for deletion. */
    method ReleaseUnmatched()
      modifies this`released
      ensures released == old(released) + DeletedHandles(currentPlots)
    {
      var j := 0;
      while j < |currentPlots|
        invariant 0 <= j <= |currentPlots|
        invariant released == old(released) + DeletedHandles(currentPlots[..j])
      {
        DeletedHandlesStep(currentPlots, j);
        if currentPlots[j].state == DeleteMe && currentPlots[j].plot.PlotId? {
          released := released + multiset{currentPlots[j].plot.id};
        }
        j := j + 1;
      }
      assert currentPlots[..|currentPlots|] == currentPlots;
    }

    /**
     * Replace the current plots by `plots`: reuse the widget of the first
     * matching current plot for each, create the others, delete the widgets
     * of current plots nobody matched, and make the new plots current.
     */
    method Reconcile(plots: seq<PlotInfo>)
      requires Valid()
      modifies this`currentPlots, this`nextHandle, this`released
      ensures Valid()
      ensures currentPlots == Reconciled(old(currentPlots), plots, old(nextHandle))
      ensures nextHandle == old(nextHandle) + FreshCount(old(currentPlots), plots)
      ensures released == old(released) + Released(old(currentPlots), plots)
    {
      ghost var before := currentPlots;
      ghost var next := nextHandle;
      MarkAllForDeletion();
      var newPlots := AssignWidgets(plots, before);
      ReleaseUnmatched();
      newPlots := ActivateAll(newPlots);
      assert newPlots == Reconciled(before, plots, next);
      ReconciledBound(before, plots, next);
      ReleasedBound(before, plots, next);
      forall h | h in released
        ensures h < nextHandle
      {
        assert h in old(released) || h in Released(before, plots);
      }
      currentPlots := newPlots;
    }

    /**
     * Group the pending series into plots, reconcile them with the current
     * plots, and clear the pending series and axes.
     */
    method FinaliseChart()
      requires Valid()
      modifies this`currentPlots, this`newSeries, this`newAxes, this`nextHandle, this`released
      ensures Valid()
      ensures currentPlots == Reconciled(old(currentPlots), Grouping(old(newSeries), old(newAxes), old(stack)), old(nextHandle))
      ensures nextHandle == old(nextHandle) + FreshCount(old(currentPlots), Grouping(old(newSeries), old(newAxes), old(stack)))
      ensures released == old(released) + Released(old(currentPlots), Grouping(old(newSeries), old(newAxes), old(stack)))
      ensures newSeries == [] && newAxes == []
    {
      ghost var grouped := Grouping(newSeries, newAxes, stack);
      ghost var current, next, gone := currentPlots, nextHandle, released;
      var newPlots, xaxes := GroupSeries(newSeries, newAxes, stack);
      assert newPlots == grouped;
      Reconcile(newPlots);
      assert currentPlots == Reconciled(current, grouped, next);
      assert released == gone + Released(current, grouped);
      newAxes := [];
      newSeries := [];
    }
  }
}
