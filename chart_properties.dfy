/*
 * What the chart's bookkeeping guarantees, and where it does not: how the
 * plot-matching test behaves, how pending series are partitioned into plots,
 * which axes a plot receives, and when reconciling keeps widgets apart.
 */
module ChartProperties {
  import opened ChartInfo
  import opened Chart

  // ---------------------------------------------------------------------
  // Matching
  // ---------------------------------------------------------------------

  /** No two series of `ss` share a key. */
  predicate KeysDistinct(ss: seq<SeriesInfo>)
  {
    forall i, j :: 0 <= i < j < |ss| ==> KeyOf(ss[i]) != KeyOf(ss[j])
  }

  /** The keys of the series of `ss`. */
  function KeySet(ss: seq<SeriesInfo>): set<SeriesKey>
    decreases |ss|
  {
    if |ss| == 0 then {} else KeySet(ss[..|ss| - 1]) + {KeyOf(ss[|ss| - 1])}
  }

  /** A key is in a list of series exactly when it is in all but the last, or is the last one's key. */
  lemma HasKeyStep(ss: seq<SeriesInfo>)
    requires |ss| > 0
    ensures forall k :: HasKey(ss, k) <==> HasKey(ss[..|ss| - 1], k) || k == KeyOf(ss[|ss| - 1])
  {
    var n := |ss|;
    var prior := ss[..n - 1];
    forall k
      ensures HasKey(ss, k) <==> HasKey(prior, k) || k == KeyOf(ss[n - 1])
    {
      if HasKey(ss, k) {
        var j :| 0 <= j < n && KeyOf(ss[j]) == k;
        if j < n - 1 {
          assert KeyOf(prior[j]) == k;
        }
      }
      if HasKey(prior, k) {
        var j :| 0 <= j < |prior| && KeyOf(prior[j]) == k;
        assert KeyOf(ss[j]) == k;
      }
      if k == KeyOf(ss[n - 1]) {
        assert KeyOf(ss[n - 1]) == k;
      }
    }
  }

  /** The key set holds exactly the keys of the series, and has one key per series when they are distinct. */
  lemma {:induction false} KeySetSound(ss: seq<SeriesInfo>)
    ensures forall k :: k in KeySet(ss) <==> HasKey(ss, k)
    ensures |KeySet(ss)| <= |ss|
    ensures KeysDistinct(ss) ==> |KeySet(ss)| == |ss|
    decreases |ss|
  {
    if |ss| > 0 {
      var n := |ss|;
      var prior := ss[..n - 1];
      var last := ss[n - 1];
      KeySetSound(prior);
      HasKeyStep(ss);
      if KeysDistinct(ss) {
        assert forall j :: 0 <= j < |prior| ==> KeyOf(prior[j]) != KeyOf(last);
        assert KeyOf(last) !in KeySet(prior);
      }
    }
  }

  /** A subset at least as large as its superset is the whole superset. */
  lemma SubsetFull<T>(a: set<T>, b: set<T>)
    requires a <= b && |b| <= |a|
    ensures a == b
  {
    assert b == a + (b - a);
    assert a * (b - a) == {};
  }

  /** Every plot matches itself. */
  lemma MatchesReflexive(p: PlotInfo)
    ensures Matches(p, p)
  {
    forall i | 0 <= i < |p.series|
      ensures HasKey(p.series, KeyOf(p.series[i]))
    {
      assert KeyOf(p.series[i]) == KeyOf(p.series[i]);
    }
  }

  /** Matching is transitive. */
  lemma MatchesTransitive(p: PlotInfo, q: PlotInfo, r: PlotInfo)
    requires Matches(p, q) && Matches(q, r)
    ensures Matches(p, r)
  {
    forall i | 0 <= i < |p.series|
      ensures HasKey(r.series, KeyOf(p.series[i]))
    {
      var j :| 0 <= j < |q.series| && KeyOf(q.series[j]) == KeyOf(p.series[i]);
      assert HasKey(r.series, KeyOf(q.series[j]));
    }
  }

  /**
   * When the series of `p` have distinct keys, matching is symmetric: the
   * equal count forces the two key sets to coincide.
   */
  lemma MatchesSymmetricWhenDistinct(p: PlotInfo, o: PlotInfo)
    requires KeysDistinct(p.series)
    requires Matches(p, o)
    ensures Matches(o, p)
  {
    KeySetSound(p.series);
    KeySetSound(o.series);
    var a, b := KeySet(p.series), KeySet(o.series);
    forall k | k in a
      ensures k in b
    {
      var i :| 0 <= i < |p.series| && KeyOf(p.series[i]) == k;
      assert HasKey(o.series, KeyOf(p.series[i]));
    }
    SubsetFull(a, b);
    forall i | 0 <= i < |o.series|
      ensures HasKey(p.series, KeyOf(o.series[i]))
    {
      assert HasKey(o.series, KeyOf(o.series[i]));
    }
  }

  /**
   * With a duplicated series key, matching is not symmetric: a plot holding
   * series `a` twice matches one holding `a` and `b`, but not the other way.
   */
  lemma MatchesNotSymmetric()
    ensures exists p: PlotInfo, o: PlotInfo :: Matches(p, o) && !Matches(o, p)
  {
    var a := SeriesInfo("a", [], [], "x", "y", []);
    var b := SeriesInfo("b", [], [], "x", "y", []);
    var p := PlotInfo(Init, NoPlot, "x", [a, a], []);
    var o := PlotInfo(Init, NoPlot, "x", [a, b], []);
    assert KeyOf(o.series[0]) == KeyOf(a);
    assert Matches(p, o);
    assert forall j :: 0 <= j < |p.series| ==> KeyOf(p.series[j]) != KeyOf(b);
    assert !HasKey(p.series, KeyOf(o.series[1]));
  }

  /** If one plot with distinct keys matches two plots, those two match each other. */
  lemma CommonMatch(c: PlotInfo, a: PlotInfo, b: PlotInfo)
    requires KeysDistinct(c.series)
    ensures Matches(c, a) && Matches(c, b) ==> Matches(a, b)
  {
    if Matches(c, a) && Matches(c, b) {
      MatchesSymmetricWhenDistinct(c, a);
      MatchesTransitive(a, c, b);
    }
  }

  // ---------------------------------------------------------------------
  // Grouping
  // ---------------------------------------------------------------------

  /** All series held by `plots`, plot after plot. */
  function SeriesOf(plots: seq<PlotInfo>): seq<SeriesInfo>
    decreases |plots|
  {
    if |plots| == 0 then [] else SeriesOf(plots[..|plots| - 1]) + plots[|plots| - 1].series
  }

  /** A plot added at the end contributes its series at the end. */
  lemma SeriesOfPush(plots: seq<PlotInfo>, p: PlotInfo)
    ensures SeriesOf(plots + [p]) == SeriesOf(plots) + p.series
  {
    assert (plots + [p])[..|plots|] == plots;
  }

  /** Appending `x` to the series of one plot adds `x` once to all the series held. */
  lemma {:induction false} SeriesOfAppend(plots: seq<PlotInfo>, index: int, q: PlotInfo, x: SeriesInfo)
    requires 0 <= index < |plots|
    requires q.series == plots[index].series + [x]
    ensures multiset(SeriesOf(plots[index := q])) == multiset(SeriesOf(plots)) + multiset{x}
    decreases |plots|
  {
    var n := |plots|;
    var prior, last := plots[..n - 1], plots[n - 1];
    assert plots == prior + [last];
    if index == n - 1 {
      assert plots[index := q] == prior + [q];
      calc {
        multiset(SeriesOf(plots[index := q]));
      == { SeriesOfPush(prior, q); }
        multiset(SeriesOf(prior) + last.series + [x]);
      ==
        multiset(SeriesOf(prior) + last.series) + multiset{x};
      == { SeriesOfPush(prior, last); }
        multiset(SeriesOf(plots)) + multiset{x};
      }
    } else {
      var changed := prior[index := q];
      assert plots[index := q] == changed + [last];
      calc {
        multiset(SeriesOf(plots[index := q]));
      == { SeriesOfPush(changed, last); }
        multiset(SeriesOf(changed)) + multiset(last.series);
      == { SeriesOfAppend(prior, index, q, x); }
        multiset(SeriesOf(prior)) + multiset{x} + multiset(last.series);
      == { SeriesOfPush(prior, last); }
        multiset(SeriesOf(plots)) + multiset{x};
      }
    }
  }

  /** With `stack`, the plots hold exactly the pending series, in the order they were added. */
  lemma {:induction false} StackSeriesOf(s: seq<SeriesInfo>, axes: seq<AxisInfo>)
    ensures SeriesOf(Grouping(s, axes, true)) == s
    decreases |s|
  {
    if |s| > 0 {
      var prior, x := s[..|s| - 1], s[|s| - 1];
      assert s == prior + [x];
      calc {
        SeriesOf(Grouping(s, axes, true));
      == { StackGroupingStep(prior, x, axes); }
        SeriesOf(Grouping(prior, axes, true) + [NewPlot(x.xname, [x], axes)]);
      == { SeriesOfPush(Grouping(prior, axes, true), NewPlot(x.xname, [x], axes)); }
        SeriesOf(Grouping(prior, axes, true)) + [x];
      == { StackSeriesOf(prior, axes); }
        prior + [x];
      }
    }
  }

  /** Without `stack`, one more series adds it once to the series the plots hold. */
  lemma {:induction false} NonStackPartitionStep(prior: seq<SeriesInfo>, x: SeriesInfo, axes: seq<AxisInfo>)
    ensures multiset(SeriesOf(Grouping(prior + [x], axes, false)))
         == multiset(SeriesOf(Grouping(prior, axes, false))) + multiset{x}
  {
    var plots := Grouping(prior, axes, false);
    var index := IndexOf(DistinctXNames(prior), x.xname);
    if index < 0 {
      calc {
        multiset(SeriesOf(Grouping(prior + [x], axes, false)));
      == { NewAxisGroupingStep(prior, x, axes); }
        multiset(SeriesOf(plots + [NewPlot(x.xname, [x], axes)]));
      == { SeriesOfPush(plots, NewPlot(x.xname, [x], axes)); }
        multiset(SeriesOf(plots) + [x]);
      }
    } else {
      var q := Extended(plots[index], x, axes);
      calc {
        multiset(SeriesOf(Grouping(prior + [x], axes, false)));
      == { SharedGroupingStep(prior, x, axes, index); }
        multiset(SeriesOf(plots[index := q]));
      == { SeriesOfAppend(plots, index, q, x); }
        multiset(SeriesOf(plots)) + multiset{x};
      }
    }
  }

  /** One more series keeps the series held equal, as a multiset, to the series added. */
  lemma PartitionStep(prior: seq<SeriesInfo>, x: SeriesInfo, axes: seq<AxisInfo>, stack: bool)
    ensures multiset(SeriesOf(Grouping(prior + [x], axes, stack)))
         == multiset(SeriesOf(Grouping(prior, axes, stack))) + multiset{x}
  {
    if stack {
      StackSeriesOf(prior + [x], axes);
      StackSeriesOf(prior, axes);
    } else {
      NonStackPartitionStep(prior, x, axes);
    }
  }

  /** Without `stack`, every pending series lands in the plots exactly as often as it was added. */
  lemma {:induction false} NonStackPartition(s: seq<SeriesInfo>, axes: seq<AxisInfo>)
    ensures multiset(SeriesOf(Grouping(s, axes, false))) == multiset(s)
    decreases |s|
  {
    if |s| > 0 {
      var prior, x := s[..|s| - 1], s[|s| - 1];
      assert s == prior + [x];
      calc {
        multiset(SeriesOf(Grouping(s, axes, false)));
      == { NonStackPartitionStep(prior, x, axes); }
        multiset(SeriesOf(Grouping(prior, axes, false))) + multiset{x};
      == { NonStackPartition(prior, axes); }
        multiset(prior) + multiset{x};
      }
    }
  }

  /** Every pending series lands in the plots exactly as often as it was added, in either mode. */
  lemma GroupingPartition(s: seq<SeriesInfo>, axes: seq<AxisInfo>, stack: bool)
    ensures multiset(SeriesOf(Grouping(s, axes, stack))) == multiset(s)
  {
    if stack {
      StackSeriesOf(s, axes);
    } else {
      NonStackPartition(s, axes);
    }
  }

  /** With `stack`, plot i is a fresh plot holding exactly series i, on its x axis. */
  lemma StackPlacement(s: seq<SeriesInfo>, axes: seq<AxisInfo>)
    ensures var plots := Grouping(s, axes, true);
      && |plots| == |s|
      && forall i :: 0 <= i < |s| ==>
           plots[i].state == Init && plots[i].plot == NoPlot && plots[i].xaxis == s[i].xname && plots[i].series == [s[i]]
  {
  }

  /**
   * Without `stack`, the plots are fresh and on distinct x axes, each holds
   * only pending series on its x axis, and each series is in the plot for
   * its x axis.
   */
  lemma NonStackPlacement(s: seq<SeriesInfo>, axes: seq<AxisInfo>)
    ensures var plots := Grouping(s, axes, false);
      && (forall k :: 0 <= k < |plots| ==> plots[k].state == Init && plots[k].plot == NoPlot)
      && (forall k, m :: 0 <= k < |plots| && m in plots[k].series ==> m in s && m.xname == plots[k].xaxis)
      && (forall i, j :: 0 <= i < j < |plots| ==> plots[i].xaxis != plots[j].xaxis)
      && (forall i :: 0 <= i < |s| ==>
            exists k :: 0 <= k < |plots| && plots[k].xaxis == s[i].xname && s[i] in plots[k].series)
  {
    var plots := Grouping(s, axes, false);
    var d := DistinctXNames(s);
    forall k | 0 <= k < |plots|
      ensures forall m :: m in plots[k].series ==> m in s && m.xname == plots[k].xaxis
    {
      NonStackPlotAt(s, axes, k);
    }
    DistinctXNamesSound(s);
    forall i | 0 <= i < |s|
      ensures exists k :: 0 <= k < |plots| && plots[k].xaxis == s[i].xname && s[i] in plots[k].series
    {
      var k := IndexOf(d, s[i].xname);
      NonStackPlotAt(s, axes, k);
    }
  }

  /** Without `stack`, plot k is a fresh plot for the k-th x axis name, holding exactly the series on it. */
  lemma NonStackPlotAt(s: seq<SeriesInfo>, axes: seq<AxisInfo>, k: int)
    requires 0 <= k < |Grouping(s, axes, false)|
    ensures var p := Grouping(s, axes, false)[k];
      && p.state == Init && p.plot == NoPlot && p.xaxis == DistinctXNames(s)[k]
      && (forall m :: m in p.series ==> m in s && m.xname == p.xaxis)
      && (forall i :: 0 <= i < |s| && s[i].xname == p.xaxis ==> s[i] in p.series)
  {
    OnAxisSound(s, DistinctXNames(s)[k]);
  }

  /** The x axis names known after the first `i` series are the first names known after all of them. */
  lemma {:induction false} DistinctXNamesPrefix(s: seq<SeriesInfo>, i: nat)
    requires i <= |s|
    ensures DistinctXNames(s[..i]) <= DistinctXNames(s)
    decreases |s|
  {
    if i < |s| {
      var prior := s[..|s| - 1];
      assert prior[..i] == s[..i];
      DistinctXNamesPrefix(prior, i);
      assert DistinctXNames(prior) <= DistinctXNames(s);
    } else {
      assert s[..i] == s;
    }
  }

  /**
   * The plots for series added first come first: grouping a prefix of the
   * pending series, without `stack`, gives a prefix of the plots' x axes.
   */
  lemma NonStackOrder(s: seq<SeriesInfo>, axes: seq<AxisInfo>, i: nat)
    requires i <= |s|
    ensures |Grouping(s[..i], axes, false)| <= |Grouping(s, axes, false)|
    ensures forall k :: 0 <= k < |Grouping(s[..i], axes, false)| ==>
      Grouping(s[..i], axes, false)[k].xaxis == Grouping(s, axes, false)[k].xaxis
  {
    DistinctXNamesPrefix(s, i);
  }

  /** Picking the series on an axis distributes over concatenation, so series keep their relative order. */
  lemma {:induction false} OnAxisConcat(s1: seq<SeriesInfo>, s2: seq<SeriesInfo>, x: string)
    ensures OnAxis(s1 + s2, x) == OnAxis(s1, x) + OnAxis(s2, x)
    decreases |s2|
  {
    if |s2| == 0 {
      assert s1 + s2 == s1;
    } else {
      var prior, last := s2[..|s2| - 1], s2[|s2| - 1];
      OnAxisConcat(s1, prior, x);
      assert (s1 + s2)[..|s1 + s2| - 1] == s1 + prior;
    }
  }

  /** Every configured axis that the y axis lookup finds for a member is attached. */
  lemma {:induction false} YAxisHitsComplete(axes: seq<AxisInfo>, members: seq<SeriesInfo>)
    ensures forall m :: m in members && 0 <= AxisIndex(axes, m.yname) ==> axes[AxisIndex(axes, m.yname)] in YAxisHits(axes, members)
    decreases |members|
  {
    if |members| > 0 {
      var prior := members[..|members| - 1];
      YAxisHitsComplete(axes, prior);
      assert forall m :: m in members ==> m in prior || m == members[|members| - 1];
    }
  }

  /**
   * The axes a plot receives: only configured axes named after its x axis
   * or the y axis of one of its series, at most one per series plus one,
   * and the first configured axis for its x axis and for each series' y axis.
   */
  lemma GroupingAxes(s: seq<SeriesInfo>, axes: seq<AxisInfo>, stack: bool, k: int)
    requires 0 <= k < |Grouping(s, axes, stack)|
    ensures var p := Grouping(s, axes, stack)[k];
      && |p.axes| <= 1 + |p.series|
      && (forall a :: a in p.axes ==> a in axes && (a.name == p.xaxis || exists m :: m in p.series && m.yname == a.name))
      && (0 <= AxisIndex(axes, p.xaxis) ==> |p.axes| > 0 && p.axes[0] == axes[AxisIndex(axes, p.xaxis)])
      && (forall m :: m in p.series && 0 <= AxisIndex(axes, m.yname) ==> axes[AxisIndex(axes, m.yname)] in p.axes)
  {
    var p := Grouping(s, axes, stack)[k];
    YAxisHitsFrom(axes, p.series);
    YAxisHitsComplete(axes, p.series);
  }

  // ---------------------------------------------------------------------
  // Reconciliation
  // ---------------------------------------------------------------------

  /** Exactly the widgets of the current plots that no new plot matched first are released. */
  lemma ReleasedExactly(current: seq<PlotInfo>, plots: seq<PlotInfo>)
    ensures forall h :: h in Released(current, plots) <==>
      exists k :: 0 <= k < |current| && !MatchedBy(current, plots, k) && current[k].plot == PlotId(h)
  {
    var m := Marked(current, plots);
    assert plots[..|plots|] == plots;
    DeletedHandlesSound(m);
    assert forall k :: 0 <= k < |m| ==> m[k].plot == current[k].plot;
  }

  /** No two plots of `ps` match each other. */
  predicate Separated(ps: seq<PlotInfo>)
  {
    forall i, j :: 0 <= i < |ps| && 0 <= j < |ps| && i != j ==> !Matches(ps[i], ps[j])
  }

  /** No two plots of `ps` hold the same widget. */
  predicate HandlesDistinct(ps: seq<PlotInfo>)
  {
    forall i, j :: 0 <= i < |ps| && 0 <= j < |ps| && i != j ==> ps[i].plot != ps[j].plot
  }

  /** No current plot matches two different new plots. */
  predicate Unambiguous(current: seq<PlotInfo>, plots: seq<PlotInfo>)
  {
    forall k, i, j :: 0 <= k < |current| && 0 <= i < |plots| && 0 <= j < |plots| && i != j ==>
      !(Matches(current[k], plots[i]) && Matches(current[k], plots[j]))
  }

  /** Matching needs equal x axes, so new plots on distinct x axes never share a match. */
  lemma DistinctAxesUnambiguous(current: seq<PlotInfo>, plots: seq<PlotInfo>)
    requires forall i, j :: 0 <= i < j < |plots| ==> plots[i].xaxis != plots[j].xaxis
    ensures Unambiguous(current, plots)
  {
    forall k, i, j | 0 <= k < |current| && 0 <= i < |plots| && 0 <= j < |plots| && i != j
      ensures !(Matches(current[k], plots[i]) && Matches(current[k], plots[j]))
    {
      assert plots[i].xaxis != plots[j].xaxis;
    }
  }

  /** New plots that do not match each other never share a match among current plots with distinct keys. */
  lemma SeparatedUnambiguous(current: seq<PlotInfo>, plots: seq<PlotInfo>)
    requires Separated(plots)
    requires forall k :: 0 <= k < |current| ==> KeysDistinct(current[k].series)
    ensures Unambiguous(current, plots)
  {
    forall k, i, j | 0 <= k < |current| && 0 <= i < |plots| && 0 <= j < |plots| && i != j
      ensures !(Matches(current[k], plots[i]) && Matches(current[k], plots[j]))
    {
      CommonMatch(current[k], plots[i], plots[j]);
    }
  }

  /** With `stack`, the new plots are separated exactly when the pending series have distinct keys. */
  lemma StackSeparatedIff(s: seq<SeriesInfo>, axes: seq<AxisInfo>)
    ensures Separated(Grouping(s, axes, true)) <==> KeysDistinct(s)
  {
    var plots := Grouping(s, axes, true);
    forall i, j | 0 <= i < |s| && 0 <= j < |s|
      ensures Matches(plots[i], plots[j]) <==> KeyOf(s[i]) == KeyOf(s[j])
    {
      if KeyOf(s[i]) == KeyOf(s[j]) {
        assert KeyOf(plots[j].series[0]) == KeyOf(s[i]);
      } else {
        assert forall m :: 0 <= m < |plots[j].series| ==> KeyOf(plots[j].series[m]) != KeyOf(s[i]);
      }
    }
  }

  /** Fresh widgets are numbered in order, so an earlier fresh widget has a smaller identity. */
  lemma FreshCountOrder(current: seq<PlotInfo>, plots: seq<PlotInfo>, i: int, j: int)
    requires 0 <= i < j <= |plots|
    ensures FreshCount(current, plots[..i]) + (if PlotIndex(current, plots[i]) < 0 then 1 else 0)
            <= FreshCount(current, plots[..j])
  {
    var pre := plots[..j];
    assert pre[..i] == plots[..i];
    assert pre[i] == plots[i];
    FreshCountPrefix(current, pre, i);
  }

  /** Two new plots that do not share a match get different widgets. */
  lemma ReconciledPairApart(current: seq<PlotInfo>, plots: seq<PlotInfo>, next: nat, i: int, j: int)
    requires Bound(current, next) && HandlesDistinct(current) && Unambiguous(current, plots)
    requires 0 <= i < j < |plots|
    ensures Reconciled(current, plots, next)[i].plot != Reconciled(current, plots, next)[j].plot
  {
    var ki, kj := PlotIndex(current, plots[i]), PlotIndex(current, plots[j]);
    if ki < 0 && kj < 0 {
      FreshCountOrder(current, plots, i, j);
    } else if 0 <= ki && 0 <= kj {
      assert ki != kj;
    }
  }

  /** A reused widget belongs to a matched current plot, and a fresh one is past every old identity. */
  lemma ReconciledNotReleased(current: seq<PlotInfo>, plots: seq<PlotInfo>, next: nat, k: int)
    requires Bound(current, next) && HandlesDistinct(current)
    requires 0 <= k < |plots|
    ensures Reconciled(current, plots, next)[k].plot.PlotId?
    ensures Reconciled(current, plots, next)[k].plot.id !in Released(current, plots)
  {
    var h := Reconciled(current, plots, next)[k].plot;
    var index := PlotIndex(current, plots[k]);
    ReleasedExactly(current, plots);
    if index < 0 {
      ReleasedBound(current, plots, next);
    } else {
      assert MatchedBy(current, plots, index);
      assert forall m :: 0 <= m < |current| && current[m].plot == h ==> m == index;
    }
  }

  /**
   * Reconciling keeps widgets apart when no current plot is matched by two
   * new plots: the new plots hold distinct widgets, none of them released.
   */
  lemma ReconcileKeepsHandlesApart(current: seq<PlotInfo>, plots: seq<PlotInfo>, next: nat)
    requires Bound(current, next) && HandlesDistinct(current) && Unambiguous(current, plots)
    ensures HandlesDistinct(Reconciled(current, plots, next))
    ensures forall k :: 0 <= k < |plots| ==>
      Reconciled(current, plots, next)[k].plot.PlotId? && Reconciled(current, plots, next)[k].plot.id !in Released(current, plots)
  {
    var r := Reconciled(current, plots, next);
    forall i, j | 0 <= i < |r| && 0 <= j < |r| && i != j
      ensures r[i].plot != r[j].plot
    {
      if i < j {
        ReconciledPairApart(current, plots, next, i, j);
      } else {
        ReconciledPairApart(current, plots, next, j, i);
      }
    }
    forall k | 0 <= k < |plots|
      ensures r[k].plot.PlotId? && r[k].plot.id !in Released(current, plots)
    {
      ReconciledNotReleased(current, plots, next, k);
    }
  }

  /**
   * With `stack`, a current plot can match a new plot only if it holds a
   * single series too (matching needs equal counts), so distinct pending
   * keys leave no current plot matched by two new plots.
   */
  lemma StackUnambiguous(current: seq<PlotInfo>, s: seq<SeriesInfo>, axes: seq<AxisInfo>)
    requires KeysDistinct(s)
    ensures Unambiguous(current, Grouping(s, axes, true))
  {
    var plots := Grouping(s, axes, true);
    StackPlacement(s, axes);
    StackSeparatedIff(s, axes);
    forall k, i, j | 0 <= k < |current| && 0 <= i < |plots| && 0 <= j < |plots| && i != j
      ensures !(Matches(current[k], plots[i]) && Matches(current[k], plots[j]))
    {
      if |current[k].series| == 1 {
        CommonMatch(current[k], plots[i], plots[j]);
      } else {
        assert |plots[i].series| == 1;
      }
    }
  }

  /**
   * One finaliseChart round keeps widgets apart: without `stack` always,
   * and with `stack` when the pending series have distinct keys.
   */
  lemma FinaliseKeepsHandlesApart(current: seq<PlotInfo>, next: nat, s: seq<SeriesInfo>, axes: seq<AxisInfo>, stack: bool)
    requires Bound(current, next) && HandlesDistinct(current)
    requires stack ==> KeysDistinct(s)
    ensures var plots := Grouping(s, axes, stack);
      && Bound(Reconciled(current, plots, next), next + FreshCount(current, plots))
      && HandlesDistinct(Reconciled(current, plots, next))
      && forall k :: 0 <= k < |plots| ==> Reconciled(current, plots, next)[k].plot.id !in Released(current, plots)
  {
    var plots := Grouping(s, axes, stack);
    if stack {
      StackUnambiguous(current, s, axes);
    } else {
      NonStackPlacement(s, axes);
      DistinctAxesUnambiguous(current, plots);
    }
    ReconciledBound(current, plots, next);
    ReconcileKeepsHandlesApart(current, plots, next);
  }

  /** When every new plot has a first match, no widget is created. */
  lemma {:induction false} FreshCountNone(current: seq<PlotInfo>, plots: seq<PlotInfo>)
    requires forall k :: 0 <= k < |plots| ==> 0 <= PlotIndex(current, plots[k])
    ensures FreshCount(current, plots) == 0
    decreases |plots|
  {
    if |plots| > 0 {
      var prior := plots[..|plots| - 1];
      assert forall k :: 0 <= k < |prior| ==> prior[k] == plots[k];
      FreshCountNone(current, prior);
    }
  }

  /** A plot with the x axis and series of current plot k, among current plots that do not match each other, first matches plot k. */
  lemma ReuseFirstMatch(current: seq<PlotInfo>, plots: seq<PlotInfo>, k: int)
    requires Separated(current)
    requires |plots| == |current|
    requires forall i :: 0 <= i < |plots| ==> plots[i].xaxis == current[i].xaxis && plots[i].series == current[i].series
    requires 0 <= k < |plots|
    ensures PlotIndex(current, plots[k]) == k
  {
    MatchesReflexive(current[k]);
    assert Matches(current[k], plots[k]);
    forall j | 0 <= j < |current| && j != k
      ensures !Matches(current[j], plots[k])
    {
      assert !Matches(current[j], current[k]);
    }
  }

  /** When new plot k first matches current plot k, for every k, each widget is reused in place, none is created and none is released. */
  lemma ReuseInPlace(current: seq<PlotInfo>, plots: seq<PlotInfo>, next: nat)
    requires |plots| == |current|
    requires forall k :: 0 <= k < |plots| ==> PlotIndex(current, plots[k]) == k
    ensures forall k :: 0 <= k < |plots| ==> Reconciled(current, plots, next)[k].plot == current[k].plot
    ensures FreshCount(current, plots) == 0
    ensures Released(current, plots) == multiset{}
  {
    FreshCountNone(current, plots);
    forall k | 0 <= k < |current|
      ensures MatchedBy(current, plots, k)
    {
      assert PlotIndex(current, plots[k]) == k;
    }
    assert forall h :: h !in Released(current, plots) by {
      ReleasedExactly(current, plots);
    }
  }

  /**
   * Finalising the same plots again reuses every widget in place: plot k
   * keeps the widget of current plot k, nothing is created and nothing is
   * released, provided the current plots do not match each other.
   */
  lemma ReuseWhenUnchanged(current: seq<PlotInfo>, plots: seq<PlotInfo>, next: nat)
    requires Separated(current)
    requires |plots| == |current|
    requires forall k :: 0 <= k < |plots| ==> plots[k].xaxis == current[k].xaxis && plots[k].series == current[k].series
    ensures forall k :: 0 <= k < |plots| ==> Reconciled(current, plots, next)[k].plot == current[k].plot
    ensures FreshCount(current, plots) == 0
    ensures Released(current, plots) == multiset{}
  {
    forall k | 0 <= k < |plots|
      ensures PlotIndex(current, plots[k]) == k
    {
      ReuseFirstMatch(current, plots, k);
    }
    ReuseInPlace(current, plots, next);
  }

  /** The curve added twice in the stack-mode scenario below, and the plot grouping makes for it. */
  const Dup := SeriesInfo("a", [], [], "x", "y", [])
  const DupPlot := PlotInfo(Init, NoPlot, "x", [Dup], [])

  /** `DupPlot` as a current plot holding widget `n`. */
  function DupWidget(n: nat): PlotInfo
  {
    DupPlot.(plot := PlotId(n), state := Active)
  }

  /** With `stack` and no axes configured, each copy of the curve gets the same plot. */
  lemma DupGrouping()
    ensures Grouping([Dup, Dup], [], true) == [DupPlot, DupPlot]
    ensures Grouping([Dup], [], true) == [DupPlot]
  {
    assert AxisHit([], "x") == [] && AxisHit([], "y") == [];
    YAxisHitsStep([], [], Dup);
    assert [] + [Dup] == [Dup];
    assert NewPlot("x", [Dup], []) == DupPlot;
  }

  /** Round one: nothing is current, so both plots get new widgets, 0 and 1. */
  lemma DupRoundOne()
    ensures FreshCount([], [DupPlot, DupPlot]) == 2
    ensures Reconciled([], [DupPlot, DupPlot], 0) == [DupWidget(0), DupWidget(1)]
  {
    var plots := [DupPlot, DupPlot];
    assert plots[..1] == [DupPlot] && plots[..0] == [];
    assert FreshCount([], plots[..1]) == 1;
  }

  /** Round two: both plots match the first current plot first, so both get widget 0 and widget 1 is deleted. */
  lemma DupRoundTwo()
    ensures FreshCount([DupWidget(0), DupWidget(1)], [DupPlot, DupPlot]) == 0
    ensures Reconciled([DupWidget(0), DupWidget(1)], [DupPlot, DupPlot], 2) == [DupWidget(0), DupWidget(0)]
    ensures 1 in Released([DupWidget(0), DupWidget(1)], [DupPlot, DupPlot])
  {
    var current, plots := [DupWidget(0), DupWidget(1)], [DupPlot, DupPlot];
    MatchesReflexive(DupPlot);
    assert Matches(current[0], DupPlot);
    assert PlotIndex(current, DupPlot) == 0;
    FreshCountNone(current, plots);
    ReleasedExactly(current, plots);
    assert !MatchedBy(current, plots, 1);
  }

  /** Round three: the single plot reuses widget 0, and the unmatched second plot's widget, also 0, is deleted. */
  lemma DupRoundThree()
    ensures Reconciled([DupWidget(0), DupWidget(0)], [DupPlot], 2) == [DupWidget(0)]
    ensures 0 in Released([DupWidget(0), DupWidget(0)], [DupPlot])
  {
    var current, plots := [DupWidget(0), DupWidget(0)], [DupPlot];
    MatchesReflexive(DupPlot);
    assert Matches(current[0], DupPlot);
    assert PlotIndex(current, DupPlot) == 0;
    ReleasedExactly(current, plots);
    assert !MatchedBy(current, plots, 1);
  }

  /**
   * Round four, with no curves: both current plots hold widget 0 and
   * neither is matched, so widget 0 is deleted twice.
   */
  lemma DupDeletedTwice()
    ensures Reconciled([DupWidget(0), DupWidget(0)], [], 2) == []
    ensures Released([DupWidget(0), DupWidget(0)], [])[0] == 2
  {
    var current: seq<PlotInfo> := [DupWidget(0), DupWidget(0)];
    var m := Marked(current, []);
    assert !MatchedBy(current, [], 0) && !MatchedBy(current, [], 1);
    assert m == [DupWidget(0).(state := DeleteMe), DupWidget(0).(state := DeleteMe)];
    assert m[..1][..0] == [] && m[..1] == [m[0]];
    assert DeletedHandles(m[..1]) == multiset{0};
  }

  /**
   * With `stack`, adding the same series twice breaks the widget
   * bookkeeping. Round one opens two widgets, 0 and 1. Round two (the same
   * two series) matches both new plots to the first current plot, so both
   * get widget 0 and widget 1 is deleted. Round three (the series once)
   * reuses widget 0 and deletes the second current plot's widget, which is
   * also widget 0: a widget still in use is deleted.
   */
  lemma StackDuplicateReleasesLiveWidget()
    ensures var twice := Grouping([Dup, Dup], [], true);
      var once := Grouping([Dup], [], true);
      var round1 := Reconciled([], twice, 0);
      var round2 := Reconciled(round1, twice, 2);
      var round3 := Reconciled(round2, once, 2);
      && FreshCount([], twice) == 2 && FreshCount(round1, twice) == 0
      && round1[0].plot == PlotId(0) && round1[1].plot == PlotId(1)
      && round2[0].plot == PlotId(0) && round2[1].plot == PlotId(0)
      && 1 in Released(round1, twice)
      && round3[0].plot == PlotId(0)
      && 0 in Released(round2, once)
  {
    DupGrouping();
    DupRoundOne();
    DupRoundTwo();
    DupRoundThree();
  }
}
