/**
 * The chart area of the dashboard. The `#graphs` element holds one container
 * per sensor (`container-<sensor>`); a container holds a title with a pin
 * button, at most one block of view controls and the plot divs of its sensor,
 * each a record of its id, its `data-axis` attribute, whether it is displayed
 * and the traces Plotly draws in it.
 */
module Charts {
  import opened Wrappers
  import opened Text
  import opened Dicts
  import opened Snapshots
  import opened State
  import opened Utils

  /** One line of a Plotly figure: its legend name and its readings. */
  datatype Trace = Trace(name: string, y: seq<int>)

  /** A plot div: `axis` is its `data-axis` attribute, `visible` is
      `style.display !== "none"`. */
  datatype PlotDiv = PlotDiv(id: string, axis: Option<string>, visible: bool, traces: seq<Trace>)

  /** A sensor's container: the label of its pin button, the number of
      `.sensor-controls` blocks in it and its plot divs in document order. */
  datatype Container = Container(pinLabel: string, controls: nat, plots: seq<PlotDiv>)

  function CombinedId(sensor: string): string {
    "plot-" + sensor + "-XYZ"
  }

  function AxisId(sensor: string, axis: string): string {
    "plot-" + sensor + "-" + axis
  }

  // ---------------------------------------------------------------- shouldRender

  /** `shouldRender(sensor, sensorData)`: light and step sensors always render,
      the others when their data is valid. */
  function ShouldRender(sensor: string, data: Option<Series>): bool {
    var lower := Lower(sensor);
    if Contains(lower, "light") || Contains(lower, "step") then true else IsValidSensor(data)
  }

  /** A sensor renders exactly when its name contains `light` or `step` in any
      case, or some axis of its data holds a reading other than 0. */
  lemma ShouldRenderMeans(sensor: string, d: Series)
    requires d.Valid()
    ensures ShouldRender(sensor, Some(d)) <==>
      || Contains(Lower(sensor), "light") || Contains(Lower(sensor), "step")
      || exists ax, i :: ax in d.entries && 0 <= i < |d.entries[ax]| && d.entries[ax][i] != 0
    ensures ShouldRender(sensor, None) <==> Contains(Lower(sensor), "light") || Contains(Lower(sensor), "step")
  {
    ValidSensorMeans(d);
  }

  // ---------------------------------------------------------------- queries on plot divs

  /** No two plot divs share an id. */
  predicate DistinctIds(plots: seq<PlotDiv>) {
    forall i, j :: 0 <= i < j < |plots| ==> plots[i].id != plots[j].id
  }

  /** `getElementById(id)` among the plot divs: the first one with that id. */
  function FindId(plots: seq<PlotDiv>, id: string): (r: Option<nat>)
    ensures r.None? <==> forall i :: 0 <= i < |plots| ==> plots[i].id != id
    ensures r.Some? ==> r.value < |plots| && plots[r.value].id == id
    ensures r.Some? ==> forall i :: 0 <= i < r.value ==> plots[i].id != id
  {
    if plots == [] then None
    else if plots[0].id == id then Some(0)
    else
      match FindId(plots[1..], id)
      case None => None
      case Some(k) => Some(k + 1)
  }

  /** `querySelector(`.plot-<sensor>[data-axis="<axis>"]`)`: the first plot div with that axis. */
  function FirstWithAxis(plots: seq<PlotDiv>, axis: string): (r: Option<nat>)
    ensures r.None? <==> forall i :: 0 <= i < |plots| ==> plots[i].axis != Some(axis)
    ensures r.Some? ==> r.value < |plots| && plots[r.value].axis == Some(axis)
    ensures r.Some? ==> forall i :: 0 <= i < r.value ==> plots[i].axis != Some(axis)
  {
    if plots == [] then None
    else if plots[0].axis == Some(axis) then Some(0)
    else
      match FirstWithAxis(plots[1..], axis)
      case None => None
      case Some(k) => Some(k + 1)
  }

  /** The first displayed plot div. */
  function FirstVisible(plots: seq<PlotDiv>): (r: Option<nat>)
    ensures r.None? <==> forall i :: 0 <= i < |plots| ==> !plots[i].visible
    ensures r.Some? ==> r.value < |plots| && plots[r.value].visible
    ensures r.Some? ==> forall i :: 0 <= i < r.value ==> !plots[i].visible
  {
    if plots == [] then None
    else if plots[0].visible then Some(0)
    else
      match FirstVisible(plots[1..])
      case None => None
      case Some(k) => Some(k + 1)
  }

  /** `getVisiblePlotDiv(sensor)` over the sensor's plot divs: the combined
      div when it is displayed, else the first displayed div, else null. */
  function VisiblePlot(plots: seq<PlotDiv>, sensor: string): (r: Option<PlotDiv>)
    ensures r.Some? ==> r.value in plots && r.value.visible
    ensures r.None? <==> forall i :: 0 <= i < |plots| ==> !plots[i].visible
    ensures FindId(plots, CombinedId(sensor)).Some? && plots[FindId(plots, CombinedId(sensor)).value].visible ==>
      r == Some(plots[FindId(plots, CombinedId(sensor)).value])
    ensures var c := FindId(plots, CombinedId(sensor));
      !(c.Some? && plots[c.value].visible) && r.Some? ==>
        exists i :: 0 <= i < |plots| && r.value == plots[i] && plots[i].visible && forall j :: 0 <= j < i ==> !plots[j].visible
  {
    var c := FindId(plots, CombinedId(sensor));
    if c.Some? && plots[c.value].visible then Some(plots[c.value])
    else
      match FirstVisible(plots)
      case None => None
      case Some(i) => Some(plots[i])
  }

  // ---------------------------------------------------------------- what the operations do to a sensor's plot divs

  /** The plot divs with a div of id `id` appended when there is none. */
  function WithDiv(plots: seq<PlotDiv>, id: string, axis: Option<string>): (r: seq<PlotDiv>)
    ensures FindId(r, id).Some?
    ensures FindId(plots, id).Some? ==> r == plots
    ensures FindId(plots, id).None? ==> r == plots + [PlotDiv(id, axis, false, [])]
  {
    if FindId(plots, id).Some? then plots
    else
      var r := plots + [PlotDiv(id, axis, false, [])];
      assert r[|plots|].id == id;
      r
  }

  /** Every plot div hidden. */
  function Hidden(plots: seq<PlotDiv>): (r: seq<PlotDiv>)
    ensures |r| == |plots|
  {
    seq(|plots|, i requires 0 <= i < |plots| => plots[i].(visible := false))
  }

  /** The traces of the combined graph: one per axis, in key order, named by
      the upper-cased axis. */
  function CombinedTraces(series: Series): (r: seq<Trace>)
    ensures |r| == |series.keys|
  {
    seq(|series.keys|, j requires 0 <= j < |series.keys| => AxisTrace(series, series.keys[j]))
  }

  function AxisTrace(series: Series, axis: string): Trace {
    Trace(Upper(axis), series.Get(axis).GetOr([]))
  }

  /** `showCombinedGraph`: the combined div, created when absent, draws every
      axis and is the one div displayed. */
  function Combined(plots: seq<PlotDiv>, sensor: string, series: Series): seq<PlotDiv> {
    var base := WithDiv(plots, CombinedId(sensor), None);
    var k := FindId(base, CombinedId(sensor)).value;
    var hidden := Hidden(base);
    hidden[k := hidden[k].(visible := true, traces := CombinedTraces(series))]
  }

  /** The combined div hidden, when there is one. */
  function HideCombined(plots: seq<PlotDiv>, sensor: string): seq<PlotDiv> {
    match FindId(plots, CombinedId(sensor))
    case None => plots
    case Some(k) => plots[k := plots[k].(visible := false)]
  }

  /** One step of `showSeparateGraphs`: the div of `axis`, created when absent
      with `data-axis` set to the upper-cased axis, draws that axis and is displayed. */
  function ShowAxis(plots: seq<PlotDiv>, sensor: string, series: Series, axis: string): seq<PlotDiv> {
    var base := WithDiv(plots, AxisId(sensor, axis), Some(Upper(axis)));
    var k := FindId(base, AxisId(sensor, axis)).value;
    base[k := base[k].(visible := true, traces := [AxisTrace(series, axis)])]
  }

  /** `showSeparateGraphs` after its loop reached the axes `axes`. */
  function SeparateFrom(plots: seq<PlotDiv>, sensor: string, series: Series, axes: seq<string>): seq<PlotDiv>
    decreases |axes|
  {
    if axes == [] then HideCombined(plots, sensor)
    else ShowAxis(SeparateFrom(plots, sensor, series, axes[..|axes| - 1]), sensor, series, axes[|axes| - 1])
  }

  /** `showSeparateGraphs`. */
  function Separate(plots: seq<PlotDiv>, sensor: string, series: Series): seq<PlotDiv> {
    SeparateFrom(plots, sensor, series, series.keys)
  }

  /** Whether `applyAxisFilter(sensor, axis)` with the saved view `view`
      displays the `i`-th plot div. */
  predicate Shown(plots: seq<PlotDiv>, i: nat, sensor: string, axis: string, view: string) {
    if axis == "all" then
      if view == "separate" then i < |plots| && plots[i].id != CombinedId(sensor)
      else FindId(plots, CombinedId(sensor)) == Some(i)
    else FirstWithAxis(plots, axis) == Some(i)
  }

  /** `applyAxisFilter(sensor, axis)` with the saved view `view`. */
  function Filtered(plots: seq<PlotDiv>, sensor: string, axis: string, view: string): (r: seq<PlotDiv>)
    ensures |r| == |plots|
  {
    seq(|plots|, i requires 0 <= i < |plots| => plots[i].(visible := Shown(plots, i, sensor, axis, view)))
  }

  /** The plot divs after `plotSensor` on a renderable sensor: the saved view,
      then the saved axis filter. */
  function Rendered(plots: seq<PlotDiv>, sensor: string, series: Series, storage: map<string, string>): seq<PlotDiv> {
    var view := GetSensorView(storage, sensor);
    var shown := if view == "separate" then Separate(plots, sensor, series) else Combined(plots, sensor, series);
    Filtered(shown, sensor, GetAxisFilter(storage, sensor), view)
  }

  /** The containers after `plotSensor(sensor, data)`: a sensor that should
      not render loses its container; one that should keeps its container (or
      gets a new one, last), with one controls block and the plots of its saved
      view under its saved axis filter. */
  function PlotEffect(graphs: Dict<Container>, sensor: string, series: Option<Series>,
                      storage: map<string, string>, pinned: seq<string>): Dict<Container>
    requires ShouldRender(sensor, series) ==> series.Some?
  {
    if !ShouldRender(sensor, series) then
      if sensor in graphs.entries then graphs.Remove(sensor) else graphs
    else
      var before := if sensor in graphs.entries then graphs.entries[sensor] else Container(PinLabel(sensor in pinned), 0, []);
      graphs.Put(sensor, Container(before.pinLabel, 1, Rendered(before.plots, sensor, series.value, storage)))
  }

  // ---------------------------------------------------------------- the loops

  /** `querySelectorAll(`.plot-<sensor>`).forEach(d => d.style.display = "none")`. */
  method HideAll(plots: seq<PlotDiv>) returns (r: seq<PlotDiv>)
    ensures r == Hidden(plots)
  {
    r := plots;
    for i := 0 to |r|
      invariant |r| == |plots|
      invariant forall j :: 0 <= j < i ==> r[j] == plots[j].(visible := false)
      invariant forall j :: i <= j < |r| ==> r[j] == plots[j]
    {
      r := r[i := r[i].(visible := false)];
    }
  }

  /** The plot-div part of `showCombinedGraph(sensor, data)`. */
  method ShowCombinedPlots(plots: seq<PlotDiv>, sensor: string, series: Series) returns (r: seq<PlotDiv>)
    ensures r == Combined(plots, sensor, series)
  {
    var id := CombinedId(sensor);
    r := plots;
    if FindId(r, id).None? {
      r := r + [PlotDiv(id, None, false, [])];
    }
    assert r == WithDiv(plots, id, None);
    var k := FindId(r, id).value;
    var traces := seq(|series.keys|, j requires 0 <= j < |series.keys| => Trace(Upper(series.keys[j]), series.Get(series.keys[j]).GetOr([])));
    assert traces == CombinedTraces(series);
    r := r[k := r[k].(traces := traces)];
    r := HideAll(r);
    r := r[k := r[k].(visible := true)];
    assert forall i :: 0 <= i < |r| ==> r[i] == Combined(plots, sensor, series)[i];
  }

  /** The plot-div part of `showSeparateGraphs(sensor, data)`. */
  method ShowSeparatePlots(plots: seq<PlotDiv>, sensor: string, series: Series) returns (r: seq<PlotDiv>)
    ensures r == Separate(plots, sensor, series)
  {
    r := plots;
    var c := FindId(r, CombinedId(sensor));
    if c.Some? {
      r := r[c.value := r[c.value].(visible := false)];
    }
    var axes := series.keys;
    for j := 0 to |axes|
      invariant r == SeparateFrom(plots, sensor, series, axes[..j])
    {
      SeparateFromStep(plots, sensor, series, axes, j);
      ghost var prev := r;
      var id := AxisId(sensor, axes[j]);
      if FindId(r, id).None? {
        r := r + [PlotDiv(id, Some(Upper(axes[j])), false, [])];
      }
      assert r == WithDiv(prev, id, Some(Upper(axes[j])));
      var k := FindId(r, id).value;
      r := r[k := r[k].(traces := [Trace(Upper(axes[j]), series.Get(axes[j]).GetOr([]))], visible := true)];
    }
    assert axes[..|axes|] == axes;
  }

  lemma SeparateFromStep(plots: seq<PlotDiv>, sensor: string, series: Series, axes: seq<string>, j: nat)
    requires j < |axes|
    ensures SeparateFrom(plots, sensor, series, axes[..j + 1]) == ShowAxis(SeparateFrom(plots, sensor, series, axes[..j]), sensor, series, axes[j])
  {
    assert axes[..j + 1][..j] == axes[..j];
  }

  /** The plot-div part of `applyAxisFilter(sensor, axis)` with the saved view `view`. */
  method FilterPlots(plots: seq<PlotDiv>, sensor: string, axis: string, view: string) returns (r: seq<PlotDiv>)
    ensures r == Filtered(plots, sensor, axis, view)
  {
    var combined := FindId(plots, CombinedId(sensor));
    r := plots;
    if combined.Some? {
      r := r[combined.value := r[combined.value].(visible := false)];
    }
    r := HideAll(r);
    assert forall i :: 0 <= i < |r| ==> r[i] == plots[i].(visible := false);
    if axis == "all" {
      if view == "separate" {
        for i := 0 to |r|
          invariant |r| == |plots|
          invariant forall j :: 0 <= j < i ==> r[j] == plots[j].(visible := Shown(plots, j, sensor, axis, view))
          invariant forall j :: i <= j < |r| ==> r[j] == plots[j].(visible := false)
        {
          if r[i].id != CombinedId(sensor) {
            r := r[i := r[i].(visible := true)];
          }
        }
      } else if combined.Some? {
        r := r[combined.value := r[combined.value].(visible := true)];
      }
    } else {
      var k := FirstWithAxis(r, axis);
      assert k == FirstWithAxis(plots, axis) by {
        FirstWithAxisIgnoresDisplay(plots, r, axis);
      }
      if k.Some? {
        r := r[k.value := r[k.value].(visible := true)];
      }
    }
  }

  /** Displaying or hiding divs does not move the first div with an axis. */
  lemma FirstWithAxisIgnoresDisplay(plots: seq<PlotDiv>, r: seq<PlotDiv>, axis: string)
    requires |r| == |plots| && forall i :: 0 <= i < |r| ==> r[i].axis == plots[i].axis
    ensures FirstWithAxis(r, axis) == FirstWithAxis(plots, axis)
  {
    var a, b := FirstWithAxis(r, axis), FirstWithAxis(plots, axis);
    if a.Some? && b.Some? {
      assert !(a.value < b.value) && !(b.value < a.value);
    }
  }

  // ---------------------------------------------------------------- the chart area

  /** The label `ensureSensorContainer` gives the pin button. */
  function PinLabel(pinned: bool): string {
    if pinned then "Unpin" else "\U{2b50} Pin"
  }

  /** Each container holds at most one controls block and plot divs with distinct ids. */
  predicate ContainerOk(c: Container) {
    c.controls <= 1 && DistinctIds(c.plots)
  }

  /** The containers are listed once each and each is well formed. */
  ghost predicate GraphsOk(graphs: Dict<Container>) {
    graphs.Valid() && forall s :: s in graphs.entries ==> ContainerOk(graphs.entries[s])
  }

  lemma PutOk(graphs: Dict<Container>, sensor: string, c: Container)
    requires GraphsOk(graphs) && ContainerOk(c)
    ensures GraphsOk(graphs.Put(sensor, c))
  {
    PutValid(graphs, sensor, c);
  }

  class ChartArea {
    /** The containers inside `#graphs`, keyed by sensor, in document order. */
    var graphs: Dict<Container>

    ghost predicate Valid()
      reads this
    {
      GraphsOk(graphs)
    }

    /** The empty `#graphs` element of a freshly loaded page. */
    constructor ()
      ensures Valid() && graphs == Empty()
    {
      graphs := Empty();
    }

    /** `graphsDiv.innerHTML = ""`. */
    method Clear()
      modifies this
      ensures Valid() && graphs == Empty()
    {
      graphs := Empty();
    }

    /** `ensureSensorContainer(sensor)`: a new container goes last; an existing
        one is left as it is. */
    method EnsureSensorContainer(sensor: string, pinned: seq<string>)
      requires Valid()
      modifies this
      ensures Valid()
      ensures graphs == if sensor in old(graphs.entries) then old(graphs)
                        else old(graphs).Put(sensor, Container(PinLabel(sensor in pinned), 0, []))
    {
      if sensor !in graphs.entries {
        PutOk(graphs, sensor, Container(PinLabel(sensor in pinned), 0, []));
        graphs := graphs.Put(sensor, Container(PinLabel(sensor in pinned), 0, []));
      }
    }

    /** `createSensorToggle(sensor, container, data)`: the old controls block,
        if any, is removed and a new one inserted. */
    method CreateSensorToggle(sensor: string)
      requires Valid() && sensor in graphs.entries
      modifies this
      ensures Valid()
      ensures graphs == old(graphs).Put(sensor, old(graphs.entries[sensor]).(controls := 1))
    {
      var c := graphs.entries[sensor];
      var kept := if c.controls > 0 then c.controls - 1 else 0;
      PutOk(graphs, sensor, c.(controls := kept + 1));
      graphs := graphs.Put(sensor, c.(controls := kept + 1));
    }

    /** `showCombinedGraph(sensor, data)` with `series` the sensor's data. */
    method ShowCombinedGraph(sensor: string, series: Series)
      requires Valid() && sensor in graphs.entries
      modifies this
      ensures Valid()
      ensures graphs == old(graphs).Put(sensor, old(graphs.entries[sensor]).(plots := Combined(old(graphs.entries[sensor].plots), sensor, series)))
    {
      var c := graphs.entries[sensor];
      var plots := ShowCombinedPlots(c.plots, sensor, series);
      CombinedDistinct(c.plots, sensor, series);
      PutOk(graphs, sensor, c.(plots := plots));
      graphs := graphs.Put(sensor, c.(plots := plots));
    }

    /** `showSeparateGraphs(sensor, data)` with `series` the sensor's data. */
    method ShowSeparateGraphs(sensor: string, series: Series)
      requires Valid() && sensor in graphs.entries
      modifies this
      ensures Valid()
      ensures graphs == old(graphs).Put(sensor, old(graphs.entries[sensor]).(plots := Separate(old(graphs.entries[sensor].plots), sensor, series)))
    {
      var c := graphs.entries[sensor];
      var plots := ShowSeparatePlots(c.plots, sensor, series);
      SeparateDistinct(c.plots, sensor, series, series.keys);
      PutOk(graphs, sensor, c.(plots := plots));
      graphs := graphs.Put(sensor, c.(plots := plots));
    }

    /** `applyAxisFilter(sensor, axis)`, reading the saved view from `storage`;
        without a container there is nothing to filter. */
    method ApplyAxisFilter(sensor: string, axis: string, storage: map<string, string>)
      requires Valid()
      modifies this
      ensures Valid()
      ensures sensor !in old(graphs.entries) ==> graphs == old(graphs)
      ensures sensor in old(graphs.entries) ==>
        graphs == old(graphs).Put(sensor, old(graphs.entries[sensor]).(plots := Filtered(old(graphs.entries[sensor].plots), sensor, axis, GetSensorView(storage, sensor))))
    {
      if sensor in graphs.entries {
        var c := graphs.entries[sensor];
        var plots := FilterPlots(c.plots, sensor, axis, GetSensorView(storage, sensor));
        FilteredKeepsIds(c.plots, sensor, axis, GetSensorView(storage, sensor));
        PutOk(graphs, sensor, c.(plots := plots));
        graphs := graphs.Put(sensor, c.(plots := plots));
      }
    }

    /** `plotSensor(sensor, data)` with `series` the sensor's entry of
        `data.sensors`, the page's `storage` and pinned list: a sensor that
        should not render loses its container; one that should gets exactly
        one container, one controls block and the plots of its saved view
        under its saved axis filter. */
    method PlotSensor(sensor: string, series: Option<Series>, storage: map<string, string>, pinned: seq<string>)
      requires Valid()
      requires ShouldRender(sensor, series) ==> series.Some?
      modifies this
      ensures Valid()
      ensures graphs == PlotEffect(old(graphs), sensor, series, storage, pinned)
    {
      if !ShouldRender(sensor, series) {
        if sensor in graphs.entries {
          RemoveValid(graphs, sensor);
          graphs := graphs.Remove(sensor);
        }
        return;
      }
      ghost var g0 := graphs;
      ghost var before := if sensor in g0.entries then g0.entries[sensor] else Container(PinLabel(sensor in pinned), 0, []);
      EnsureSensorContainer(sensor, pinned);
      if sensor in g0.entries {
        PutSame(g0, sensor);
      }
      assert graphs == g0.Put(sensor, before);
      CreateSensorToggle(sensor);
      PutTwice(g0, sensor, before, before.(controls := 1));
      var savedView := GetSensorView(storage, sensor);
      var savedAxis := GetAxisFilter(storage, sensor);
      if savedView == "separate" {
        ShowSeparateGraphs(sensor, series.value);
        PutTwice(g0, sensor, before.(controls := 1), before.(controls := 1, plots := Separate(before.plots, sensor, series.value)));
      } else {
        ShowCombinedGraph(sensor, series.value);
        PutTwice(g0, sensor, before.(controls := 1), before.(controls := 1, plots := Combined(before.plots, sensor, series.value)));
      }
      ghost var g3 := graphs;
      ApplyAxisFilter(sensor, savedAxis, storage);
      PutTwice(g0, sensor, g3.entries[sensor], Container(before.pinLabel, 1, Rendered(before.plots, sensor, series.value, storage)));
    }

    /** The "Show XYZ (Combined)" button: the combined graph, saved as the
        view with the filter back to all axes. */
    method OnShowCombined(sensor: string, series: Series, st: AppState)
      requires Valid() && sensor in graphs.entries
      modifies this, st
      ensures Valid()
      ensures st.storage == old(st.storage)[ViewKey(sensor) := "combined"][AxisKey(sensor) := "all"]
      ensures st.currentSensor == old(st.currentSensor) && st.pinned == old(st.pinned) && st.darkMode == old(st.darkMode)
      ensures st.globalData == old(st.globalData)
      ensures st.scrollYBeforeUpdate == old(st.scrollYBeforeUpdate) && st.isAutoRestoring == old(st.isAutoRestoring)
      ensures graphs == old(graphs).Put(sensor, old(graphs.entries[sensor]).(plots :=
        Filtered(Combined(old(graphs.entries[sensor].plots), sensor, series), sensor, "all", "combined")))
    {
      ghost var g0 := graphs;
      ghost var c := g0.entries[sensor];
      ShowCombinedGraph(sensor, series);
      ghost var g1 := graphs;
      st.SaveSensorView(sensor, "combined");
      st.SaveAxisFilter(sensor, "all");
      SaveAxisReadBack(old(st.storage)[ViewKey(sensor) := "combined"], sensor, "all", sensor);
      SaveViewReadBack(old(st.storage), sensor, "combined", sensor);
      ApplyAxisFilter(sensor, "all", st.storage);
      PutTwice(g0, sensor, g1.entries[sensor], c.(plots := Filtered(Combined(c.plots, sensor, series), sensor, "all", "combined")));
    }

    /** The "Show X Y Z (Separate)" button: one graph per axis, saved as the
        view with the filter back to all axes. */
    method OnShowSeparate(sensor: string, series: Series, st: AppState)
      requires Valid() && sensor in graphs.entries
      modifies this, st
      ensures Valid()
      ensures st.storage == old(st.storage)[ViewKey(sensor) := "separate"][AxisKey(sensor) := "all"]
      ensures st.currentSensor == old(st.currentSensor) && st.pinned == old(st.pinned) && st.darkMode == old(st.darkMode)
      ensures st.globalData == old(st.globalData)
      ensures st.scrollYBeforeUpdate == old(st.scrollYBeforeUpdate) && st.isAutoRestoring == old(st.isAutoRestoring)
      ensures graphs == old(graphs).Put(sensor, old(graphs.entries[sensor]).(plots :=
        Filtered(Separate(old(graphs.entries[sensor].plots), sensor, series), sensor, "all", "separate")))
    {
      ghost var g0 := graphs;
      ghost var c := g0.entries[sensor];
      ShowSeparateGraphs(sensor, series);
      ghost var g1 := graphs;
      st.SaveSensorView(sensor, "separate");
      st.SaveAxisFilter(sensor, "all");
      SaveAxisReadBack(old(st.storage)[ViewKey(sensor) := "separate"], sensor, "all", sensor);
      SaveViewReadBack(old(st.storage), sensor, "separate", sensor);
      ApplyAxisFilter(sensor, "all", st.storage);
      PutTwice(g0, sensor, g1.entries[sensor], c.(plots := Filtered(Separate(c.plots, sensor, series), sensor, "all", "separate")));
    }

    /** A choice in the axis dropdown: saved, then applied. */
    method OnAxisChange(sensor: string, axis: string, st: AppState)
      requires Valid()
      modifies this, st
      ensures Valid()
      ensures st.storage == old(st.storage)[AxisKey(sensor) := axis]
      ensures st.currentSensor == old(st.currentSensor) && st.pinned == old(st.pinned) && st.darkMode == old(st.darkMode)
      ensures st.globalData == old(st.globalData)
      ensures st.scrollYBeforeUpdate == old(st.scrollYBeforeUpdate) && st.isAutoRestoring == old(st.isAutoRestoring)
      ensures sensor !in old(graphs.entries) ==> graphs == old(graphs)
      ensures sensor in old(graphs.entries) ==>
        graphs == old(graphs).Put(sensor, old(graphs.entries[sensor]).(plots :=
          Filtered(old(graphs.entries[sensor].plots), sensor, axis, GetSensorView(old(st.storage), sensor))))
    {
      st.SaveAxisFilter(sensor, axis);
      SaveAxisReadBack(old(st.storage), sensor, axis, sensor);
      ApplyAxisFilter(sensor, axis, st.storage);
    }
  }

  // ---------------------------------------------------------------- properties

  lemma HiddenKeepsDistinct(plots: seq<PlotDiv>)
    requires DistinctIds(plots)
    ensures DistinctIds(Hidden(plots))
  {
  }

  lemma WithDivDistinct(plots: seq<PlotDiv>, id: string, axis: Option<string>)
    requires DistinctIds(plots)
    ensures DistinctIds(WithDiv(plots, id, axis))
  {
  }

  /** `showCombinedGraph` never adds a second div with an id already present. */
  lemma CombinedDistinct(plots: seq<PlotDiv>, sensor: string, series: Series)
    requires DistinctIds(plots)
    ensures DistinctIds(Combined(plots, sensor, series))
  {
    var base := WithDiv(plots, CombinedId(sensor), None);
    WithDivDistinct(plots, CombinedId(sensor), None);
    HiddenKeepsDistinct(base);
  }

  /** After `showCombinedGraph` the combined div exists once, draws every
      axis, and is the only plot div displayed; it was created only if absent. */
  lemma CombinedShowsOnlyCombined(plots: seq<PlotDiv>, sensor: string, series: Series)
    requires DistinctIds(plots)
    ensures var r := Combined(plots, sensor, series);
      && |r| == (if FindId(plots, CombinedId(sensor)).Some? then |plots| else |plots| + 1)
      && (forall i :: 0 <= i < |r| ==> (r[i].visible <==> r[i].id == CombinedId(sensor)))
      && FindId(r, CombinedId(sensor)).Some?
      && r[FindId(r, CombinedId(sensor)).value].traces == CombinedTraces(series)
      && (forall i :: 0 <= i < |plots| ==> r[i].id == plots[i].id && r[i].axis == plots[i].axis)
      && VisiblePlot(r, sensor) == Some(r[FindId(r, CombinedId(sensor)).value])
  {
    var r := Combined(plots, sensor, series);
    CombinedDistinct(plots, sensor, series);
    var base := WithDiv(plots, CombinedId(sensor), None);
    var k := FindId(base, CombinedId(sensor)).value;
    assert FindId(r, CombinedId(sensor)) == Some(k) by {
      assert r[k].id == CombinedId(sensor);
    }
  }

  /** `showSeparateGraphs` never adds a second div with an id already present. */
  lemma {:induction false} SeparateDistinct(plots: seq<PlotDiv>, sensor: string, series: Series, axes: seq<string>)
    requires DistinctIds(plots)
    ensures DistinctIds(SeparateFrom(plots, sensor, series, axes))
    decreases |axes|
  {
    if axes != [] {
      var prev := SeparateFrom(plots, sensor, series, axes[..|axes| - 1]);
      SeparateDistinct(plots, sensor, series, axes[..|axes| - 1]);
      WithDivDistinct(prev, AxisId(sensor, axes[|axes| - 1]), Some(Upper(axes[|axes| - 1])));
    }
  }

  /** The divs `showSeparateGraphs` keeps: ids and axes of existing divs are
      unchanged and every div it adds is the div of one of the axes, with
      `data-axis` the upper-cased axis. */
  lemma {:induction false} SeparateKeeps(plots: seq<PlotDiv>, sensor: string, series: Series, axes: seq<string>)
    ensures var r := SeparateFrom(plots, sensor, series, axes);
      && |plots| <= |r|
      && (forall i :: 0 <= i < |plots| ==> r[i].id == plots[i].id && r[i].axis == plots[i].axis)
      && (forall i :: |plots| <= i < |r| ==> exists j :: 0 <= j < |axes| && r[i].id == AxisId(sensor, axes[j]) && r[i].axis == Some(Upper(axes[j])))
    decreases |axes|
  {
    if axes != [] {
      var n := |axes| - 1;
      SeparateKeeps(plots, sensor, series, axes[..n]);
      var prev := SeparateFrom(plots, sensor, series, axes[..n]);
      var r := SeparateFrom(plots, sensor, series, axes);
      forall i | |plots| <= i < |r|
        ensures exists j :: 0 <= j < |axes| && r[i].id == AxisId(sensor, axes[j]) && r[i].axis == Some(Upper(axes[j]))
      {
        if i < |prev| {
          var j :| 0 <= j < n && prev[i].id == AxisId(sensor, axes[..n][j]) && prev[i].axis == Some(Upper(axes[..n][j]));
          assert axes[..n][j] == axes[j];
        } else {
          assert r[i].id == AxisId(sensor, axes[n]) && r[i].axis == Some(Upper(axes[n]));
        }
      }
    }
  }

  /** After `showSeparateGraphs` every axis has its div, displayed and drawing
      that axis alone. */
  lemma {:induction false} SeparateShowsAxes(plots: seq<PlotDiv>, sensor: string, series: Series, axes: seq<string>)
    requires Distinct(axes)
    ensures var r := SeparateFrom(plots, sensor, series, axes);
      forall j :: 0 <= j < |axes| ==>
        && FindId(r, AxisId(sensor, axes[j])).Some?
        && r[FindId(r, AxisId(sensor, axes[j])).value].visible
        && r[FindId(r, AxisId(sensor, axes[j])).value].traces == [AxisTrace(series, axes[j])]
    decreases |axes|
  {
    if axes != [] {
      var n := |axes| - 1;
      var init := axes[..n];
      DistinctSplit(init, [axes[n]]);
      assert init + [axes[n]] == axes;
      SeparateShowsAxes(plots, sensor, series, init);
      var prev := SeparateFrom(plots, sensor, series, init);
      var r := SeparateFrom(plots, sensor, series, axes);
      var base := WithDiv(prev, AxisId(sensor, axes[n]), Some(Upper(axes[n])));
      var k := FindId(base, AxisId(sensor, axes[n])).value;
      assert r == base[k := base[k].(visible := true, traces := [AxisTrace(series, axes[n])])];
      forall j | 0 <= j < |axes|
        ensures FindId(r, AxisId(sensor, axes[j])).Some?
        ensures r[FindId(r, AxisId(sensor, axes[j])).value].visible
        ensures r[FindId(r, AxisId(sensor, axes[j])).value].traces == [AxisTrace(series, axes[j])]
      {
        if j < n {
          assert axes[j] == init[j];
          assert axes[j] != axes[n];
          AxisIdInjective(sensor, axes[j], axes[n]);
          var m := FindId(prev, AxisId(sensor, axes[j])).value;
          assert base == prev + base[|prev|..];
          FindIdStable(prev, base[|prev|..], AxisId(sensor, axes[j]));
          FindIdUpdate(base, k, base[k].(visible := true, traces := [AxisTrace(series, axes[n])]), AxisId(sensor, axes[j]));
        } else {
          FindIdUpdate(base, k, base[k].(visible := true, traces := [AxisTrace(series, axes[n])]), AxisId(sensor, axes[n]));
        }
      }
    }
  }

  /** Every div carrying the combined id is hidden. */
  predicate CombinedHidden(plots: seq<PlotDiv>, sensor: string) {
    forall i :: 0 <= i < |plots| && plots[i].id == CombinedId(sensor) ==> !plots[i].visible
  }

  /** `showSeparateGraphs` leaves the combined div hidden, unless an axis is
      itself named `XYZ` and so shares the combined div's id. */
  lemma {:induction false} SeparateHidesCombined(plots: seq<PlotDiv>, sensor: string, series: Series, axes: seq<string>)
    requires DistinctIds(plots)
    requires forall j :: 0 <= j < |axes| ==> axes[j] != "XYZ"
    ensures CombinedHidden(SeparateFrom(plots, sensor, series, axes), sensor)
    decreases |axes|
  {
    if axes == [] {
      HideCombinedHides(plots, sensor);
    } else {
      var n := |axes| - 1;
      SeparateHidesCombined(plots, sensor, series, axes[..n]);
      assert CombinedId(sensor) == AxisId(sensor, "XYZ");
      AxisIdInjective(sensor, axes[n], "XYZ");
      ShowAxisKeepsHidden(SeparateFrom(plots, sensor, series, axes[..n]), sensor, series, axes[n]);
    }
  }

  lemma HideCombinedHides(plots: seq<PlotDiv>, sensor: string)
    requires DistinctIds(plots)
    ensures CombinedHidden(HideCombined(plots, sensor), sensor)
  {
    var c := FindId(plots, CombinedId(sensor));
    if c.Some? {
      var r := plots[c.value := plots[c.value].(visible := false)];
      forall i | 0 <= i < |r| && r[i].id == CombinedId(sensor)
        ensures !r[i].visible
      {
        assert i == c.value;
      }
    }
  }

  /** Showing an axis whose div is not the combined one keeps the combined div hidden. */
  lemma ShowAxisKeepsHidden(plots: seq<PlotDiv>, sensor: string, series: Series, axis: string)
    requires AxisId(sensor, axis) != CombinedId(sensor)
    requires CombinedHidden(plots, sensor)
    ensures CombinedHidden(ShowAxis(plots, sensor, series, axis), sensor)
  {
    var id := AxisId(sensor, axis);
    var base := WithDiv(plots, id, Some(Upper(axis)));
    var k := FindId(base, id).value;
    var r := ShowAxis(plots, sensor, series, axis);
    forall i | 0 <= i < |r| && r[i].id == CombinedId(sensor)
      ensures !r[i].visible
    {
      assert i != k && i < |plots|;
    }
  }

  lemma AxisIdInjective(sensor: string, a: string, b: string)
    requires a != b
    ensures AxisId(sensor, a) != AxisId(sensor, b)
  {
    var p := "plot-" + sensor + "-";
    assert AxisId(sensor, a) == p + a && AxisId(sensor, b) == p + b;
    PrefixCancel(p, a, b);
  }

  lemma PrefixCancel(p: string, a: string, b: string)
    ensures p + a == p + b ==> a == b
  {
    if p + a == p + b {
      assert a == (p + a)[|p|..];
      assert b == (p + b)[|p|..];
    }
  }

  /** Appending divs keeps the first div of an id that was already present. */
  lemma {:induction false} FindIdStable(plots: seq<PlotDiv>, extra: seq<PlotDiv>, id: string)
    requires FindId(plots, id).Some?
    ensures FindId(plots + extra, id) == FindId(plots, id)
  {
    if plots[0].id != id {
      assert (plots + extra)[1..] == plots[1..] + extra;
      FindIdStable(plots[1..], extra, id);
    }
  }

  /** Replacing the `k`-th div by one with the same id keeps every lookup by id. */
  lemma FindIdUpdate(plots: seq<PlotDiv>, k: nat, d: PlotDiv, id: string)
    requires k < |plots| && d.id == plots[k].id
    ensures FindId(plots[k := d], id) == FindId(plots, id)
  {
    FindIdSameIds(plots[k := d], plots, id);
  }

  /** Lookups by id depend on the ids alone. */
  lemma FindIdSameIds(p: seq<PlotDiv>, q: seq<PlotDiv>, id: string)
    requires |p| == |q| && forall i :: 0 <= i < |p| ==> p[i].id == q[i].id
    ensures FindId(p, id) == FindId(q, id)
  {
    var a, b := FindId(p, id), FindId(q, id);
    if a.Some? && b.Some? {
      assert !(a.value < b.value) && !(b.value < a.value);
    }
  }

  /** `applyAxisFilter` changes only which divs are displayed. */
  lemma FilteredKeepsIds(plots: seq<PlotDiv>, sensor: string, axis: string, view: string)
    requires DistinctIds(plots)
    ensures DistinctIds(Filtered(plots, sensor, axis, view))
  {
  }

  /** Filtering on one axis displays at most one div: the first whose
      `data-axis` is that axis, and none when no div has it. */
  lemma AxisFilterShowsOne(plots: seq<PlotDiv>, sensor: string, axis: string, view: string)
    requires axis != "all"
    ensures var r := Filtered(plots, sensor, axis, view);
      && (forall i, j :: 0 <= i < |r| && 0 <= j < |r| && r[i].visible && r[j].visible ==> i == j)
      && ((exists i :: 0 <= i < |r| && r[i].visible) <==> exists i :: 0 <= i < |plots| && plots[i].axis == Some(axis))
      && (forall i :: 0 <= i < |r| && r[i].visible ==> r[i].axis == Some(axis))
  {
    var r := Filtered(plots, sensor, axis, view);
    var k := FirstWithAxis(plots, axis);
    if exists i :: 0 <= i < |plots| && plots[i].axis == Some(axis) {
      assert r[k.value].visible;
    }
  }

  /** Filtering on all axes in the separate view displays every div but the
      combined one; in the combined view only the combined div, when it exists. */
  lemma AllAxesFilter(plots: seq<PlotDiv>, sensor: string, view: string)
    requires DistinctIds(plots)
    ensures var r := Filtered(plots, sensor, "all", view);
      forall i :: 0 <= i < |r| ==>
        (r[i].visible <==> if view == "separate" then r[i].id != CombinedId(sensor) else r[i].id == CombinedId(sensor))
  {
    var r := Filtered(plots, sensor, "all", view);
    forall i | 0 <= i < |r|
      ensures r[i].visible <==> if view == "separate" then r[i].id != CombinedId(sensor) else r[i].id == CombinedId(sensor)
    {
      if view != "separate" && plots[i].id == CombinedId(sensor) {
        var k := FindId(plots, CombinedId(sensor)).value;
        assert k == i;
      }
    }
  }

  /** After filtering on one axis, the div shown for fullscreen or download is
      the div of that axis. */
  lemma VisibleAfterAxisFilter(plots: seq<PlotDiv>, sensor: string, axis: string, view: string)
    requires axis != "all"
    requires FirstWithAxis(plots, axis).Some?
    ensures VisiblePlot(Filtered(plots, sensor, axis, view), sensor)
         == Some(Filtered(plots, sensor, axis, view)[FirstWithAxis(plots, axis).value])
  {
    var r := Filtered(plots, sensor, axis, view);
    var k := FirstWithAxis(plots, axis).value;
    AxisFilterShowsOne(plots, sensor, axis, view);
    assert r[k].visible;
    var v := VisiblePlot(r, sensor);
    var c := FindId(r, CombinedId(sensor));
    if c.Some? && r[c.value].visible {
      assert c.value == k;
    } else {
      var f := FirstVisible(r).value;
      assert f == k;
    }
  }

  /** A sensor rendered in the combined view with all axes shows exactly its
      combined div. */
  lemma RenderedCombinedAll(plots: seq<PlotDiv>, sensor: string, series: Series, storage: map<string, string>)
    requires DistinctIds(plots)
    requires GetSensorView(storage, sensor) != "separate" && GetAxisFilter(storage, sensor) == "all"
    ensures var r := Rendered(plots, sensor, series, storage);
      && (forall i :: 0 <= i < |r| ==> (r[i].visible <==> r[i].id == CombinedId(sensor)))
      && FindId(r, CombinedId(sensor)).Some?
  {
    var shown := Combined(plots, sensor, series);
    CombinedShowsOnlyCombined(plots, sensor, series);
    CombinedDistinct(plots, sensor, series);
    AllAxesFilter(shown, sensor, GetSensorView(storage, sensor));
    var r := Rendered(plots, sensor, series, storage);
    var k := FindId(shown, CombinedId(sensor)).value;
    assert r[k].id == CombinedId(sensor);
  }
}
