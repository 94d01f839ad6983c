/**
 * The dashboard page driven by the server-push stream: the render
 * reconciler that decides between re-plotting the sensors in place and
 * rebuilding the chart area, the `firstLoad` flag and the loader, and the
 * listeners that force a rebuild.
 */
module App {
  import opened Wrappers
  import opened Text
  import opened Dicts
  import opened Snapshots
  import opened State
  import opened Utils
  import opened Charts

  // ---------------------------------------------------------------- the render signature

  /** `modeSignature()`: the selected sensor and the pinned list. */
  function ModeSignature(current: string, pinned: seq<string>): string {
    current + "|" + Join(pinned, ",")
  }

  /** A signature always holds the separator, so it never equals the `""`
      the listeners store to force a rebuild. */
  lemma SignatureNeverReset(current: string, pinned: seq<string>)
    ensures ModeSignature(current, pinned)[|current|] == '|'
    ensures ModeSignature(current, pinned) != ""
  {
    assert ModeSignature(current, pinned) == current + ("|" + Join(pinned, ","));
  }

  /** The signature determines the selected sensor when that name has no `|`. */
  lemma SignatureSeparatesSensor(c1: string, p1: seq<string>, c2: string, p2: seq<string>)
    requires '|' !in c1 && '|' !in c2
    requires ModeSignature(c1, p1) == ModeSignature(c2, p2)
    ensures c1 == c2
  {
    var s := ModeSignature(c1, p1);
    FirstBar(c1, p1);
    FirstBar(c2, p2);
    assert |c1| == |c2|;
    assert s[..|c1|] == c1 && s[..|c2|] == c2;
  }

  /** The first `|` of a signature ends the sensor name, when the name has none. */
  lemma FirstBar(c: string, p: seq<string>)
    requires '|' !in c
    ensures |c| < |ModeSignature(c, p)| && ModeSignature(c, p)[|c|] == '|'
    ensures forall i :: 0 <= i < |c| ==> ModeSignature(c, p)[i] == c[i] != '|'
  {
    assert ModeSignature(c, p) == c + ("|" + Join(p, ","));
  }

  // ---------------------------------------------------------------- what to render

  /** The sensors `renderGraphsIfNeeded` plots: all of them in the "all" mode,
      the selected one when it is present, all of them otherwise. */
  function ToRender(current: string, sensors: seq<string>): seq<string> {
    if current == "all" then sensors
    else if current in sensors then [current]
    else sensors
  }

  /** Whether `renderGraphsIfNeeded` falls back to "all" and saves it. */
  predicate FallsBack(current: string, sensors: seq<string>) {
    current != "all" && current !in sensors
  }

  /** The sensors to render are sensors of the snapshot, there are some as
      soon as the snapshot has any, and they are listed once each when the
      snapshot's are. */
  lemma ToRenderWithin(current: string, sensors: seq<string>)
    ensures forall s :: s in ToRender(current, sensors) ==> s in sensors
    ensures |ToRender(current, sensors)| > 0 <==> |sensors| > 0
    ensures Distinct(sensors) ==> Distinct(ToRender(current, sensors))
    ensures !FallsBack(current, sensors) && current != "all" ==> ToRender(current, sensors) == [current]
  {
  }

  /** `xs.filter((s) => ys.includes(s))`. */
  function KeepIn(xs: seq<string>, ys: seq<string>): (r: seq<string>)
    ensures forall s :: s in r <==> s in xs && s in ys
    ensures Distinct(xs) ==> Distinct(r)
  {
    if xs == [] then []
    else if xs[0] in ys then [xs[0]] + KeepIn(xs[1..], ys)
    else KeepIn(xs[1..], ys)
  }

  /** `xs.filter((s) => !ys.includes(s))`. */
  function KeepOut(xs: seq<string>, ys: seq<string>): (r: seq<string>)
    ensures forall s :: s in r <==> s in xs && s !in ys
    ensures Distinct(xs) ==> Distinct(r)
  {
    if xs == [] then []
    else if xs[0] !in ys then [xs[0]] + KeepOut(xs[1..], ys)
    else KeepOut(xs[1..], ys)
  }

  /** The rebuild order: the pinned sensors to render, in pin order, then the
      other sensors to render, in their own order. */
  function Ordered(pinned: seq<string>, toRender: seq<string>): seq<string> {
    KeepIn(pinned, toRender) + KeepOut(toRender, pinned)
  }

  /** The rebuild order lists exactly the sensors to render, and every pinned
      one comes before every unpinned one. */
  lemma OrderedMembers(pinned: seq<string>, toRender: seq<string>)
    ensures forall s :: s in Ordered(pinned, toRender) <==> s in toRender
    ensures var o := Ordered(pinned, toRender);
      forall i, j :: 0 <= i < j < |o| && o[j] in pinned ==> o[i] in pinned
  {
    var a, b := KeepIn(pinned, toRender), KeepOut(toRender, pinned);
    var o := a + b;
    forall i, j | 0 <= i < j < |o| && o[j] in pinned
      ensures o[i] in pinned
    {
      assert j < |a|;
      assert o[i] == a[i];
    }
  }

  /** With no sensor pinned twice and none listed twice, the rebuild order is a
      permutation of the sensors to render. */
  lemma {:induction false} OrderedPermutation(pinned: seq<string>, toRender: seq<string>)
    requires Distinct(pinned) && Distinct(toRender)
    ensures Distinct(Ordered(pinned, toRender))
    ensures multiset(Ordered(pinned, toRender)) == multiset(toRender)
  {
    var a, b := KeepIn(pinned, toRender), KeepOut(toRender, pinned);
    DistinctConcat(a, b);
    OrderedMembers(pinned, toRender);
    DistinctMultiset(a + b, toRender);
  }

  /** Two duplicate-free lists with the same members are permutations of each other. */
  lemma DistinctMultiset(xs: seq<string>, ys: seq<string>)
    requires Distinct(xs) && Distinct(ys)
    requires forall s :: s in xs <==> s in ys
    ensures multiset(xs) == multiset(ys)
  {
    DistinctCount(xs);
    DistinctCount(ys);
    assert forall s :: multiset(xs)[s] == multiset(ys)[s];
  }

  /** In a duplicate-free list every member occurs once. */
  lemma {:induction false} DistinctCount(xs: seq<string>)
    requires Distinct(xs)
    ensures forall s :: multiset(xs)[s] == if s in xs then 1 else 0
    decreases |xs|
  {
    if xs != [] {
      assert xs == [xs[0]] + xs[1..];
      DistinctSplit([xs[0]], xs[1..]);
      DistinctCount(xs[1..]);
    }
  }

  // ---------------------------------------------------------------- plotting a list of sensors

  /** The chart area after `sensors.forEach(s => plotSensor(s, data))`. */
  function PlotAll(graphs: Dict<Container>, sensors: seq<string>, table: SensorTable,
                   storage: map<string, string>, pinned: seq<string>): Dict<Container>
    requires forall s :: s in sensors ==> s in table.entries
    decreases |sensors|
  {
    if sensors == [] then graphs
    else
      var n := |sensors| - 1;
      PlotEffect(PlotAll(graphs, sensors[..n], table, storage, pinned), sensors[n], table.Get(sensors[n]), storage, pinned)
  }

  /** The sensors of `sensors` that should render, in order. */
  function Renderable(sensors: seq<string>, table: SensorTable): (r: seq<string>)
    ensures forall s :: s in r ==> s in sensors
    decreases |sensors|
  {
    if sensors == [] then []
    else
      var n := |sensors| - 1;
      Renderable(sensors[..n], table) + (if ShouldRender(sensors[n], table.Get(sensors[n])) then [sensors[n]] else [])
  }

  /** A rebuild leaves one container per sensor that should render, in the
      rebuild order, and each has exactly one controls block. */
  lemma {:induction false} RebuildContainers(sensors: seq<string>, table: SensorTable,
                                             storage: map<string, string>, pinned: seq<string>)
    requires forall s :: s in sensors ==> s in table.entries
    requires Distinct(sensors)
    ensures var g := PlotAll(Empty(), sensors, table, storage, pinned);
      && g.keys == Renderable(sensors, table)
      && (forall s :: s in g.entries <==> s in g.keys)
      && (forall s :: s in g.entries ==> g.entries[s].controls == 1)
    decreases |sensors|
  {
    if sensors != [] {
      var n := |sensors| - 1;
      var init := sensors[..n];
      assert init + [sensors[n]] == sensors;
      DistinctSplit(init, [sensors[n]]);
      RebuildContainers(init, table, storage, pinned);
      var prev := PlotAll(Empty(), init, table, storage, pinned);
      assert sensors[n] !in prev.entries;
    }
  }

  // ---------------------------------------------------------------- the loader and firstLoad

  /** What happens to the page: a message handled without error, a message
      whose parsing or handling throws, a lost connection. */
  datatype Event = MessageOk | MessageFailed | ConnectionError

  /** The `firstLoad` flag and whether the loader was last asked to show. */
  datatype Client = Client(firstLoad: bool, loaderShown: bool)

  /** The page after `startSSE()`: first load pending, loader requested. */
  const Start := Client(true, true)

  /** `onmessage` and `onerror` as written: only the first successful message
      hides the loader. */
  function StepAsWritten(c: Client, e: Event): Client {
    match e
    case MessageOk => if c.firstLoad then Client(false, false) else c
    case MessageFailed => c
    case ConnectionError => c.(loaderShown := true)
  }

  /** The corrected handler: every successful message hides the loader, and
      a lost connection sets `firstLoad` back, so the next successful message
      renders in full. */
  function Step(c: Client, e: Event): Client {
    match e
    case MessageOk => Client(false, false)
    case MessageFailed => c
    case ConnectionError => Start
  }

  function RunAsWritten(c: Client, es: seq<Event>): Client
    decreases |es|
  {
    if es == [] then c else RunAsWritten(StepAsWritten(c, es[0]), es[1..])
  }

  function Run(c: Client, es: seq<Event>): Client
    decreases |es|
  {
    if es == [] then c else Run(Step(c, es[0]), es[1..])
  }

  /** As written, once the first load is done a lost connection leaves the
      loader requested for good, whatever follows. */
  lemma {:induction false} LoaderStuckAsWritten(c: Client, es: seq<Event>)
    requires !c.firstLoad && c.loaderShown
    ensures RunAsWritten(c, es) == c
    decreases |es|
  {
    if es != [] {
      LoaderStuckAsWritten(StepAsWritten(c, es[0]), es[1..]);
    }
  }

  /** A connection that drops after the first message and comes back: the
      loader stays requested although data flows again. */
  lemma ReconnectExampleAsWritten()
    ensures RunAsWritten(Start, [MessageOk, ConnectionError, MessageOk]).loaderShown
    ensures !Run(Start, [MessageOk, ConnectionError, MessageOk]).loaderShown
  {
    var es := [MessageOk, ConnectionError, MessageOk];
    assert es[1..] == [ConnectionError, MessageOk];
    assert es[1..][1..] == [MessageOk];
  }

  lemma {:induction false} RunSnoc(c: Client, es: seq<Event>, e: Event)
    ensures Run(c, es + [e]) == Step(Run(c, es), e)
    decreases |es|
  {
    if es != [] {
      assert (es + [e])[1..] == es[1..] + [e];
      RunSnoc(Step(c, es[0]), es[1..], e);
    }
  }

  /** Corrected: after a successful message the loader is hidden, whatever came before. */
  lemma LoaderHiddenAfterMessage(c: Client, es: seq<Event>)
    ensures !Run(c, es + [MessageOk]).loaderShown && !Run(c, es + [MessageOk]).firstLoad
  {
    RunSnoc(c, es, MessageOk);
  }

  lemma {:induction false} RunAppend(c: Client, es: seq<Event>, fs: seq<Event>)
    ensures Run(c, es + fs) == Run(Run(c, es), fs)
    decreases |es|
  {
    if es != [] {
      assert (es + fs)[1..] == es[1..] + fs;
      RunAppend(Step(c, es[0]), es[1..], fs);
    } else {
      assert es + fs == fs;
    }
  }

  /** Corrected: until a message succeeds, the page stays in its start state. */
  lemma {:induction false} StartUntilSuccess(es: seq<Event>)
    requires MessageOk !in es
    ensures Run(Start, es) == Start
    decreases |es|
  {
    if es != [] {
      StartUntilSuccess(es[1..]);
    }
  }

  /** Corrected: after a lost connection the page is back in its start state
      until a message succeeds, so the first successful message takes the
      initial-render branch, and it hides the loader. */
  lemma ReconnectRendersInFull(c: Client, es: seq<Event>, fs: seq<Event>)
    requires MessageOk !in fs
    ensures Run(c, es + [ConnectionError] + fs) == Start
    ensures Run(c, es + [ConnectionError] + fs + [MessageOk]) == Client(false, false)
  {
    RunAppend(c, es + [ConnectionError], fs);
    RunSnoc(c, es, ConnectionError);
    StartUntilSuccess(fs);
    RunSnoc(c, es + [ConnectionError] + fs, MessageOk);
  }

  /** As written, the first load is pending until the first successful
      message: failed messages and lost connections never change it, and
      nothing sets it back. */
  lemma {:induction false} FirstLoadUntilSuccess(c: Client, es: seq<Event>)
    ensures RunAsWritten(c, es).firstLoad <==> c.firstLoad && MessageOk !in es
    decreases |es|
  {
    if es != [] {
      assert es == [es[0]] + es[1..];
      FirstLoadUntilSuccess(StepAsWritten(c, es[0]), es[1..]);
    }
  }

  /** As written, only one message takes the initial-render branch: a
      successful message after an earlier successful one finds the first
      load done. */
  lemma AtMostOneInitialRender(es: seq<Event>, i: nat, j: nat)
    requires i < j < |es| && es[i] == MessageOk
    ensures !RunAsWritten(Start, es[..j]).firstLoad
  {
    assert es[..j][i] == MessageOk;
    FirstLoadUntilSuccess(Start, es[..j]);
  }

  // ---------------------------------------------------------------- the page

  class Dashboard {
    var firstLoad: bool
    var renderedSensors: set<string>
    var lastModeSignature: string
    /** Whether `showLoader` was last called with `true`. */
    var loaderShown: bool
    /** Whether `<body>` has the `dark` class. */
    var bodyDark: bool
    const st: AppState
    const charts: ChartArea

    /** The chart area is well formed, and the last snapshot's sensors are
        listed once each. */
    ghost predicate Valid()
      reads this, st, charts
    {
      && charts.Valid()
      && (st.globalData.Some? && st.globalData.value.sensors.Some? ==> st.globalData.value.sensors.value.Valid())
    }

    function Signature(): string
      reads this, st
    {
      ModeSignature(st.currentSensor, st.pinned)
    }

    /** The selected sensor and the storage after `renderGraphsIfNeeded`
        chose what to render from `sensors`, starting from the selected
        sensor `current` and the storage `stored`: "all" is selected and
        saved when `current` is missing, nothing changes otherwise. */
    ghost predicate ChoseFrom(current: string, stored: map<string, string>, sensors: seq<string>)
      reads st
    {
      && st.currentSensor == (if FallsBack(current, sensors) then "all" else current)
      && st.storage == (if FallsBack(current, sensors) then stored[SelectedSensorKey := "all"] else stored)
    }

    /** The page after a rebuild for `table` with `current` the selected
        sensor before the fallback: its signature is stored, and exactly the
        sensors to render are plotted, pinned first, into a cleared area. */
    ghost predicate Rebuilt(current: string, table: SensorTable)
      requires table.Valid()
      reads this, st, charts
    {
      var ordered := Ordered(st.pinned, ToRender(current, table.keys));
      && lastModeSignature == ModeSignature(current, st.pinned)
      && renderedSensors == (set s | s in ordered)
      && charts.graphs == PlotAll(Empty(), ordered, table, st.storage, st.pinned)
    }

    /** What `renderGraphsIfNeeded` did with `table`: the fallback, then
        either the cheap path (the signature was unchanged and something was
        rendered: every sensor to render is re-plotted in place, the stored
        signature and the rendered set stay) or a rebuild. */
    twostate predicate Reconciled(new table: SensorTable)
      requires table.Valid()
      reads this, st, charts
    {
      var cur := old(st.currentSensor);
      && ChoseFrom(cur, old(st.storage), table.keys)
      && if ModeSignature(cur, old(st.pinned)) == old(lastModeSignature) && old(renderedSensors) != {} then
           && lastModeSignature == old(lastModeSignature) && renderedSensors == old(renderedSensors)
           && charts.graphs == PlotAll(old(charts.graphs), ToRender(cur, table.keys), table, st.storage, st.pinned)
         else
           Rebuilt(cur, table)
    }

    /** What a listener that resets the signature did, from the selected
        sensor `current` and the storage `stored` it left before the reset:
        with a usable snapshot, the fallback and a rebuild; without
        one, only the signature is reset. */
    twostate predicate ResetRendered(current: string, stored: map<string, string>)
      requires Valid()
      reads this, st, charts
    {
      if st.globalData.Some? && Usable(st.globalData.value) then
        var table := st.globalData.value.sensors.value;
        ChoseFrom(current, stored, table.keys) && Rebuilt(current, table)
      else
        && lastModeSignature == "" && renderedSensors == old(renderedSensors) && charts.graphs == old(charts.graphs)
        && st.currentSensor == current && st.storage == stored
    }

    /** The page after its scripts load with `stored` in `localStorage` and
        `startSSE()` has asked for the loader. */
    constructor (stored: map<string, string>)
      requires InitialPinned(stored).Some?
      ensures Valid()
      ensures firstLoad && loaderShown && renderedSensors == {} && lastModeSignature == "" && !bodyDark
      ensures st.storage == stored && st.globalData.None? && charts.graphs == Empty()
      ensures st.currentSensor == StoredOr(stored, SelectedSensorKey, "all") && st.pinned == InitialPinned(stored).value
      ensures !st.darkMode && st.scrollYBeforeUpdate == 0 && !st.isAutoRestoring
      ensures fresh(st) && fresh(charts)
    {
      firstLoad := true;
      renderedSensors := {};
      lastModeSignature := "";
      loaderShown := true;
      bodyDark := false;
      st := new AppState(stored);
      charts := new ChartArea();
    }

    /** `renderGraphsIfNeeded(data)` with `table` the snapshot's sensors. */
    method RenderGraphsIfNeeded(table: SensorTable)
      requires Valid() && table.Valid()
      modifies this`lastModeSignature, this`renderedSensors, st, charts
      ensures Valid()
      ensures Reconciled(table)
      ensures st.pinned == old(st.pinned) && st.globalData == old(st.globalData) && st.darkMode == old(st.darkMode)
      ensures st.scrollYBeforeUpdate == old(st.scrollYBeforeUpdate) && st.isAutoRestoring == old(st.isAutoRestoring)
    {
      var modeSig := ModeSignature(st.currentSensor, st.pinned);
      var toRender := ChooseSensors(table.keys);
      ToRenderWithin(old(st.currentSensor), table.keys);

      if modeSig == lastModeSignature && renderedSensors != {} {
        PlotEach(charts, toRender, table, st.storage, st.pinned);
        return;
      }

      Rebuild(modeSig, toRender, table);
    }

    /** The rebuild: the signature is stored, the chart area and the rendered
        set are cleared, and the sensors are plotted pinned first. */
    method Rebuild(modeSig: string, toRender: seq<string>, table: SensorTable)
      requires charts.Valid()
      requires forall s :: s in toRender ==> s in table.entries
      modifies this`lastModeSignature, this`renderedSensors, charts
      ensures charts.Valid()
      ensures lastModeSignature == modeSig
      ensures renderedSensors == (set s | s in Ordered(st.pinned, toRender))
      ensures charts.graphs == PlotAll(Empty(), Ordered(st.pinned, toRender), table, st.storage, st.pinned)
    {
      lastModeSignature := modeSig;
      charts.Clear();
      renderedSensors := {};

      var ordered := KeepIn(st.pinned, toRender) + KeepOut(toRender, st.pinned);
      OrderedMembers(st.pinned, toRender);
      PlotOrdered(ordered, table);
    }

    /** The choice of `toRender`, saving "all" when the selected sensor is
        missing from the snapshot. */
    method ChooseSensors(sensors: seq<string>) returns (toRender: seq<string>)
      modifies st
      ensures toRender == ToRender(old(st.currentSensor), sensors)
      ensures ChoseFrom(old(st.currentSensor), old(st.storage), sensors)
      ensures st.pinned == old(st.pinned) && st.globalData == old(st.globalData) && st.darkMode == old(st.darkMode)
      ensures st.scrollYBeforeUpdate == old(st.scrollYBeforeUpdate) && st.isAutoRestoring == old(st.isAutoRestoring)
    {
      if st.currentSensor == "all" {
        toRender := sensors;
      } else if st.currentSensor in sensors {
        toRender := [st.currentSensor];
      } else {
        toRender := sensors;
        st.SaveSensor("all");
      }
    }

    /** The rebuild loop: each sensor is plotted, then recorded as rendered. */
    method PlotOrdered(ordered: seq<string>, table: SensorTable)
      requires charts.Valid() && renderedSensors == {}
      requires forall s :: s in ordered ==> s in table.entries
      modifies this`renderedSensors, charts
      ensures charts.Valid()
      ensures charts.graphs == PlotAll(old(charts.graphs), ordered, table, st.storage, st.pinned)
      ensures renderedSensors == set s | s in ordered
    {
      for i := 0 to |ordered|
        invariant charts.Valid()
        invariant charts.graphs == PlotAll(old(charts.graphs), ordered[..i], table, st.storage, st.pinned)
        invariant renderedSensors == set s | s in ordered[..i]
      {
        assert ordered[..i + 1] == ordered[..i] + [ordered[i]];
        charts.PlotSensor(ordered[i], table.Get(ordered[i]), st.storage, st.pinned);
        renderedSensors := renderedSensors + {ordered[i]};
      }
      assert ordered[..|ordered|] == ordered;
    }

    /** `es.onmessage` as written: the scroll position is captured before and
        restoration started after, whatever happens in between; a snapshot
        that parses is stored, and a usable one is rendered; only while
        the first load is pending does that hide the loader and end the first
        load. */
    method OnMessage(msg: Message, scrollY: int)
      requires Valid()
      requires msg.Parsed? && msg.data.sensors.Some? ==> msg.data.sensors.value.Valid()
      modifies this, st, charts
      ensures Valid()
      ensures var e := if msg.Parsed? && Usable(msg.data) then MessageOk else MessageFailed;
        Client(firstLoad, loaderShown) == StepAsWritten(Client(old(firstLoad), old(loaderShown)), e)
      ensures st.globalData == if msg.Parsed? then Some(msg.data) else old(st.globalData)
      ensures st.scrollYBeforeUpdate == if old(st.isAutoRestoring) then old(st.scrollYBeforeUpdate) else scrollY
      ensures st.isAutoRestoring
      ensures st.pinned == old(st.pinned) && st.darkMode == old(st.darkMode) && bodyDark == old(bodyDark)
      ensures msg.Parsed? && Usable(msg.data) ==> Reconciled(msg.data.sensors.value)
      ensures !(msg.Parsed? && Usable(msg.data)) ==>
        && lastModeSignature == old(lastModeSignature) && renderedSensors == old(renderedSensors)
        && charts.graphs == old(charts.graphs)
        && st.currentSensor == old(st.currentSensor) && st.storage == old(st.storage)
    {
      PreserveScrollStart(st, scrollY);
      if msg.Parsed? {
        var data := msg.data;
        st.globalData := Some(data);
        if data.hasLatestRow && data.sensors.Some? {
          RenderGraphsIfNeeded(data.sensors.value);
          if firstLoad {
            loaderShown := false;
            firstLoad := false;
          }
        }
      }
      PreserveScrollEnd(st);
    }

    /** `es.onerror`: the loader is requested again; the flag stays. */
    method OnError()
      modifies this
      ensures Client(firstLoad, loaderShown) == StepAsWritten(Client(old(firstLoad), old(loaderShown)), ConnectionError)
      ensures renderedSensors == old(renderedSensors) && lastModeSignature == old(lastModeSignature)
      ensures bodyDark == old(bodyDark)
    {
      loaderShown := true;
    }

    /** The `sensor-change` and `pin-change` listeners: the stored signature is
        reset, so the last snapshot, if any, is rebuilt from scratch. */
    method ResetAndRender()
      requires Valid()
      modifies this, st, charts
      ensures Valid()
      ensures firstLoad == old(firstLoad) && loaderShown == old(loaderShown) && bodyDark == old(bodyDark)
      ensures st.pinned == old(st.pinned) && st.globalData == old(st.globalData) && st.darkMode == old(st.darkMode)
      ensures st.scrollYBeforeUpdate == old(st.scrollYBeforeUpdate) && st.isAutoRestoring == old(st.isAutoRestoring)
      ensures ResetRendered(old(st.currentSensor), old(st.storage))
    {
      lastModeSignature := "";
      if st.globalData.Some? && Usable(st.globalData.value) {
        SignatureNeverReset(st.currentSensor, st.pinned);
        RenderGraphsIfNeeded(st.globalData.value.sensors.value);
      }
    }

    /** The pin button of a container: `togglePin`, then `pin-change`. */
    method OnPinClick(sensor: string)
      requires Valid()
      modifies this, st, charts
      ensures Valid()
      ensures st.pinned == Toggled(old(st.pinned), sensor)
      ensures firstLoad == old(firstLoad) && loaderShown == old(loaderShown) && bodyDark == old(bodyDark)
      ensures st.globalData == old(st.globalData) && st.darkMode == old(st.darkMode)
      ensures st.scrollYBeforeUpdate == old(st.scrollYBeforeUpdate) && st.isAutoRestoring == old(st.isAutoRestoring)
      ensures ResetRendered(old(st.currentSensor), old(st.storage)[PinnedKey := Json.Stringify(st.pinned)])
    {
      st.TogglePin(sensor);
      ResetAndRender();
    }

    /** The dark-mode toggle: the body class flips, the flag follows it, and
        the last snapshot is rebuilt. */
    method OnDarkToggle()
      requires Valid()
      modifies this, st, charts
      ensures Valid()
      ensures bodyDark == !old(bodyDark) && st.darkMode == bodyDark
      ensures firstLoad == old(firstLoad) && loaderShown == old(loaderShown)
      ensures st.pinned == old(st.pinned) && st.globalData == old(st.globalData)
      ensures st.scrollYBeforeUpdate == old(st.scrollYBeforeUpdate) && st.isAutoRestoring == old(st.isAutoRestoring)
      ensures ResetRendered(old(st.currentSensor), old(st.storage))
    {
      bodyDark := !bodyDark;
      st.SaveDarkMode(bodyDark);
      ResetAndRender();
    }

    /** The window's scroll listener: the position is recorded unless a
        restoration is under way. */
    method OnScroll(scrollY: int)
      modifies st
      ensures st.scrollYBeforeUpdate == if old(st.isAutoRestoring) then old(st.scrollYBeforeUpdate) else scrollY
      ensures st.isAutoRestoring == old(st.isAutoRestoring) && st.globalData == old(st.globalData)
      ensures st.storage == old(st.storage) && st.currentSensor == old(st.currentSensor)
      ensures st.pinned == old(st.pinned) && st.darkMode == old(st.darkMode)
    {
      PreserveScrollStart(st, scrollY);
    }

    /** The export button: the CSV text of the last snapshot, if it has sensors. */
    method OnExport() returns (text: Option<string>)
      ensures text.None? <==> st.globalData.None? || st.globalData.value.sensors.None?
      ensures text.Some? ==> text.value == Join(CsvLines(st.globalData.value.sensors.value, st.globalData.value.time), "\n")
    {
      text := ExportCsv(st.globalData);
    }
  }

  /** `sensors.forEach(s => plotSensor(s, data))` on the cheap path. */
  method PlotEach(charts: ChartArea, sensors: seq<string>, table: SensorTable,
                  storage: map<string, string>, pinned: seq<string>)
    requires charts.Valid()
    requires forall s :: s in sensors ==> s in table.entries
    modifies charts
    ensures charts.Valid()
    ensures charts.graphs == PlotAll(old(charts.graphs), sensors, table, storage, pinned)
  {
    for i := 0 to |sensors|
      invariant charts.Valid()
      invariant charts.graphs == PlotAll(old(charts.graphs), sensors[..i], table, storage, pinned)
    {
      assert sensors[..i + 1][..i] == sensors[..i];
      charts.PlotSensor(sensors[i], table.Get(sensors[i]), storage, pinned);
    }
    assert sensors[..|sensors|] == sensors;
  }

  /** A reset forces a rebuild: the stored `""` never matches a signature. */
  lemma ResetForcesRebuild(current: string, pinned: seq<string>, rendered: set<string>)
    ensures !(ModeSignature(current, pinned) == "" && rendered != {})
  {
    SignatureNeverReset(current, pinned);
  }
}
