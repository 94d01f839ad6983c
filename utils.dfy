/**
 * The dashboard's helpers: trend arrows, sensor icons, the test for a sensor
 * worth plotting, the CSV text of an export, the scroll-restore flags and the
 * loader's `hidden` attribute.
 */
module Utils {
  import opened Wrappers
  import opened Text
  import opened Dicts
  import opened Snapshots
  import opened State

  // ---------------------------------------------------------------- getTrendArrow

  const UpArrow := "\U{2b06}\U{fe0f}"
  const DownArrow := "\U{2b07}\U{fe0f}"
  const RightArrow := "\U{27a1}\U{fe0f}"

  /** `getTrendArrow(newVal, oldVal)`: up for a rise, down for a fall, right
      when the reading is unchanged. */
  function TrendArrow(newVal: int, oldVal: int): (r: string)
    ensures r in {UpArrow, DownArrow, RightArrow}
    ensures r == UpArrow <==> newVal > oldVal
    ensures r == DownArrow <==> newVal < oldVal
    ensures r == RightArrow <==> newVal == oldVal
  {
    assert UpArrow[0] != DownArrow[0] && UpArrow[0] != RightArrow[0] && DownArrow[0] != RightArrow[0];
    if newVal > oldVal then UpArrow
    else if newVal < oldVal then DownArrow
    else RightArrow
  }

  // ---------------------------------------------------------------- iconFor

  const DefaultIcon := "\U{1f4df}"

  /** `SENSOR_ICONS`. */
  const SensorIcons: map<string, string> := map[
    "Accelerometer" := "\U{1f9ed}",
    "Gyroscope" := "\U{1f300}",
    "Magnetometer" := "\U{1f9f2}",
    "Gravity" := "\U{1f30d}",
    "Linear" := "\U{1f4c8}",
    "Rotation" := "\U{1f501}",
    "GameRotation" := "\U{1f3ae}",
    "GeoRotation" := "\U{1f9ed}",
    "Orientation" := "\U{1f9ed}",
    "Light" := "\U{1f4a1}",
    "Proximity" := "\U{1f4e1}",
    "Step" := "\U{1f6b6}",
    "default" := DefaultIcon
  ]

  /** `iconFor(key)`: the icon of the text before the first `_`, or the
      default icon when that text has none. */
  function IconFor(key: string): (r: string)
    ensures r in SensorIcons.Values
    ensures Before(key, '_') in SensorIcons ==> r == SensorIcons[Before(key, '_')]
    ensures Before(key, '_') !in SensorIcons ==> r == DefaultIcon
  {
    var base := Before(key, '_');
    assert SensorIcons["default"] == DefaultIcon;
    if base in SensorIcons then SensorIcons[base] else DefaultIcon
  }

  /** A column `<group>_<axis>` of a group with an icon shows that icon,
      whatever the axis. */
  lemma IconForColumn(group: string, axis: string)
    requires '_' !in group && group in SensorIcons
    ensures IconFor(group + "_" + axis) == SensorIcons[group]
  {
    SplitAtFirst(group, '_', axis);
    assert group + "_" + axis == group + ['_'] + axis;
  }

  // ---------------------------------------------------------------- isValidSensor

  /** `arr.every(v => v === 0)`. */
  function AllZero(arr: seq<int>): (r: bool)
    ensures r <==> forall i :: 0 <= i < |arr| ==> arr[i] == 0
  {
    if arr == [] then true else arr[0] == 0 && AllZero(arr[1..])
  }

  /** An axis worth plotting: it has readings and not all of them are 0. */
  predicate Live(arr: seq<int>) {
    |arr| > 0 && !AllZero(arr)
  }

  /** `Object.values(d).some(live)` over the axes `keys`, in order. */
  function SomeLive(d: Series, keys: seq<string>): (r: bool)
    ensures r <==> exists j :: 0 <= j < |keys| && keys[j] in d.entries && Live(d.entries[keys[j]])
  {
    if keys == [] then false
    else if keys[0] in d.entries && Live(d.entries[keys[0]]) then true
    else
      var r := SomeLive(d, keys[1..]);
      assert forall j :: 1 <= j < |keys| ==> keys[j] == keys[1..][j - 1];
      r
  }

  /** `isValidSensor(sensorData)`: missing data is not valid; otherwise some
      axis must be live. */
  function IsValidSensor(data: Option<Series>): (r: bool)
    ensures data.None? ==> !r
    ensures data.Some? && data.value.keys == [] ==> !r
  {
    data.Some? && SomeLive(data.value, data.value.keys)
  }

  /** A sensor's data is valid exactly when some axis holds a reading other than 0. */
  lemma ValidSensorMeans(d: Series)
    requires d.Valid()
    ensures IsValidSensor(Some(d)) <==> exists ax, i :: ax in d.entries && 0 <= i < |d.entries[ax]| && d.entries[ax][i] != 0
  {
    if !IsValidSensor(Some(d)) {
      forall ax, i | ax in d.entries && 0 <= i < |d.entries[ax]|
        ensures d.entries[ax][i] == 0
      {
        var j :| 0 <= j < |d.keys| && d.keys[j] == ax;
        assert !Live(d.entries[d.keys[j]]);
      }
    }
  }

  // ---------------------------------------------------------------- exportCSV

  /** The (sensor, axis) pairs of one sensor, in axis key order. */
  function SensorPairs(table: SensorTable, sensor: string): (r: seq<(string, string)>)
    ensures forall j :: 0 <= j < |r| ==> r[j].0 == sensor
  {
    var axes := table.Get(sensor).GetOr(Empty()).keys;
    seq(|axes|, j requires 0 <= j < |axes| => (sensor, axes[j]))
  }

  /** The (sensor, axis) pairs of the sensors `keys`, sensor by sensor, each
      sensor's axes in key order: the columns of the export. */
  function Pairs(table: SensorTable, keys: seq<string>): seq<(string, string)> {
    if keys == [] then [] else Pairs(table, keys[..|keys| - 1]) + SensorPairs(table, keys[|keys| - 1])
  }

  /** The number of axes of the sensors `keys`. */
  function AxisCount(table: SensorTable, keys: seq<string>): nat {
    if keys == [] then 0 else |table.Get(keys[0]).GetOr(Empty()).keys| + AxisCount(table, keys[1..])
  }

  function ColumnName(p: (string, string)): string {
    p.0 + "_" + p.1
  }

  /** The text of a cell in the export: a number in decimal, text as it is. */
  function CellText(c: Cell): string {
    match c
    case Num(n) => IntToString(n)
    case Text(s) => s
  }

  /** `data.sensors[s][ax][idx] ?? ''`: the reading in decimal, or the empty
      field when the axis has no reading at `idx`. */
  function ValueField(table: SensorTable, p: (string, string), idx: nat): string {
    var arr := table.Get(p.0).GetOr(Empty()).Get(p.1).GetOr([]);
    if idx < |arr| then IntToString(arr[idx]) else ""
  }

  /** The header fields: `"time"`, then `<sensor>_<axis>` per column. */
  function HeaderFields(table: SensorTable): seq<string> {
    ["time"] + Names(Pairs(table, table.keys))
  }

  /** The fields of the row for time `t` at index `idx`: the time, then the
      reading of each column. */
  function RowFields(table: SensorTable, t: Cell, idx: nat): seq<string> {
    [CellText(t)] + Values(table, Pairs(table, table.keys), idx)
  }

  /** The lines of the export: the header, then one line per time entry. */
  function CsvLines(table: SensorTable, time: seq<Cell>): (r: seq<string>)
    ensures |r| == 1 + |time|
  {
    [Join(HeaderFields(table), ",")] + seq(|time|, i requires 0 <= i < |time| => Join(RowFields(table, time[i], i), ","))
  }

  /** The names of the columns `ps`. */
  function Names(ps: seq<(string, string)>): (r: seq<string>)
    ensures |r| == |ps|
  {
    seq(|ps|, j requires 0 <= j < |ps| => ColumnName(ps[j]))
  }

  /** The readings at `idx` of the columns `ps`. */
  function Values(table: SensorTable, ps: seq<(string, string)>, idx: nat): (r: seq<string>)
    ensures |r| == |ps|
  {
    seq(|ps|, j requires 0 <= j < |ps| => ValueField(table, ps[j], idx))
  }

  lemma PairsStep(table: SensorTable, keys: seq<string>, i: nat, j: nat)
    requires i < |keys| && j < |SensorPairs(table, keys[i])|
    ensures (Pairs(table, keys[..i]) + SensorPairs(table, keys[i])[..j + 1])
         == (Pairs(table, keys[..i]) + SensorPairs(table, keys[i])[..j]) + [SensorPairs(table, keys[i])[j]]
  {
    var sp := SensorPairs(table, keys[i]);
    assert sp[..j + 1] == sp[..j] + [sp[j]];
  }

  lemma PairsNext(table: SensorTable, keys: seq<string>, i: nat)
    requires i < |keys|
    ensures Pairs(table, keys[..i + 1]) == Pairs(table, keys[..i]) + SensorPairs(table, keys[i])[..|SensorPairs(table, keys[i])|]
  {
    assert keys[..i + 1][..i] == keys[..i];
    var sp := SensorPairs(table, keys[i]);
    assert sp[..|sp|] == sp;
  }

  lemma NamesSnoc(ps: seq<(string, string)>, p: (string, string))
    ensures Names(ps + [p]) == Names(ps) + [ColumnName(p)]
  {
  }

  lemma ValuesSnoc(table: SensorTable, ps: seq<(string, string)>, p: (string, string), idx: nat)
    ensures Values(table, ps + [p], idx) == Values(table, ps, idx) + [ValueField(table, p, idx)]
  {
  }

  /** The header loop of `exportCSV`: `headers.push(`${s}_${ax}`)` for each
      sensor and each of its axes. */
  method BuildHeader(table: SensorTable) returns (headers: seq<string>)
    ensures headers == HeaderFields(table)
  {
    var keys := table.keys;
    headers := ["time"];
    for i := 0 to |keys|
      invariant headers == ["time"] + Names(Pairs(table, keys[..i]))
    {
      var s := keys[i];
      var axes := table.Get(s).GetOr(Empty()).keys;
      for j := 0 to |axes|
        invariant headers == ["time"] + Names(Pairs(table, keys[..i]) + SensorPairs(table, s)[..j])
      {
        PairsStep(table, keys, i, j);
        NamesSnoc(Pairs(table, keys[..i]) + SensorPairs(table, s)[..j], (s, axes[j]));
        headers := headers + [s + "_" + axes[j]];
      }
      PairsNext(table, keys, i);
    }
    assert keys[..|keys|] == keys;
  }

  /** The row loop of `exportCSV` for time `t` at index `idx`. */
  method BuildRow(table: SensorTable, t: Cell, idx: nat) returns (row: seq<string>)
    ensures row == RowFields(table, t, idx)
  {
    var keys := table.keys;
    row := [CellText(t)];
    for i := 0 to |keys|
      invariant row == [CellText(t)] + Values(table, Pairs(table, keys[..i]), idx)
    {
      var s := keys[i];
      var axes := table.Get(s).GetOr(Empty()).keys;
      for j := 0 to |axes|
        invariant row == [CellText(t)] + Values(table, Pairs(table, keys[..i]) + SensorPairs(table, s)[..j], idx)
      {
        PairsStep(table, keys, i, j);
        ValuesSnoc(table, Pairs(table, keys[..i]) + SensorPairs(table, s)[..j], (s, axes[j]), idx);
        var arr := table.Get(s).GetOr(Empty()).Get(axes[j]).GetOr([]);
        row := row + [if idx < |arr| then IntToString(arr[idx]) else ""];
      }
      PairsNext(table, keys, i);
    }
    assert keys[..|keys|] == keys;
  }

  /** `exportCSV(data)`: None (only a toast) without data or without its
      `sensors`; otherwise the text of the downloaded file. */
  method ExportCsv(data: Option<Snapshot>) returns (text: Option<string>)
    ensures data.None? || data.value.sensors.None? <==> text.None?
    ensures text.Some? ==> text.value == Join(CsvLines(data.value.sensors.value, data.value.time), "\n")
  {
    if data.None? || data.value.sensors.None? {
      return None;
    }
    var table := data.value.sensors.value;
    var time := data.value.time;
    var headers := BuildHeader(table);
    var rows := [Join(headers, ",")];
    for idx := 0 to |time|
      invariant rows == CsvLines(table, time[..idx])
    {
      var row := BuildRow(table, time[idx], idx);
      rows := rows + [Join(row, ",")];
      assert time[..idx + 1][..idx] == time[..idx];
    }
    assert time[..|time|] == time;
    return Some(Join(rows, "\n"));
  }

  /** The header has one field for the time and one per axis of every sensor. */
  lemma {:induction false} PairsCount(table: SensorTable, keys: seq<string>)
    ensures |Pairs(table, keys)| == AxisCount(table, keys)
    decreases |keys|
  {
    if keys != [] {
      var n := |keys| - 1;
      PairsCount(table, keys[..n]);
      AxisCountSnoc(table, keys[..n], keys[n]);
      assert keys[..n] + [keys[n]] == keys;
    }
  }

  lemma {:induction false} AxisCountSnoc(table: SensorTable, keys: seq<string>, s: string)
    ensures AxisCount(table, keys + [s]) == AxisCount(table, keys) + |table.Get(s).GetOr(Empty()).keys|
    decreases |keys|
  {
    if keys != [] {
      assert (keys + [s])[1..] == keys[1..] + [s];
      AxisCountSnoc(table, keys[1..], s);
    } else {
      assert ([s])[1..] == [];
    }
  }

  /** Every line of the export has as many fields as the header: one plus
      the number of axes, with the empty field for a missing reading. */
  lemma RowsMatchHeader(table: SensorTable, time: seq<Cell>, idx: nat)
    requires idx < |time|
    ensures |HeaderFields(table)| == 1 + AxisCount(table, table.keys)
    ensures |RowFields(table, time[idx], idx)| == |HeaderFields(table)|
    ensures CsvLines(table, time)[idx + 1] == Join(RowFields(table, time[idx], idx), ",")
    ensures forall j :: 0 <= j < |Pairs(table, table.keys)| ==>
      && HeaderFields(table)[j + 1] == ColumnName(Pairs(table, table.keys)[j])
      && RowFields(table, time[idx], idx)[j + 1] == ValueField(table, Pairs(table, table.keys)[j], idx)
  {
    PairsCount(table, table.keys);
  }

  /** Each column of the export is an axis of one of the sensors, and it
      belongs to that sensor's block of columns. */
  lemma {:induction false} PairsMembers(table: SensorTable, keys: seq<string>)
    ensures forall p :: p in Pairs(table, keys) ==> p.0 in keys && p.1 in table.Get(p.0).GetOr(Empty()).keys
    decreases |keys|
  {
    if keys != [] {
      var n := |keys| - 1;
      PairsMembers(table, keys[..n]);
      forall p | p in Pairs(table, keys)
        ensures p.0 in keys && p.1 in table.Get(p.0).GetOr(Empty()).keys
      {
        if p in Pairs(table, keys[..n]) {
          assert p.0 in keys[..n];
        } else {
          var sp := SensorPairs(table, keys[n]);
          var j :| 0 <= j < |sp| && sp[j] == p;
          assert p.0 == keys[n];
        }
      }
    }
  }

  /** The table of the example below: one sensor `A` whose axis `x` read 1 then 2. */
  function ExampleTable(): SensorTable {
    Dict(["A"], map["A" := Dict(["x"], map["x" := [1, 2]])])
  }

  lemma ExampleFields()
    ensures HeaderFields(ExampleTable()) == ["time", "A_x"]
    ensures RowFields(ExampleTable(), Num(0), 0) == ["0", "1"]
    ensures RowFields(ExampleTable(), Num(1), 1) == ["1", "2"]
  {
    var table := ExampleTable();
    assert ["A"][..0] == [];
    assert Pairs(table, ["A"]) == [("A", "x")];
    assert ColumnName(("A", "x")) == "A_x";
    assert Names([("A", "x")]) == ["A_x"];
    assert Values(table, [("A", "x")], 0) == ["1"];
    assert Values(table, [("A", "x")], 1) == ["2"];
  }

  lemma JoinThree(a: string, b: string, c: string, sep: string)
    ensures Join([a, b, c], sep) == a + sep + b + sep + c
  {
    assert [a, b, c][1..] == [b, c];
    assert [b, c][1..] == [c];
    assert Join([b, c], sep) == b + sep + c;
    assert Join([a, b, c], sep) == a + sep + (b + sep + c);
  }

  /** `time = [0, 1]` with `sensors = {A: {x: [1, 2]}}` exports three lines. */
  lemma ExportExample()
    ensures Join(CsvLines(ExampleTable(), [Num(0), Num(1)]), "\n") == "time,A_x\n0,1\n1,2"
  {
    ExampleFields();
    var table := ExampleTable();
    assert Join(["time", "A_x"], ",") == "time,A_x";
    assert Join(["0", "1"], ",") == "0,1";
    assert Join(["1", "2"], ",") == "1,2";
    assert CsvLines(table, [Num(0), Num(1)]) == ["time,A_x", "0,1", "1,2"];
    JoinThree("time,A_x", "0,1", "1,2", "\n");
  }

  // ---------------------------------------------------------------- scroll preservation

  /** `preserveScrollStart(state)` with the window at `scrollY`: the position is
      captured unless a restore is under way. The window's `scroll` listener
      does the same. */
  method PreserveScrollStart(st: AppState, scrollY: int)
    modifies st
    ensures st.scrollYBeforeUpdate == if old(st.isAutoRestoring) then old(st.scrollYBeforeUpdate) else scrollY
    ensures st.isAutoRestoring == old(st.isAutoRestoring)
    ensures st.storage == old(st.storage) && st.currentSensor == old(st.currentSensor) && st.pinned == old(st.pinned)
    ensures st.darkMode == old(st.darkMode) && st.globalData == old(st.globalData)
  {
    if !st.isAutoRestoring {
      st.scrollYBeforeUpdate := scrollY;
    }
  }

  /** `preserveScrollEnd(state)`, up to the point where it schedules the
      restore: the flag is raised at once. */
  method PreserveScrollEnd(st: AppState)
    modifies st
    ensures st.isAutoRestoring
    ensures st.scrollYBeforeUpdate == old(st.scrollYBeforeUpdate)
    ensures st.storage == old(st.storage) && st.currentSensor == old(st.currentSensor) && st.pinned == old(st.pinned)
    ensures st.darkMode == old(st.darkMode) && st.globalData == old(st.globalData)
  {
    st.isAutoRestoring := true;
  }

  /** The delayed part of `preserveScrollEnd`: the window goes back to the
      captured position `y` and the flag drops. */
  method FinishRestore(st: AppState) returns (y: int)
    modifies st
    ensures y == st.scrollYBeforeUpdate == old(st.scrollYBeforeUpdate)
    ensures !st.isAutoRestoring
    ensures st.storage == old(st.storage) && st.currentSensor == old(st.currentSensor) && st.pinned == old(st.pinned)
    ensures st.darkMode == old(st.darkMode) && st.globalData == old(st.globalData)
  {
    y := st.scrollYBeforeUpdate;
    st.isAutoRestoring := false;
  }

  // ---------------------------------------------------------------- showLoader

  /** Whether an element with the `hidden` attribute value `attr` (None when
      the attribute is absent) is hidden: HTML treats `hidden` as a boolean
      attribute, so any value hides, `"false"` included. */
  predicate IsHidden(attr: Option<string>) {
    attr.Some?
  }

  /** The `hidden` attribute `showLoader(show)` leaves on the loader:
      `setAttribute('hidden', show ? false : true)` stores the text of the boolean. */
  function LoaderAttributeAsWritten(show: bool): Option<string> {
    Some(if show then "false" else "true")
  }

  /** As written, the loader is hidden whatever `showLoader` is asked to do. */
  lemma LoaderNeverShownAsWritten(show: bool)
    ensures IsHidden(LoaderAttributeAsWritten(show))
  {
  }

  /** The attribute `showLoader(show)` is meant to leave: absent to show the
      loader, present to hide it. */
  function LoaderAttribute(show: bool): (attr: Option<string>)
    ensures IsHidden(attr) <==> !show
  {
    if show then None else Some("")
  }
}
