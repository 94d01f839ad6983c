/**
 * The sampling side (scripts/logger.py): the sensor table, column naming,
 * device-sensor matching, one sampler tick with its streaming window and CSV
 * batch, and the columnar payload built from the window.
 *
 * The operations take the sensor table as a parameter `specs`; the logger
 * runs them on `Specs`, which `SpecsWellFormed` shows meets every condition
 * they rely on.
 */
module Logger {
  import opened Wrappers
  import opened Text
  import opened Dicts
  import opened Snapshots

  /** How many samples the streaming window keeps (`WINDOW`). */
  const Window: nat := 150

  /** How many CSV rows are buffered before they are written (`WRITE_BATCH_SIZE`). */
  const WriteBatchSize: nat := 20

  /** One entry of `SPECS`: a canonical sensor group, the search terms that find
      its device sensor, and its axis names. */
  datatype Spec = Spec(group: string, candidates: seq<string>, axes: seq<string>)

  function Groups(specs: seq<Spec>): (r: seq<string>)
    ensures |r| == |specs|
    ensures forall k :: 0 <= k < |specs| ==> r[k] == specs[k].group
  {
    seq(|specs|, k requires 0 <= k < |specs| => specs[k].group)
  }

  const Specs: seq<Spec> := [
    Spec("Accelerometer", ["accelerometer"], ["X", "Y", "Z"]),
    Spec("Gyroscope", ["gyroscope"], ["X", "Y", "Z"]),
    Spec("Magnetometer", ["magnetometer"], ["X", "Y", "Z"]),
    Spec("Gravity", ["gravity"], ["X", "Y", "Z"]),
    Spec("Linear", ["linear acceleration"], ["X", "Y", "Z"]),
    Spec("Rotation", ["rotation vector"], ["X", "Y", "Z", "W", "E"]),
    Spec("GameRotation", ["game rotation vector"], ["X", "Y", "Z", "W"]),
    Spec("GeoRotation", ["geomagnetic rotation vector", "geomagnetic rotation"], ["X", "Y", "Z", "W"]),
    Spec("Orientation", ["orientation"], ["Azimuth", "Pitch", "Roll"]),
    Spec("Light", ["light", "alsps"], ["Lux"]),
    Spec("Proximity", ["proximity", "alsps"], ["Distance"]),
    Spec("Step", ["step counter"], ["Count"])
  ]

  /** The groups of a table as a set (`IMPORTANT_SENSORS`). */
  function Important(specs: seq<Spec>): set<string> {
    set k | 0 <= k < |specs| :: specs[k].group
  }

  const ImportantSensors: set<string> := Important(Specs)

  /** The column name `f"{group}_{axis}"`. */
  function ColumnKey(group: string, axis: string): string {
    group + "_" + axis
  }

  /** The columns of one group, one per axis, in axis order. */
  function AxisColumns(group: string, axes: seq<string>): (r: seq<string>)
    ensures |r| == |axes|
    ensures forall j :: 0 <= j < |axes| ==> r[j] == ColumnKey(group, axes[j])
  {
    if axes == [] then []
    else AxisColumns(group, axes[..|axes| - 1]) + [ColumnKey(group, axes[|axes| - 1])]
  }

  /** The columns of a table, group by group. */
  function Columns(specs: seq<Spec>): seq<string> {
    if specs == [] then []
    else Columns(specs[..|specs| - 1]) + AxisColumns(specs[|specs| - 1].group, specs[|specs| - 1].axes)
  }

  /** The CSV header of a table: the timestamp, then every column. */
  function Header(specs: seq<Spec>): seq<string> {
    ["timestamp"] + Columns(specs)
  }

  /** `COLUMN_NAMES`. */
  const ColumnNames: seq<string> := Header(Specs)

  /** The loop that fills `COLUMN_NAMES` when the module loads. */
  method BuildColumnNames(specs: seq<Spec>) returns (names: seq<string>)
    ensures names == Header(specs)
  {
    names := ["timestamp"];
    for k := 0 to |specs|
      invariant names == Header(specs[..k])
    {
      var spec := specs[k];
      ghost var before := names;
      for j := 0 to |spec.axes|
        invariant names == before + AxisColumns(spec.group, spec.axes[..j])
      {
        assert spec.axes[..j + 1][..j] == spec.axes[..j];
        names := names + [ColumnKey(spec.group, spec.axes[j])];
      }
      assert spec.axes[..|spec.axes|] == spec.axes;
      assert specs[..k + 1][..k] == specs[..k];
    }
    assert specs[..|specs|] == specs;
  }

  // ---------------------------------------------------------------- pad

  /** Entry `j` of `vals` padded with zeros. */
  function PaddedAt(vals: seq<Cell>, j: nat): Cell {
    if j < |vals| then vals[j] else Num(0)
  }

  /** `pad(vals, n)`: exactly `n` items, the first of `vals` followed by zeros. */
  method Pad(vals: seq<Cell>, n: nat) returns (r: seq<Cell>)
    ensures |r| == n
    ensures forall j :: 0 <= j < n ==> r[j] == PaddedAt(vals, j)
  {
    r := if |vals| <= n then vals else vals[..n];
    while |r| < n
      invariant |r| <= n
      invariant forall j :: 0 <= j < |r| ==> r[j] == PaddedAt(vals, j)
      decreases n - |r|
    {
      r := r + [Num(0)];
    }
  }

  // ---------------------------------------------------------------- normalize

  /** The group prefixes `normalize` recognises, in the order it tries them. */
  const KnownPrefixes: seq<string> := ["Linear", "Rotation", "GameRotation", "GeoRotation",
    "Accelerometer", "Gyroscope", "Magnetometer", "Gravity", "Orientation", "Light",
    "Proximity", "Step"]

  /** The first of `prefixes` that `sensor` starts with. */
  function FirstPrefix(sensor: string, prefixes: seq<string>): Option<string> {
    if prefixes == [] then None
    else if StartsWith(sensor, prefixes[0]) then Some(prefixes[0])
    else FirstPrefix(sensor, prefixes[1..])
  }

  /** `FirstPrefix` finds a prefix exactly when one of `prefixes` is a prefix
      of `sensor`, and what it finds is one. */
  lemma {:induction false} FirstPrefixFinds(sensor: string, prefixes: seq<string>)
    ensures FirstPrefix(sensor, prefixes).None? <==> forall p :: p in prefixes ==> !StartsWith(sensor, p)
    ensures FirstPrefix(sensor, prefixes).Some? ==>
      FirstPrefix(sensor, prefixes).value in prefixes && StartsWith(sensor, FirstPrefix(sensor, prefixes).value)
    decreases |prefixes|
  {
    if prefixes != [] {
      FirstPrefixFinds(sensor, prefixes[1..]);
      assert forall p :: p in prefixes <==> p == prefixes[0] || p in prefixes[1..];
    }
  }

  /** The group part of a column mapped to its canonical group: the first known
      prefix it starts with, or itself. */
  function Canonical(sensor: string): string {
    match FirstPrefix(sensor, KnownPrefixes)
    case Some(p) => p
    case None => sensor
  }

  /** A canonical group is the sensor itself or a known prefix of it, and it is
      the sensor itself when no known prefix matches. */
  lemma CanonicalIsPrefix(sensor: string)
    ensures Canonical(sensor) == sensor || (Canonical(sensor) in KnownPrefixes && StartsWith(sensor, Canonical(sensor)))
    ensures (forall p :: p in KnownPrefixes ==> !StartsWith(sensor, p)) ==> Canonical(sensor) == sensor
  {
    FirstPrefixFinds(sensor, KnownPrefixes);
  }

  /** `normalize(col)`: the canonical group and the upper-cased axis of a column. */
  function Normalize(col: string): (r: (string, string))
    ensures IsUpperCased(r.1)
  {
    var (sensor, axis) := if '_' in col then (Before(col, '_'), After(col, '_')) else (col, "X");
    UpperIsUpperCased(axis);
    UpperFixed("X");
    (Canonical(sensor), Upper(axis))
  }

  /** A column without an underscore is a group of its own with the axis `X`. */
  lemma NormalizeWithoutUnderscore(col: string)
    requires '_' !in col
    ensures Normalize(col) == (Canonical(col), "X")
  {
    UpperFixed("X");
  }

  /** A column `group_axis` splits at its first underscore. */
  lemma NormalizeSplitsAtFirstUnderscore(group: string, axis: string)
    requires '_' !in group
    ensures Normalize(ColumnKey(group, axis)) == (Canonical(group), Upper(axis))
  {
    SplitAtFirst(group, '_', axis);
  }

  /** Every column of a well-formed table normalizes back to its group and its
      upper-cased axis. */
  lemma NormalizeColumn(specs: seq<Spec>, k: nat, j: nat)
    requires WellFormed(specs) && k < |specs| && j < |specs[k].axes|
    ensures Normalize(ColumnKey(specs[k].group, specs[k].axes[j])) == (specs[k].group, Upper(specs[k].axes[j]))
  {
    NormalizeSplitsAtFirstUnderscore(specs[k].group, specs[k].axes[j]);
  }

  /** The same for the logger's own table. */
  lemma SpecColumnsRoundTrip(k: nat, j: nat)
    requires k < |Specs| && j < |Specs[k].axes|
    ensures Normalize(ColumnKey(Specs[k].group, Specs[k].axes[j])) == (Specs[k].group, Upper(Specs[k].axes[j]))
  {
    SpecsWellFormed();
    NormalizeColumn(Specs, k, j);
  }

  /** Two columns of a well-formed table never normalize alike. */
  lemma NormalizeInjective(specs: seq<Spec>, k1: nat, j1: nat, k2: nat, j2: nat)
    requires WellFormed(specs)
    requires k1 < |specs| && j1 < |specs[k1].axes| && k2 < |specs| && j2 < |specs[k2].axes|
    requires Normalize(ColumnKey(specs[k1].group, specs[k1].axes[j1])) == Normalize(ColumnKey(specs[k2].group, specs[k2].axes[j2]))
    ensures k1 == k2 && j1 == j2
  {
    NormalizeColumn(specs, k1, j1);
    NormalizeColumn(specs, k2, j2);
    assert Groups(specs)[k1] == Groups(specs)[k2];
    assert UpperAxes(specs[k1].axes)[j1] == UpperAxes(specs[k1].axes)[j2];
  }

  // ---------------------------------------------------------------- match_sensor and build_mapping

  /** `term.lower() in s.lower()`. */
  predicate Matches(s: string, term: string) {
    Contains(Lower(s), Lower(term))
  }

  /** Index of the first sensor of `sensors` that `term` matches. */
  function FirstMatching(sensors: seq<string>, term: string): (r: Option<nat>)
    ensures r.Some? ==> r.value < |sensors|
  {
    if sensors == [] then None
    else if Matches(sensors[0], term) then Some(0)
    else match FirstMatching(sensors[1..], term)
      case None => None
      case Some(j) => Some(j + 1)
  }

  /** The index found is that of the first sensor `term` matches; there is
      none exactly when `term` matches no sensor. */
  lemma {:induction false} FirstMatchingMeans(sensors: seq<string>, term: string)
    ensures var r := FirstMatching(sensors, term);
      && (r.None? <==> forall j :: 0 <= j < |sensors| ==> !Matches(sensors[j], term))
      && (r.Some? ==> Matches(sensors[r.value], term))
      && (r.Some? ==> forall j :: 0 <= j < r.value ==> !Matches(sensors[j], term))
  {
    if sensors != [] && !Matches(sensors[0], term) {
      FirstMatchingMeans(sensors[1..], term);
      forall j | 1 <= j < |sensors|
        ensures sensors[j] == sensors[1..][j - 1]
      {
      }
    }
  }

  /** Candidate `i` is the first candidate that matches any sensor, and
      sensor `j` is the first sensor it matches. */
  predicate IsFirstMatch(sensors: seq<string>, candidates: seq<string>, i: int, j: int) {
    && 0 <= i < |candidates| && 0 <= j < |sensors|
    && Matches(sensors[j], candidates[i])
    && (forall i', j' :: 0 <= i' < i && 0 <= j' < |sensors| ==> !Matches(sensors[j'], candidates[i']))
    && (forall j' :: 0 <= j' < j ==> !Matches(sensors[j'], candidates[i]))
  }

  /** `match_sensor(sensor_list, candidates)`: the terms are tried in order,
      and for each the sensors in order. */
  function MatchSensor(sensors: seq<string>, candidates: seq<string>): Option<string> {
    if candidates == [] then None
    else match FirstMatching(sensors, candidates[0])
      case Some(j) => Some(sensors[j])
      case None => MatchSensor(sensors, candidates[1..])
  }

  /** The match is the first sensor, in list order, holding the first term
      that occurs in any sensor; there is none exactly when no term occurs
      in any sensor. */
  lemma {:induction false} MatchSensorMeans(sensors: seq<string>, candidates: seq<string>)
    ensures var r := MatchSensor(sensors, candidates);
      && (r.None? <==> forall i, j :: 0 <= i < |candidates| && 0 <= j < |sensors| ==> !Matches(sensors[j], candidates[i]))
      && (r.Some? ==> exists i, j :: IsFirstMatch(sensors, candidates, i, j) && r.value == sensors[j])
  {
    if candidates != [] {
      FirstMatchingMeans(sensors, candidates[0]);
      match FirstMatching(sensors, candidates[0])
      case Some(j) =>
        assert IsFirstMatch(sensors, candidates, 0, j);
      case None =>
        MatchSensorMeans(sensors, candidates[1..]);
        var r := MatchSensor(sensors, candidates[1..]);
        if r.Some? {
          var i, j :| IsFirstMatch(sensors, candidates[1..], i, j) && r.value == sensors[j];
          assert IsFirstMatch(sensors, candidates, i + 1, j);
        } else {
          forall i, j | 0 <= i < |candidates| && 0 <= j < |sensors|
            ensures !Matches(sensors[j], candidates[i])
          {
            if i > 0 {
              assert candidates[i] == candidates[1..][i - 1];
            }
          }
        }
    }
  }

  /** The nested loops of `match_sensor`: for each term, for each sensor,
      return the first sensor that holds the term. */
  method FindMatch(sensors: seq<string>, candidates: seq<string>) returns (r: Option<string>)
    ensures r == MatchSensor(sensors, candidates)
  {
    for i := 0 to |candidates|
      invariant MatchSensor(sensors, candidates) == MatchSensor(sensors, candidates[i..])
    {
      var term := candidates[i];
      FirstMatchingMeans(sensors, term);
      assert candidates[i..][1..] == candidates[i + 1..];
      for j := 0 to |sensors|
        invariant forall k :: 0 <= k < j ==> !Matches(sensors[k], term)
      {
        if Matches(sensors[j], term) {
          assert FirstMatching(sensors, term) == Some(j);
          return Some(sensors[j]);
        }
      }
    }
    r := None;
  }

  /** The dictionary mapping the first `n` groups of the table, each to what
      `f` gives its entry. */
  function MappingOf(specs: seq<Spec>, f: Spec -> Option<string>, n: nat): Dict<Option<string>>
    requires n <= |specs|
  {
    if n == 0 then Empty()
    else MappingOf(specs, f, n - 1).Put(specs[n - 1].group, f(specs[n - 1]))
  }

  /** `build_mapping(sensor_list)`: each group of the table, in order, with the
      device sensor its candidates match. */
  method BuildMapping(specs: seq<Spec>, sensors: seq<string>) returns (m: Dict<Option<string>>)
    requires Distinct(Groups(specs))
    ensures m.keys == Groups(specs)
    ensures forall k :: 0 <= k < |specs| ==> m.Get(specs[k].group) == Some(MatchSensor(sensors, specs[k].candidates))
  {
    ghost var pick := (s: Spec) => MatchSensor(sensors, s.candidates);
    m := Empty();
    for k := 0 to |specs|
      invariant m == MappingOf(specs, pick, k)
    {
      var found := FindMatch(sensors, specs[k].candidates);
      m := m.Put(specs[k].group, found);
    }
    MappingAllKeys(specs, pick);
    GroupsDiffer(specs);
    MappingGets(specs, pick, |specs|);
  }

  /** The mapping's entries are exactly its listed keys. */
  lemma {:induction false} MappingDomain(specs: seq<Spec>, f: Spec -> Option<string>, n: nat)
    requires n <= |specs|
    ensures forall x :: x in MappingOf(specs, f, n).entries <==> x in MappingOf(specs, f, n).keys
    decreases n
  {
    if n > 0 {
      MappingDomain(specs, f, n - 1);
    }
  }

  /** After the first `n` groups of a table with distinct groups, the mapping
      lists them in order. */
  lemma {:induction false} MappingKeys(specs: seq<Spec>, f: Spec -> Option<string>, n: nat)
    requires n <= |specs|
    requires forall i, j :: 0 <= i < j < |specs| ==> specs[i].group != specs[j].group
    ensures |MappingOf(specs, f, n).keys| == n
    ensures forall k :: 0 <= k < n ==> MappingOf(specs, f, n).keys[k] == specs[k].group
    decreases n
  {
    if n > 0 {
      var prev := MappingOf(specs, f, n - 1);
      var g := specs[n - 1].group;
      MappingKeys(specs, f, n - 1);
      MappingDomain(specs, f, n - 1);
      forall i | 0 <= i < |prev.keys|
        ensures prev.keys[i] != g
      {
        assert prev.keys[i] == specs[i].group;
      }
      assert g !in prev.entries;
    }
  }

  /** After the first `n` groups of a table with distinct groups, the mapping
      gives each group what `f` gives its entry. */
  lemma {:induction false} MappingGets(specs: seq<Spec>, f: Spec -> Option<string>, n: nat)
    requires n <= |specs|
    requires forall i, j :: 0 <= i < j < |specs| ==> specs[i].group != specs[j].group
    ensures forall k :: 0 <= k < n ==> MappingOf(specs, f, n).Get(specs[k].group) == Some(f(specs[k]))
    decreases n
  {
    if n > 0 {
      var prev := MappingOf(specs, f, n - 1);
      var g, v := specs[n - 1].group, f(specs[n - 1]);
      MappingGets(specs, f, n - 1);
      forall k | 0 <= k < n
        ensures prev.Put(g, v).Get(specs[k].group) == Some(f(specs[k]))
      {
        if k < n - 1 {
          PutOther(prev, g, v, specs[k].group);
        } else {
          PutSelf(prev, g, v);
        }
      }
    }
  }

  /** The mapping of a table with distinct groups lists each group once, in
      order. */
  lemma MappingAllKeys(specs: seq<Spec>, f: Spec -> Option<string>)
    requires Distinct(Groups(specs))
    ensures MappingOf(specs, f, |specs|).keys == Groups(specs)
  {
    GroupsDiffer(specs);
    MappingKeys(specs, f, |specs|);
    GroupsAre(specs, MappingOf(specs, f, |specs|).keys);
  }

  /** Distinct groups: no two entries of the table share a group. */
  lemma GroupsDiffer(specs: seq<Spec>)
    requires Distinct(Groups(specs))
    ensures forall i, j :: 0 <= i < j < |specs| ==> specs[i].group != specs[j].group
  {
    forall i, j | 0 <= i < j < |specs|
      ensures specs[i].group != specs[j].group
    {
      DistinctAt(Groups(specs), i, j);
    }
  }

  /** A list holding each entry's group, in order, is the table's groups. */
  lemma GroupsAre(specs: seq<Spec>, keys: seq<string>)
    requires |keys| == |specs|
    requires forall k :: 0 <= k < |specs| ==> keys[k] == specs[k].group
    ensures keys == Groups(specs)
  {
  }

  /** The device sensor a mapping gives a group, if it is truthy (`if dev_name`
      rejects both None and the empty name). */
  function DeviceOf(mapping: Dict<Option<string>>, group: string): (r: Option<string>)
    ensures r.Some? <==> mapping.Get(group).Some? && mapping.Get(group).value.Some? && mapping.Get(group).value.value != ""
    ensures r.Some? ==> mapping.Get(group) == Some(r)
  {
    match mapping.Get(group)
    case Some(Some(d)) => if d != "" then Some(d) else None
    case _ => None
  }

  /** `{s for s in mapping.values() if s}`: the device sensors the sampler reads. */
  function CallSet(mapping: Dict<Option<string>>): set<string> {
    set g | g in mapping.entries && DeviceOf(mapping, g).Some? :: DeviceOf(mapping, g).value
  }

  /** Every device sensor a group found is in the call list. */
  lemma MatchesAreCalled(specs: seq<Spec>, sensors: seq<string>, mapping: Dict<Option<string>>)
    requires forall k :: 0 <= k < |specs| ==> mapping.Get(specs[k].group) == Some(MatchSensor(sensors, specs[k].candidates))
    ensures forall k :: 0 <= k < |specs| && MatchSensor(sensors, specs[k].candidates) !in {None, Some("")} ==>
      MatchSensor(sensors, specs[k].candidates).value in CallSet(mapping)
  {
    forall k | 0 <= k < |specs| && MatchSensor(sensors, specs[k].candidates) !in {None, Some("")}
      ensures MatchSensor(sensors, specs[k].candidates).value in CallSet(mapping)
    {
      var g := specs[k].group;
      assert DeviceOf(mapping, g) == MatchSensor(sensors, specs[k].candidates);
    }
  }

  // ---------------------------------------------------------------- list_device_sensors

  /** The name a non-blank, stripped line of `termux-sensor -l` gives. */
  function SensorName(line: string): string {
    if ':' in line then Strip(Before(line, ':')) else line
  }

  /** The stripped lines that are not blank, in order. */
  function NonBlankLines(lines: seq<string>): (r: seq<string>)
    ensures forall k :: 0 <= k < |r| ==> r[k] != []
  {
    if lines == [] then []
    else
      var init := NonBlankLines(lines[..|lines| - 1]);
      var line := Strip(lines[|lines| - 1]);
      if line == [] then init else init + [line]
  }

  /** `list_device_sensors()`. `out` is the output of `termux-sensor -l` (None when
      the command fails) and `listed` the `"sensors"` list when that output is a
      JSON object holding one; otherwise each non-blank line names one sensor. */
  method ListDeviceSensors(out: Option<string>, listed: Option<seq<string>>) returns (sensors: seq<string>)
    ensures out.None? ==> sensors == []
    ensures out.Some? && listed.Some? ==> sensors == listed.value
    ensures out.Some? && listed.None? ==>
      && |sensors| == |NonBlankLines(SplitLines(out.value))|
      && (forall k :: 0 <= k < |sensors| ==> sensors[k] == SensorName(NonBlankLines(SplitLines(out.value))[k]))
      && (forall k :: 0 <= k < |sensors| ==> ':' !in sensors[k])
  {
    if out.None? {
      return [];
    }
    if listed.Some? {
      return listed.value;
    }
    var lines := SplitLines(out.value);
    sensors := [];
    for i := 0 to |lines|
      invariant NamesOf(sensors, NonBlankLines(lines[..i]))
    {
      NonBlankLinesStep(lines, i);
      var line := Strip(lines[i]);
      if line == [] {
        continue;
      }
      var name := if ':' in line then Strip(Before(line, ':')) else line;
      NameHasNoColon(line);
      NamesOfAppend(sensors, NonBlankLines(lines[..i]), line);
      sensors := sensors + [name];
    }
    assert lines[..|lines|] == lines;
  }

  /** `names` holds the sensor name of each line, in order. */
  predicate NamesOf(names: seq<string>, lines: seq<string>) {
    && |names| == |lines|
    && (forall k :: 0 <= k < |names| ==> names[k] == SensorName(lines[k]))
    && (forall k :: 0 <= k < |names| ==> ':' !in names[k])
  }

  lemma NamesOfAppend(names: seq<string>, lines: seq<string>, line: string)
    requires NamesOf(names, lines) && ':' !in SensorName(line)
    ensures NamesOf(names + [SensorName(line)], lines + [line])
  {
  }

  lemma NonBlankLinesStep(lines: seq<string>, i: nat)
    requires i < |lines|
    ensures NonBlankLines(lines[..i + 1]) ==
      if Strip(lines[i]) == [] then NonBlankLines(lines[..i]) else NonBlankLines(lines[..i]) + [Strip(lines[i])]
  {
    assert lines[..i + 1][..i] == lines[..i];
  }

  lemma NameHasNoColon(line: string)
    ensures ':' !in SensorName(line)
  {
    if ':' in line {
      var b := Before(line, ':');
      var r := Strip(b);
      var i :| 0 <= i <= |b| - |r| && OccursAt(b, r, i) && OnlySpaceAround(b, i, i + |r|);
      forall j | 0 <= j < |r|
        ensures r[j] != ':'
      {
        assert r[j] == b[i + j];
      }
    }
  }

  // ---------------------------------------------------------------- one sample

  /** The values the sampler reads for one group before padding: the device's
      `values`, or for a missing proximity sensor the light sensor's second
      value (0 when it has none). */
  function RawValues(group: string, mapping: Dict<Option<string>>, data: map<string, seq<Cell>>): seq<Cell> {
    var dev := DeviceOf(mapping, group);
    var vals := if dev.Some? && dev.value in data then data[dev.value] else [];
    if group == "Proximity" && dev.None? then
      var light := DeviceOf(mapping, "Light");
      if light.Some? && light.value in data then
        var lvals := data[light.value];
        if |lvals| > 1 then [lvals[1]] else [Num(0)]
      else vals
    else vals
  }

  /** The values of a row in key order: the CSV line written for it. */
  function CsvLine(row: Row): (r: seq<Cell>)
    ensures |r| == |row.keys|
  {
    seq(|row.keys|, i requires 0 <= i < |row.keys| => row.Get(row.keys[i]).GetOr(Num(0)))
  }

  /** `row` is the sample the sampler records for `data` read at time `ts`: the
      timestamp, then each group's padded values under its columns. */
  predicate IsSample(specs: seq<Spec>, mapping: Dict<Option<string>>, data: map<string, seq<Cell>>, ts: string, row: Row) {
    && row.keys == Header(specs)
    && row.Get("timestamp") == Some(Text(ts))
    && forall k, j :: 0 <= k < |specs| && 0 <= j < |specs[k].axes| ==>
         row.Get(ColumnKey(specs[k].group, specs[k].axes[j])) == Some(PaddedAt(RawValues(specs[k].group, mapping, data), j))
  }

  lemma CsvLineAppend(row: Row, k: string, v: Cell)
    requires k !in row.entries && k !in row.keys
    ensures CsvLine(row.Put(k, v)) == CsvLine(row) + [v]
  {
    var r := row.Put(k, v);
    assert forall i :: 0 <= i < |row.keys| ==> r.keys[i] == row.keys[i] && r.keys[i] != k;
  }

  /** The keys are distinct and none of them is in `d` yet. */
  predicate NewKeys<V>(d: Dict<V>, keys: seq<string>) {
    Distinct(keys) && forall j :: 0 <= j < |keys| ==> keys[j] !in d.entries && keys[j] !in d.keys
  }

  /** The dictionary after `d[keys[i]] = vals[i]` for each `i < n`, in order. */
  function PutFirst<V>(d: Dict<V>, keys: seq<string>, vals: seq<V>, n: nat): Dict<V>
    requires n <= |keys| && n <= |vals|
  {
    if n == 0 then d else PutFirst(d, keys, vals, n - 1).Put(keys[n - 1], vals[n - 1])
  }

  /** Putting new keys appends them in order. */
  lemma {:induction false} PutFirstKeys<V>(d: Dict<V>, keys: seq<string>, vals: seq<V>, n: nat)
    requires n <= |keys| == |vals| && NewKeys(d, keys)
    ensures PutFirst(d, keys, vals, n).keys == d.keys + keys[..n]
    ensures forall x :: x in PutFirst(d, keys, vals, n).entries <==> x in d.entries || x in keys[..n]
    decreases n
  {
    if n > 0 {
      PutFirstKeys(d, keys, vals, n - 1);
      assert keys[n - 1] !in keys[..n - 1];
      assert keys[..n] == keys[..n - 1] + [keys[n - 1]];
    }
  }

  /** Putting new keys keeps the old entries. */
  lemma {:induction false} PutFirstKeeps<V>(d: Dict<V>, keys: seq<string>, vals: seq<V>, n: nat)
    requires n <= |keys| == |vals| && NewKeys(d, keys)
    ensures forall x :: x in d.entries ==> PutFirst(d, keys, vals, n).Get(x) == d.Get(x)
    decreases n
  {
    if n > 0 {
      PutFirstKeeps(d, keys, vals, n - 1);
    }
  }

  /** Putting distinct keys stores each of their values. */
  lemma {:induction false} PutFirstStores<V>(d: Dict<V>, keys: seq<string>, vals: seq<V>, n: nat)
    requires n <= |keys| == |vals| && Distinct(keys)
    ensures forall j :: 0 <= j < n ==> PutFirst(d, keys, vals, n).Get(keys[j]) == Some(vals[j])
    decreases n
  {
    if n > 0 {
      PutFirstStores(d, keys, vals, n - 1);
    }
  }

  /** The next key to put is not in the dictionary yet. */
  lemma PutFirstFresh<V>(d: Dict<V>, keys: seq<string>, vals: seq<V>, n: nat)
    requires n < |keys| == |vals| && NewKeys(d, keys)
    ensures keys[n] !in PutFirst(d, keys, vals, n).entries && keys[n] !in PutFirst(d, keys, vals, n).keys
  {
    var p := PutFirst(d, keys, vals, n);
    PutFirstKeys(d, keys, vals, n);
    assert keys[n] !in d.keys && keys[n] !in d.entries;
    assert keys[n] !in keys[..n];
    assert p.keys == d.keys + keys[..n];
  }

  lemma TakeLast<T>(s: seq<T>, n: nat)
    requires 0 < n <= |s|
    ensures s[..n] == s[..n - 1] + [s[n - 1]]
  {
  }

  /** The CSV line grows by the values put, in order. */
  lemma {:induction false} PutFirstLine(d: Row, keys: seq<string>, vals: seq<Cell>, n: nat)
    requires n <= |keys| == |vals| && NewKeys(d, keys)
    ensures CsvLine(PutFirst(d, keys, vals, n)) == CsvLine(d) + vals[..n]
    decreases n
  {
    if n > 0 {
      var p := PutFirst(d, keys, vals, n - 1);
      var k, v := keys[n - 1], vals[n - 1];
      PutFirstLine(d, keys, vals, n - 1);
      PutFirstFresh(d, keys, vals, n - 1);
      CsvLineAppend(p, k, v);
      calc {
        CsvLine(PutFirst(d, keys, vals, n));
        CsvLine(p.Put(k, v));
        CsvLine(p) + [v];
        (CsvLine(d) + vals[..n - 1]) + [v];
        { TakeLast(vals, n); }
        CsvLine(d) + vals[..n];
      }
    }
  }

  /** The inner loop of a sample: `row_dict[col] = value` for each column
      `col` (`f"{group}_{ax}"`, see `AxisColumns`) and its value, in order. */
  method PutColumns(row: Row, cols: seq<string>, vals: seq<Cell>) returns (r: Row)
    requires |vals| == |cols|
    ensures r == PutFirst(row, cols, vals, |cols|)
  {
    r := row;
    for j := 0 to |cols|
      invariant r == PutFirst(row, cols, vals, j)
    {
      r := r.Put(cols[j], vals[j]);
    }
  }

  /** One group of a sample: its columns go into `row_dict` and its values
      onto the end of `csv_row`, in the same order. */
  method PutGroup(row: Row, line: seq<Cell>, group: string, axes: seq<string>, vals: seq<Cell>) returns (r: Row, l: seq<Cell>)
    requires |vals| == |axes|
    requires NewKeys(row, AxisColumns(group, axes))
    requires line == CsvLine(row)
    ensures r.keys == row.keys + AxisColumns(group, axes)
    ensures forall x :: x in r.entries <==> x in row.entries || x in AxisColumns(group, axes)
    ensures forall x :: x in row.entries ==> r.Get(x) == row.Get(x)
    ensures forall j :: 0 <= j < |axes| ==> r.Get(ColumnKey(group, axes[j])) == Some(vals[j])
    ensures l == CsvLine(r)
  {
    r := PutColumns(row, AxisColumns(group, axes), vals);
    l := line + vals;
    PutGroupAll(row, group, axes, vals, r);
  }

  /** What the loop of `PutGroup` leaves in the row. */
  lemma PutGroupAll(row: Row, group: string, axes: seq<string>, vals: seq<Cell>, r: Row)
    requires |vals| == |axes| && NewKeys(row, AxisColumns(group, axes))
    requires r == PutFirst(row, AxisColumns(group, axes), vals, |axes|)
    ensures r.keys == row.keys + AxisColumns(group, axes)
    ensures forall x :: x in r.entries <==> x in row.entries || x in AxisColumns(group, axes)
    ensures forall x :: x in row.entries ==> r.Get(x) == row.Get(x)
    ensures forall j :: 0 <= j < |axes| ==> r.Get(ColumnKey(group, axes[j])) == Some(vals[j])
    ensures CsvLine(r) == CsvLine(row) + vals
  {
    PutAll(row, AxisColumns(group, axes), vals);
  }

  /** Putting all of `keys` appends them, keeps the old entries, stores each
      value and extends the CSV line by the values. */
  lemma PutAll(d: Row, keys: seq<string>, vals: seq<Cell>)
    requires |keys| == |vals| && NewKeys(d, keys)
    ensures var r := PutFirst(d, keys, vals, |keys|);
      && r.keys == d.keys + keys
      && (forall x :: x in r.entries <==> x in d.entries || x in keys)
      && (forall x :: x in d.entries ==> r.Get(x) == d.Get(x))
      && (forall j :: 0 <= j < |keys| ==> r.Get(keys[j]) == Some(vals[j]))
      && CsvLine(r) == CsvLine(d) + vals
  {
    PutFirstKeys(d, keys, vals, |keys|);
    PutFirstKeeps(d, keys, vals, |keys|);
    PutFirstStores(d, keys, vals, |keys|);
    PutFirstLine(d, keys, vals, |keys|);
    assert keys[..|keys|] == keys && vals[..|vals|] == vals;
  }

  /** The body of one sampler iteration that builds `row_dict` and `csv_row`. */
  method BuildRow(specs: seq<Spec>, mapping: Dict<Option<string>>, data: map<string, seq<Cell>>, ts: string)
    returns (row: Row, line: seq<Cell>)
    requires WellFormed(specs)
    ensures IsSample(specs, mapping, data, ts, row)
    ensures row.Valid()
    ensures line == CsvLine(row)
  {
    row := Empty<Cell>().Put("timestamp", Text(ts));
    line := [Text(ts)];
    for k := 0 to |specs|
      invariant row.keys == Header(specs[..k])
      invariant forall x :: x in row.entries <==> x in row.keys
      invariant line == CsvLine(row)
      invariant row.Get("timestamp") == Some(Text(ts))
      invariant GroupsStored(specs, mapping, data, row, k)
    {
      var spec := specs[k];
      var vals := Pad(RawValues(spec.group, mapping, data), |spec.axes|);
      NewGroupColumns(specs, k);
      var next, nextLine := PutGroup(row, line, spec.group, spec.axes, vals);
      GroupsStoredStep(specs, mapping, data, row, next, k, vals);
      row, line := next, nextLine;
    }
    assert specs[..|specs|] == specs;
    HeaderDistinct(specs);
  }

  /** Row `row` holds the padded values of the first `n` groups under their columns. */
  predicate GroupsStored(specs: seq<Spec>, mapping: Dict<Option<string>>, data: map<string, seq<Cell>>, row: Row, n: nat)
    requires n <= |specs|
  {
    forall k, j :: 0 <= k < n && 0 <= j < |specs[k].axes| ==>
      row.Get(ColumnKey(specs[k].group, specs[k].axes[j])) == Some(PaddedAt(RawValues(specs[k].group, mapping, data), j))
  }

  /** Putting the padded values of group `n` extends what a row holds by that group. */
  lemma GroupsStoredStep(specs: seq<Spec>, mapping: Dict<Option<string>>, data: map<string, seq<Cell>>, row: Row, next: Row, n: nat, vals: seq<Cell>)
    requires n < |specs| && GroupsStored(specs, mapping, data, row, n)
    requires forall x :: x in row.entries ==> next.Get(x) == row.Get(x)
    requires |vals| == |specs[n].axes|
    requires forall j :: 0 <= j < |vals| ==> vals[j] == PaddedAt(RawValues(specs[n].group, mapping, data), j)
    requires forall j :: 0 <= j < |specs[n].axes| ==> next.Get(ColumnKey(specs[n].group, specs[n].axes[j])) == Some(vals[j])
    ensures GroupsStored(specs, mapping, data, next, n + 1)
  {
    forall k, j | 0 <= k < n + 1 && 0 <= j < |specs[k].axes|
      ensures next.Get(ColumnKey(specs[k].group, specs[k].axes[j])) == Some(PaddedAt(RawValues(specs[k].group, mapping, data), j))
    {
      if k < n {
        assert row.Get(ColumnKey(specs[k].group, specs[k].axes[j])).Some?;
      }
    }
  }

  /** The columns of group `k` are new to a row holding the header of the
      groups before it. */
  lemma NewGroupColumns(specs: seq<Spec>, k: nat)
    requires WellFormed(specs) && k < |specs|
    ensures Header(specs[..k + 1]) == Header(specs[..k]) + AxisColumns(specs[k].group, specs[k].axes)
    ensures Distinct(AxisColumns(specs[k].group, specs[k].axes))
    ensures forall x :: x in AxisColumns(specs[k].group, specs[k].axes) ==> x !in Header(specs[..k])
  {
    var a, b := Header(specs[..k]), AxisColumns(specs[k].group, specs[k].axes);
    HeaderStep(specs, k);
    WellFormedPrefix(specs, k + 1);
    HeaderDistinct(specs[..k + 1]);
    DistinctSplit(a, b);
  }

  lemma HeaderStep(specs: seq<Spec>, k: nat)
    requires k < |specs|
    ensures Header(specs[..k + 1]) == Header(specs[..k]) + AxisColumns(specs[k].group, specs[k].axes)
  {
    assert specs[..k + 1][..k] == specs[..k];
    assert Columns(specs[..k + 1]) == Columns(specs[..k]) + AxisColumns(specs[k].group, specs[k].axes);
  }

  // ---------------------------------------------------------------- columns of a well-formed table

  lemma {:induction false} ColumnIn(specs: seq<Spec>, k: nat, j: nat)
    requires k < |specs| && j < |specs[k].axes|
    ensures ColumnKey(specs[k].group, specs[k].axes[j]) in Columns(specs)
    decreases |specs|
  {
    var n := |specs| - 1;
    if k < n {
      ColumnIn(specs[..n], k, j);
      assert specs[..n][k] == specs[k];
    } else {
      assert AxisColumns(specs[n].group, specs[n].axes)[j] == ColumnKey(specs[k].group, specs[k].axes[j]);
    }
  }

  lemma {:induction false} ColumnOf(specs: seq<Spec>, x: string)
    requires x in Columns(specs)
    ensures exists k, j :: 0 <= k < |specs| && 0 <= j < |specs[k].axes| && x == ColumnKey(specs[k].group, specs[k].axes[j])
    decreases |specs|
  {
    var n := |specs| - 1;
    if x in Columns(specs[..n]) {
      ColumnOf(specs[..n], x);
      var k, j :| 0 <= k < n && 0 <= j < |specs[..n][k].axes| && x == ColumnKey(specs[..n][k].group, specs[..n][k].axes[j]);
      assert specs[..n][k] == specs[k];
    } else {
      var cols := AxisColumns(specs[n].group, specs[n].axes);
      var j :| 0 <= j < |cols| && cols[j] == x;
      assert x == ColumnKey(specs[n].group, specs[n].axes[j]);
    }
  }

  lemma WellFormedPrefix(specs: seq<Spec>, n: nat)
    requires WellFormed(specs) && n <= |specs|
    ensures WellFormed(specs[..n])
  {
    assert Groups(specs[..n]) == Groups(specs)[..n];
  }

  /** Columns of different groups, or of different axes, differ. */
  lemma ColumnKeysDiffer(g1: string, a1: string, g2: string, a2: string)
    requires '_' !in g1 && '_' !in g2 && (g1 != g2 || a1 != a2)
    ensures ColumnKey(g1, a1) != ColumnKey(g2, a2)
  {
    SplitAtFirst(g1, '_', a1);
    SplitAtFirst(g2, '_', a2);
  }

  /** No column is named `timestamp`. */
  lemma NotTimestamp(group: string, axis: string)
    ensures ColumnKey(group, axis) != "timestamp"
  {
    if |ColumnKey(group, axis)| == |"timestamp"| {
      assert ColumnKey(group, axis)[|group|] == '_';
      assert "timestamp"[|group|] != '_';
    }
  }

  lemma AxisColumnsDistinct(group: string, axes: seq<string>)
    requires '_' !in group && Distinct(UpperAxes(axes))
    ensures Distinct(AxisColumns(group, axes))
  {
    forall i, j | 0 <= i < j < |axes|
      ensures AxisColumns(group, axes)[i] != AxisColumns(group, axes)[j]
    {
      assert UpperAxes(axes)[i] != UpperAxes(axes)[j];
      ColumnKeysDiffer(group, axes[i], group, axes[j]);
    }
  }

  /** The columns of a well-formed table are distinct. */
  lemma {:induction false} ColumnsDistinct(specs: seq<Spec>)
    requires WellFormed(specs)
    ensures Distinct(Columns(specs))
    decreases |specs|
  {
    if specs != [] {
      var n := |specs| - 1;
      var last := specs[n];
      WellFormedPrefix(specs, n);
      ColumnsDistinct(specs[..n]);
      AxisColumnsDistinct(last.group, last.axes);
      var cols := AxisColumns(last.group, last.axes);
      forall x | x in Columns(specs[..n])
        ensures x !in cols
      {
        ColumnOf(specs[..n], x);
        var k, j :| 0 <= k < n && 0 <= j < |specs[..n][k].axes| && x == ColumnKey(specs[..n][k].group, specs[..n][k].axes[j]);
        assert specs[..n][k] == specs[k];
        assert Groups(specs)[k] != Groups(specs)[n];
        forall j' | 0 <= j' < |cols|
          ensures cols[j'] != x
        {
          ColumnKeysDiffer(specs[k].group, specs[k].axes[j], last.group, last.axes[j']);
        }
      }
      DistinctConcat(Columns(specs[..n]), cols);
    }
  }

  /** The header of a well-formed table names each column once. */
  lemma HeaderDistinct(specs: seq<Spec>)
    requires WellFormed(specs)
    ensures Distinct(Header(specs))
  {
    ColumnsDistinct(specs);
    forall x | x in Columns(specs)
      ensures x !in ["timestamp"]
    {
      ColumnOf(specs, x);
      var k, j :| 0 <= k < |specs| && 0 <= j < |specs[k].axes| && x == ColumnKey(specs[k].group, specs[k].axes[j]);
      NotTimestamp(specs[k].group, specs[k].axes[j]);
    }
    DistinctConcat(["timestamp"], Columns(specs));
  }

  // ---------------------------------------------------------------- the payload

  /** The number a row holds under key `k`: `float(v)`, with 0 when the
      conversion fails. */
  function Reading(row: Row, k: string): int {
    if k in row.entries then ToNumber(row.entries[k]) else 0
  }

  /** `float(v)`, with 0 when the conversion fails. */
  function ToNumber(c: Cell): int {
    match c
    case Num(n) => n
    case Text(_) => 0
  }

  /** Key `k` of a row feeds series (`s`, `ax`) of the payload. */
  predicate Feeds(important: set<string>, k: string, s: string, ax: string) {
    k != "timestamp" && Normalize(k) == (s, ax) && s in important
  }

  /** `sensors[s][ax]`, or nothing when the payload has no such series. */
  function SeriesOf(t: SensorTable, s: string, ax: string): seq<int> {
    if s in t.entries && ax in t.entries[s].entries then t.entries[s].entries[ax] else []
  }

  /** Every sensor of the table has an axis and every axis a reading. */
  predicate NoEmptySeries(t: SensorTable) {
    forall s :: s in t.entries ==>
      t.entries[s].entries != map[] && forall ax :: ax in t.entries[s].entries ==> t.entries[s].entries[ax] != []
  }

  /** `sensors[s][ax].append(v)` on the nested default dictionary. */
  function AddReading(t: SensorTable, s: string, ax: string, v: int): (r: SensorTable)
    ensures forall s', ax' :: SeriesOf(r, s', ax') == SeriesOf(t, s', ax') + (if s' == s && ax' == ax then [v] else [])
    ensures NoEmptySeries(t) ==> NoEmptySeries(r)
  {
    var series: Series := if s in t.entries then t.entries[s] else Empty();
    var vals := if ax in series.entries then series.entries[ax] else [];
    t.Put(s, series.Put(ax, vals + [v]))
  }

  /** The readings a row adds for its keys `ks`, in order. */
  function AddRow(important: set<string>, t: SensorTable, row: Row, ks: seq<string>): SensorTable {
    if ks == [] then t
    else
      var acc := AddRow(important, t, row, ks[..|ks| - 1]);
      var k := ks[|ks| - 1];
      if k == "timestamp" then acc
      else
        var (sensor, axis) := Normalize(k);
        if sensor !in important then acc else AddReading(acc, sensor, axis, Reading(row, k))
  }

  /** The `sensors` part of the payload built from `rows`. */
  function Pivot(important: set<string>, rows: seq<Row>): SensorTable {
    if rows == [] then Empty()
    else
      var last := rows[|rows| - 1];
      AddRow(important, Pivot(important, rows[..|rows| - 1]), last, last.keys)
  }

  /** Reference definition: the readings of the keys of `ks` that feed (`s`, `ax`). */
  function KeyReadings(important: set<string>, row: Row, ks: seq<string>, s: string, ax: string): seq<int> {
    if ks == [] then []
    else
      var k := ks[|ks| - 1];
      KeyReadings(important, row, ks[..|ks| - 1], s, ax)
        + (if Feeds(important, k, s, ax) then [Reading(row, k)] else [])
  }

  /** Reference definition: the readings of series (`s`, `ax`), row by row. */
  function Readings(important: set<string>, rows: seq<Row>, s: string, ax: string): seq<int> {
    if rows == [] then []
    else
      var last := rows[|rows| - 1];
      Readings(important, rows[..|rows| - 1], s, ax) + KeyReadings(important, last, last.keys, s, ax)
  }

  lemma {:induction false} AddRowSeries(important: set<string>, t: SensorTable, row: Row, ks: seq<string>, s: string, ax: string)
    ensures SeriesOf(AddRow(important, t, row, ks), s, ax) == SeriesOf(t, s, ax) + KeyReadings(important, row, ks, s, ax)
    ensures NoEmptySeries(t) ==> NoEmptySeries(AddRow(important, t, row, ks))
    decreases |ks|
  {
    if ks != [] {
      AddRowSeries(important, t, row, ks[..|ks| - 1], s, ax);
    }
  }

  /** The payload's series are the reference readings, and none is empty. */
  lemma {:induction false} PivotSeries(important: set<string>, rows: seq<Row>, s: string, ax: string)
    ensures SeriesOf(Pivot(important, rows), s, ax) == Readings(important, rows, s, ax)
    ensures NoEmptySeries(Pivot(important, rows))
    decreases |rows|
  {
    if rows != [] {
      var last := rows[|rows| - 1];
      PivotSeries(important, rows[..|rows| - 1], s, ax);
      AddRowSeries(important, Pivot(important, rows[..|rows| - 1]), last, last.keys, s, ax);
    }
  }

  lemma {:induction false} KeyReadingsNone(important: set<string>, row: Row, ks: seq<string>, s: string, ax: string)
    requires forall i :: 0 <= i < |ks| ==> !Feeds(important, ks[i], s, ax)
    ensures KeyReadings(important, row, ks, s, ax) == []
    decreases |ks|
  {
    if ks != [] {
      KeyReadingsNone(important, row, ks[..|ks| - 1], s, ax);
    }
  }

  lemma {:induction false} KeyReadingsSingle(important: set<string>, row: Row, ks: seq<string>, x: string, s: string, ax: string)
    requires Distinct(ks) && x in ks && Feeds(important, x, s, ax)
    requires forall i :: 0 <= i < |ks| && Feeds(important, ks[i], s, ax) ==> ks[i] == x
    ensures KeyReadings(important, row, ks, s, ax) == [Reading(row, x)]
    decreases |ks|
  {
    var n := |ks| - 1;
    if ks[n] == x {
      assert forall i :: 0 <= i < n ==> ks[..n][i] != x;
      KeyReadingsNone(important, row, ks[..n], s, ax);
    } else {
      assert x in ks[..n];
      KeyReadingsSingle(important, row, ks[..n], x, s, ax);
    }
  }

  /** The value of column `x` in each row, as the payload reads it. */
  function ColumnValues(rows: seq<Row>, x: string): (r: seq<int>)
    ensures |r| == |rows|
  {
    seq(|rows|, i requires 0 <= i < |rows| => Reading(rows[i], x))
  }

  lemma ColumnValuesStep(rows: seq<Row>, x: string)
    requires rows != []
    ensures ColumnValues(rows, x) == ColumnValues(rows[..|rows| - 1], x) + [Reading(rows[|rows| - 1], x)]
  {
  }

  /** Every row of `rows` has the keys `keys`, in that order. */
  predicate AllHaveKeys(rows: seq<Row>, keys: seq<string>) {
    forall i :: 0 <= i < |rows| ==> rows[i].keys == keys
  }

  /** Rows that share the keys `keys`, none of which feeds (`s`, `ax`), give
      that series no reading. */
  lemma {:induction false} ReadingsNeedAFeeder(important: set<string>, rows: seq<Row>, keys: seq<string>, s: string, ax: string)
    requires AllHaveKeys(rows, keys)
    ensures Readings(important, rows, s, ax) != [] ==> exists i :: 0 <= i < |keys| && Feeds(important, keys[i], s, ax)
    decreases |rows|
  {
    if rows != [] && forall i :: 0 <= i < |keys| ==> !Feeds(important, keys[i], s, ax) {
      ReadingsNeedAFeeder(important, rows[..|rows| - 1], keys, s, ax);
      KeyReadingsNone(important, rows[|rows| - 1], keys, s, ax);
    }
  }

  /** Rows that share the keys `keys`, of which only `x` feeds (`s`, `ax`),
      give that series exactly the values of column `x`, one per row. */
  lemma {:induction false} ReadingsOfColumn(important: set<string>, rows: seq<Row>, keys: seq<string>, x: string, s: string, ax: string)
    requires AllHaveKeys(rows, keys)
    requires Distinct(keys) && x in keys && Feeds(important, x, s, ax)
    requires forall i :: 0 <= i < |keys| && Feeds(important, keys[i], s, ax) ==> keys[i] == x
    ensures Readings(important, rows, s, ax) == ColumnValues(rows, x)
    decreases |rows|
  {
    if rows != [] {
      var n := |rows| - 1;
      ReadingsOfColumn(important, rows[..n], keys, x, s, ax);
      KeyReadingsSingle(important, rows[n], keys, x, s, ax);
      ColumnValuesStep(rows, x);
    }
  }

  /** In a well-formed header, column `group_axis` is the only key that feeds
      (`group`, `AXIS`). */
  lemma OnlyFeeder(specs: seq<Spec>, k: nat, j: nat, y: string)
    requires WellFormed(specs) && k < |specs| && j < |specs[k].axes|
    requires y in Header(specs) && Feeds(Important(specs), y, specs[k].group, Upper(specs[k].axes[j]))
    ensures y == ColumnKey(specs[k].group, specs[k].axes[j])
  {
    assert y in Columns(specs);
    ColumnOf(specs, y);
    var k', j' :| 0 <= k' < |specs| && 0 <= j' < |specs[k'].axes| && y == ColumnKey(specs[k'].group, specs[k'].axes[j']);
    NormalizeColumn(specs, k, j);
    NormalizeInjective(specs, k, j, k', j');
  }

  /** The series of column `k`, `j` of a window of samples holds that column's
      value in every row. */
  lemma ColumnSeries(specs: seq<Spec>, rows: seq<Row>, k: nat, j: nat)
    requires WellFormed(specs) && k < |specs| && j < |specs[k].axes|
    requires AllHaveKeys(rows, Header(specs))
    ensures SeriesOf(Pivot(Important(specs), rows), specs[k].group, Upper(specs[k].axes[j]))
      == ColumnValues(rows, ColumnKey(specs[k].group, specs[k].axes[j]))
  {
    var imp, h := Important(specs), Header(specs);
    var g, u := specs[k].group, Upper(specs[k].axes[j]);
    var x := ColumnKey(g, specs[k].axes[j]);
    HeaderDistinct(specs);
    NormalizeColumn(specs, k, j);
    ColumnIn(specs, k, j);
    NotTimestamp(g, specs[k].axes[j]);
    assert x in h;
    assert g in imp;
    forall i | 0 <= i < |h| && Feeds(imp, h[i], g, u)
      ensures h[i] == x
    {
      OnlyFeeder(specs, k, j, h[i]);
    }
    PivotSeries(imp, rows, g, u);
    ReadingsOfColumn(imp, rows, h, x, g, u);
  }

  /** A key of the header that feeds a series names that series' group and axis. */
  lemma FeederIsColumn(specs: seq<Spec>, y: string, s: string, ax: string)
    requires WellFormed(specs)
    requires y in Header(specs) && Feeds(Important(specs), y, s, ax)
    ensures exists k, j :: 0 <= k < |specs| && 0 <= j < |specs[k].axes| && s == specs[k].group && ax == Upper(specs[k].axes[j])
  {
    assert y in Columns(specs);
    ColumnOf(specs, y);
    var k, j :| 0 <= k < |specs| && 0 <= j < |specs[k].axes| && y == ColumnKey(specs[k].group, specs[k].axes[j]);
    NormalizeColumn(specs, k, j);
  }

  /** A series of a window of samples that has readings belongs to a column. */
  lemma SeriesHasColumn(specs: seq<Spec>, rows: seq<Row>, s: string, ax: string)
    requires WellFormed(specs)
    requires AllHaveKeys(rows, Header(specs))
    requires SeriesOf(Pivot(Important(specs), rows), s, ax) != []
    ensures exists k, j :: 0 <= k < |specs| && 0 <= j < |specs[k].axes| && s == specs[k].group && ax == Upper(specs[k].axes[j])
  {
    var imp, h := Important(specs), Header(specs);
    PivotSeries(imp, rows, s, ax);
    ReadingsNeedAFeeder(imp, rows, h, s, ax);
    var i :| 0 <= i < |h| && Feeds(imp, h[i], s, ax);
    FeederIsColumn(specs, h[i], s, ax);
  }

  /** The payload of a window of samples: each column of the table becomes the
      series of its group and upper-cased axis, holding that column's value in
      every row, and no other series exists. */
  lemma PivotOfSamples(specs: seq<Spec>, rows: seq<Row>)
    requires WellFormed(specs)
    requires AllHaveKeys(rows, Header(specs))
    ensures forall k, j :: 0 <= k < |specs| && 0 <= j < |specs[k].axes| ==>
      SeriesOf(Pivot(Important(specs), rows), specs[k].group, Upper(specs[k].axes[j]))
        == ColumnValues(rows, ColumnKey(specs[k].group, specs[k].axes[j]))
    ensures forall s, ax :: SeriesOf(Pivot(Important(specs), rows), s, ax) != [] ==>
      exists k, j :: 0 <= k < |specs| && 0 <= j < |specs[k].axes| && s == specs[k].group && ax == Upper(specs[k].axes[j])
  {
    forall k, j | 0 <= k < |specs| && 0 <= j < |specs[k].axes|
      ensures SeriesOf(Pivot(Important(specs), rows), specs[k].group, Upper(specs[k].axes[j]))
        == ColumnValues(rows, ColumnKey(specs[k].group, specs[k].axes[j]))
    {
      ColumnSeries(specs, rows, k, j);
    }
    forall s, ax | SeriesOf(Pivot(Important(specs), rows), s, ax) != []
      ensures exists k, j :: 0 <= k < |specs| && 0 <= j < |specs[k].axes| && s == specs[k].group && ax == Upper(specs[k].axes[j])
    {
      SeriesHasColumn(specs, rows, s, ax);
    }
  }

  /** Keys the payload's `latest_row` and `previous_row` keep. */
  predicate Kept(important: set<string>, k: string) {
    k == "timestamp" || Normalize(k).0 in important
  }

  /** The keys of `ks` that are kept, in order. */
  function KeptKeys(important: set<string>, ks: seq<string>): seq<string> {
    if ks == [] then []
    else
      var init := KeptKeys(important, ks[..|ks| - 1]);
      var k := ks[|ks| - 1];
      if Kept(important, k) then init + [k] else init
  }

  /** The kept keys are exactly the keys of `ks` that are kept. */
  lemma {:induction false} KeptKeysMembers(important: set<string>, ks: seq<string>)
    ensures forall x :: x in KeptKeys(important, ks) <==> x in ks && Kept(important, x)
    decreases |ks|
  {
    if ks != [] {
      var n := |ks| - 1;
      KeptKeysMembers(important, ks[..n]);
      assert ks == ks[..n] + [ks[n]];
    }
  }

  /** Filtering keys that are all kept changes nothing. */
  lemma {:induction false} AllKept(important: set<string>, ks: seq<string>)
    requires forall i :: 0 <= i < |ks| ==> Kept(important, ks[i])
    ensures KeptKeys(important, ks) == ks
    decreases |ks|
  {
    if ks != [] {
      var n := |ks| - 1;
      AllKept(important, ks[..n]);
      assert ks == ks[..n] + [ks[n]];
    }
  }

  /** The loop that copies the timestamp and the important keys of a row. */
  method KeepImportant(important: set<string>, row: Row) returns (r: Row)
    requires row.Valid()
    ensures r.keys == KeptKeys(important, row.keys)
    ensures forall x :: x in r.entries <==> x in r.keys
    ensures forall x :: x in r.entries ==> x in row.entries && r.entries[x] == row.entries[x]
  {
    r := Empty();
    for j := 0 to |row.keys|
      invariant r.keys == KeptKeys(important, row.keys[..j])
      invariant forall x :: x in r.entries <==> x in r.keys
      invariant forall x :: x in r.entries ==> x in row.keys[..j] && r.entries[x] == row.entries[x]
    {
      var k := row.keys[j];
      assert row.keys[..j + 1][..j] == row.keys[..j];
      assert k !in row.keys[..j];
      if Kept(important, k) {
        r := r.Put(k, row.entries[k]);
      }
    }
    assert row.keys[..|row.keys|] == row.keys;
  }

  /** Every key of a sample of a well-formed table is kept. */
  lemma SamplesKeepAllKeys(specs: seq<Spec>)
    requires WellFormed(specs)
    ensures KeptKeys(Important(specs), Header(specs)) == Header(specs)
  {
    var h := Header(specs);
    forall i | 0 <= i < |h|
      ensures Kept(Important(specs), h[i])
    {
      if i > 0 {
        assert h[i] in Columns(specs);
        ColumnOf(specs, h[i]);
        var k, j :| 0 <= k < |specs| && 0 <= j < |specs[k].axes| && h[i] == ColumnKey(specs[k].group, specs[k].axes[j]);
        NormalizeColumn(specs, k, j);
      }
    }
    AllKept(Important(specs), h);
  }

  // ---------------------------------------------------------------- the sampler

  /** The last `n` items of `s`: what a deque with `maxlen=n` holds after `s`
      was appended to it item by item. */
  function LastN<T>(s: seq<T>, n: nat): (r: seq<T>)
    ensures |r| <= n && |r| <= |s|
    ensures r == s[|s| - |r|..]
    ensures |s| <= n ==> r == s
  {
    if |s| <= n then s else s[|s| - n..]
  }

  /** Appending to a full deque drops its oldest item. */
  lemma DequeAppend<T>(s: seq<T>, x: T, n: nat)
    requires n > 0
    ensures LastN(s + [x], n) ==
      (var b := LastN(s, n); if |b| == n then b[1..] + [x] else b + [x])
  {
  }

  /** The CSV lines of rows, one per row. */
  function CsvLines(rows: seq<Row>): (r: seq<seq<Cell>>)
    ensures |r| == |rows|
  {
    seq(|rows|, i requires 0 <= i < |rows| => CsvLine(rows[i]))
  }

  /** The header line the logger writes when it starts. */
  function HeaderLine(specs: seq<Spec>): seq<Cell> {
    var h := Header(specs);
    seq(|h|, i requires 0 <= i < |h| => Text(h[i]))
  }

  /** Every row is a well-formed dictionary. */
  ghost predicate AllValid(rows: seq<Row>) {
    forall i :: 0 <= i < |rows| ==> rows[i].Valid()
  }

  /** Recording one more well-formed sample with the same keys keeps every sample well formed. */
  lemma SamplesAppend(rows: seq<Row>, row: Row, keys: seq<string>)
    requires AllHaveKeys(rows, keys) && AllValid(rows) && row.keys == keys && row.Valid()
    ensures AllHaveKeys(rows + [row], keys) && AllValid(rows + [row])
  {
    assert forall i :: 0 <= i < |rows| ==> (rows + [row])[i] == rows[i];
  }

  /** Recording one more sample adds its line to the CSV lines. */
  lemma CsvLinesAppend(rows: seq<Row>, row: Row)
    ensures CsvLines(rows + [row]) == CsvLines(rows) + [CsvLine(row)]
  {
  }

  /** The file and the pending lines keep holding the header and every
      sample's line when the line of a new sample becomes pending. */
  lemma PendingLineAppend(written: seq<seq<Cell>>, pending: seq<seq<Cell>>, header: seq<Cell>, rows: seq<Row>, row: Row, line: seq<Cell>)
    requires written + pending == [header] + CsvLines(rows) && line == CsvLine(row)
    ensures written + (pending + [line]) == [header] + CsvLines(rows + [row])
  {
    CsvLinesAppend(rows, row);
    calc {
      written + (pending + [line]);
      (written + pending) + [line];
      ([header] + CsvLines(rows)) + [line];
      [header] + (CsvLines(rows) + [line]);
    }
  }

  /** The window keeps the keys of the samples it holds. */
  lemma WindowKeys(samples: seq<Row>, keys: seq<string>, n: nat)
    requires AllHaveKeys(samples, keys) && AllValid(samples)
    ensures AllHaveKeys(LastN(samples, n), keys) && AllValid(LastN(samples, n))
  {
    var w := LastN(samples, n);
    forall i | 0 <= i < |w|
      ensures w[i].keys == keys && w[i].Valid()
    {
      assert w[i] == samples[|samples| - |w| + i];
    }
  }

  /** The loop over the keys of one row in `build_payload_from_buffer`. */
  method AddRowReadings(important: set<string>, t: SensorTable, row: Row) returns (r: SensorTable)
    requires row.Valid()
    ensures r == AddRow(important, t, row, row.keys)
  {
    r := t;
    for j := 0 to |row.keys|
      invariant r == AddRow(important, t, row, row.keys[..j])
    {
      var k := row.keys[j];
      assert row.keys[..j + 1][..j] == row.keys[..j];
      if k == "timestamp" {
        continue;
      }
      var (sensor, axis) := Normalize(k);
      if sensor !in important {
        continue;
      }
      r := AddReading(r, sensor, axis, ToNumber(row.entries[k]));
    }
    assert row.keys[..|row.keys|] == row.keys;
  }

  /** The loop over the rows of the window in `build_payload_from_buffer`. */
  method PivotRows(important: set<string>, rows: seq<Row>) returns (t: SensorTable)
    requires AllValid(rows)
    ensures t == Pivot(important, rows)
  {
    t := Empty();
    for i := 0 to |rows|
      invariant t == Pivot(important, rows[..i])
    {
      assert rows[..i + 1][..i] == rows[..i];
      t := AddRowReadings(important, t, rows[i]);
    }
    assert rows[..|rows|] == rows;
  }

  /** A row whose keys are all kept is copied whole. */
  lemma KeptRowIsRow(row: Row, r: Row)
    requires row.Valid() && r.keys == row.keys
    requires forall x :: x in r.entries <==> x in r.keys
    requires forall x :: x in r.entries ==> x in row.entries && r.entries[x] == row.entries[x]
    ensures r == row
  {
    assert r.entries == row.entries;
  }

  /** The latest (or previous) row of a window of samples, as the payload keeps it. */
  method KeepSample(specs: seq<Spec>, row: Row) returns (r: Row)
    requires WellFormed(specs) && row.Valid() && row.keys == Header(specs)
    ensures r == row
  {
    r := KeepImportant(Important(specs), row);
    SamplesKeepAllKeys(specs);
    KeptRowIsRow(row, r);
  }

  /** `build_payload_from_buffer()` on the window `rows`: the timestamps, the
      readings of the important sensors and the last two rows. */
  method PayloadOf(specs: seq<Spec>, rows: seq<Row>) returns (p: Payload)
    requires WellFormed(specs) && AllHaveKeys(rows, Header(specs)) && AllValid(rows)
    ensures rows == [] ==> p == Payload([], Empty(), Empty(), Empty())
    ensures |p.time| == |rows|
    ensures forall i :: 0 <= i < |rows| ==> rows[i].Get("timestamp") == Some(p.time[i])
    ensures p.sensors == Pivot(Important(specs), rows)
    ensures rows != [] ==> p.latestRow == rows[|rows| - 1]
    ensures p.previousRow == if |rows| > 1 then rows[|rows| - 2] else Empty()
  {
    if rows == [] {
      return Payload([], Empty(), Empty(), Empty());
    }
    assert forall i :: 0 <= i < |rows| ==> rows[i].keys[0] == "timestamp";
    var timeStamps := seq(|rows|, i requires 0 <= i < |rows| => rows[i].entries["timestamp"]);
    var sensors := PivotRows(Important(specs), rows);
    var latest := KeepSample(specs, rows[|rows| - 1]);
    var prev := Empty();
    if |rows| > 1 {
      prev := KeepSample(specs, rows[|rows| - 2]);
    }
    p := Payload(timeStamps, sensors, latest, prev);
  }


  /** Every series of the payload of a window of samples has one reading per row. */
  lemma SeriesLengths(specs: seq<Spec>, rows: seq<Row>)
    requires WellFormed(specs) && AllHaveKeys(rows, Header(specs))
    ensures forall s, ax :: SeriesOf(Pivot(Important(specs), rows), s, ax) != [] ==>
      |SeriesOf(Pivot(Important(specs), rows), s, ax)| == |rows|
  {
    PivotOfSamples(specs, rows);
  }

  /** The sampler's state: the streaming window `buffer`, the pending CSV
      lines `csv_write_buffer`, and the lines the CSV file holds. */
  /** The window holds the latest samples, and the file followed by the
      pending lines holds the header and every sample, in order. */
  ghost predicate Consistent(specs: seq<Spec>, samples: seq<Row>, buffer: seq<Row>,
                             written: seq<seq<Cell>>, pending: seq<seq<Cell>>) {
    && WellFormed(specs)
    && AllHaveKeys(samples, Header(specs))
    && AllValid(samples)
    && buffer == LastN(samples, Window)
    && written + pending == [HeaderLine(specs)] + CsvLines(samples)
  }

  /** Recording a sample keeps the sampler consistent: the deque drops its
      oldest row when full. */
  lemma RecordKeeps(specs: seq<Spec>, samples: seq<Row>, buffer: seq<Row>,
                    written: seq<seq<Cell>>, pending: seq<seq<Cell>>, row: Row, line: seq<Cell>)
    requires Consistent(specs, samples, buffer, written, pending)
    requires row.keys == Header(specs) && row.Valid() && line == CsvLine(row)
    ensures var next := if |buffer| == Window then buffer[1..] + [row] else buffer + [row];
      && next == LastN(buffer + [row], Window)
      && Consistent(specs, samples + [row], next, written, pending + [line])
  {
    DequeAppend(samples, row, Window);
    DequeAppend(buffer, row, Window);
    SamplesAppend(samples, row, Header(specs));
    PendingLineAppend(written, pending, HeaderLine(specs), samples, row, line);
  }

  class Sampler {
    const specs: seq<Spec>
    var buffer: seq<Row>
    var csvWriteBuffer: seq<seq<Cell>>
    var written: seq<seq<Cell>>
    /** Every sample recorded since start. */
    ghost var samples: seq<Row>

    /** The window holds the latest samples, and the file followed by the
        pending lines holds the header and every sample, in order. */
    ghost predicate Valid()
      reads this
    {
      Consistent(specs, samples, buffer, written, csvWriteBuffer)
    }

    /** Start-up with the sensor table `table` (the logger uses `Specs`, see
        `SpecsWellFormed`): the CSV file holds the header and both buffers are
        empty. */
    constructor (table: seq<Spec>)
      requires WellFormed(table)
      ensures Valid()
      ensures specs == table && buffer == [] && csvWriteBuffer == [] && written == [HeaderLine(table)]
    {
      specs := table;
      buffer := [];
      csvWriteBuffer := [];
      written := [HeaderLine(table)];
      samples := [];
    }

    /** `flush_csv_buffer()`: when lines are pending and the write succeeds they
        are appended to the file and the buffer is cleared; a failed write
        keeps them pending. */
    method Flush(writeOk: bool)
      requires Valid()
      modifies this
      ensures Valid()
      ensures buffer == old(buffer) && samples == old(samples)
      ensures old(csvWriteBuffer) != [] && writeOk ==>
        written == old(written) + old(csvWriteBuffer) && csvWriteBuffer == []
      ensures !(old(csvWriteBuffer) != [] && writeOk) ==>
        written == old(written) && csvWriteBuffer == old(csvWriteBuffer)
    {
      if csvWriteBuffer != [] && writeOk {
        written := written + csvWriteBuffer;
        csvWriteBuffer := [];
      }
    }

    /** The start of `sampler_loop`: no device sensors, or no group found among
        them, ends the sampler; otherwise the mapping and the device sensors to
        read. */
    method Startup(deviceSensors: seq<string>) returns (r: Option<(Dict<Option<string>>, set<string>)>)
      requires Valid()
      ensures deviceSensors == [] ==> r.None?
      ensures r.Some? ==> r.value.0.keys == Groups(specs)
      ensures r.Some? ==> forall k :: 0 <= k < |specs| ==>
        r.value.0.Get(specs[k].group) == Some(MatchSensor(deviceSensors, specs[k].candidates))
      ensures r.Some? ==> r.value.1 == CallSet(r.value.0) && r.value.1 != {}
      ensures deviceSensors != [] && r.None? ==> forall k :: 0 <= k < |specs| ==>
        MatchSensor(deviceSensors, specs[k].candidates) in {None, Some("")}
    {
      if deviceSensors == [] {
        return None;
      }
      var mapping := BuildMapping(specs, deviceSensors);
      var callList := CallSet(mapping);
      MatchesAreCalled(specs, deviceSensors, mapping);
      if callList == {} {
        return None;
      }
      return Some((mapping, callList));
    }

    /** One iteration of the sampler loop, given the values read (`data`, empty
        when the read failed), the time stamp, and whether a CSV write would
        succeed. An empty read records nothing; otherwise the sample goes into
        the window (dropping the oldest once it holds `Window`) and its line
        into the CSV batch, which is flushed once it holds `WriteBatchSize`. */
    method Tick(mapping: Dict<Option<string>>, data: map<string, seq<Cell>>, ts: string, writeOk: bool)
      returns (recorded: Option<Row>)
      requires Valid()
      modifies this
      ensures Valid()
      ensures data == map[] ==> recorded.None?
      ensures data == map[] ==> buffer == old(buffer) && samples == old(samples)
      ensures data == map[] ==> csvWriteBuffer == old(csvWriteBuffer) && written == old(written)
      ensures data != map[] ==> recorded.Some? && IsSample(specs, mapping, data, ts, recorded.value)
      ensures data != map[] ==> samples == old(samples) + [recorded.value]
      ensures data != map[] ==> buffer == LastN(old(buffer) + [recorded.value], Window)
      ensures data != map[] && |old(csvWriteBuffer)| + 1 >= WriteBatchSize && writeOk ==>
        written == old(written) + old(csvWriteBuffer) + [CsvLine(recorded.value)] && csvWriteBuffer == []
      ensures data != map[] && !(|old(csvWriteBuffer)| + 1 >= WriteBatchSize && writeOk) ==>
        written == old(written) && csvWriteBuffer == old(csvWriteBuffer) + [CsvLine(recorded.value)]
    {
      if data == map[] {
        return None;
      }
      var row, line := BuildRow(specs, mapping, data, ts);
      Record(row, line);
      if |csvWriteBuffer| >= WriteBatchSize {
        Flush(writeOk);
      }
      recorded := Some(row);
    }

    /** `buffer.append(row_dict)` and `csv_write_buffer.append(csv_row)`. */
    method Record(row: Row, line: seq<Cell>)
      requires Valid() && row.keys == Header(specs) && row.Valid() && line == CsvLine(row)
      modifies this
      ensures Valid()
      ensures samples == old(samples) + [row]
      ensures buffer == LastN(old(buffer) + [row], Window)
      ensures csvWriteBuffer == old(csvWriteBuffer) + [line] && written == old(written)
    {
      RecordKeeps(specs, samples, buffer, written, csvWriteBuffer, row, line);
      buffer := if |buffer| == Window then buffer[1..] + [row] else buffer + [row];
      samples := samples + [row];
      csvWriteBuffer := csvWriteBuffer + [line];
    }

    /** `build_payload_from_buffer()`. */
    method BuildPayload() returns (p: Payload)
      requires Valid()
      ensures buffer == [] ==> p == Payload([], Empty(), Empty(), Empty())
      ensures |p.time| == |buffer|
      ensures forall i :: 0 <= i < |buffer| ==> buffer[i].Get("timestamp") == Some(p.time[i])
      ensures p.sensors == Pivot(Important(specs), buffer)
      ensures buffer != [] ==> p.latestRow == buffer[|buffer| - 1]
      ensures p.previousRow == if |buffer| > 1 then buffer[|buffer| - 2] else Empty()
    {
      WindowKeys(samples, Header(specs), Window);
      p := PayloadOf(specs, buffer);
    }
  }

  // ---------------------------------------------------------------- well-formedness of SPECS

  /** What the operations above rely on in a table: distinct groups, group names
      without an underscore that `normalize` leaves as they are, and axis names
      that stay distinct when upper-cased. */
  predicate WellFormed(specs: seq<Spec>) {
    && Distinct(Groups(specs))
    && (forall k :: 0 <= k < |specs| ==> '_' !in specs[k].group && Canonical(specs[k].group) == specs[k].group)
    && (forall k :: 0 <= k < |specs| ==> Distinct(UpperAxes(specs[k].axes)))
  }

  function UpperAxes(axes: seq<string>): (r: seq<string>)
    ensures |r| == |axes|
    ensures forall j :: 0 <= j < |axes| ==> r[j] == Upper(axes[j])
  {
    seq(|axes|, j requires 0 <= j < |axes| => Upper(axes[j]))
  }

  /** No prefix of the list starts another one. */
  predicate PrefixFree(ps: seq<string>) {
    forall i, j :: 0 <= i < |ps| && 0 <= j < |ps| && i != j ==> !StartsWith(ps[j], ps[i])
  }

  /** The first three characters of each string. */
  function Heads(ps: seq<string>): seq<(char, char, char)>
    requires forall i :: 0 <= i < |ps| ==> |ps[i]| >= 3
  {
    seq(|ps|, i requires 0 <= i < |ps| => (ps[i][0], ps[i][1], ps[i][2]))
  }

  lemma DiffersAt(s: string, p: string, k: nat)
    requires k < |s| && k < |p| && s[k] != p[k]
    ensures !StartsWith(s, p)
  {
  }

  lemma PrefixFreeByHeads(ps: seq<string>)
    requires forall i :: 0 <= i < |ps| ==> |ps[i]| >= 3
    requires Distinct(Heads(ps))
    ensures PrefixFree(ps)
  {
    forall i, j | 0 <= i < |ps| && 0 <= j < |ps| && i != j
      ensures !StartsWith(ps[j], ps[i])
    {
      assert Heads(ps)[i] != Heads(ps)[j];
      var k := if ps[j][0] != ps[i][0] then 0 else if ps[j][1] != ps[i][1] then 1 else 2;
      DiffersAt(ps[j], ps[i], k);
    }
  }

  /** In a prefix-free list, each prefix is its own first match. */
  lemma {:induction false} FirstPrefixOfMember(ps: seq<string>, i: nat)
    requires i < |ps| && PrefixFree(ps)
    ensures FirstPrefix(ps[i], ps) == Some(ps[i])
    decreases i
  {
    assert StartsWith(ps[i], ps[i]);
    if i > 0 {
      assert !StartsWith(ps[i], ps[0]);
      assert PrefixFree(ps[1..]) by {
        forall a, b | 0 <= a < |ps| - 1 && 0 <= b < |ps| - 1 && a != b
          ensures !StartsWith(ps[1..][b], ps[1..][a])
        {
          assert ps[1..][b] == ps[b + 1] && ps[1..][a] == ps[a + 1];
        }
      }
      FirstPrefixOfMember(ps[1..], i - 1);
      assert ps[1..][i - 1] == ps[i];
    }
  }

  /** The known prefixes differ in their first three letters. */
  lemma KnownHeadsDistinct()
    ensures forall i :: 0 <= i < |KnownPrefixes| ==> |KnownPrefixes[i]| >= 3
    ensures Distinct(Heads(KnownPrefixes))
  {
  }

  /** Every known prefix is canonical. */
  lemma KnownPrefixesCanonical()
    ensures forall p :: p in KnownPrefixes ==> Canonical(p) == p
  {
    KnownHeadsDistinct();
    PrefixFreeByHeads(KnownPrefixes);
    forall p | p in KnownPrefixes
      ensures Canonical(p) == p
    {
      var i :| 0 <= i < |KnownPrefixes| && KnownPrefixes[i] == p;
      FirstPrefixOfMember(KnownPrefixes, i);
    }
  }

  lemma KnownPrefixesHaveNoUnderscore()
    ensures forall p :: p in KnownPrefixes ==> '_' !in p
  {
    forall p | p in KnownPrefixes
      ensures '_' !in p
    {
      var i :| 0 <= i < |KnownPrefixes| && KnownPrefixes[i] == p;
      if i == 0 { assert '_' !in "Linear"; }
      else if i == 1 { assert '_' !in "Rotation"; }
      else if i == 2 { assert '_' !in "GameRotation"; }
      else if i == 3 { assert '_' !in "GeoRotation"; }
      else if i == 4 { assert '_' !in "Accelerometer"; }
      else if i == 5 { assert '_' !in "Gyroscope"; }
      else if i == 6 { assert '_' !in "Magnetometer"; }
      else if i == 7 { assert '_' !in "Gravity"; }
      else if i == 8 { assert '_' !in "Orientation"; }
      else if i == 9 { assert '_' !in "Light"; }
      else if i == 10 { assert '_' !in "Proximity"; }
      else { assert '_' !in "Step"; }
    }
  }

  /** Axes whose upper-cased names still differ: either their lengths differ or
      both are already upper case and differ. */
  lemma UpperAxesDistinct(axes: seq<string>)
    requires forall i, j :: 0 <= i < j < |axes| ==>
      |axes[i]| != |axes[j]| || (IsUpperCased(axes[i]) && IsUpperCased(axes[j]) && axes[i] != axes[j])
    ensures Distinct(UpperAxes(axes))
  {
    forall i, j | 0 <= i < j < |axes|
      ensures Upper(axes[i]) != Upper(axes[j])
    {
      if |axes[i]| == |axes[j]| {
        UpperFixed(axes[i]);
        UpperFixed(axes[j]);
      }
    }
  }

  /** The logger's table meets every condition the operations rely on. */
  lemma SpecsWellFormed()
    ensures WellFormed(Specs)
  {
    SpecGroupsWellFormed();
    SpecAxesWellFormed();
  }

  lemma SpecGroupsWellFormed()
    ensures Distinct(Groups(Specs))
    ensures forall k :: 0 <= k < |Specs| ==> '_' !in Specs[k].group && Canonical(Specs[k].group) == Specs[k].group
  {
    SpecGroupsKnown();
    KnownPrefixesCanonical();
    KnownPrefixesHaveNoUnderscore();
  }

  lemma SpecGroupsKnown()
    ensures Distinct(Groups(Specs))
    ensures forall k :: 0 <= k < |Specs| ==> Specs[k].group in KnownPrefixes
  {
    assert forall k :: 0 <= k < |Specs| ==> Specs[k].group in KnownPrefixes;
  }

  /** The axis lists the logger's table uses. */
  const AxisLists: seq<seq<string>> := [["X", "Y", "Z"], ["X", "Y", "Z", "W", "E"], ["X", "Y", "Z", "W"],
                                        ["Azimuth", "Pitch", "Roll"], ["Lux"], ["Distance"], ["Count"]]

  lemma AxisListDistinct(axes: seq<string>)
    requires axes in AxisLists
    ensures Distinct(UpperAxes(axes))
  {
    if axes == ["X", "Y", "Z"] {
      UpperAxesDistinct(axes);
    } else if axes == ["X", "Y", "Z", "W", "E"] {
      UpperAxesDistinct(axes);
    } else if axes == ["X", "Y", "Z", "W"] {
      UpperAxesDistinct(axes);
    } else if axes == ["Azimuth", "Pitch", "Roll"] {
      UpperAxesDistinct(axes);
    } else {
      UpperAxesDistinct(axes);
    }
  }

  lemma SpecAxesWellFormed()
    ensures forall k :: 0 <= k < |Specs| ==> Distinct(UpperAxes(Specs[k].axes))
  {
    forall k | 0 <= k < |Specs|
      ensures Distinct(UpperAxes(Specs[k].axes))
    {
      assert Specs[k].axes in AxisLists;
      AxisListDistinct(Specs[k].axes);
    }
  }
}
