/**
 * The dashboard's preference store: the module-level `state` object of the
 * browser code and the `localStorage` entries it keeps in step with it.
 */
module State {
  import opened Wrappers
  import opened Dicts
  import opened Snapshots
  import Json

  const SelectedSensorKey := "selectedSensor"
  const PinnedKey := "pinnedSensors"

  /** The storage key of a sensor's view mode (`"combined"` or `"separate"`). */
  function ViewKey(sensor: string): string {
    "viewMode-" + sensor
  }

  /** The storage key of a sensor's axis filter (`"all"` or an axis name). */
  function AxisKey(sensor: string): string {
    "axisFilter-" + sensor
  }

  /** `localStorage.getItem(key) || fallback`: a missing or empty entry gives the fallback. */
  function StoredOr(storage: map<string, string>, key: string, fallback: string): string {
    if key in storage && storage[key] != "" then storage[key] else fallback
  }

  /** `JSON.parse(localStorage.getItem('pinnedSensors') || '[]')`; None when the
      stored text is not the JSON text of an array of strings. */
  function InitialPinned(storage: map<string, string>): Option<seq<string>> {
    Json.Parse(StoredOr(storage, PinnedKey, "[]"))
  }

  /** `getSensorView(sensor)`. */
  function GetSensorView(storage: map<string, string>, sensor: string): string {
    StoredOr(storage, ViewKey(sensor), "combined")
  }

  /** `getAxisFilter(sensor)`. */
  function GetAxisFilter(storage: map<string, string>, sensor: string): string {
    StoredOr(storage, AxisKey(sensor), "all")
  }

  /** `list.indexOf(x)`: the first position of `x`, None for -1. */
  function FirstIndex(list: seq<string>, x: string): (r: Option<nat>)
    ensures r.None? <==> x !in list
    ensures r.Some? ==> r.value < |list| && list[r.value] == x && x !in list[..r.value]
  {
    if list == [] then None
    else if list[0] == x then Some(0)
    else
      match FirstIndex(list[1..], x)
      case None => None
      case Some(i) =>
        assert list[1..][..i] == list[1..i + 1];
        assert list[..i + 1] == [list[0]] + list[1..i + 1];
        Some(i + 1)
  }

  /** The pinned list after `togglePin(sensor)`: appended when absent, its first
      occurrence spliced out when present. */
  function Toggled(pinned: seq<string>, sensor: string): seq<string> {
    match FirstIndex(pinned, sensor)
    case None => pinned + [sensor]
    case Some(i) => pinned[..i] + pinned[i + 1..]
  }

  class AppState {
    /** `localStorage` of the page. */
    var storage: map<string, string>
    var currentSensor: string
    var darkMode: bool
    var scrollYBeforeUpdate: int
    var isAutoRestoring: bool
    /** The last snapshot received, `null` until the first one. */
    var globalData: Option<Snapshot>
    var pinned: seq<string>

    /** The object the module creates when it loads with `stored` in
        `localStorage`; loading fails when the stored pinned list does not parse. */
    constructor (stored: map<string, string>)
      requires InitialPinned(stored).Some?
      ensures storage == stored
      ensures currentSensor == StoredOr(stored, SelectedSensorKey, "all")
      ensures !darkMode && scrollYBeforeUpdate == 0 && !isAutoRestoring && globalData.None?
      ensures pinned == InitialPinned(stored).value
    {
      storage := stored;
      currentSensor := StoredOr(stored, SelectedSensorKey, "all");
      darkMode := false;
      scrollYBeforeUpdate := 0;
      isAutoRestoring := false;
      globalData := None;
      pinned := InitialPinned(stored).value;
    }

    /** `saveSensor(sensor)`. */
    method SaveSensor(sensor: string)
      modifies this
      ensures currentSensor == sensor
      ensures storage == old(storage)[SelectedSensorKey := sensor]
      ensures pinned == old(pinned) && darkMode == old(darkMode) && globalData == old(globalData)
      ensures scrollYBeforeUpdate == old(scrollYBeforeUpdate) && isAutoRestoring == old(isAutoRestoring)
    {
      currentSensor := sensor;
      storage := storage[SelectedSensorKey := sensor];
    }

    /** `saveDarkMode(val)`: the flag only, nothing is stored. */
    method SaveDarkMode(val: bool)
      modifies this
      ensures darkMode == val
      ensures storage == old(storage) && currentSensor == old(currentSensor) && pinned == old(pinned)
      ensures globalData == old(globalData)
      ensures scrollYBeforeUpdate == old(scrollYBeforeUpdate) && isAutoRestoring == old(isAutoRestoring)
    {
      darkMode := val;
    }

    /** `togglePin(sensor)`: the list is updated and stored as JSON text that
        decodes back to it. */
    method TogglePin(sensor: string)
      modifies this
      ensures pinned == Toggled(old(pinned), sensor)
      ensures storage == old(storage)[PinnedKey := Json.Stringify(pinned)]
      ensures Json.Parse(storage[PinnedKey]) == Some(pinned)
      ensures currentSensor == old(currentSensor) && darkMode == old(darkMode) && globalData == old(globalData)
      ensures scrollYBeforeUpdate == old(scrollYBeforeUpdate) && isAutoRestoring == old(isAutoRestoring)
    {
      var i := FirstIndex(pinned, sensor);
      if i.None? {
        pinned := pinned + [sensor];
      } else {
        pinned := pinned[..i.value] + pinned[i.value + 1..];
      }
      storage := storage[PinnedKey := Json.Stringify(pinned)];
      Json.StringifyRoundTrip(pinned);
    }

    /** `saveSensorView(sensor, view)`. */
    method SaveSensorView(sensor: string, view: string)
      modifies this
      ensures storage == old(storage)[ViewKey(sensor) := view]
      ensures currentSensor == old(currentSensor) && pinned == old(pinned) && darkMode == old(darkMode)
      ensures globalData == old(globalData)
      ensures scrollYBeforeUpdate == old(scrollYBeforeUpdate) && isAutoRestoring == old(isAutoRestoring)
    {
      storage := storage[ViewKey(sensor) := view];
    }

    /** `saveAxisFilter(sensor, axis)`. */
    method SaveAxisFilter(sensor: string, axis: string)
      modifies this
      ensures storage == old(storage)[AxisKey(sensor) := axis]
      ensures currentSensor == old(currentSensor) && pinned == old(pinned) && darkMode == old(darkMode)
      ensures globalData == old(globalData)
      ensures scrollYBeforeUpdate == old(scrollYBeforeUpdate) && isAutoRestoring == old(isAutoRestoring)
    {
      storage := storage[AxisKey(sensor) := axis];
    }
  }

  // ---------------------------------------------------------------- stored settings

  /** Different sensors have different view keys, and no view key is an axis
      key or one of the two fixed keys. */
  lemma ViewKeyDistinct(sensor: string, other: string)
    ensures ViewKey(sensor) == ViewKey(other) <==> sensor == other
    ensures ViewKey(sensor) != AxisKey(other)
    ensures ViewKey(sensor) != SelectedSensorKey && ViewKey(sensor) != PinnedKey
  {
    if ViewKey(sensor) == ViewKey(other) {
      assert sensor == ViewKey(sensor)[9..];
    }
    assert ViewKey(sensor)[0] == 'v' && AxisKey(other)[0] == 'a';
  }

  /** Different sensors have different axis keys, and no axis key is one of
      the two fixed keys. */
  lemma AxisKeyDistinct(sensor: string, other: string)
    ensures AxisKey(sensor) == AxisKey(other) <==> sensor == other
    ensures AxisKey(sensor) != SelectedSensorKey && AxisKey(sensor) != PinnedKey
  {
    if AxisKey(sensor) == AxisKey(other) {
      assert sensor == AxisKey(sensor)[11..];
    }
    assert AxisKey(sensor)[0] == 'a';
  }

  /** With nothing stored, a sensor shows the combined graph of all its axes. */
  lemma DefaultSettings(sensor: string)
    ensures GetSensorView(map[], sensor) == "combined"
    ensures GetAxisFilter(map[], sensor) == "all"
  {
  }

  /** After `saveSensorView(sensor, view)` the getter returns the saved view
      (the default for an empty one); other sensors' views, every axis filter,
      the selected sensor and the pinned list are as before. */
  lemma SaveViewReadBack(storage: map<string, string>, sensor: string, view: string, other: string)
    ensures GetSensorView(storage[ViewKey(sensor) := view], sensor) == if view != "" then view else "combined"
    ensures other != sensor ==> GetSensorView(storage[ViewKey(sensor) := view], other) == GetSensorView(storage, other)
    ensures GetAxisFilter(storage[ViewKey(sensor) := view], other) == GetAxisFilter(storage, other)
    ensures StoredOr(storage[ViewKey(sensor) := view], SelectedSensorKey, "all") == StoredOr(storage, SelectedSensorKey, "all")
    ensures InitialPinned(storage[ViewKey(sensor) := view]) == InitialPinned(storage)
  {
    ViewKeyDistinct(sensor, other);
    ViewKeyDistinct(other, sensor);
    AxisKeyDistinct(other, sensor);
  }

  /** After `saveAxisFilter(sensor, axis)` the getter returns the saved axis
      (`"all"` for an empty one); other sensors' filters, every view, the
      selected sensor and the pinned list are as before. */
  lemma SaveAxisReadBack(storage: map<string, string>, sensor: string, axis: string, other: string)
    ensures GetAxisFilter(storage[AxisKey(sensor) := axis], sensor) == if axis != "" then axis else "all"
    ensures other != sensor ==> GetAxisFilter(storage[AxisKey(sensor) := axis], other) == GetAxisFilter(storage, other)
    ensures GetSensorView(storage[AxisKey(sensor) := axis], other) == GetSensorView(storage, other)
    ensures StoredOr(storage[AxisKey(sensor) := axis], SelectedSensorKey, "all") == StoredOr(storage, SelectedSensorKey, "all")
    ensures InitialPinned(storage[AxisKey(sensor) := axis]) == InitialPinned(storage)
  {
    AxisKeyDistinct(sensor, other);
    AxisKeyDistinct(other, sensor);
    ViewKeyDistinct(other, sensor);
  }

  /** A page loaded after `saveSensor(sensor)` starts on that sensor, or on
      `"all"` for an empty name. */
  lemma SavedSensorReloads(storage: map<string, string>, sensor: string)
    ensures StoredOr(storage[SelectedSensorKey := sensor], SelectedSensorKey, "all") == if sensor != "" then sensor else "all"
    ensures InitialPinned(storage[SelectedSensorKey := sensor]) == InitialPinned(storage)
  {
  }

  /** A page loaded after `togglePin` starts with the pinned list it stored. */
  lemma PinnedReloads(storage: map<string, string>, pinned: seq<string>)
    ensures InitialPinned(storage[PinnedKey := Json.Stringify(pinned)]) == Some(pinned)
  {
    Json.StringifyRoundTrip(pinned);
  }

  // ---------------------------------------------------------------- togglePin

  /** Toggling an unpinned sensor appends it and leaves the others as they were. */
  lemma ToggleUnpinned(pinned: seq<string>, sensor: string)
    requires sensor !in pinned
    ensures Toggled(pinned, sensor) == pinned + [sensor]
    ensures Toggled(pinned, sensor)[..|pinned|] == pinned
  {
  }

  /** Toggling a pinned sensor removes that one entry and keeps the others in order. */
  lemma TogglePinned(pinned: seq<string>, sensor: string)
    requires sensor in pinned
    ensures exists i :: 0 <= i < |pinned| && pinned[i] == sensor && sensor !in pinned[..i]
                        && Toggled(pinned, sensor) == pinned[..i] + pinned[i + 1..]
    ensures |Toggled(pinned, sensor)| == |pinned| - 1
  {
    var i := FirstIndex(pinned, sensor).value;
    assert pinned[i] == sensor && sensor !in pinned[..i];
  }

  /** In a list without duplicates, toggling removes the sensor when pinned
      and adds it when not: membership flips for that sensor only. */
  lemma ToggleMembership(pinned: seq<string>, sensor: string, x: string)
    requires Distinct(pinned)
    ensures x in Toggled(pinned, sensor) <==> if x == sensor then sensor !in pinned else x in pinned
  {
    match FirstIndex(pinned, sensor)
    case None =>
    case Some(i) =>
      DistinctSplit(pinned[..i + 1], pinned[i + 1..]);
      assert pinned[..i + 1] + pinned[i + 1..] == pinned;
      assert pinned[..i + 1] == pinned[..i] + [sensor];
      DistinctSplit(pinned[..i], [sensor]);
      if x in pinned && x != sensor {
        var k :| 0 <= k < |pinned| && pinned[k] == x;
        if k < i {
          assert x == pinned[..i][k];
        } else {
          assert x == pinned[i + 1..][k - i - 1];
        }
      }
  }

  /** Toggling keeps the pinned list free of duplicates. */
  lemma ToggleDistinct(pinned: seq<string>, sensor: string)
    requires Distinct(pinned)
    ensures Distinct(Toggled(pinned, sensor))
  {
    match FirstIndex(pinned, sensor)
    case None =>
      DistinctConcat(pinned, [sensor]);
    case Some(i) =>
      assert pinned[..i + 1] + pinned[i + 1..] == pinned;
      DistinctSplit(pinned[..i + 1], pinned[i + 1..]);
      assert pinned[..i + 1] == pinned[..i] + [sensor];
      DistinctSplit(pinned[..i], [sensor]);
      forall x | x in pinned[i + 1..]
        ensures x !in pinned[..i]
      {
        assert x !in pinned[..i + 1];
      }
      DistinctConcat(pinned[..i], pinned[i + 1..]);
  }

  /** Toggling an unpinned sensor twice gives the list back exactly. */
  lemma ToggleTwiceUnpinned(pinned: seq<string>, sensor: string)
    requires sensor !in pinned
    ensures Toggled(Toggled(pinned, sensor), sensor) == pinned
  {
    var once := pinned + [sensor];
    assert once[..|pinned|] == pinned;
    assert FirstIndex(once, sensor) == Some(|pinned|);
  }

  /** Toggling a pinned sensor of a duplicate-free list twice keeps the same
      sensors but moves that one to the end. */
  lemma ToggleTwicePinned(pinned: seq<string>, sensor: string)
    requires Distinct(pinned) && sensor in pinned
    ensures Toggled(Toggled(pinned, sensor), sensor) == Without(pinned, sensor) + [sensor]
  {
    var once := Toggled(pinned, sensor);
    ToggleIsWithout(pinned, sensor);
    assert sensor !in once;
  }

  /** In a duplicate-free list, removing a pinned sensor is `Without`. */
  lemma ToggleIsWithout(pinned: seq<string>, sensor: string)
    requires Distinct(pinned) && sensor in pinned
    ensures Toggled(pinned, sensor) == Without(pinned, sensor)
  {
    var i := FirstIndex(pinned, sensor).value;
    assert pinned[..i + 1] + pinned[i + 1..] == pinned;
    DistinctSplit(pinned[..i + 1], pinned[i + 1..]);
    assert pinned[..i + 1] == pinned[..i] + [sensor];
    WithoutSplit(pinned[..i], sensor, pinned[i + 1..]);
    assert pinned == pinned[..i] + [sensor] + pinned[i + 1..];
  }

  /** Removing `x` from `a + [x] + b` where `x` occurs in neither part. */
  lemma {:induction false} WithoutSplit(a: seq<string>, x: string, b: seq<string>)
    requires x !in a && x !in b
    ensures Without(a + [x] + b, x) == a + b
    decreases |a|
  {
    if a == [] {
      assert [x] + b == a + [x] + b;
      assert ([x] + b)[1..] == b;
      WithoutAbsent(b, x);
    } else {
      assert (a + [x] + b)[1..] == a[1..] + [x] + b;
      WithoutSplit(a[1..], x, b);
      assert a == [a[0]] + a[1..];
    }
  }

  lemma {:induction false} WithoutAbsent(s: seq<string>, x: string)
    requires x !in s
    ensures Without(s, x) == s
    decreases |s|
  {
    if s != [] {
      WithoutAbsent(s[1..], x);
      assert s == [s[0]] + s[1..];
    }
  }
}
