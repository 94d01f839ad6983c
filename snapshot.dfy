/**
 * The data that flows from the logger to the dashboard: sampled rows, the
 * payload built from the streaming window, and the snapshot the browser
 * decodes from one server-push message.
 */
module Snapshots {
  import opened Wrappers
  import opened Dicts

  /** A value in a sampled row: a number, or any other JSON value (text, null, ...).
      Readings are integers in this model, and every non-number cell reads as
      0, even text that Python's `float()` would parse. */
  datatype Cell = Num(n: int) | Text(s: string)

  /** One sampled row: `"timestamp"` and one key per sensor column, in column order. */
  type Row = Dict<Cell>

  /** One sensor's readings: axis name to the readings of that axis, oldest first. */
  type Series = Dict<seq<int>>

  /** The `sensors` part of a payload: sensor name to its series. */
  type SensorTable = Dict<Series>

  /** What `build_payload_from_buffer` returns. */
  datatype Payload = Payload(time: seq<Cell>, sensors: SensorTable, latestRow: Row, previousRow: Row)

  /** What the browser holds after `JSON.parse` of one message; `sensors` is
      None when the message has no usable `sensors` object, and
      `hasLatestRow` says whether `latest_row` is there and not null. */
  datatype Snapshot = Snapshot(time: seq<Cell>, sensors: Option<SensorTable>, hasLatestRow: bool)

  /** Whether `renderInitial` and `updateLive` get through a snapshot:
      `updateLiveData` takes `Object.keys` of `latest_row` first, and
      `renderGraphsIfNeeded` that of `sensors`; either throws on a missing or
      null value. */
  predicate Usable(s: Snapshot) {
    s.hasLatestRow && s.sensors.Some?
  }

  /** One server-push message: text `JSON.parse` rejects, or a parsed snapshot. */
  datatype Message = Unparsable | Parsed(data: Snapshot)
}
