/**
 * The shape of one stored sensor sample: a timestamp and twelve optional
 * numeric channels (voltage, current and power per phase P1..P3, plus the
 * three line-to-line voltages).
 */
module ReadingRecord {
  import opened Wrappers

  datatype Phase = P1 | P2 | P3
  datatype Quantity = Voltage | Current | Power
  datatype Line = L1L2 | L1L3 | L2L3

  /** A channel name: `voltageP2` is PhaseChannel(Voltage, P2), `voltageL1L3` is LineChannel(L1L3). */
  datatype Channel = PhaseChannel(quantity: Quantity, phase: Phase) | LineChannel(line: Line)

  /** The `phases` array of the report route, indexed as JavaScript does: out of range is `undefined`. */
  const Phases: seq<Phase> := [P1, P2, P3]

  /** `phases[i]`: the i-th phase, or `undefined` past the end. */
  function PhaseAt(i: nat): Option<Phase> {
    if i < |Phases| then Some(Phases[i]) else None
  }

  /** A day bucket key such as "2024-06-01". */
  type DayKey = string

  /** Instants are milliseconds since the epoch. */
  type Timestamp = int

  datatype Reading = Reading(
    timestamp: Timestamp,
    voltageP1: Option<real>, currentP1: Option<real>, powerP1: Option<real>,
    voltageP2: Option<real>, currentP2: Option<real>, powerP2: Option<real>,
    voltageP3: Option<real>, currentP3: Option<real>, powerP3: Option<real>,
    voltageL1L2: Option<real>, voltageL1L3: Option<real>, voltageL2L3: Option<real>)
  {
    /** The field lookup `r[`voltage${p}`]` / `r.voltageL1L2`. */
    function Field(ch: Channel): Option<real> {
      match ch
      case PhaseChannel(Voltage, P1) => voltageP1
      case PhaseChannel(Current, P1) => currentP1
      case PhaseChannel(Power, P1) => powerP1
      case PhaseChannel(Voltage, P2) => voltageP2
      case PhaseChannel(Current, P2) => currentP2
      case PhaseChannel(Power, P2) => powerP2
      case PhaseChannel(Voltage, P3) => voltageP3
      case PhaseChannel(Current, P3) => currentP3
      case PhaseChannel(Power, P3) => powerP3
      case LineChannel(L1L2) => voltageL1L2
      case LineChannel(L1L3) => voltageL1L3
      case LineChannel(L2L3) => voltageL2L3
    }

    /** The channel value with an absent value read as 0 (`?? 0`). */
    function Value(ch: Channel): real {
      Field(ch).GetOr(0.0)
    }
  }

  /** `Math.max` on numbers that are never NaN. */
  function Max(a: real, b: real): (m: real)
    ensures m >= a && m >= b
    ensures m == a || m == b
  {
    if a >= b then a else b
  }
}
