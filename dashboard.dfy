/**
 * The live dashboard's state: the 1-phase / 3-phase display mode and the
 * map of per-field peaks that every refresh raises from the latest reading.
 */
module LiveDashboard {
  import opened Wrappers

  /** A field of the latest reading as JSON delivers it; a missing key is `undefined`. */
  datatype JsonValue = JsonNull | JsonNumber(n: real)

  datatype Mode = OnePhase | ThreePhase

  /** The `fields` list of the refresh: the twelve tracked channels. */
  const Fields: seq<string> := [
    "voltageP1", "currentP1", "powerP1",
    "voltageP2", "currentP2", "powerP2",
    "voltageP3", "currentP3", "powerP3",
    "voltageL1L2", "voltageL1L3", "voltageL2L3"]

  function Lookup<K, V>(m: map<K, V>, k: K): Option<V> {
    if k in m then Some(m[k]) else None
  }

  /** `parseFloat(v)`: None stands for NaN, which `parseFloat(null)` gives. */
  function ParseFloat(v: JsonValue): Option<real> {
    match v
    case JsonNull => None
    case JsonNumber(n) => Some(n)
  }

  /**
   * The new peak of one field, given its old peak (None when unset), its
   * value in the reading (None when undefined) and whether its element is on
   * the page. `null` passes the `!isNaN` guard (it converts to 0), so it
   * seeds the peak without raising it.
   */
  function PeakAfter(old_: Option<real>, value: Option<JsonValue>, shown: bool): (p: Option<real>)
    ensures old_.Some? ==> p.Some? && p.value >= old_.value
    ensures !shown || value.None? ==> p == old_
    ensures shown && value.Some? ==> p.Some? && (old_.None? || old_.value >= 0.0 ==> p.value >= 0.0)
  {
    if !shown || value.None? then old_
    else
      var seed := if old_.None? || old_.value == 0.0 then 0.0 else old_.value;
      match ParseFloat(value.value)
      case Some(n) => Some(if n > seed then n else seed)
      case None => Some(seed)
  }

  /** One field's turn of the `forEach` body. */
  function ObserveField(peaks: map<string, real>, field: string, data: map<string, JsonValue>, elements: set<string>): map<string, real> {
    match PeakAfter(Lookup(peaks, field), Lookup(data, field), field in elements)
    case Some(p) => peaks[field := p]
    case None => peaks
  }

  /** The `forEach` callback's peak update for one field, as the code performs it. */
  method ObserveFieldStep(peaks: map<string, real>, field: string, data: map<string, JsonValue>, elements: set<string>)
    returns (peaks': map<string, real>)
    ensures peaks' == ObserveField(peaks, field, data, elements)
  {
    peaks' := peaks;
    if field in elements && field in data {
      if field !in peaks' || peaks'[field] == 0.0 {
        peaks' := peaks'[field := 0.0];
      }
      var parsed := ParseFloat(data[field]);
      if parsed.Some? && parsed.value > peaks'[field] {
        peaks' := peaks'[field := parsed.value];
      }
      assert peaks' == peaks[field := peaks'[field]];
    }
  }

  /** The peak map after the `forEach` over `fs`, in order. */
  function UpdatedPeaks(peaks: map<string, real>, fs: seq<string>, data: map<string, JsonValue>, elements: set<string>): map<string, real>
    decreases |fs|
  {
    if fs == [] then peaks
    else ObserveField(UpdatedPeaks(peaks, fs[..|fs| - 1], data, elements), fs[|fs| - 1], data, elements)
  }

  function Toggled(m: Mode): (r: Mode)
    ensures r != m
  {
    match m
    case OnePhase => ThreePhase
    case ThreePhase => OnePhase
  }

  /** Clicking the toggle twice restores the original mode. */
  lemma TwoTogglesRestore(m: Mode)
    ensures Toggled(Toggled(m)) == m
  {
  }

  /** The page's module-level state. */
  class Dashboard {
    var mode: Mode
    var peaks: map<string, real>

    /** Only the twelve fields are ever tracked, and no peak is below 0. */
    ghost predicate Valid()
      reads this
    {
      forall f :: f in peaks ==> f in Fields && peaks[f] >= 0.0
    }

    constructor ()
      ensures Valid()
      ensures mode == OnePhase && peaks == map[]
    {
      mode := OnePhase;
      peaks := map[];
    }

    /** The peak tracking of `updateDashboard` for one fetched reading `data`. */
    method Update(data: map<string, JsonValue>, elements: set<string>)
      requires Valid()
      modifies this
      ensures Valid()
      ensures peaks == UpdatedPeaks(old(peaks), Fields, data, elements)
      ensures mode == old(mode)
    {
      for i := 0 to |Fields|
        invariant peaks == UpdatedPeaks(old(peaks), Fields[..i], data, elements)
        invariant Valid()
        invariant mode == old(mode)
      {
        var field := Fields[i];
        assert Fields[..i + 1][..i] == Fields[..i];
        peaks := ObserveFieldStep(peaks, field, data, elements);
      }
      assert Fields[..|Fields|] == Fields;
    }

    /** The phase toggle button's click handler. */
    method Toggle()
      requires Valid()
      modifies this
      ensures Valid()
      ensures mode == Toggled(old(mode))
      ensures peaks == old(peaks)
    {
      if mode == OnePhase {
        mode := ThreePhase;
      } else {
        mode := OnePhase;
      }
    }
  }
}
