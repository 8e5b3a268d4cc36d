/**
 * The daily / all-time peak aggregation of the PDF report route: every
 * reading raises, channel by channel, the running maximum of its day's
 * accumulator (created lazily, all zeros) and of one all-time accumulator
 * (also starting at zeros).
 */
module PeakAggregation {
  import opened ReadingRecord

  /** The per-phase part of an accumulator: `{ P1: 0, P2: 0, P3: 0 }`. */
  datatype Triple = Triple(p1: real, p2: real, p3: real) {
    function At(p: Phase): real {
      match p
      case P1 => p1
      case P2 => p2
      case P3 => p3
    }

    /** The assignment `t[p] = v`. */
    function With(p: Phase, v: real): (t: Triple)
      ensures t.At(p) == v
      ensures forall q :: q != p ==> t.At(q) == At(q)
    {
      match p
      case P1 => this.(p1 := v)
      case P2 => this.(p2 := v)
      case P3 => this.(p3 := v)
    }
  }

  /** One peak accumulator, shaped like the object literal of the report route. */
  datatype Peaks = Peaks(voltage: Triple, current: Triple, power: Triple, l1l2: real, l1l3: real, l2l3: real) {
    function Get(ch: Channel): real {
      match ch
      case PhaseChannel(Voltage, p) => voltage.At(p)
      case PhaseChannel(Current, p) => current.At(p)
      case PhaseChannel(Power, p) => power.At(p)
      case LineChannel(L1L2) => l1l2
      case LineChannel(L1L3) => l1l3
      case LineChannel(L2L3) => l2l3
    }

    /** The in-place assignment of one channel, such as `acc.voltage[p] = v` or `acc.L1L2 = v`. */
    function Set(ch: Channel, v: real): (r: Peaks)
      ensures r.Get(ch) == v
      ensures forall c :: c != ch ==> r.Get(c) == Get(c)
    {
      match ch
      case PhaseChannel(Voltage, p) => this.(voltage := voltage.With(p, v))
      case PhaseChannel(Current, p) => this.(current := current.With(p, v))
      case PhaseChannel(Power, p) => this.(power := power.With(p, v))
      case LineChannel(L1L2) => this.(l1l2 := v)
      case LineChannel(L1L3) => this.(l1l3 := v)
      case LineChannel(L2L3) => this.(l2l3 := v)
    }
  }

  /** The fresh accumulator: every channel 0. */
  const Zero: Peaks := Peaks(Triple(0.0, 0.0, 0.0), Triple(0.0, 0.0, 0.0), Triple(0.0, 0.0, 0.0), 0.0, 0.0, 0.0)

  /** Two accumulators that agree on every channel are the same accumulator. */
  lemma PeaksExtensional(a: Peaks, b: Peaks)
    requires forall ch :: a.Get(ch) == b.Get(ch)
    ensures a == b
  {
    assert a.Get(PhaseChannel(Voltage, P1)) == b.Get(PhaseChannel(Voltage, P1));
    assert a.Get(PhaseChannel(Voltage, P2)) == b.Get(PhaseChannel(Voltage, P2));
    assert a.Get(PhaseChannel(Voltage, P3)) == b.Get(PhaseChannel(Voltage, P3));
    assert a.Get(PhaseChannel(Current, P1)) == b.Get(PhaseChannel(Current, P1));
    assert a.Get(PhaseChannel(Current, P2)) == b.Get(PhaseChannel(Current, P2));
    assert a.Get(PhaseChannel(Current, P3)) == b.Get(PhaseChannel(Current, P3));
    assert a.Get(PhaseChannel(Power, P1)) == b.Get(PhaseChannel(Power, P1));
    assert a.Get(PhaseChannel(Power, P2)) == b.Get(PhaseChannel(Power, P2));
    assert a.Get(PhaseChannel(Power, P3)) == b.Get(PhaseChannel(Power, P3));
    assert a.Get(LineChannel(L1L2)) == b.Get(LineChannel(L1L2));
    assert a.Get(LineChannel(L1L3)) == b.Get(LineChannel(L1L3));
    assert a.Get(LineChannel(L2L3)) == b.Get(LineChannel(L2L3));
  }

  function RaiseTriple(t: Triple, q: Quantity, r: Reading): Triple {
    Triple(Max(t.p1, r.Value(PhaseChannel(q, P1))),
           Max(t.p2, r.Value(PhaseChannel(q, P2))),
           Max(t.p3, r.Value(PhaseChannel(q, P3))))
  }

  /** One reading observed by one accumulator: each channel becomes the larger of its peak and the coalesced value. */
  function Observe(acc: Peaks, r: Reading): (out: Peaks)
    ensures forall ch :: out.Get(ch) == Max(acc.Get(ch), r.Value(ch))
  {
    Peaks(RaiseTriple(acc.voltage, Voltage, r),
          RaiseTriple(acc.current, Current, r),
          RaiseTriple(acc.power, Power, r),
          Max(acc.l1l2, r.Value(LineChannel(L1L2))),
          Max(acc.l1l3, r.Value(LineChannel(L1L3))),
          Max(acc.l2l3, r.Value(LineChannel(L2L3))))
  }

  function PhaseIndex(p: Phase): (i: nat)
    ensures i < 3 && Phases[i] == p
  {
    match p
    case P1 => 0
    case P2 => 1
    case P3 => 2
  }

  /** The channels the per-phase loop has raised once it has handled phases[0..i). */
  predicate RaisedBy(ch: Channel, i: nat) {
    ch.PhaseChannel? && PhaseIndex(ch.phase) < i
  }

  /** One pass of the per-phase loop on one accumulator: `acc.voltage[p]`, `acc.current[p]` and `acc.power[p]` raised. */
  method RaisePhase(acc: Peaks, p: Phase, r: Reading) returns (acc': Peaks)
    ensures forall ch :: acc'.Get(ch) == if ch.PhaseChannel? && ch.phase == p then Max(acc.Get(ch), r.Value(ch)) else acc.Get(ch)
  {
    var vc, cc, wc := PhaseChannel(Voltage, p), PhaseChannel(Current, p), PhaseChannel(Power, p);
    acc' := acc.Set(vc, Max(acc.Get(vc), r.Value(vc)));
    acc' := acc'.Set(cc, Max(acc'.Get(cc), r.Value(cc)));
    acc' := acc'.Set(wc, Max(acc'.Get(wc), r.Value(wc)));
  }

  /** The three line-voltage statements after the per-phase loop, on one accumulator. */
  method RaiseLines(acc: Peaks, r: Reading) returns (acc': Peaks)
    ensures forall ch :: acc'.Get(ch) == if ch.LineChannel? then Max(acc.Get(ch), r.Value(ch)) else acc.Get(ch)
  {
    var a, b, c := LineChannel(L1L2), LineChannel(L1L3), LineChannel(L2L3);
    acc' := acc.Set(a, Max(acc.Get(a), r.Value(a)));
    acc' := acc'.Set(b, Max(acc'.Get(b), r.Value(b)));
    acc' := acc'.Set(c, Max(acc'.Get(c), r.Value(c)));
  }

  /**
   * The body of the aggregation loop for one reading: the loop over the three
   * phases raises voltage, current and power in the day accumulator and the
   * all-time accumulator, then the three line voltages are raised in both.
   */
  method ObserveReading(day: Peaks, allTime: Peaks, r: Reading) returns (day': Peaks, allTime': Peaks)
    ensures day' == Observe(day, r)
    ensures allTime' == Observe(allTime, r)
  {
    day', allTime' := day, allTime;
    var i := 0;
    while i < |Phases|
      invariant 0 <= i <= |Phases|
      invariant forall ch :: day'.Get(ch) == if RaisedBy(ch, i) then Max(day.Get(ch), r.Value(ch)) else day.Get(ch)
      invariant forall ch :: allTime'.Get(ch) == if RaisedBy(ch, i) then Max(allTime.Get(ch), r.Value(ch)) else allTime.Get(ch)
    {
      var p := Phases[i];
      assert PhaseIndex(p) == i;
      day' := RaisePhase(day', p, r);
      allTime' := RaisePhase(allTime', p, r);
      i := i + 1;
    }
    day' := RaiseLines(day', r);
    allTime' := RaiseLines(allTime', r);
    PeaksExtensional(day', Observe(day, r));
    PeaksExtensional(allTime', Observe(allTime, r));
  }

  // ---------------------------------------------------------------------
  // Specification of one aggregation run, defined in the loop's own order
  // (each definition peels off the LAST reading).
  // ---------------------------------------------------------------------

  /** The accumulator after observing `rs` in order, starting from Zero. */
  function PeaksOf(rs: seq<Reading>): Peaks
    decreases |rs|
  {
    if rs == [] then Zero else Observe(PeaksOf(rs[..|rs| - 1]), rs[|rs| - 1])
  }

  /** The readings whose timestamp falls on day `key`, in input order. */
  function OnDay(rs: seq<Reading>, dayOf: Timestamp -> DayKey, key: DayKey): seq<Reading>
    decreases |rs|
  {
    if rs == [] then []
    else
      var init, r := rs[..|rs| - 1], rs[|rs| - 1];
      if dayOf(r.timestamp) == key then OnDay(init, dayOf, key) + [r] else OnDay(init, dayOf, key)
  }

  /**
   * The day keys in the order each is first met: the key order of the
   * `dailyPeaks` dictionary, i.e. `Object.keys(dailyPeaks)`.
   */
  function FirstSeenDays(rs: seq<Reading>, dayOf: Timestamp -> DayKey): seq<DayKey>
    decreases |rs|
  {
    if rs == [] then []
    else
      var init, r := rs[..|rs| - 1], rs[|rs| - 1];
      var seen := FirstSeenDays(init, dayOf);
      if dayOf(r.timestamp) in seen then seen else seen + [dayOf(r.timestamp)]
  }

  /** The `dailyPeaks` dictionary as a map: each key's accumulator over that day's readings. */
  function DailyPeaks(rs: seq<Reading>, dayOf: Timestamp -> DayKey): map<DayKey, Peaks> {
    map k | k in FirstSeenDays(rs, dayOf) :: PeaksOf(OnDay(rs, dayOf, k))
  }

  lemma FirstSeenDaysSnoc(rs: seq<Reading>, r: Reading, dayOf: Timestamp -> DayKey)
    ensures var seen := FirstSeenDays(rs, dayOf);
            FirstSeenDays(rs + [r], dayOf) == if dayOf(r.timestamp) in seen then seen else seen + [dayOf(r.timestamp)]
  {
    assert (rs + [r])[..|rs|] == rs;
  }

  lemma PeaksOfSnoc(rs: seq<Reading>, r: Reading)
    ensures PeaksOf(rs + [r]) == Observe(PeaksOf(rs), r)
  {
    assert (rs + [r])[..|rs|] == rs;
  }

  lemma OnDaySnoc(rs: seq<Reading>, r: Reading, dayOf: Timestamp -> DayKey, key: DayKey)
    ensures OnDay(rs + [r], dayOf, key) == if dayOf(r.timestamp) == key then OnDay(rs, dayOf, key) + [r] else OnDay(rs, dayOf, key)
  {
    assert (rs + [r])[..|rs|] == rs;
  }

  /** A day that no reading falls on has no readings. */
  lemma OnDayOfUnseenDay(rs: seq<Reading>, dayOf: Timestamp -> DayKey, key: DayKey)
    requires key !in FirstSeenDays(rs, dayOf)
    ensures OnDay(rs, dayOf, key) == []
  {
  }

  /** Appending one reading changes only its own day's entry, creating it at Zero when new. */
  lemma DailyPeaksStep(rs: seq<Reading>, r: Reading, dayOf: Timestamp -> DayKey)
    ensures var key := dayOf(r.timestamp);
            var old_ := DailyPeaks(rs, dayOf);
            DailyPeaks(rs + [r], dayOf) == old_[key := Observe(if key in old_ then old_[key] else Zero, r)]
  {
    var key := dayOf(r.timestamp);
    var rs' := rs + [r];
    var before, after := DailyPeaks(rs, dayOf), DailyPeaks(rs', dayOf);
    var expected := before[key := Observe(if key in before then before[key] else Zero, r)];
    FirstSeenDaysSnoc(rs, r, dayOf);
    assert after.Keys == expected.Keys;
    forall k | k in after
      ensures after[k] == expected[k]
    {
      OnDaySnoc(rs, r, dayOf, k);
      if k == key {
        PeaksOfSnoc(OnDay(rs, dayOf, key), r);
        if key !in before {
          OnDayOfUnseenDay(rs, dayOf, key);
        }
      }
    }
  }

  lemma OverwriteTwice<K, V>(m: map<K, V>, k: K, a: V, b: V)
    ensures m[k := a][k := b] == m[k := b]
  {
  }

  /**
   * The aggregation loop of the report route. `dailyPeaks` together with
   * `dates` is the insertion-ordered dictionary: a key is appended the first
   * time a reading of that day is met (`dailyPeaks[date] ||= {...}`).
   */
  method Aggregate(readings: seq<Reading>, dayOf: Timestamp -> DayKey)
    returns (dates: seq<DayKey>, dailyPeaks: map<DayKey, Peaks>, allTime: Peaks)
    ensures dates == FirstSeenDays(readings, dayOf)
    ensures dailyPeaks == DailyPeaks(readings, dayOf)
    ensures allTime == PeaksOf(readings)
  {
    dates, dailyPeaks, allTime := [], map[], Zero;
    for i := 0 to |readings|
      invariant dates == FirstSeenDays(readings[..i], dayOf)
      invariant dailyPeaks == DailyPeaks(readings[..i], dayOf)
      invariant allTime == PeaksOf(readings[..i])
    {
      var r := readings[i];
      assert readings[..i + 1] == readings[..i] + [r];
      DailyPeaksStep(readings[..i], r, dayOf);
      FirstSeenDaysSnoc(readings[..i], r, dayOf);
      PeaksOfSnoc(readings[..i], r);
      var date := dayOf(r.timestamp);
      ghost var before := dailyPeaks;
      if date !in dailyPeaks {
        dailyPeaks := dailyPeaks[date := Zero];
        dates := dates + [date];
      }
      var day;
      day, allTime := ObserveReading(dailyPeaks[date], allTime, r);
      OverwriteTwice(before, date, Zero, day);
      dailyPeaks := dailyPeaks[date := day];
    }
    assert readings[..|readings|] == readings;
  }
}
