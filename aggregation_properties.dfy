/**
 * What one aggregation run computes, stated against the readings
 * themselves: the peaks are maxima, the day keys are exactly the readings'
 * days in first-seen order, and the result does not depend on input order.
 */
module PeakAggregationProperties {
  import opened ReadingRecord
  import opened PeakAggregation
  import opened Sequences

  /** A day's readings are exactly the input readings stamped on that day. */
  lemma {:induction false} OnDayMembers(rs: seq<Reading>, dayOf: Timestamp -> DayKey, key: DayKey)
    ensures forall x :: x in OnDay(rs, dayOf, key) <==> x in rs && dayOf(x.timestamp) == key
    decreases |rs|
  {
    if rs != [] {
      var init := rs[..|rs| - 1];
      assert rs == init + [rs[|rs| - 1]];
      OnDayMembers(init, dayOf, key);
    }
  }

  /** `dates` holds exactly the days some reading falls on. */
  lemma {:induction false} FirstSeenDaysMembers(rs: seq<Reading>, dayOf: Timestamp -> DayKey)
    ensures forall k :: k in FirstSeenDays(rs, dayOf) <==> exists i :: 0 <= i < |rs| && dayOf(rs[i].timestamp) == k
    decreases |rs|
  {
    if rs != [] {
      var init := rs[..|rs| - 1];
      FirstSeenDaysMembers(init, dayOf);
      forall k | k in FirstSeenDays(init, dayOf)
        ensures exists i :: 0 <= i < |rs| && dayOf(rs[i].timestamp) == k
      {
        var i :| 0 <= i < |init| && dayOf(init[i].timestamp) == k;
        assert rs[i] == init[i];
      }
      forall i | 0 <= i < |rs|
        ensures dayOf(rs[i].timestamp) in FirstSeenDays(rs, dayOf)
      {
        if i < |init| {
          assert init[i] == rs[i];
        }
      }
    }
  }

  /** `dates` lists no day twice. */
  lemma {:induction false} FirstSeenDaysNoDuplicates(rs: seq<Reading>, dayOf: Timestamp -> DayKey)
    ensures NoDuplicates(FirstSeenDays(rs, dayOf))
    decreases |rs|
  {
    if rs != [] {
      FirstSeenDaysNoDuplicates(rs[..|rs| - 1], dayOf);
    }
  }

  /**
   * `dates` is in first-seen order: when day `dates[i]` comes before day
   * `dates[j]`, some reading of day `dates[i]` comes before every reading of
   * day `dates[j]`.
   */
  lemma {:induction false} FirstSeenOrder(rs: seq<Reading>, dayOf: Timestamp -> DayKey, i: nat, j: nat, b: nat)
    requires i < j < |FirstSeenDays(rs, dayOf)|
    requires b < |rs| && dayOf(rs[b].timestamp) == FirstSeenDays(rs, dayOf)[j]
    ensures exists a :: 0 <= a < b && dayOf(rs[a].timestamp) == FirstSeenDays(rs, dayOf)[i]
    decreases |rs|
  {
    var n := |rs|;
    var init := rs[..n - 1];
    var seen := FirstSeenDays(init, dayOf);
    var key := dayOf(rs[n - 1].timestamp);
    var ks := FirstSeenDays(rs, dayOf);
    FirstSeenDaysMembers(init, dayOf);
    if b < n - 1 && j < |seen| {
      assert init[b] == rs[b];
      FirstSeenOrder(init, dayOf, i, j, b);
      var a :| 0 <= a < b && dayOf(init[a].timestamp) == seen[i];
      assert rs[a] == init[a];
    } else if key in seen {
      // b is the last reading, and its day was already seen earlier.
      assert b == n - 1;
      var b' :| 0 <= b' < |init| && dayOf(init[b'].timestamp) == key;
      assert init[b'] == rs[b'];
      FirstSeenOrder(init, dayOf, i, j, b');
      var a :| 0 <= a < b' && dayOf(init[a].timestamp) == seen[i];
      assert rs[a] == init[a];
    } else {
      // dates[j] is the newly met day (the key of the last reading, which no
      // earlier reading has), so b is the last reading.
      assert ks[i] == seen[i] && seen[i] in seen;
      var a :| 0 <= a < |init| && dayOf(init[a].timestamp) == seen[i];
      assert rs[a] == init[a];
    }
  }

  /**
   * An accumulator fed with `rs` holds, per channel, the maximum of 0 and
   * every reading's coalesced value: at least 0, at least each value, and
   * either 0 or one of the values.
   */
  lemma {:induction false} PeaksOfIsMax(rs: seq<Reading>, ch: Channel)
    ensures PeaksOf(rs).Get(ch) >= 0.0
    ensures forall i :: 0 <= i < |rs| ==> PeaksOf(rs).Get(ch) >= rs[i].Value(ch)
    ensures PeaksOf(rs).Get(ch) == 0.0 || exists i :: 0 <= i < |rs| && PeaksOf(rs).Get(ch) == rs[i].Value(ch)
    decreases |rs|
  {
    if rs != [] {
      var init := rs[..|rs| - 1];
      PeaksOfIsMax(init, ch);
      forall i | 0 <= i < |init|
        ensures PeaksOf(rs).Get(ch) >= rs[i].Value(ch)
      {
        assert init[i] == rs[i];
      }
      if PeaksOf(rs).Get(ch) != 0.0 && PeaksOf(rs).Get(ch) != rs[|rs| - 1].Value(ch) {
        var i :| 0 <= i < |init| && PeaksOf(init).Get(ch) == init[i].Value(ch);
        assert init[i] == rs[i];
      }
    }
  }

  /**
   * Each `dailyPeaks[key]` channel is the maximum of 0 and that channel's
   * coalesced values over the readings of day `key`.
   */
  lemma DailyPeakIsMax(rs: seq<Reading>, dayOf: Timestamp -> DayKey, key: DayKey, ch: Channel)
    requires key in DailyPeaks(rs, dayOf)
    ensures DailyPeaks(rs, dayOf)[key].Get(ch) >= 0.0
    ensures forall i :: 0 <= i < |rs| && dayOf(rs[i].timestamp) == key ==> DailyPeaks(rs, dayOf)[key].Get(ch) >= rs[i].Value(ch)
    ensures || DailyPeaks(rs, dayOf)[key].Get(ch) == 0.0
            || exists i :: 0 <= i < |rs| && dayOf(rs[i].timestamp) == key && DailyPeaks(rs, dayOf)[key].Get(ch) == rs[i].Value(ch)
  {
    var s := OnDay(rs, dayOf, key);
    var peak := PeaksOf(s).Get(ch);
    OnDayMembers(rs, dayOf, key);
    PeaksOfIsMax(s, ch);
    forall i | 0 <= i < |rs| && dayOf(rs[i].timestamp) == key
      ensures peak >= rs[i].Value(ch)
    {
      assert rs[i] in s;
    }
    if peak != 0.0 {
      var j :| 0 <= j < |s| && peak == s[j].Value(ch);
      assert s[j] in rs;
    }
  }

  /** The all-time peak of a channel is at least that channel's peak on every day. */
  lemma AllTimeDominatesDaily(rs: seq<Reading>, dayOf: Timestamp -> DayKey, key: DayKey, ch: Channel)
    requires key in DailyPeaks(rs, dayOf)
    ensures DailyPeaks(rs, dayOf)[key].Get(ch) <= PeaksOf(rs).Get(ch)
  {
    DailyPeakIsMax(rs, dayOf, key, ch);
    PeaksOfIsMax(rs, ch);
  }

  /** With at least one reading, the all-time peak of a channel is reached on some day. */
  lemma AllTimeIsMaxOfDaily(rs: seq<Reading>, dayOf: Timestamp -> DayKey, ch: Channel)
    requires |rs| > 0
    ensures exists key :: key in DailyPeaks(rs, dayOf) && DailyPeaks(rs, dayOf)[key].Get(ch) == PeaksOf(rs).Get(ch)
  {
    FirstSeenDaysMembers(rs, dayOf);
    PeaksOfIsMax(rs, ch);
    var i := 0;
    if PeaksOf(rs).Get(ch) != 0.0 {
      i :| 0 <= i < |rs| && PeaksOf(rs).Get(ch) == rs[i].Value(ch);
    }
    var key := dayOf(rs[i].timestamp);
    assert key in DailyPeaks(rs, dayOf);
    DailyPeakIsMax(rs, dayOf, key, ch);
    AllTimeDominatesDaily(rs, dayOf, key, ch);
  }

  /** A channel's peak depends only on which readings occur, not on their order or repetition. */
  lemma PeakIgnoresOrder(rs1: seq<Reading>, rs2: seq<Reading>, ch: Channel)
    requires forall x :: x in rs1 <==> x in rs2
    ensures PeaksOf(rs1).Get(ch) == PeaksOf(rs2).Get(ch)
  {
    PeaksOfIsMax(rs1, ch);
    PeaksOfIsMax(rs2, ch);
    var a, b := PeaksOf(rs1).Get(ch), PeaksOf(rs2).Get(ch);
    if b != 0.0 {
      var j :| 0 <= j < |rs2| && b == rs2[j].Value(ch);
      assert rs2[j] in rs1;
    }
    if a != 0.0 {
      var i :| 0 <= i < |rs1| && a == rs1[i].Value(ch);
      assert rs1[i] in rs2;
    }
  }

  /**
   * Permuting the readings leaves every daily accumulator, the set of days
   * and the all-time accumulator unchanged; only the order of `dates` may
   * differ.
   */
  lemma AggregationIgnoresOrder(rs1: seq<Reading>, rs2: seq<Reading>, dayOf: Timestamp -> DayKey)
    requires multiset(rs1) == multiset(rs2)
    ensures PeaksOf(rs1) == PeaksOf(rs2)
    ensures DailyPeaks(rs1, dayOf) == DailyPeaks(rs2, dayOf)
    ensures forall key :: key in FirstSeenDays(rs1, dayOf) <==> key in FirstSeenDays(rs2, dayOf)
  {
    assert forall x :: x in rs1 <==> x in multiset(rs1);
    assert forall x :: x in rs2 <==> x in multiset(rs2);
    forall ch
      ensures PeaksOf(rs1).Get(ch) == PeaksOf(rs2).Get(ch)
    {
      PeakIgnoresOrder(rs1, rs2, ch);
    }
    PeaksExtensional(PeaksOf(rs1), PeaksOf(rs2));
    FirstSeenDaysMembers(rs1, dayOf);
    FirstSeenDaysMembers(rs2, dayOf);
    forall key
      ensures key in FirstSeenDays(rs1, dayOf) <==> key in FirstSeenDays(rs2, dayOf)
    {
      if key in FirstSeenDays(rs1, dayOf) {
        var i :| 0 <= i < |rs1| && dayOf(rs1[i].timestamp) == key;
        assert rs1[i] in rs2;
      }
      if key in FirstSeenDays(rs2, dayOf) {
        var i :| 0 <= i < |rs2| && dayOf(rs2[i].timestamp) == key;
        assert rs2[i] in rs1;
      }
    }
    forall key | key in FirstSeenDays(rs1, dayOf)
      ensures PeaksOf(OnDay(rs1, dayOf, key)) == PeaksOf(OnDay(rs2, dayOf, key))
    {
      var s1, s2 := OnDay(rs1, dayOf, key), OnDay(rs2, dayOf, key);
      OnDayMembers(rs1, dayOf, key);
      OnDayMembers(rs2, dayOf, key);
      forall ch
        ensures PeaksOf(s1).Get(ch) == PeaksOf(s2).Get(ch)
      {
        PeakIgnoresOrder(s1, s2, ch);
      }
      PeaksExtensional(PeaksOf(s1), PeaksOf(s2));
    }
  }

  /**
   * The report route fetches readings newest first; then `dates` runs from
   * the newest day back: for two listed days, the earlier-listed one has a
   * reading at least as new as every reading of the later-listed one.
   */
  lemma NewestDayFirst(rs: seq<Reading>, dayOf: Timestamp -> DayKey, i: nat, j: nat)
    requires forall a, b :: 0 <= a < b < |rs| ==> rs[a].timestamp >= rs[b].timestamp
    requires i < j < |FirstSeenDays(rs, dayOf)|
    ensures forall b :: 0 <= b < |rs| && dayOf(rs[b].timestamp) == FirstSeenDays(rs, dayOf)[j] ==>
              exists a :: 0 <= a < |rs| && dayOf(rs[a].timestamp) == FirstSeenDays(rs, dayOf)[i] && rs[a].timestamp >= rs[b].timestamp
  {
    forall b | 0 <= b < |rs| && dayOf(rs[b].timestamp) == FirstSeenDays(rs, dayOf)[j]
      ensures exists a :: 0 <= a < |rs| && dayOf(rs[a].timestamp) == FirstSeenDays(rs, dayOf)[i] && rs[a].timestamp >= rs[b].timestamp
    {
      FirstSeenOrder(rs, dayOf, i, j, b);
    }
  }
}
