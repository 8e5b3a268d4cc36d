/**
 * What one dashboard refresh does to the peak map, field by field.
 */
module LiveDashboardProperties {
  import opened Wrappers
  import opened LiveDashboard
  import opened Sequences

  lemma FieldsAreDistinct()
    ensures NoDuplicates(Fields)
  {
  }

  /** A refresh over distinct fields gives each listed field its own new peak and leaves every other key alone. */
  lemma {:induction false} UpdatedPeaksAt(peaks: map<string, real>, fs: seq<string>, data: map<string, JsonValue>, elements: set<string>, f: string)
    requires NoDuplicates(fs)
    ensures Lookup(UpdatedPeaks(peaks, fs, data, elements), f)
         == if f in fs then PeakAfter(Lookup(peaks, f), Lookup(data, f), f in elements) else Lookup(peaks, f)
    decreases |fs|
  {
    if fs != [] {
      var init, last := fs[..|fs| - 1], fs[|fs| - 1];
      assert fs == init + [last];
      UpdatedPeaksAt(peaks, init, data, elements, f);
      assert last !in init;
    }
  }

  /** The seed the refresh compares against: the old peak, or 0 when unset. */
  function Seed(peaks: map<string, real>, f: string): real {
    if f in peaks then peaks[f] else 0.0
  }

  /** A shown field with a numeric value gets the larger of its seed and that value. */
  lemma NumericValueRaisesPeak(peaks: map<string, real>, data: map<string, JsonValue>, elements: set<string>, f: string, v: real)
    requires f in Fields && f in elements && Lookup(data, f) == Some(JsonNumber(v))
    ensures var updated := UpdatedPeaks(peaks, Fields, data, elements);
      && f in updated
      && updated[f] >= Seed(peaks, f) && updated[f] >= v
      && (updated[f] == Seed(peaks, f) || updated[f] == v)
  {
    FieldsAreDistinct();
    UpdatedPeaksAt(peaks, Fields, data, elements, f);
  }

  /** An undefined value, or a field without an element on the page, leaves that peak as it was. */
  lemma UndefinedValueKeepsPeak(peaks: map<string, real>, data: map<string, JsonValue>, elements: set<string>, f: string)
    requires f !in data || f !in elements
    ensures Lookup(UpdatedPeaks(peaks, Fields, data, elements), f) == Lookup(peaks, f)
  {
    FieldsAreDistinct();
    UpdatedPeaksAt(peaks, Fields, data, elements, f);
  }

  /** A `null` value passes the guard and seeds the peak, but parses to NaN and never raises it. */
  lemma NullValueOnlySeeds(peaks: map<string, real>, data: map<string, JsonValue>, elements: set<string>, f: string)
    requires f in Fields && f in elements && Lookup(data, f) == Some(JsonNull)
    ensures Lookup(UpdatedPeaks(peaks, Fields, data, elements), f) == Some(Seed(peaks, f))
  {
    FieldsAreDistinct();
    UpdatedPeaksAt(peaks, Fields, data, elements, f);
  }

  /** Keys outside the twelve fields are never touched. */
  lemma UntrackedKeysUnchanged(peaks: map<string, real>, data: map<string, JsonValue>, elements: set<string>, f: string)
    requires f !in Fields
    ensures Lookup(UpdatedPeaks(peaks, Fields, data, elements), f) == Lookup(peaks, f)
  {
    FieldsAreDistinct();
    UpdatedPeaksAt(peaks, Fields, data, elements, f);
  }

  /** A refresh never lowers or removes a peak. */
  lemma PeaksNeverDecrease(peaks: map<string, real>, data: map<string, JsonValue>, elements: set<string>, f: string)
    requires f in peaks
    ensures var updated := UpdatedPeaks(peaks, Fields, data, elements);
      f in updated && updated[f] >= peaks[f]
  {
    FieldsAreDistinct();
    UpdatedPeaksAt(peaks, Fields, data, elements, f);
  }

  /** The first reading of a field with a negative value leaves its peak at 0, not at that value. */
  lemma NegativeFirstValueGivesZero(peaks: map<string, real>, data: map<string, JsonValue>, elements: set<string>, f: string, v: real)
    requires f in Fields && f !in peaks && f in elements && Lookup(data, f) == Some(JsonNumber(v)) && v < 0.0
    ensures Lookup(UpdatedPeaks(peaks, Fields, data, elements), f) == Some(0.0)
  {
    FieldsAreDistinct();
    UpdatedPeaksAt(peaks, Fields, data, elements, f);
  }
}
