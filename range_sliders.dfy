/**
 * The minimum and maximum RAM range sliders of the settings screen:
 * `calculateRangeSliderMeta` (settings.js:1045-1054), `updateRangedSlider`
 * (settings.js:1089-1117) and the two `onchange` handlers that keep
 * min <= max (settings.js:996-1043). Slider values are exact reals in
 * gigabytes; labels hold the number that `toFixed(1) + 'G'` displays.
 *
 * `updateRangedSlider` sets the new value, then dispatches a cancellable
 * change event, which runs the slider's `onchange` handler at once, and
 * only afterwards moves the track or, if the event was cancelled, restores
 * the old value. A handler that finds the sliders crossed calls
 * `updateRangedSlider` on the other slider, whose own dispatch is cancelled
 * or not independently; `nestedCancelled` is that outcome.
 */
module RangeSliders {
  /** The numbers `calculateRangeSliderMeta` reads off a slider element. */
  datatype SliderMeta = SliderMeta(min: real, max: real, step: real) {
    predicate Sound() {
      step > 0.0 && max > min
    }

    /** The number of steps between min and max. */
    function Ticks(): (t: real)
      requires Sound()
      ensures t > 0.0
    {
      (max - min) / step
    }

    /** The width of one step, in percent of the track. */
    function Inc(): real
      requires Sound()
    {
      100.0 / Ticks()
    }

    /** The notch position the handlers compute for a value: `((v-min)/step)*inc`. */
    function NotchOf(v: real): real
      requires Sound()
    {
      ((v - min) / step) * Inc()
    }
  }

  /** The notch is the value's position between min and max, in percent. */
  lemma NotchIsProportion(meta: SliderMeta, v: real)
    requires meta.Sound()
    ensures meta.NotchOf(v) * (meta.max - meta.min) == 100.0 * (v - meta.min)
  {
    var d := meta.max - meta.min;
    var t := meta.Ticks();
    assert t * meta.step == d;
    assert meta.Inc() * t == 100.0;
    var k := (v - meta.min) / meta.step;
    assert k * meta.step == v - meta.min;
    calc {
      meta.NotchOf(v) * d;
      (k * meta.Inc()) * (t * meta.step);
      (meta.Inc() * t) * (k * meta.step);
      100.0 * (v - meta.min);
    }
  }

  /** Scaling both sides of an inequality by the same positive factor. */
  lemma CancelPositiveFactor(a: real, b: real, d: real)
    requires d > 0.0 && a * d <= b * d
    ensures a <= b
  {
  }

  /** min sits at notch 0, max at notch 100, and every value between them inside the track. */
  lemma NotchBounds(meta: SliderMeta, v: real)
    requires meta.Sound()
    ensures v == meta.min ==> meta.NotchOf(v) == 0.0
    ensures v == meta.max ==> meta.NotchOf(v) == 100.0
    ensures meta.min <= v <= meta.max ==> 0.0 <= meta.NotchOf(v) <= 100.0
  {
    NotchIsProportion(meta, v);
    var d := meta.max - meta.min;
    var n := meta.NotchOf(v);
    if meta.min <= v <= meta.max {
      CancelPositiveFactor(0.0, n, d);
      CancelPositiveFactor(n, 100.0, d);
    }
  }

  /** A larger value never sits at a smaller notch. */
  lemma NotchMonotone(meta: SliderMeta, v: real, w: real)
    requires meta.Sound() && v <= w
    ensures meta.NotchOf(v) <= meta.NotchOf(w)
  {
    NotchIsProportion(meta, v);
    NotchIsProportion(meta, w);
    CancelPositiveFactor(meta.NotchOf(v), meta.NotchOf(w), meta.max - meta.min);
  }

  /** The notch clamped into the track, as `updateRangedSlider` does. */
  function Clamp(n: real): (r: real)
    ensures 0.0 <= r <= 100.0
    // a notch inside the track is kept, one outside moves to the nearer end
    ensures 0.0 <= n <= 100.0 ==> r == n
    ensures n < 0.0 ==> r == 0.0
    ensures n > 100.0 ==> r == 100.0
  {
    if n < 0.0 then 0.0 else if n > 100.0 then 100.0 else n
  }

  datatype Side = MinRam | MaxRam {
    function Other(): Side {
      if this == MinRam then MaxRam else MinRam
    }
  }

  /** The value, track notch and label of both sliders. */
  datatype Sliders = Sliders(minValue: real, maxValue: real, minNotch: real, maxNotch: real,
                             minLabel: real, maxLabel: real)
  {
    function ValueOf(side: Side): real {
      if side == MinRam then minValue else maxValue
    }

    function NotchAt(side: Side): real {
      if side == MinRam then minNotch else maxNotch
    }

    function LabelOf(side: Side): real {
      if side == MinRam then minLabel else maxLabel
    }

    function WithValue(side: Side, v: real): Sliders {
      if side == MinRam then this.(minValue := v) else this.(maxValue := v)
    }

    function WithNotch(side: Side, n: real): Sliders {
      if side == MinRam then this.(minNotch := n) else this.(maxNotch := n)
    }

    function WithLabel(side: Side, v: real): Sliders {
      if side == MinRam then this.(minLabel := v) else this.(maxLabel := v)
    }

    /** The test both handlers make: `sMaxV < sMinV`. */
    predicate Crossed() {
      maxValue < minValue
    }

    predicate Ordered() {
      minValue <= maxValue
    }

    predicate NotchesInTrack() {
      0.0 <= minNotch <= 100.0 && 0.0 <= maxNotch <= 100.0
    }
  }

  /**
   * The `onchange` handler of `side`: when the sliders are crossed it moves
   * the other slider to this slider's value and relabels it; it always
   * relabels this slider.
   */
  function OnChange(meta: SliderMeta, s: Sliders, side: Side, nestedCancelled: bool): Sliders
    requires meta.Sound()
    decreases if s.Crossed() then 1 else 0, 1
  {
    var v := s.ValueOf(side);
    var s1 :=
      if s.Crossed() then
        UpdateSlider(meta, s, side.Other(), v, meta.NotchOf(v), nestedCancelled, nestedCancelled)
          .WithLabel(side.Other(), v)
      else s;
    s1.WithLabel(side, v)
  }

  /** `updateRangedSlider` on `side`, with the dispatch's outcome as `cancelled`. */
  function UpdateSlider(meta: SliderMeta, s: Sliders, side: Side, value: real, notch: real,
                        cancelled: bool, nestedCancelled: bool): Sliders
    requires meta.Sound()
    decreases if s.WithValue(side, value).Crossed() then 1 else 0, 2
  {
    var oldValue := s.ValueOf(side);
    var s1 := s.WithValue(side, value);
    var n := Clamp(notch);
    var s2 := OnChange(meta, s1, side, nestedCancelled);
    if cancelled then s2.WithValue(side, oldValue) else s2.WithNotch(side, n)
  }

  /** The nested update a handler makes never crosses the sliders again, so its own handler only relabels. */
  lemma NestedUpdate(meta: SliderMeta, s: Sliders, side: Side, c: bool)
    requires meta.Sound()
    ensures var v := s.ValueOf(side);
      var r := UpdateSlider(meta, s, side.Other(), v, meta.NotchOf(v), c, c);
      r == (if c then s else s.WithValue(side.Other(), v).WithNotch(side.Other(), Clamp(meta.NotchOf(v))))
             .WithLabel(side.Other(), v)
  {
    var v := s.ValueOf(side);
    var s1 := s.WithValue(side.Other(), v);
    assert !s1.Crossed();
    assert OnChange(meta, s1, side.Other(), c) == s1.WithLabel(side.Other(), v);
  }

  /**
   * What one `updateRangedSlider` call on `side` does: an accepted change
   * keeps the value and the clamped notch, a cancelled one restores the old
   * value and leaves the track; the slider is relabelled either way; and the
   * other slider moves to the new value exactly when the new value crosses
   * it, unless that nested change is itself cancelled.
   */
  lemma UpdateSliderEffect(meta: SliderMeta, s: Sliders, side: Side, value: real, notch: real,
                           cancelled: bool, nestedCancelled: bool)
    requires meta.Sound()
    ensures var r := UpdateSlider(meta, s, side, value, notch, cancelled, nestedCancelled);
      var o := side.Other();
      && r.ValueOf(side) == (if cancelled then s.ValueOf(side) else value)
      && r.NotchAt(side) == (if cancelled then s.NotchAt(side) else Clamp(notch))
      && r.LabelOf(side) == value
      && (s.WithValue(side, value).Crossed() ==>
            && r.ValueOf(o) == (if nestedCancelled then s.ValueOf(o) else value)
            && r.NotchAt(o) == (if nestedCancelled then s.NotchAt(o) else Clamp(meta.NotchOf(value)))
            && r.LabelOf(o) == value)
      && (!s.WithValue(side, value).Crossed() ==>
            r.ValueOf(o) == s.ValueOf(o) && r.NotchAt(o) == s.NotchAt(o) && r.LabelOf(o) == s.LabelOf(o))
  {
    var s1 := s.WithValue(side, value);
    if s1.Crossed() {
      NestedUpdate(meta, s1, side, nestedCancelled);
    }
  }

  /**
   * Min <= max after any change whose nested update is accepted: an
   * accepted change pulls the other slider along, and a cancelled one
   * restores a value that was already in order.
   */
  lemma UpdateKeepsOrder(meta: SliderMeta, s: Sliders, side: Side, value: real, notch: real,
                         cancelled: bool, nestedCancelled: bool)
    requires meta.Sound()
    requires !cancelled || s.Ordered()
    requires !nestedCancelled
    ensures UpdateSlider(meta, s, side, value, notch, cancelled, nestedCancelled).Ordered()
  {
    UpdateSliderEffect(meta, s, side, value, notch, cancelled, nestedCancelled);
  }

  /** A cancelled nested update can leave the sliders crossed. */
  lemma CancelledNestedUpdateLeavesCrossed()
    ensures var meta := SliderMeta(1.0, 8.0, 0.5);
      var s := Sliders(2.0, 4.0, 0.0, 0.0, 2.0, 4.0);
      UpdateSlider(meta, s, MinRam, 6.0, 0.0, false, true).Crossed()
  {
    var meta := SliderMeta(1.0, 8.0, 0.5);
    var s := Sliders(2.0, 4.0, 0.0, 0.0, 2.0, 4.0);
    UpdateSliderEffect(meta, s, MinRam, 6.0, 0.0, false, true);
  }

  /** The tracks never leave [0, 100]. */
  lemma UpdateKeepsNotchesInTrack(meta: SliderMeta, s: Sliders, side: Side, value: real, notch: real,
                                  cancelled: bool, nestedCancelled: bool)
    requires meta.Sound() && s.NotchesInTrack()
    ensures UpdateSlider(meta, s, side, value, notch, cancelled, nestedCancelled).NotchesInTrack()
  {
    UpdateSliderEffect(meta, s, side, value, notch, cancelled, nestedCancelled);
  }

  /** A cancelled change that crosses nothing changes only the slider's label. */
  lemma CancelledChangeRestores(meta: SliderMeta, s: Sliders, side: Side, value: real, notch: real,
                                nestedCancelled: bool)
    requires meta.Sound()
    requires !s.WithValue(side, value).Crossed()
    ensures UpdateSlider(meta, s, side, value, notch, true, nestedCancelled) == s.WithLabel(side, value)
  {
    UpdateSliderEffect(meta, s, side, value, notch, true, nestedCancelled);
  }

  /** The two RAM sliders as the settings screen holds them. */
  class RamSliders {
    const meta: SliderMeta
    var minValue: real
    var maxValue: real
    var minNotch: real
    var maxNotch: real
    var minLabel: real
    var maxLabel: real

    function Snapshot(): Sliders
      reads this
    {
      Sliders(minValue, maxValue, minNotch, maxNotch, minLabel, maxLabel)
    }

    constructor (meta: SliderMeta, s: Sliders)
      ensures this.meta == meta && Snapshot() == s
    {
      this.meta := meta;
      minValue, maxValue := s.minValue, s.maxValue;
      minNotch, maxNotch := s.minNotch, s.maxNotch;
      minLabel, maxLabel := s.minLabel, s.maxLabel;
    }

    method SetValue(side: Side, v: real)
      modifies this
      ensures Snapshot() == old(Snapshot()).WithValue(side, v)
    {
      if side == MinRam { minValue := v; } else { maxValue := v; }
    }

    method SetLabel(side: Side, v: real)
      modifies this
      ensures Snapshot() == old(Snapshot()).WithLabel(side, v)
    {
      if side == MinRam { minLabel := v; } else { maxLabel := v; }
    }

    /** `settingsMinRAMRange.onchange` / `settingsMaxRAMRange.onchange`. */
    method HandleChange(side: Side, nestedCancelled: bool)
      requires meta.Sound()
      modifies this
      decreases if Snapshot().Crossed() then 1 else 0, 1
      ensures Snapshot() == OnChange(meta, old(Snapshot()), side, nestedCancelled)
    {
      var sMax, sMin := maxValue, minValue;
      var v := if side == MinRam then sMin else sMax;
      if sMax < sMin {
        UpdateRangedSlider(side.Other(), v, meta.NotchOf(v), nestedCancelled, nestedCancelled);
        SetLabel(side.Other(), v);
      }
      SetLabel(side, v);
    }

    /** `updateRangedSlider`; `cancelled` is what the dispatch of the change event returned. */
    method UpdateRangedSlider(side: Side, value: real, notch: real, cancelled: bool, nestedCancelled: bool)
      requires meta.Sound()
      modifies this
      decreases if Snapshot().WithValue(side, value).Crossed() then 1 else 0, 2
      ensures Snapshot() == UpdateSlider(meta, old(Snapshot()), side, value, notch, cancelled, nestedCancelled)
    {
      var oldValue := if side == MinRam then minValue else maxValue;
      SetValue(side, value);
      var n := Clamp(notch);
      HandleChange(side, nestedCancelled);
      if cancelled {
        SetValue(side, oldValue);
      } else if side == MinRam {
        minNotch := n;
      } else {
        maxNotch := n;
      }
    }
  }
}
