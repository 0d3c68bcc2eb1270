/**
 * The volume controls of the editor window: a slider and a text field kept
 * in step with each other.
 *
 * The two slots of the window are modelled together with the Qt signals that
 * connect them: setting the slider emits `valueChanged` (only when the value
 * really changes), which runs the slot that rewrites the text; setting the
 * text emits `textChanged` (only when the text really changes), which runs
 * the slot that reads the text back into the slider. The `updating` flag is
 * what stops that cycle.
 */
module Volume {
  import opened Text

  /** `max(lo, min(v, hi))`: the value of the range nearest to `v`. */
  function Clamp(v: int, lo: int, hi: int): (r: int)
    requires lo <= hi
    ensures lo <= r <= hi
    ensures lo <= v <= hi ==> r == v
    ensures v < lo ==> r == lo
    ensures v > hi ==> r == hi
  {
    var upper := if v < hi then v else hi;
    if lo > upper then lo else upper
  }

  /** The slider value after the text field is set to `s`. */
  function EditedSlider(s: string, slider: int, lo: int, hi: int): int
    requires lo <= hi
  {
    if IsDigits(s) then Clamp(DigitsValue(s), lo, hi) else slider
  }

  /**
   * The text after the text field is set to `s`: kept when it is not a
   * number or names the value the slider already had; otherwise rewritten to
   * the decimal form of the new slider value.
   */
  function EditedText(s: string, slider: int, lo: int, hi: int): string
    requires lo <= hi
  {
    if !IsDigits(s) then s
    else if lo <= DigitsValue(s) <= hi && DigitsValue(s) == slider then s
    else IntToString(Clamp(DigitsValue(s), lo, hi))
  }

  /** The text field shows the slider's value as a number. */
  predicate Synced(text: string, slider: int) {
    IsDigits(text) && DigitsValue(text) == slider
  }

  /**
   * Typing a number leaves the slider inside its range and, when that range
   * reaches the non-negative numbers, the two widgets in step; typing anything else, the empty string included, changes
   * neither the slider nor the typed text.
   */
  lemma EditSyncs(s: string, slider: int, lo: int, hi: int)
    requires lo <= hi
    ensures lo <= slider <= hi ==> lo <= EditedSlider(s, slider, lo, hi) <= hi
    ensures IsDigits(s) && 0 <= hi ==> Synced(EditedText(s, slider, lo, hi), EditedSlider(s, slider, lo, hi))
    ensures !IsDigits(s) ==> EditedSlider(s, slider, lo, hi) == slider && EditedText(s, slider, lo, hi) == s
  {
    if IsDigits(s) {
      var v := DigitsValue(s);
      if !(lo <= v <= hi && v == slider) {
        var c := Clamp(v, lo, hi);
        if c >= 0 {
          NatToStringRoundTrip(c);
        }
      }
    }
  }

  /**
   * A number typed in plain decimal form inside the range is kept as typed,
   * and the slider takes exactly that value.
   */
  lemma CanonicalEditKept(s: string, slider: int, lo: int, hi: int)
    requires lo <= hi
    requires IsDigits(s) && (|s| == 1 || s[0] != '0') && lo <= DigitsValue(s) <= hi
    ensures EditedText(s, slider, lo, hi) == s
    ensures EditedSlider(s, slider, lo, hi) == DigitsValue(s)
  {
    CanonicalDigits(s);
  }

  /** Setting the text to what an edit left behind changes nothing more. */
  lemma EditIdempotent(s: string, slider: int, lo: int, hi: int)
    requires lo <= hi
    ensures EditedSlider(EditedText(s, slider, lo, hi), EditedSlider(s, slider, lo, hi), lo, hi)
      == EditedSlider(s, slider, lo, hi)
    ensures EditedText(EditedText(s, slider, lo, hi), EditedSlider(s, slider, lo, hi), lo, hi)
      == EditedText(s, slider, lo, hi)
  {
    EditSyncs(s, slider, lo, hi);
  }

  /**
   * What the slider slot writes for a non-negative value is a digit string
   * that the text slot reads back as the same value.
   */
  lemma LcdRoundTrip(value: int)
    requires value >= 0
    ensures IsDigits(IntToString(value)) && DigitsValue(IntToString(value)) == value
  {
    NatToStringRoundTrip(value);
  }

  /** The slider, its text field and the re-entrancy flag of the editor window. */
  class VolumeControl {
    const minimum: int
    const maximum: int
    var sliderValue: int
    var text: string
    var updating: bool

    /** Qt keeps a slider's value inside its range. */
    ghost predicate Valid()
      reads this
    {
      minimum <= maximum && minimum <= sliderValue <= maximum
    }

    /** The window shows the slider's initial value before any signal is connected. */
    constructor (minimum: int, maximum: int, value: int)
      requires minimum <= value <= maximum
      ensures Valid()
      ensures this.minimum == minimum && this.maximum == maximum
      ensures sliderValue == value && text == IntToString(value) && !updating
    {
      this.minimum := minimum;
      this.maximum := maximum;
      sliderValue := value;
      text := IntToString(value);
      updating := false;
    }

    /** `QSlider.setValue`: clamps into range and emits `valueChanged` on a change. */
    method SetSliderValue(value: int)
      requires Valid()
      modifies this
      ensures Valid() && updating == old(updating)
      ensures sliderValue == Clamp(value, minimum, maximum)
      ensures sliderValue == old(sliderValue) ==> text == old(text)
      ensures sliderValue != old(sliderValue) ==> text == IntToString(sliderValue)
      decreases if updating then 0 else 1, 3
    {
      var bounded := Clamp(value, minimum, maximum);
      if bounded != sliderValue {
        sliderValue := bounded;
        UpdateVolumeLcd(bounded);
      }
    }

    /** The slot run on `valueChanged`: `setText(str(value))`. */
    method UpdateVolumeLcd(value: int)
      requires Valid() && value == sliderValue
      modifies this
      ensures Valid() && updating == old(updating)
      ensures sliderValue == old(sliderValue) && text == IntToString(value)
      decreases if updating then 0 else 1, 2
    {
      if value >= 0 {
        LcdRoundTrip(value);
      }
      SetText(IntToString(value));
    }

    /** `QLineEdit.setText`: emits `textChanged` when the text changes. */
    method SetText(s: string)
      requires Valid()
      modifies this
      ensures Valid() && updating == old(updating)
      ensures s == old(text) ==> text == old(text) && sliderValue == old(sliderValue)
      ensures s != old(text) && old(updating) ==> text == s && sliderValue == old(sliderValue)
      ensures s != old(text) && !old(updating) ==>
        text == EditedText(s, old(sliderValue), minimum, maximum) &&
        sliderValue == EditedSlider(s, old(sliderValue), minimum, maximum)
      decreases if updating then 0 else 1, 1
    {
      if s != text {
        text := s;
        UpdateVolumeSlider();
      }
    }

    /**
     * The slot run on `textChanged`. A re-entrant call changes nothing; the
     * outer call reads the text, moves the slider to the number it names
     * (clamped into range, rewriting the text when it had to clamp) and
     * clears the flag again.
     */
    method UpdateVolumeSlider()
      requires Valid()
      modifies this
      ensures Valid() && updating == old(updating)
      ensures old(updating) ==> text == old(text) && sliderValue == old(sliderValue)
      ensures !old(updating) ==>
        text == EditedText(old(text), old(sliderValue), minimum, maximum) &&
        sliderValue == EditedSlider(old(text), old(sliderValue), minimum, maximum)
      decreases if updating then 0 else 1, 0
    {
      if !updating {
        updating := true;
        var current := text;
        if IsDigits(current) {
          var value := DigitsValue(current);
          if minimum <= value <= maximum {
            SetSliderValue(value);
          } else {
            value := Clamp(value, minimum, maximum);
            SetSliderValue(value);
            SetText(IntToString(value));
          }
        }
        updating := false;
      }
    }
  }
}
