/**
 * The settings screen: the frequency slider (option index to value and back) and the
 * option groups, each of which replaces one field of the configuration.
 */
module WorkoutSettings {
  import opened Wrappers
  import opened JsStrings
  import opened EquipmentData

  /** The configuration record this screen declares. */
  datatype WorkoutConfig = WorkoutConfig(frequency: string, split: string, focus: string, experienceLevel: string)

  /** `options.findIndex((opt) => opt.value === value)`: the first matching index, or -1. */
  function FindIndex(options: seq<SelectOption>, value: string): (i: int)
    ensures -1 <= i < |options|
    ensures i >= 0 ==> options[i].value == value && forall j :: 0 <= j < i ==> options[j].value != value
    ensures i == -1 <==> forall j :: 0 <= j < |options| ==> options[j].value != value
  {
    if options == [] then -1
    else if options[0].value == value then 0
    else
      var rest := FindIndex(options[1..], value);
      if rest == -1 then -1 else rest + 1
  }

  /** The slider position: the first index holding the value, or 0 when the value is not an option. */
  function SliderValue(options: seq<SelectOption>, value: string): (n: nat)
    ensures options != [] ==> n <= |options| - 1
    ensures n > 0 ==> n < |options| && options[n].value == value
    ensures (forall j :: 0 <= j < |options| ==> options[j].value != value) ==> n == 0
    ensures (exists j :: 0 <= j < |options| && options[j].value == value) ==>
      options[n].value == value && forall j :: 0 <= j < n ==> options[j].value != value
  {
    var i := FindIndex(options, value);
    if i >= 0 then i else 0
  }

  const IndexOutOfRange := "TypeError: cannot read properties of undefined (reading 'value')"

  /**
   * `handleSliderChange`: the option value at the index the slider reports as text; an
   * index outside the options makes the source throw.
   */
  function SliderChange(options: seq<SelectOption>, text: string): (r: Result<string>)
    ensures r.Success? <==> (ParseInt(text).Some? && 0 <= ParseInt(text).value < |options|)
    ensures r.Success? ==> r.value == options[ParseInt(text).value].value
  {
    match ParseInt(text)
    case Some(i) => if 0 <= i < |options| then Success(options[i].value) else Failure(IndexOutOfRange)
    case None => Failure(IndexOutOfRange)
  }

  /** The slider reports position `i` as its decimal text, which selects option `i`. */
  lemma SliderAt(options: seq<SelectOption>, i: nat)
    requires i < |options|
    ensures SliderChange(options, IntToString(i)) == Success(options[i].value)
  {
    ParseIntToString(i);
  }

  /**
   * Moving the slider to where it already is emits the current value, or the first
   * option's value when the current value is not an option.
   */
  lemma SliderRoundTrip(options: seq<SelectOption>, value: string)
    requires options != []
    ensures SliderChange(options, IntToString(SliderValue(options, value)))
         == Success(if value in Values(options) then value else options[0].value)
  {
    var n := SliderValue(options, value);
    assert SliderChange(options, IntToString(n)) == Success(options[n].value) by { SliderAt(options, n); }
    if value in Values(options) {
      var j :| 0 <= j < |options| && Values(options)[j] == value;
      assert options[j].value == value;
      assert options[n].value == value;
    } else {
      assert forall j :: 0 <= j < |options| ==> options[j].value == Values(options)[j];
      assert n == 0;
    }
  }

  /** Over distinct values, the value a position emits brings the slider back to that position. */
  lemma SliderFindsPosition(options: seq<SelectOption>, i: nat)
    requires i < |options| && Distinct(Values(options))
    ensures SliderValue(options, options[i].value) == i
  {
    var v := options[i].value;
    var k := FindIndex(options, v);
    assert k != -1;
    assert Values(options)[k] == v == Values(options)[i];
  }

  /** `options[currentIndex]?.label || options[0].label`: None where the source throws (no options at all). */
  function ShownCaption(options: seq<SelectOption>, value: string): (r: Option<string>)
    ensures r.None? <==> options == []
    ensures r.Some? && FindIndex(options, value) >= 0 && options[FindIndex(options, value)].caption != ""
        ==> r.value == options[FindIndex(options, value)].caption
    ensures r.Some? && (FindIndex(options, value) == -1 || options[FindIndex(options, value)].caption == "")
        ==> r.value == options[0].caption
  {
    var i := FindIndex(options, value);
    if i >= 0 && options[i].caption != "" then Some(options[i].caption)
    else if options == [] then None
    else Some(options[0].caption)
  }

  /** The frequency slider stands at position n - 1 for a frequency of n, and shows "주 n회". */
  lemma FrequencySlider(n: nat)
    requires 1 <= n <= 7
    ensures SliderValue(FrequencyOptions, IntToString(n)) == n - 1
    ensures ShownCaption(FrequencyOptions, IntToString(n)) == Some("주 " + IntToString(n) + "회")
  {
    var options, v := FrequencyOptions, IntToString(n);
    assert |options| == 7 && v == options[n - 1].value by {
      FrequencyOptionValues();
    }
    assert FindIndex(options, v) == n - 1 by {
      FrequencyValuesDistinct();
      SliderFindsPosition(options, n - 1);
    }
    FrequencyCaption(n - 1);
  }

  /** Each frequency option is captioned "주 {value}회". */
  lemma FrequencyCaption(i: nat)
    requires i < 7
    ensures |FrequencyOptions| == 7 && FrequencyOptions[i].caption == "주 " + FrequencyOptions[i].value + "회"
  {
    if i == 0 {} else if i == 1 {} else if i == 2 {} else if i == 3 {} else if i == 4 {} else if i == 5 {} else {}
  }

  /** The frequency values are distinct: each is the single digit of its own number. */
  lemma FrequencyValuesDistinct()
    ensures Distinct(Values(FrequencyOptions))
  {
    FrequencyOptionDigits();
    var values := Values(FrequencyOptions);
    forall i, j | 0 <= i < j < |values| ensures values[i] != values[j] {
      assert DigitValue(values[i][0]) == i + 1 && DigitValue(values[j][0]) == j + 1;
    }
  }

  // The settings and the single-field update each group makes.

  datatype Setting = Frequency | Split | Focus | ExperienceLevel

  /** The field a setting reads. */
  function SettingOf(config: WorkoutConfig, setting: Setting): string {
    match setting
    case Frequency => config.frequency
    case Split => config.split
    case Focus => config.focus
    case ExperienceLevel => config.experienceLevel
  }

  /** `onConfigChange({ ...config, [field]: value })`. */
  function Changed(config: WorkoutConfig, setting: Setting, value: string): (r: WorkoutConfig)
    ensures SettingOf(r, setting) == value
    ensures forall other :: other != setting ==> SettingOf(r, other) == SettingOf(config, other)
  {
    match setting
    case Frequency => config.(frequency := value)
    case Split => config.(split := value)
    case Focus => config.(focus := value)
    case ExperienceLevel => config.(experienceLevel := value)
  }

  /** A change sets its own field to the new value and leaves the other fields as they were. */
  lemma ChangeSetsOneField(config: WorkoutConfig, setting: Setting, value: string, other: Setting)
    ensures SettingOf(Changed(config, setting, value), setting) == value
    ensures other != setting ==> SettingOf(Changed(config, setting, value), other) == SettingOf(config, other)
  {
  }

  /** Choosing the value already chosen changes nothing, and a later change of the same field overrides an earlier one. */
  lemma ChangeLaws(config: WorkoutConfig, setting: Setting, a: string, b: string)
    ensures Changed(config, setting, SettingOf(config, setting)) == config
    ensures Changed(Changed(config, setting, a), setting, b) == Changed(config, setting, b)
  {
  }
}
