/** The feature extractor for `rotator_features.h`: splits the preprocessor's define table by
    name prefix into features, options and languages, computes the active names, and groups the
    features into the fixed user-interface categories. */
module Features {
  import opened Wrappers
  import opened Strings
  import opened Dicts
  import opened Seqs
  import opened Preprocessor
  import opened Groups

  datatype FeatureConfig = FeatureConfig(
    features: Dict<string, DefineNode>,
    options: Dict<string, DefineNode>,
    languages: Dict<string, DefineNode>,
    categories: seq<Group>,
    activeFeatures: set<string>,
    activeOptions: set<string>)

  // ---------------------------------------------------------------------------------------
  // Splitting the define table
  // ---------------------------------------------------------------------------------------

  datatype Kind = FeatureName | OptionName | LanguageName | OtherName

  /** The table a define goes into, testing the prefixes in the parser's order. */
  function KindOf(name: string): Kind {
    if StartsWith(name, "FEATURE_") then FeatureName
    else if StartsWith(name, "OPTION_") then OptionName
    else if StartsWith(name, "LANGUAGE_") then LanguageName
    else OtherName
  }

  /** The filter that sends a define to the table of the given kind. */
  function OfKind(kind: Kind): string -> bool {
    name => KindOf(name) == kind
  }

  /** The split loop stores the preprocessor's node itself. */
  function Same(define: DefineNode): DefineNode {
    define
  }

  /** The table of the given kind after the split loop of `parse()`. */
  function AbsorbAll(d: Dict<string, DefineNode>, src: Dict<string, DefineNode>, kind: Kind): Dict<string, DefineNode> {
    Collect(d, src, OfKind(kind), Same, |src.keys|)
  }

  /** On a fresh parser the three tables take exactly the defines with their prefix, with the
      preprocessor's nodes, and no name lands in two tables. */
  lemma FreshSplit(src: Dict<string, DefineNode>)
    ensures var f := AbsorbAll(Empty(), src, FeatureName);
      var o := AbsorbAll(Empty(), src, OptionName);
      var l := AbsorbAll(Empty(), src, LanguageName);
      && (forall k :: k in f.values <==> k in src.values && StartsWith(k, "FEATURE_"))
      && (forall k :: k in o.values <==> k in src.values && StartsWith(k, "OPTION_"))
      && (forall k :: k in l.values <==> k in src.values && StartsWith(k, "LANGUAGE_"))
      && (forall k | k in f.values :: f.values[k] == src.values[k])
      && (forall k | k in o.values :: o.values[k] == src.values[k])
      && (forall k | k in l.values :: l.values[k] == src.values[k])
      && (forall k :: !(k in f.values && k in o.values) && !(k in f.values && k in l.values) && !(k in o.values && k in l.values))
  {
    CollectAll(src, OfKind(FeatureName), Same);
    CollectAll(src, OfKind(OptionName), Same);
    CollectAll(src, OfKind(LanguageName), Same);
    forall k
      ensures StartsWith(k, "OPTION_") ==> KindOf(k) == OptionName
      ensures StartsWith(k, "LANGUAGE_") ==> KindOf(k) == LanguageName
    {
      if StartsWith(k, "OPTION_") {
        NotPrefix(k, "FEATURE_", 0);
      }
      if StartsWith(k, "LANGUAGE_") {
        NotPrefix(k, "FEATURE_", 0);
        NotPrefix(k, "OPTION_", 0);
      }
    }
  }

  /** `{name for name, define in d.items() if define.is_active}` */
  function ActiveNames(d: Dict<string, DefineNode>): set<string> {
    set k | k in d.values && d.values[k].isActive
  }

  /** On a fresh parser a feature is active exactly when the header defines it live. */
  lemma FreshActiveFeatures(src: Dict<string, DefineNode>, name: string)
    ensures name in ActiveNames(AbsorbAll(Empty(), src, FeatureName)) <==> StartsWith(name, "FEATURE_") && Defined(src, name)
    ensures name in ActiveNames(AbsorbAll(Empty(), src, OptionName)) <==> StartsWith(name, "OPTION_") && Defined(src, name)
  {
    FreshSplit(src);
  }

  // ---------------------------------------------------------------------------------------
  // Categories
  // ---------------------------------------------------------------------------------------

  /** `FEATURE_CATEGORIES`, in its declaration order. */
  const CATEGORY_TABLE: seq<(string, seq<string>)> := [
    ("Protocol Emulation", [
        "FEATURE_YAESU_EMULATION",
        "FEATURE_EASYCOM_EMULATION",
        "FEATURE_DCU_1_EMULATION"]),
    ("Elevation Control", [
        "FEATURE_ELEVATION_CONTROL"]),
    ("Tracking", [
        "FEATURE_MOON_TRACKING",
        "FEATURE_SUN_TRACKING",
        "FEATURE_SATELLITE_TRACKING",
        "FEATURE_AUTOCORRECT"]),
    ("Clock & GPS", [
        "FEATURE_CLOCK",
        "FEATURE_GPS",
        "FEATURE_RTC_DS1307",
        "FEATURE_RTC_PCF8583"]),
    ("Position Sensors (Azimuth)", [
        "FEATURE_AZ_POSITION_POTENTIOMETER",
        "FEATURE_AZ_POSITION_ROTARY_ENCODER",
        "FEATURE_AZ_POSITION_PULSE_INPUT",
        "FEATURE_AZ_POSITION_HMC5883L",
        "FEATURE_AZ_POSITION_HMC5883L_USING_JARZEBSKI_LIBRARY",
        "FEATURE_AZ_POSITION_POLOLU_LSM303",
        "FEATURE_AZ_POSITION_ADAFRUIT_LSM303",
        "FEATURE_AZ_POSITION_DFROBOT_QMC5883",
        "FEATURE_AZ_POSITION_MECHASOLUTION_QMC5883",
        "FEATURE_AZ_POSITION_HH12_AS5045_SSI",
        "FEATURE_AZ_POSITION_HH12_AS5045_SSI_RELATIVE",
        "FEATURE_AZ_POSITION_INCREMENTAL_ENCODER",
        "FEATURE_AZ_POSITION_A2_ABSOLUTE_ENCODER",
        "FEATURE_AZ_POSITION_GET_FROM_REMOTE_UNIT"]),
    ("Position Sensors (Elevation)", [
        "FEATURE_EL_POSITION_POTENTIOMETER",
        "FEATURE_EL_POSITION_ROTARY_ENCODER",
        "FEATURE_EL_POSITION_PULSE_INPUT",
        "FEATURE_EL_POSITION_ADXL345_USING_ADAFRUIT_LIB",
        "FEATURE_EL_POSITION_ADXL345_USING_LOVE_ELECTRON_LIB",
        "FEATURE_EL_POSITION_POLOLU_LSM303",
        "FEATURE_EL_POSITION_ADAFRUIT_LSM303",
        "FEATURE_EL_POSITION_HH12_AS5045_SSI",
        "FEATURE_EL_POSITION_INCREMENTAL_ENCODER",
        "FEATURE_EL_POSITION_MEMSIC_2125",
        "FEATURE_EL_POSITION_A2_ABSOLUTE_ENCODER",
        "FEATURE_EL_POSITION_GET_FROM_REMOTE_UNIT"]),
    ("Display", [
        "FEATURE_4_BIT_LCD_DISPLAY",
        "FEATURE_ADAFRUIT_I2C_LCD",
        "FEATURE_YOURDUINO_I2C_LCD",
        "FEATURE_RFROBOT_I2C_DISPLAY",
        "FEATURE_YWROBOT_I2C_DISPLAY",
        "FEATURE_SAINSMART_I2C_LCD",
        "FEATURE_MIDAS_I2C_DISPLAY",
        "FEATURE_FABO_LCD_PCF8574_DISPLAY",
        "FEATURE_NEXTION_DISPLAY",
        "FEATURE_TEST_DISPLAY_AT_STARTUP"]),
    ("Motor Control", [
        "FEATURE_STEPPER_MOTOR",
        "FEATURE_ROTATION_INDICATOR_PIN"]),
    ("Network & Remote", [
        "FEATURE_ETHERNET",
        "FEATURE_REMOTE_UNIT_SLAVE",
        "FEATURE_MASTER_WITH_SERIAL_SLAVE",
        "FEATURE_MASTER_WITH_ETHERNET_SLAVE",
        "FEATURE_MASTER_SEND_AZ_ROTATION_COMMANDS_TO_REMOTE",
        "FEATURE_MASTER_SEND_EL_ROTATION_COMMANDS_TO_REMOTE"]),
    ("Calibration", [
        "FEATURE_AZIMUTH_CORRECTION",
        "FEATURE_ELEVATION_CORRECTION"]),
    ("User Interface", [
        "FEATURE_JOYSTICK_CONTROL",
        "FEATURE_ROTATION_INDICATOR_PIN",
        "FEATURE_PARK",
        "FEATURE_AUTOPARK",
        "FEATURE_AUDIBLE_ALERT"]),
    ("Advanced Features", [
        "FEATURE_LIMIT_SENSE",
        "FEATURE_AZ_ROTATION_STALL_DETECTION",
        "FEATURE_EL_ROTATION_STALL_DETECTION",
        "FEATURE_ANALOG_OUTPUT_PINS",
        "FEATURE_SNA",
        "FEATURE_POWER_SWITCH",
        "FEATURE_EL_SLOWSTART",
        "FEATURE_EL_SLOW_DOWN",
        "FEATURE_AZ_PRESET_ENCODER",
        "FEATURE_EL_PRESET_ENCODER",
        "FEATURE_ROTARY_ENCODER_SUPPORT",
        "FEATURE_LCD_DISPLAY",
        "FEATURE_I2C_LCD",
        "FEATURE_WIRE_SUPPORT"])
  ]

  const OTHER_FEATURES := "Other Features"
  const OTHER_FEATURES_DESCRIPTION := "Additional features not categorized"

  /** `_build_categories` */
  function BuildCategories(table: seq<(string, seq<string>)>, features: Dict<string, DefineNode>): seq<Group> {
    Build(table, features, OTHER_FEATURES, OTHER_FEATURES_DESCRIPTION)
  }

  /** The configuration `parse()` returns for the three tables. */
  function ConfigOf(table: seq<(string, seq<string>)>, features: Dict<string, DefineNode>,
                    options: Dict<string, DefineNode>, languages: Dict<string, DefineNode>): FeatureConfig {
    FeatureConfig(features, options, languages, BuildCategories(table, features), ActiveNames(features), ActiveNames(options))
  }


  /** The table lists `FEATURE_ROTATION_INDICATOR_PIN` under Motor Control and under User
      Interface, so by `Groups.ListedTwice` a header defining it shows it in both. */
  lemma TableListsRotationIndicatorTwice()
    ensures |CATEGORY_TABLE| == 12
    ensures CATEGORY_TABLE[7].0 == "Motor Control" && "FEATURE_ROTATION_INDICATOR_PIN" in CATEGORY_TABLE[7].1
    ensures CATEGORY_TABLE[10].0 == "User Interface" && "FEATURE_ROTATION_INDICATOR_PIN" in CATEGORY_TABLE[10].1
  {
    assert CATEGORY_TABLE[7].1[1] == "FEATURE_ROTATION_INDICATOR_PIN";
    assert CATEGORY_TABLE[10].1[1] == "FEATURE_ROTATION_INDICATOR_PIN";
  }

  /** The protocols `get_protocol_emulation` tries, in order. */
  const PROTOCOLS: seq<string> := ["FEATURE_YAESU_EMULATION", "FEATURE_EASYCOM_EMULATION", "FEATURE_DCU_1_EMULATION"]

  class FeatureParser {
    /** `FEATURE_CATEGORIES` */
    const categoryTable: seq<(string, seq<string>)>
    var features: Dict<string, DefineNode>
    var options: Dict<string, DefineNode>
    var languages: Dict<string, DefineNode>

    constructor ()
      ensures categoryTable == CATEGORY_TABLE
      ensures features == Empty() && options == Empty() && languages == Empty()
    {
      categoryTable := CATEGORY_TABLE;
      features := Empty();
      options := Empty();
      languages := Empty();
    }

    /** `parse()`, given what the preprocessor made of the header. A failed preprocessor parse is
        the `ValueError` carrying its errors. */
    method Parse(pre: ParseResult) returns (r: Result<FeatureConfig, seq<ParseError>>)
      modifies this
      ensures !pre.success ==> r == Err(pre.errors) && features == old(features) && options == old(options) && languages == old(languages)
      ensures pre.success ==>
        && features == AbsorbAll(old(features), pre.defines, FeatureName)
        && options == AbsorbAll(old(options), pre.defines, OptionName)
        && languages == AbsorbAll(old(languages), pre.defines, LanguageName)
        && r == Ok(ConfigOf(categoryTable, features, options, languages))
    {
      if !pre.success {
        return Err(pre.errors);
      }
      Split(pre.defines);
      r := Ok(ConfigOf(categoryTable, features, options, languages));
    }

    /** The loop of `parse()` that files every define under its prefix's table. */
    method Split(src: Dict<string, DefineNode>)
      modifies this
      ensures features == AbsorbAll(old(features), src, FeatureName)
      ensures options == AbsorbAll(old(options), src, OptionName)
      ensures languages == AbsorbAll(old(languages), src, LanguageName)
    {
      var f, o, l := features, options, languages;
      var i := 0;
      while i < |src.keys|
        invariant 0 <= i <= |src.keys|
        invariant f == Collect(old(features), src, OfKind(FeatureName), Same, i)
        invariant o == Collect(old(options), src, OfKind(OptionName), Same, i)
        invariant l == Collect(old(languages), src, OfKind(LanguageName), Same, i)
      {
        var name := src.keys[i];
        var define := src.values[name];
        CollectNext(old(features), src, OfKind(FeatureName), Same, i);
        CollectNext(old(options), src, OfKind(OptionName), Same, i);
        CollectNext(old(languages), src, OfKind(LanguageName), Same, i);
        match KindOf(name) {
          case FeatureName => f := Put(f, name, define);
          case OptionName => o := Put(o, name, define);
          case LanguageName => l := Put(l, name, define);
          case OtherName =>
        }
        i := i + 1;
      }
      features, options, languages := f, o, l;
    }

    /** `is_feature_enabled` */
    predicate IsFeatureEnabled(name: string)
      reads this
      ensures IsFeatureEnabled(name) <==> name in features.values && features.values[name].isActive
    {
      Defined(features, name)
    }

    /** `is_option_enabled` */
    predicate IsOptionEnabled(name: string)
      reads this
      ensures IsOptionEnabled(name) <==> name in options.values && options.values[name].isActive
    {
      Defined(options, name)
    }

    /** The first of `candidates` that starts with `prefix` and is an enabled feature. */
    method FirstEnabled(candidates: seq<string>, prefix: string) returns (r: Option<string>)
      ensures r.Some? ==> exists i | 0 <= i < |candidates| ::
        && candidates[i] == r.value && StartsWith(r.value, prefix) && IsFeatureEnabled(r.value)
        && forall j | 0 <= j < i :: !(StartsWith(candidates[j], prefix) && IsFeatureEnabled(candidates[j]))
      ensures r.None? ==> forall c | c in candidates :: !(StartsWith(c, prefix) && IsFeatureEnabled(c))
    {
      var i := 0;
      while i < |candidates|
        invariant 0 <= i <= |candidates|
        invariant forall j | 0 <= j < i :: !(StartsWith(candidates[j], prefix) && IsFeatureEnabled(candidates[j]))
      {
        if StartsWith(candidates[i], prefix) && IsFeatureEnabled(candidates[i]) {
          return Some(candidates[i]);
        }
        i := i + 1;
      }
      r := None;
    }

    /** `get_protocol_emulation`: the first enabled of YAESU, EASYCOM and DCU-1. */
    method GetProtocolEmulation() returns (r: Option<string>)
      ensures r.Some? ==> exists i | 0 <= i < |PROTOCOLS| ::
        PROTOCOLS[i] == r.value && IsFeatureEnabled(r.value) && forall j | 0 <= j < i :: !IsFeatureEnabled(PROTOCOLS[j])
      ensures r.None? ==> forall p | p in PROTOCOLS :: !IsFeatureEnabled(p)
    {
      r := FirstEnabled(PROTOCOLS, "");
    }

    /** `get_az_position_sensor`: the first enabled `FEATURE_AZ_POSITION_` feature in table order. */
    method GetAzPositionSensor() returns (r: Option<string>)
      ensures r.Some? ==> exists i | 0 <= i < |features.keys| ::
        && features.keys[i] == r.value && StartsWith(r.value, "FEATURE_AZ_POSITION_") && IsFeatureEnabled(r.value)
        && forall j | 0 <= j < i :: !(StartsWith(features.keys[j], "FEATURE_AZ_POSITION_") && IsFeatureEnabled(features.keys[j]))
      ensures r.None? ==> forall c | c in features.values :: !(StartsWith(c, "FEATURE_AZ_POSITION_") && IsFeatureEnabled(c))
    {
      r := FirstEnabled(features.keys, "FEATURE_AZ_POSITION_");
    }

    /** `get_el_position_sensor`: the first enabled `FEATURE_EL_POSITION_` feature in table order. */
    method GetElPositionSensor() returns (r: Option<string>)
      ensures r.Some? ==> exists i | 0 <= i < |features.keys| ::
        && features.keys[i] == r.value && StartsWith(r.value, "FEATURE_EL_POSITION_") && IsFeatureEnabled(r.value)
        && forall j | 0 <= j < i :: !(StartsWith(features.keys[j], "FEATURE_EL_POSITION_") && IsFeatureEnabled(features.keys[j]))
      ensures r.None? ==> forall c | c in features.values :: !(StartsWith(c, "FEATURE_EL_POSITION_") && IsFeatureEnabled(c))
    {
      r := FirstEnabled(features.keys, "FEATURE_EL_POSITION_");
    }
  }
}
