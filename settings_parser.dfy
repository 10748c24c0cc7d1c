/** The settings extractor for `rotator_settings.h`: picks the defines whose names look like
    tunable parameters, parses each value as nothing, an `int`, a `float`, a `{…}` array or
    plain text, reads a unit out of the trailing comment, infers display bounds and a
    category from the name, groups the settings by category, and collects the settings that
    are written to EEPROM. */
module Settings {
  import opened Wrappers
  import opened Strings
  import opened Dicts
  import opened Seqs
  import opened Numbers
  import opened Preprocessor
  import opened Groups
  import Features

  // ---------------------------------------------------------------------------------------
  // Data model
  // ---------------------------------------------------------------------------------------

  /** `value_type`: 'int', 'float', 'array', 'string' or 'unknown'. */
  datatype ValueType = IntType | FloatType | ArrayType | StringType | UnknownType

  /** The parsed value: `None`, a scalar, a `{…}` array of ints, of floats or of the raw
      element strings, or the stripped text itself. */
  datatype SettingValue =
    | NoValue
    | IntValue(i: int)
    | FloatValue(r: real)
    | IntArray(ints: seq<int>)
    | FloatArray(reals: seq<real>)
    | TextArray(items: seq<string>)
    | Text(text: string)

  datatype SettingDefinition = SettingDefinition(
    name: string,
    value: SettingValue,
    valueType: ValueType,
    unit: Option<string>,
    minValue: Option<Number>,
    maxValue: Option<Number>,
    comment: Option<string>,
    category: Option<string>,
    isEepromPersistent: bool,
    lineNumber: nat)

  datatype SettingsConfig = SettingsConfig(
    settings: Dict<string, SettingDefinition>,
    categories: seq<Group>,
    eepromSettings: set<string>)

  /** The parser's fixed tables: `SETTING_CATEGORIES`, the keyword rules of
      `_categorize_setting`, the unit table of `_extract_unit` and the keyword list of
      `_is_setting_define`. */
  datatype SettingsTables = SettingsTables(
    explicit: seq<(string, seq<string>)>,
    inferred: seq<(string, seq<string>)>,
    units: seq<(string, string)>,
    keywords: seq<string>)

  const SETTING_CATEGORIES: seq<(string, seq<string>)> := [
    ("EEPROM Initialization", [
      "AZIMUTH_STARTING_POINT_EEPROM_INITIALIZE",
      "AZIMUTH_ROTATION_CAPABILITY_EEPROM_INITIALIZE",
      "ANALOG_AZ_FULL_CCW_EEPROM_INITIALIZE",
      "ANALOG_AZ_FULL_CW_EEPROM_INITIALIZE",
      "ANALOG_EL_FULL_DOWN_EEPROM_INITIALIZE",
      "ANALOG_EL_FULL_UP_EEPROM_INITIALIZE"]),
    ("Speed & Rotation", [
      "PWM_SPEED_VOLTAGE_X1", "PWM_SPEED_VOLTAGE_X2",
      "PWM_SPEED_VOLTAGE_X3", "PWM_SPEED_VOLTAGE_X4",
      "AZ_SLOWSTART_DEFAULT", "AZ_SLOWDOWN_DEFAULT",
      "AZ_SLOW_START_UP_TIME", "AZ_SLOW_START_STARTING_PWM",
      "AZ_SLOW_START_STEPS", "AZ_SLOW_DOWN_STEPS",
      "SLOW_DOWN_BEFORE_TARGET_AZ",
      "AZ_SLOW_DOWN_PWM_START", "AZ_SLOW_DOWN_PWM_STOP",
      "AZ_INITIALLY_IN_SLOW_DOWN_PWM"]),
    ("Frequency Output", [
      "AZ_VARIABLE_FREQ_OUTPUT_LOW",
      "AZ_VARIABLE_FREQ_OUTPUT_HIGH",
      "EL_VARIABLE_FREQ_OUTPUT_LOW",
      "EL_VARIABLE_FREQ_OUTPUT_HIGH"]),
    ("Tolerance & Limits", [
      "AZIMUTH_TOLERANCE", "ELEVATION_TOLERANCE",
      "AZIMUTH_MAXIMUM_DEGREES", "ELEVATION_MAXIMUM_DEGREES",
      "AZ_MANUAL_ROTATE_CCW_LIMIT", "AZ_MANUAL_ROTATE_CW_LIMIT",
      "EL_MANUAL_ROTATE_DOWN_LIMIT", "EL_MANUAL_ROTATE_UP_LIMIT",
      "OPERATION_TIMEOUT"]),
    ("Display Settings", [
      "LCD_COLUMNS", "LCD_ROWS",
      "LCD_UPDATE_TIME",
      "DISPLAY_DECIMAL_PLACES"]),
    ("Sensor Configuration", [
      "AZ_POSITION_ROTARY_ENCODER_DEG_PER_PULSE",
      "EL_POSITION_ROTARY_ENCODER_DEG_PER_PULSE",
      "AZ_POSITION_PULSE_DEG_PER_PULSE",
      "EL_POSITION_PULSE_DEG_PER_PULSE",
      "AZ_POSITION_INCREMENTAL_ENCODER_PULSES_PER_REV",
      "EL_POSITION_INCREMENTAL_ENCODER_PULSES_PER_REV"]),
    ("Timing", [
      "ENCODER_PRESET_TIMEOUT",
      "REMOTE_BUFFER_TIMEOUT_MS",
      "AZ_MEASUREMENT_FREQUENCY_MS",
      "EL_MEASUREMENT_FREQUENCY_MS",
      "EEPROM_WRITE_DIRTY_CONFIG_TIME"]),
    ("Calibration Tables", [
      "AZIMUTH_CALIBRATION_FROM_ARRAY",
      "AZIMUTH_CALIBRATION_TO_ARRAY",
      "ELEVATION_CALIBRATION_FROM_ARRAY",
      "ELEVATION_CALIBRATION_TO_ARRAY",
      "POLOLU_LSM_303_MIN_ARRAY",
      "POLOLU_LSM_303_MAX_ARRAY"])]

  /** The `elif` chain of `_categorize_setting`, one keyword list per category, in order. */
  const KEYWORD_CATEGORIES: seq<(string, seq<string>)> := [
    ("EEPROM Initialization", ["EEPROM"]),
    ("Speed & Rotation", ["SPEED", "PWM", "SLOW"]),
    ("Frequency Output", ["FREQ"]),
    ("Tolerance & Limits", ["TOLERANCE", "LIMIT", "MAXIMUM"]),
    ("Display Settings", ["LCD", "DISPLAY"]),
    ("Sensor Configuration", ["ENCODER", "PULSE", "SENSOR"]),
    ("Timing", ["TIME", "TIMEOUT", "DELAY", "INTERVAL"]),
    ("Calibration Tables", ["CALIBRATION", "ARRAY"])]

  const UNITS: seq<(string, string)> := [
    ("degree", "degrees"), ("millisecond", "ms"), ("second", "s"), ("minute", "min"),
    ("hz", "Hz"), ("khz", "kHz"), ("percent", "%"), ("volt", "V"), ("pwm", "PWM")]

  const SETTING_KEYWORDS: seq<string> := [
    "SPEED", "PWM", "FREQ", "TIMEOUT", "TIME", "DELAY",
    "TOLERANCE", "LIMIT", "MAXIMUM", "MINIMUM",
    "CALIBRATION", "ARRAY", "DEFAULT", "EEPROM",
    "VOLTAGE", "PULSE", "DEGREE", "COLUMNS", "ROWS",
    "UPDATE", "MEASUREMENT", "INTERVAL", "THRESHOLD"]

  const TABLES := SettingsTables(SETTING_CATEGORIES, KEYWORD_CATEGORIES, UNITS, SETTING_KEYWORDS)

  const OTHER_SETTINGS := "Other Settings"

  /** The name fragment that marks a setting stored in EEPROM. */
  const EEPROM_MARKER := "_EEPROM_INITIALIZE"

  // ---------------------------------------------------------------------------------------
  // Recognising a setting define
  // ---------------------------------------------------------------------------------------

  /** `_is_setting_define`: not a feature, option or language flag, and the upper-cased name
      contains one of the keywords. */
  predicate IsSettingDefine(keywords: seq<string>, name: string) {
    !StartsWith(name, "FEATURE_") && !StartsWith(name, "OPTION_") && !StartsWith(name, "LANGUAGE_")
    && ContainsAny(Upper(name), keywords)
  }

  /** A setting define is never one of the names the feature parser collects. */
  lemma SettingsAreNotFeatures(keywords: seq<string>, name: string)
    requires IsSettingDefine(keywords, name)
    ensures Features.KindOf(name) == Features.OtherName
  {
  }

  lemma UpperLower(name: string)
    ensures Upper(Lower(name)) == Upper(name)
  {
  }

  /** Apart from the three excluded prefixes, which are matched case-sensitively, the test
      ignores case: a lower-cased name is a setting exactly when the name is. */
  lemma SettingIgnoresCase(keywords: seq<string>, name: string)
    requires !StartsWith(name, "FEATURE_") && !StartsWith(name, "OPTION_") && !StartsWith(name, "LANGUAGE_")
    ensures IsSettingDefine(keywords, Lower(name)) == IsSettingDefine(keywords, name)
  {
    UpperLower(name);
    var l := Lower(name);
    if l != [] {
      assert l[0] != 'F' && l[0] != 'O' && l[0] != 'L';
      NotPrefix(l, "FEATURE_", 0);
      NotPrefix(l, "OPTION_", 0);
      NotPrefix(l, "LANGUAGE_", 0);
    }
  }

  // ---------------------------------------------------------------------------------------
  // Parsing a value
  // ---------------------------------------------------------------------------------------

  /** Index of the first `}` after index `i`, or `|s|`. */
  function CloseAfter(s: string, i: nat): (r: nat)
    requires i < |s|
    ensures i < r <= |s|
    ensures forall k | i < k < r :: s[k] != '}'
    ensures r < |s| ==> s[r] == '}'
  {
    i + 1 + Find(s[i + 1..], '}')
  }

  /** `\{([^}]+)\}` matches at index `i`: a `{`, then at least one character that is not
      `}` (greedy up to the first `}`), then that `}`. */
  predicate MatchAt(s: string, i: nat) {
    i < |s| && s[i] == '{' && CloseAfter(s, i) < |s| && CloseAfter(s, i) >= i + 2
  }

  /** The text the match at `i` captures. */
  function Captured(s: string, i: nat): (r: string)
    requires MatchAt(s, i)
    ensures r != [] && '}' !in r
  {
    s[i + 1..CloseAfter(s, i)]
  }

  /** `ARRAY_PATTERN.search(s)` from index `i`: the group of the leftmost match. */
  function ArraySearch(s: string, i: nat): (r: Option<string>)
    requires i <= |s|
    ensures r.None? <==> forall k | i <= k < |s| :: !MatchAt(s, k)
    ensures r.Some? ==> exists k | i <= k < |s| :: MatchAt(s, k) && r.value == Captured(s, k) && forall m | i <= m < k :: !MatchAt(s, m)
    decreases |s| - i
  {
    if i == |s| then None
    else if MatchAt(s, i) then Some(Captured(s, i))
    else ArraySearch(s, i + 1)
  }

  /** `[e.strip() for e in parts]` */
  function StripAll(parts: seq<string>): (r: seq<string>)
    ensures |r| == |parts| && forall i | 0 <= i < |parts| :: r[i] == Strip(parts[i])
  {
    seq(|parts|, i requires 0 <= i < |parts| => Strip(parts[i]))
  }

  /** The elements of an array body: the comma-separated pieces, stripped. */
  function Elements(content: string): (r: seq<string>)
    ensures |r| >= 1
  {
    StripAll(Split(content, ','))
  }

  /** `any('.' in e for e in elements)` */
  predicate AnyDecimal(elements: seq<string>) {
    exists e | e in elements :: '.' in e
  }

  /** Every element converts: to `float` when some element has a `.`, to `int` otherwise. */
  predicate Converts(es: seq<string>) {
    if AnyDecimal(es) then forall i | 0 <= i < |es| :: ParseFloat(es[i]).Some?
    else forall i | 0 <= i < |es| :: ParseInt(es[i]).Some?
  }

  /** The array branch of `_parse_value` on the stripped elements: floats if some element has
      a `.`, ints otherwise, and the raw strings when a conversion raises. */
  function ParseElements(es: seq<string>): (r: SettingValue)
    ensures r.FloatArray? ==> AnyDecimal(es) && |r.reals| == |es| && forall i | 0 <= i < |es| :: ParseFloat(es[i]) == Some(r.reals[i])
    ensures r.IntArray? ==> !AnyDecimal(es) && |r.ints| == |es| && forall i | 0 <= i < |es| :: ParseInt(es[i]) == Some(r.ints[i])
    ensures r.TextArray? <==> !Converts(es)
    ensures r.TextArray? ==> r.items == es
    ensures r.FloatArray? || r.IntArray? || r.TextArray?
  {
    if AnyDecimal(es) then
      match MapAll(es, ParseFloat)
      case Some(xs) => FloatArray(xs)
      case None => TextArray(es)
    else
      match MapAll(es, ParseInt)
      case Some(ns) => IntArray(ns)
      case None => TextArray(es)
  }

  /** The array branch of `_parse_value` on the captured text. */
  function ParseArray(content: string): SettingValue {
    ParseElements(Elements(content))
  }

  /** `NUMBER_PATTERN.match(s)`, that is `^-?\d+\.?\d*$`: an optional minus, one or more
      digits, then optionally a `.` followed by any number of digits. */
  predicate IsNumberLiteral(s: string) {
    var t := if s != [] && s[0] == '-' then s[1..] else s;
    var k := Find(t, '.');
    t != [] && IsDigit(t[0]) && AllDigits(t[..k]) && (k == |t| || AllDigits(t[k + 1..]))
  }

  /** `_parse_value` on the stripped value text. */
  function ParseValue(v: string): (r: (SettingValue, ValueType))
    ensures r.1 == UnknownType <==> v == []
    ensures r.0 == NoValue <==> v == []
    ensures r.1 == ArrayType <==> v != [] && ArraySearch(v, 0).Some?
    ensures r.1 == ArrayType ==> r.0 == ParseArray(ArraySearch(v, 0).value)
    ensures r.1 == StringType ==> r.0 == Text(v)
  {
    if v == [] then (NoValue, UnknownType)
    else
      match ArraySearch(v, 0)
      case Some(content) => (ParseArray(content), ArrayType)
      case None =>
        if IsNumberLiteral(v) then
          if '.' in v then
            match ParseFloat(v)
            case Some(x) => (FloatValue(x), FloatType)
            case None => (Text(v), StringType)
          else
            match ParseInt(v)
            case Some(n) => (IntValue(n), IntType)
            case None => (Text(v), StringType)
        else (Text(v), StringType)
  }

  /** A number literal has no surrounding whitespace. */
  lemma NumberLiteralStripped(v: string)
    requires IsNumberLiteral(v)
    ensures Strip(v) == v
  {
    var t := if v != [] && v[0] == '-' then v[1..] else v;
    var k := Find(t, '.');
    assert v[|v| - 1] == t[|t| - 1];
    if k < |t| && k + 1 < |t| {
      assert t[|t| - 1] == t[k + 1..][|t| - k - 2];
    } else if k == |t| {
      assert t[|t| - 1] == t[..k][|t| - 1];
    }
    StripOfStripped(v);
  }

  /** Whatever `NUMBER_PATTERN` accepts, `float()` accepts, and `int()` too when there is no
      `.`: the `except ValueError` fallback after the pattern test never runs. */
  lemma NumberLiteralParses(v: string)
    requires IsNumberLiteral(v)
    ensures '.' in v ==> ParseFloat(v).Some?
    ensures '.' !in v ==> ParseInt(v).Some?
  {
    NumberLiteralStripped(v);
    var t := if v != [] && v[0] == '-' then v[1..] else v;
    var k := Find(t, '.');
    assert SplitSign(Strip(v)).1 == t;
    assert 0 < k && t[..k] != [];
    if '.' in v {
      assert AllDigits(t[..k]) && AllDigits(if k < |t| then t[k + 1..] else []);
    } else {
      assert '.' !in t && k == |t| && t[..k] == t;
    }
  }

  /** The scalar branches: with no `{…}` array in it, a non-empty value is an `int` exactly
      when it is a number literal without a `.`, a `float` exactly when it is one with a `.`,
      and text otherwise; the numbers are what `int()` and `float()` make of the text. */
  lemma ScalarTypes(v: string)
    requires v != [] && ArraySearch(v, 0).None?
    ensures var r := ParseValue(v);
      && (r.1 == IntType <==> IsNumberLiteral(v) && '.' !in v)
      && (r.1 == FloatType <==> IsNumberLiteral(v) && '.' in v)
      && (r.1 == StringType <==> !IsNumberLiteral(v))
      && (r.1 == IntType ==> r.0 == IntValue(ParseInt(v).value))
      && (r.1 == FloatType ==> r.0 == FloatValue(ParseFloat(v).value))
  {
    if IsNumberLiteral(v) {
      NumberLiteralParses(v);
    }
  }

  // ---------------------------------------------------------------------------------------
  // Units, bounds and categories
  // ---------------------------------------------------------------------------------------

  /** The unit of the first entry of `units`, from index `i` on, whose keyword occurs in `s`. */
  function FirstUnit(units: seq<(string, string)>, s: string, i: nat): (r: Option<string>)
    requires i <= |units|
    ensures r.None? <==> forall k | i <= k < |units| :: !Contains(s, units[k].0)
    ensures r.Some? ==> exists k | i <= k < |units| :: r.value == units[k].1 && Contains(s, units[k].0) && forall m | i <= m < k :: !Contains(s, units[m].0)
    decreases |units| - i
  {
    if i == |units| then None
    else if Contains(s, units[i].0) then Some(units[i].1)
    else FirstUnit(units, s, i + 1)
  }

  /** `_extract_unit` (with `UNITS` for `units`): no unit for a missing or empty comment,
      otherwise the first unit whose keyword occurs in the lower-cased comment. */
  function ExtractUnit(units: seq<(string, string)>, comment: Option<string>): (r: Option<string>)
    ensures comment.None? || comment == Some([]) ==> r.None?
    ensures comment.Some? && comment.value != [] ==>
      (r.None? <==> forall k | 0 <= k < |units| :: !Contains(Lower(comment.value), units[k].0))
    ensures r.Some? ==> comment.Some? && exists k | 0 <= k < |units| ::
      r.value == units[k].1 && Contains(Lower(comment.value), units[k].0)
      && forall m | 0 <= m < k :: !Contains(Lower(comment.value), units[m].0)
  {
    if comment.None? || comment.value == [] then None else FirstUnit(units, Lower(comment.value), 0)
  }

  /** "millisecond" ends in "second", yet a millisecond comment gets "ms": its entry comes
      before the one for "second". */
  lemma MillisecondIsMs(comment: string)
    requires Contains(Lower(comment), "millisecond") && !Contains(Lower(comment), "degree")
    ensures ExtractUnit(UNITS, Some(comment)) == Some("ms")
  {
    assert UNITS[0].0 == "degree" && UNITS[1] == ("millisecond", "ms");
  }

  /** An entry whose keyword contains the keyword of an earlier entry is never the first hit,
      so a unit only it carries is never returned. */
  lemma ShadowedUnit(units: seq<(string, string)>, s: string, i: nat, j: nat)
    requires i < j < |units| && Contains(units[j].0, units[i].0)
    requires forall k | 0 <= k < |units| && k != j :: units[k].1 != units[j].1
    ensures FirstUnit(units, s, 0) != Some(units[j].1)
  {
    var r := FirstUnit(units, s, 0);
    if r == Some(units[j].1) {
      var k :| 0 <= k < |units| && r.value == units[k].1 && Contains(s, units[k].0) && forall m | 0 <= m < k :: !Contains(s, units[m].0);
      ContainsTrans(s, units[j].0, units[i].0);
      assert false;
    }
  }

  lemma KilohertzShadowed()
    ensures UNITS[4].0 == "hz" && UNITS[5].1 == "kHz" && Contains(UNITS[5].0, UNITS[4].0)
    ensures forall k | 0 <= k < |UNITS| && k != 5 :: UNITS[k].1 != UNITS[5].1
  {
    ContainsSegment("khz", 1, "hz");
  }

  /** "khz" contains "hz", so the `kHz` entry is never reached: no comment gets `kHz`. */
  lemma NeverKilohertz(comment: Option<string>)
    ensures ExtractUnit(UNITS, comment) != Some("kHz")
  {
    if comment.Some? && comment.value != [] {
      KilohertzShadowed();
      ShadowedUnit(UNITS, Lower(comment.value), 4, 5);
    }
  }

  /** A comment that mentions "khz", and no degree, second or minute, gets `Hz`. */
  lemma KilohertzIsHertz(comment: string)
    requires Contains(Lower(comment), "khz")
    requires !Contains(Lower(comment), "degree") && !Contains(Lower(comment), "second") && !Contains(Lower(comment), "minute")
    ensures ExtractUnit(UNITS, Some(comment)) == Some("Hz")
  {
    var l := Lower(comment);
    ContainsSegment("khz", 1, "hz");
    ContainsTrans(l, "khz", "hz");
    if Contains(l, "millisecond") {
      ContainsSegment("millisecond", 5, "second");
      ContainsTrans(l, "millisecond", "second");
    }
    assert UNITS[0].0 == "degree" && UNITS[1].0 == "millisecond" && UNITS[2].0 == "second";
    assert UNITS[3].0 == "minute" && UNITS[4] == ("hz", "Hz");
  }

  /** `_infer_bounds` on the lower-cased name, as a `(min, max)` pair; `None` stands for
      `(None, None)`. The value and the unit it is also given play no part. */
  function InferBounds(name: string): (r: Option<(Number, Number)>)
    ensures r.Some? ==> ToReal(r.value.0) < ToReal(r.value.1)
  {
    var n := Lower(name);
    if Contains(n, "pwm") || Contains(n, "voltage") then Some((IntNum(0), IntNum(255)))
    else if Contains(n, "freq") then
      if Contains(n, "low") then Some((IntNum(31), IntNum(1000)))
      else if Contains(n, "high") then Some((IntNum(31), IntNum(20000)))
      else Some((IntNum(31), IntNum(20000)))
    else if Contains(n, "azimuth") && (Contains(n, "degree") || Contains(n, "deg")) then Some((IntNum(0), IntNum(450)))
    else if Contains(n, "elevation") && (Contains(n, "degree") || Contains(n, "deg")) then Some((IntNum(-20), IntNum(180)))
    else if Contains(n, "tolerance") then Some((FloatNum(0.1), FloatNum(10.0)))
    else if Contains(n, "timeout") || Contains(n, "time") then Some((IntNum(0), IntNum(60000)))
    else if Contains(n, "analog") then Some((IntNum(0), IntNum(1023)))
    else None
  }

  /** A name mentioning "pwm" or "voltage" gets `(0, 255)` whatever else it mentions. */
  lemma PwmBoundsFirst(name: string)
    requires Contains(Lower(name), "pwm") || Contains(Lower(name), "voltage")
    ensures InferBounds(name) == Some((IntNum(0), IntNum(255)))
  {
  }

  lemma LowerUpper(name: string)
    ensures Lower(Upper(name)) == Lower(name)
  {
  }

  /** The bounds depend on the name only up to case. */
  lemma BoundsIgnoreCase(name: string)
    ensures InferBounds(Upper(name)) == InferBounds(name)
  {
    LowerUpper(name);
  }

  /** No bounds exactly when the name mentions none of the rule keywords. The "degree" and
      "timeout" tests are subsumed by the "deg" and "time" tests beside them. */
  lemma NoBounds(name: string)
    ensures var n := Lower(name);
      InferBounds(name).None? <==>
        && !Contains(n, "pwm") && !Contains(n, "voltage") && !Contains(n, "freq")
        && !(Contains(n, "azimuth") && Contains(n, "deg"))
        && !(Contains(n, "elevation") && Contains(n, "deg"))
        && !Contains(n, "tolerance") && !Contains(n, "time") && !Contains(n, "analog")
  {
    var n := Lower(name);
    if Contains(n, "degree") {
      ContainsSegment("degree", 0, "deg");
      ContainsTrans(n, "degree", "deg");
    }
    if Contains(n, "timeout") {
      ContainsSegment("timeout", 0, "time");
      ContainsTrans(n, "timeout", "time");
    }
  }

  /** The name of the first entry of `table`, from index `i` on, whose list `hit` accepts. */
  function FirstWhere(table: seq<(string, seq<string>)>, hit: seq<string> -> bool, i: nat): (r: Option<string>)
    requires i <= |table|
    ensures r.None? <==> forall k | i <= k < |table| :: !hit(table[k].1)
    ensures r.Some? ==> exists k | i <= k < |table| :: r.value == table[k].0 && hit(table[k].1) && forall m | i <= m < k :: !hit(table[m].1)
    decreases |table| - i
  {
    if i == |table| then None
    else if hit(table[i].1) then Some(table[i].0)
    else FirstWhere(table, hit, i + 1)
  }

  /** The explicit-table test: the list names `name` exactly. */
  function Lists(name: string): seq<string> -> bool {
    names => name in names
  }

  /** The keyword test: `name` (in its own case) contains one of the keywords. */
  function Mentions(name: string): seq<string> -> bool {
    keywords => ContainsAny(name, keywords)
  }

  /** `_categorize_setting`: the first explicit category listing the name, else the first
      keyword rule it matches, else "Other Settings". */
  function Categorize(tables: SettingsTables, name: string): (r: string)
    ensures r == OTHER_SETTINGS
      || (exists k | 0 <= k < |tables.explicit| :: r == tables.explicit[k].0 && name in tables.explicit[k].1)
      || (exists k | 0 <= k < |tables.inferred| :: r == tables.inferred[k].0 && ContainsAny(name, tables.inferred[k].1))
    ensures (exists k | 0 <= k < |tables.explicit| :: name in tables.explicit[k].1) ==>
      exists k | 0 <= k < |tables.explicit| :: r == tables.explicit[k].0 && name in tables.explicit[k].1
  {
    match FirstWhere(tables.explicit, Lists(name), 0)
    case Some(c) => c
    case None =>
      match FirstWhere(tables.inferred, Mentions(name), 0)
      case Some(c) => c
      case None => OTHER_SETTINGS
  }

  /** The explicit table takes precedence: a name it lists gets the first category listing
      it, whichever keywords the name contains. */
  lemma ExplicitFirst(tables: SettingsTables, name: string, i: nat)
    requires i < |tables.explicit| && name in tables.explicit[i].1
    requires forall m | 0 <= m < i :: name !in tables.explicit[m].1
    ensures Categorize(tables, name) == tables.explicit[i].0
  {
    var r := FirstWhere(tables.explicit, Lists(name), 0);
    assert Lists(name)(tables.explicit[i].1);
    var k :| 0 <= k < |tables.explicit| && r.value == tables.explicit[k].0 && Lists(name)(tables.explicit[k].1)
      && forall m | 0 <= m < k :: !Lists(name)(tables.explicit[m].1);
    assert k == i;
  }

  /** A name no table lists or matches goes to "Other Settings"; otherwise its category is
      one the tables name. */
  lemma CategoryNames(tables: SettingsTables, name: string)
    ensures var c := Categorize(tables, name);
      && (c == OTHER_SETTINGS <== (forall k | 0 <= k < |tables.explicit| :: name !in tables.explicit[k].1)
                                  && (forall k | 0 <= k < |tables.inferred| :: !ContainsAny(name, tables.inferred[k].1)))
      && (c == OTHER_SETTINGS || (exists k | 0 <= k < |tables.explicit| :: c == tables.explicit[k].0)
                              || (exists k | 0 <= k < |tables.inferred| :: c == tables.inferred[k].0))
  {
    if (forall k | 0 <= k < |tables.explicit| :: name !in tables.explicit[k].1) {
      assert forall k | 0 <= k < |tables.explicit| :: !Lists(name)(tables.explicit[k].1);
      if (forall k | 0 <= k < |tables.inferred| :: !ContainsAny(name, tables.inferred[k].1)) {
        assert forall k | 0 <= k < |tables.inferred| :: !Mentions(name)(tables.inferred[k].1);
      }
    }
  }

  // ---------------------------------------------------------------------------------------
  // One setting
  // ---------------------------------------------------------------------------------------

  /** `_parse_setting_definition` */
  function ParseSettingDefinition(tables: SettingsTables, define: DefineNode): SettingDefinition {
    var value := Strip(define.value.GetOr(""));
    var (v, t) := ParseValue(value);
    var bounds := InferBounds(define.name);
    SettingDefinition(
      define.name, v, t,
      ExtractUnit(tables.units, define.comment),
      if bounds.Some? then Some(bounds.value.0) else None,
      if bounds.Some? then Some(bounds.value.1) else None,
      define.comment,
      Some(Categorize(tables, define.name)),
      Contains(define.name, EEPROM_MARKER),
      define.lineNumber)
  }

  /** A missing value and an all-blank one both leave the setting unset. */
  lemma BlankIsUnset(tables: SettingsTables, define: DefineNode)
    requires define.value.None? || Strip(define.value.value) == []
    ensures var s := ParseSettingDefinition(tables, define);
      s.value == NoValue && s.valueType == UnknownType
  {
    if define.value.None? {
      StripOfStripped("");
    }
  }

  /** The bounds are both present or both absent, and then the minimum is below the maximum. */
  lemma BoundsPaired(tables: SettingsTables, define: DefineNode)
    ensures var s := ParseSettingDefinition(tables, define);
      && (s.minValue.Some? <==> s.maxValue.Some?)
      && (s.minValue.Some? ==> ToReal(s.minValue.value) < ToReal(s.maxValue.value))
  {
  }

  // ---------------------------------------------------------------------------------------
  // The settings table
  // ---------------------------------------------------------------------------------------

  /** The filter of the extraction loop. */
  function SettingLike(keywords: seq<string>): string -> bool {
    name => IsSettingDefine(keywords, name)
  }

  /** The conversion of the extraction loop. */
  function Definer(tables: SettingsTables): DefineNode -> SettingDefinition {
    define => ParseSettingDefinition(tables, define)
  }

  /** `self.settings` after the extraction loop of `parse()`. */
  function ExtractSettings(tables: SettingsTables, settings: Dict<string, SettingDefinition>, src: Dict<string, DefineNode>): Dict<string, SettingDefinition> {
    Collect(settings, src, SettingLike(tables.keywords), Definer(tables), |src.keys|)
  }

  /** On a fresh parser, the table holds exactly the setting defines, each parsed. */
  lemma ExtractedSettings(tables: SettingsTables, src: Dict<string, DefineNode>, name: string)
    ensures var s := ExtractSettings(tables, Empty(), src);
      && (name in s.values <==> name in src.values && IsSettingDefine(tables.keywords, name))
      && (name in s.values ==> s.values[name] == ParseSettingDefinition(tables, src.values[name]))
  {
    CollectAll(src, SettingLike(tables.keywords), Definer(tables));
  }

  /** `eeprom_settings` */
  function EepromSettings(settings: Dict<string, SettingDefinition>): set<string> {
    set k | k in settings.values && Contains(k, EEPROM_MARKER)
  }

  /** When every define is filed under its own name, as the preprocessor does, a setting is
      in `eeprom_settings` exactly when it is flagged `is_eeprom_persistent`. */
  lemma EepromAgreesWithFlag(tables: SettingsTables, src: Dict<string, DefineNode>, name: string)
    requires forall k | k in src.values :: src.values[k].name == k
    ensures var s := ExtractSettings(tables, Empty(), src);
      name in EepromSettings(s) <==> name in s.values && s.values[name].isEepromPersistent
  {
    ExtractedSettings(tables, src, name);
  }

  // ---------------------------------------------------------------------------------------
  // Categories
  // ---------------------------------------------------------------------------------------

  /** `setting.category or "Other Settings"` */
  function CategoryLabel(s: SettingDefinition): string {
    if s.category.Some? && s.category.value != [] then s.category.value else OTHER_SETTINGS
  }

  /** The category each setting name is filed under. */
  function CategoryOfKey(settings: Dict<string, SettingDefinition>): string -> Option<string> {
    k => if k in settings.values then Some(CategoryLabel(settings.values[k])) else None
  }

  /** `categories_dict` after the loop of `_build_categories`. */
  function Bucketed(settings: Dict<string, SettingDefinition>): Dict<string, seq<string>> {
    GroupBy(settings.keys, CategoryOfKey(settings), |settings.keys|)
  }

  /** The names filed under a category are exactly the settings with that category, and a
      setting's category is always among the buckets. */
  lemma BucketOf(settings: Dict<string, SettingDefinition>, x: string, k: string)
    ensures x in Bucketed(settings).values ==>
      (k in Bucketed(settings).values[x] <==> k in settings.values && CategoryLabel(settings.values[k]) == x)
    ensures k in settings.values && CategoryLabel(settings.values[k]) == x ==> x in Bucketed(settings).values
  {
    var n := |settings.keys|;
    GroupByAt(settings.keys, CategoryOfKey(settings), n, x);
    LabelledFilters(settings.keys, CategoryOfKey(settings), n, x);
    assert settings.keys[..n] == settings.keys;
  }

  /** One `SettingCategory` per name, in the given order, with its settings sorted. */
  function Listing(u: Dict<string, seq<string>>, names: seq<string>): (r: seq<Group>)
    requires forall n | n in names :: n in u.values
    ensures |r| == |names|
    ensures forall i | 0 <= i < |names| :: r[i] == Group(names[i], Sort(u.values[names[i]]), None)
    decreases |names|
  {
    if names == [] then []
    else [Group(names[0], Sort(u.values[names[0]]), None)] + Listing(u, names[1..])
  }

  /** `sorted(categories_dict.items())`, each with its settings sorted. The category names are
      distinct, so ordering the items is ordering the names. */
  function CategoriesOf(u: Dict<string, seq<string>>): seq<Group> {
    var names := Sort(u.keys);
    assert forall n | n in names :: n in u.values by {
      forall n | n in names
        ensures n in u.values
      {
        SortSameElements(u.keys, n);
      }
    }
    Listing(u, names)
  }

  /** `_build_categories` */
  function BuildCategories(settings: Dict<string, SettingDefinition>): seq<Group> {
    CategoriesOf(Bucketed(settings))
  }

  /** The sorted category names, their distinctness, and the group built for each. */
  lemma CategoriesLayout(settings: Dict<string, SettingDefinition>)
    ensures var u := Bucketed(settings);
      var names := Sort(u.keys);
      var cats := BuildCategories(settings);
      && (forall i, j | 0 <= i < j < |names| :: names[i] != names[j]) && (forall n | n in names :: n in u.values)
      && |cats| == |names|
      && (forall i | 0 <= i < |names| :: cats[i] == Group(names[i], Sort(u.values[names[i]]), None))
  {
    var u := Bucketed(settings);
    var names := Sort(u.keys);
    forall n | n in names
      ensures n in u.values
    {
      SortSameElements(u.keys, n);
    }
    DistinctPermutation(u.keys, names);
    forall i, j | 0 <= i < j < |names|
      ensures names[i] != names[j]
    {
      DistinctIndices(names, i, j);
    }
  }

  /** Categories come sorted by name with distinct names, and each lists its settings sorted. */
  lemma CategoriesSorted(settings: Dict<string, SettingDefinition>)
    ensures var cats := BuildCategories(settings);
      && (forall i | 0 < i < |cats| :: LexLe(cats[i - 1].name, cats[i].name))
      && (forall i, j | 0 <= i < j < |cats| :: cats[i].name != cats[j].name)
      && (forall i | 0 <= i < |cats| :: Sorted(cats[i].members) && cats[i].description.None?)
  {
    CategoriesLayout(settings);
  }

  /** A category lists exactly the settings filed under its name. */
  lemma CategoryMembers(settings: Dict<string, SettingDefinition>, i: nat, k: string)
    requires i < |BuildCategories(settings)|
    ensures var c := BuildCategories(settings)[i];
      k in c.members <==> k in settings.values && CategoryLabel(settings.values[k]) == c.name
  {
    CategoriesLayout(settings);
    var u := Bucketed(settings);
    var x := Sort(u.keys)[i];
    BucketOf(settings, x, k);
    SortSameElements(u.values[x], k);
  }

  /** The category a setting is filed under is one of the built categories. */
  lemma FiledCategoryBuilt(settings: Dict<string, SettingDefinition>, k: string)
    requires k in settings.values
    ensures exists i | 0 <= i < |BuildCategories(settings)| :: BuildCategories(settings)[i].name == CategoryLabel(settings.values[k])
  {
    var u := Bucketed(settings);
    var x := CategoryLabel(settings.values[k]);
    CategoriesLayout(settings);
    BucketOf(settings, x, k);
    SortSameElements(u.keys, x);
    var i :| 0 <= i < |Sort(u.keys)| && Sort(u.keys)[i] == x;
    assert BuildCategories(settings)[i].name == x;
  }

  /** Each setting is listed in exactly one category: the one it is filed under. */
  lemma ExactlyOneCategory(settings: Dict<string, SettingDefinition>, k: string)
    requires k in settings.values
    ensures var cats := BuildCategories(settings);
      && (exists i | 0 <= i < |cats| :: k in cats[i].members && cats[i].name == CategoryLabel(settings.values[k]))
      && (forall i, j | 0 <= i < |cats| && 0 <= j < |cats| && k in cats[i].members && k in cats[j].members :: i == j)
  {
    var cats := BuildCategories(settings);
    CategoriesSorted(settings);
    forall i, j | 0 <= i < |cats| && 0 <= j < |cats| && k in cats[i].members && k in cats[j].members
      ensures i == j
    {
      CategoryMembers(settings, i, k);
      CategoryMembers(settings, j, k);
    }
    FiledCategoryBuilt(settings, k);
    var i :| 0 <= i < |cats| && cats[i].name == CategoryLabel(settings.values[k]);
    CategoryMembers(settings, i, k);
  }

  /** `get_settings_by_category` over the first `n` settings, in table order. */
  function InCategory(settings: Dict<string, SettingDefinition>, category: string, n: nat): (r: seq<SettingDefinition>)
    requires n <= |settings.keys|
    ensures forall s | s in r :: s.category == Some(category)
    ensures forall s | s in r :: exists k | k in settings.keys[..n] :: settings.values[k] == s
    ensures forall k | k in settings.keys[..n] && settings.values[k].category == Some(category) :: settings.values[k] in r
    decreases n
  {
    if n == 0 then []
    else
      var k := settings.keys[n - 1];
      assert settings.keys[..n] == settings.keys[..n - 1] + [k];
      var r := InCategory(settings, category, n - 1);
      if settings.values[k].category == Some(category) then r + [settings.values[k]] else r
  }

  /** The table position `i` holds a setting of the category. */
  function FiledAt(settings: Dict<string, SettingDefinition>, category: string): nat -> bool {
    (i: nat) => i < |settings.keys| && settings.keys[i] in settings.values && settings.values[settings.keys[i]].category == Some(category)
  }

  /** `InCategory` is the comprehension's in-order filter: its `i`-th setting is the one at
      the `i`-th table position that holds a setting of the category, and those positions
      are strictly increasing and are exactly the matching ones among the first `n`. */
  lemma {:induction false} InCategoryInOrder(settings: Dict<string, SettingDefinition>, category: string, n: nat)
    requires n <= |settings.keys|
    ensures var ks := Where(n, FiledAt(settings, category));
      && (forall i: nat :: i in ks <==> i < n && FiledAt(settings, category)(i))
      && (forall i, j | 0 <= i < j < |ks| :: ks[i] < ks[j])
      && |InCategory(settings, category, n)| == |ks|
      && forall i | 0 <= i < |ks| :: ks[i] < |settings.keys| && settings.keys[ks[i]] in settings.values
           && InCategory(settings, category, n)[i] == settings.values[settings.keys[ks[i]]]
    decreases n
  {
    var p := FiledAt(settings, category);
    WhereMeaning(n, p);
    WhereIncreasing(n, p);
    if n > 0 {
      InCategoryInOrder(settings, category, n - 1);
      InCategoryStep(settings, category, n);
      var ks, ks' := Where(n, p), Where(n - 1, p);
      var r, r' := InCategory(settings, category, n), InCategory(settings, category, n - 1);
      forall i | 0 <= i < |ks|
        ensures ks[i] < |settings.keys| && settings.keys[ks[i]] in settings.values
        ensures r[i] == settings.values[settings.keys[ks[i]]]
      {
        if i < |ks'| {
          assert ks[i] == ks'[i] && r[i] == r'[i];
        }
      }
    }
  }

  /** One step of `InCategory` and of the matching positions: both grow by the last
      setting exactly when it is of the category. */
  lemma InCategoryStep(settings: Dict<string, SettingDefinition>, category: string, n: nat)
    requires 0 < n <= |settings.keys|
    ensures settings.keys[n - 1] in settings.values
    ensures var k := settings.keys[n - 1];
      if FiledAt(settings, category)(n - 1) then
        && Where(n, FiledAt(settings, category)) == Where(n - 1, FiledAt(settings, category)) + [n - 1]
        && InCategory(settings, category, n) == InCategory(settings, category, n - 1) + [settings.values[k]]
      else
        && Where(n, FiledAt(settings, category)) == Where(n - 1, FiledAt(settings, category))
        && InCategory(settings, category, n) == InCategory(settings, category, n - 1)
  {
    assert settings.keys[n - 1] in settings.keys;
  }

  // ---------------------------------------------------------------------------------------
  // The parser object
  // ---------------------------------------------------------------------------------------

  class SettingsParser {
    const tables: SettingsTables
    var settings: Dict<string, SettingDefinition>

    constructor ()
      ensures tables == TABLES && settings == Empty()
    {
      tables := TABLES;
      settings := Empty();
    }

    /** `parse()`, given what the preprocessor made of the header. A failed preprocessor parse
        is the `ValueError` carrying its errors. */
    method Parse(pre: ParseResult) returns (r: Result<SettingsConfig, seq<ParseError>>)
      modifies this
      ensures !pre.success ==> r == Err(pre.errors) && settings == old(settings)
      ensures pre.success ==>
        && settings == ExtractSettings(tables, old(settings), pre.defines)
        && r == Ok(SettingsConfig(settings, BuildCategories(settings), EepromSettings(settings)))
    {
      if !pre.success {
        return Err(pre.errors);
      }
      Extract(pre.defines, SettingLike(tables.keywords), Definer(tables));
      var categories := CollectCategories();
      r := Ok(SettingsConfig(settings, categories, EepromSettings(settings)));
    }

    /** The extraction loop of `parse()`, given the test `_is_setting_define` as `keep` and
        the conversion `_parse_setting_definition` as `make`. */
    method Extract(src: Dict<string, DefineNode>, keep: string -> bool, make: DefineNode -> SettingDefinition)
      modifies this
      ensures settings == Collect(old(settings), src, keep, make, |src.keys|)
    {
      var d := settings;
      var i := 0;
      while i < |src.keys|
        invariant 0 <= i <= |src.keys|
        invariant d == Collect(old(settings), src, keep, make, i)
      {
        var name := src.keys[i];
        CollectNext(old(settings), src, keep, make, i);
        if keep(name) {
          d := Put(d, name, make(src.values[name]));
        }
        i := i + 1;
      }
      settings := d;
    }

    /** `_build_categories`: the bucketing loop, then the sorted listing. */
    method CollectCategories() returns (categories: seq<Group>)
      ensures categories == BuildCategories(settings)
    {
      var u := Empty();
      var i := 0;
      while i < |settings.keys|
        invariant 0 <= i <= |settings.keys|
        invariant u == GroupBy(settings.keys, CategoryOfKey(settings), i)
      {
        var name := settings.keys[i];
        GroupByNext(settings.keys, CategoryOfKey(settings), i);
        var c := CategoryLabel(settings.values[name]);
        var members := if c in u.values then u.values[c] else [];
        u := Put(u, c, members + [name]);
        i := i + 1;
      }
      categories := CategoriesOf(u);
    }

    /** `get_setting` */
    function GetSetting(name: string): (r: Option<SettingDefinition>)
      reads this
      ensures r.Some? <==> name in settings.values
      ensures r.Some? ==> r.value == settings.values[name]
    {
      if name in settings.values then Some(settings.values[name]) else None
    }

    /** `get_settings_by_category`: the settings whose category is the given one, in table
        order, and all of them. */
    function SettingsByCategory(category: string): (r: seq<SettingDefinition>)
      reads this
      ensures forall s | s in r :: s.category == Some(category) && exists k | k in settings.values :: settings.values[k] == s
      ensures forall k | k in settings.values && settings.values[k].category == Some(category) :: settings.values[k] in r
    {
      assert settings.keys[..|settings.keys|] == settings.keys;
      InCategory(settings, category, |settings.keys|)
    }

    /** `get_settings_by_category` lists the settings of the category in table order, each
        once: position `i` of the result is the `i`-th table position holding one. */
    lemma SettingsByCategoryInOrder(category: string)
      ensures var ks := Where(|settings.keys|, FiledAt(settings, category));
        && (forall i: nat :: i in ks <==> FiledAt(settings, category)(i))
        && (forall i, j | 0 <= i < j < |ks| :: ks[i] < ks[j])
        && |SettingsByCategory(category)| == |ks|
        && forall i | 0 <= i < |ks| :: ks[i] < |settings.keys| && settings.keys[ks[i]] in settings.values
             && SettingsByCategory(category)[i] == settings.values[settings.keys[ks[i]]]
    {
      InCategoryInOrder(settings, category, |settings.keys|);
    }
  }
}
