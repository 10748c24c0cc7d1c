/** The pin extractor for `rotator_pins.h`: picks the defines whose names look like pin
    assignments, classifies each value as disabled (0 or not a number), analog (`A<digits>`),
    remote (above 99) or a plain digital pin, groups the pins for display, collects the
    digital and analog pins in use, and reports digital pin numbers assigned more than once. */
module Pins {
  import opened Wrappers
  import opened Strings
  import opened Dicts
  import opened Seqs
  import opened Numbers
  import opened Preprocessor
  import opened Groups

  datatype PinDefinition = PinDefinition(
    name: string,
    pinNumber: Option<int>,
    pinString: string,
    isAnalog: bool,
    isDisabled: bool,
    isRemote: bool,
    featureDependency: Option<string>,
    comment: Option<string>,
    lineNumber: nat)

  /** A digital pin number shared by several pin names, with those names in table order.
      The warning text built from them is not modelled. */
  type Conflict = Shared<int, string>

  datatype PinConfig = PinConfig(
    pins: Dict<string, PinDefinition>,
    groups: seq<Group>,
    digitalPins: set<int>,
    analogPins: set<string>,
    conflicts: seq<Conflict>)

  // ---------------------------------------------------------------------------------------
  // Recognising and classifying one pin define
  // ---------------------------------------------------------------------------------------

  const PIN_KEYWORDS: seq<string> := ["pin", "button", "led", "brake", "lcd", "rotate", "analog", "preset", "limit", "stepper", "serial"]

  /** `_is_pin_define` (with `PIN_KEYWORDS` for `keywords`): the lower-cased name contains
      one of the keywords. */
  predicate IsPinDefine(keywords: seq<string>, name: string) {
    ContainsAny(Lower(name), keywords)
  }

  /** Upper-casing a name changes nothing about whether it is a pin define. */
  lemma PinDefineIgnoresCase(keywords: seq<string>, name: string)
    ensures IsPinDefine(keywords, Upper(name)) == IsPinDefine(keywords, name)
  {
    assert Lower(Upper(name)) == Lower(name);
  }

  /** `^A(\d+)$` on a stripped value. */
  predicate IsAnalogName(s: string) {
    |s| >= 2 && s[0] == 'A' && AllDigits(s[1..])
  }

  lemma StripZero()
    ensures Strip("0") == "0"
  {
    StripOfStripped("0");
  }

  /** `(define.value or "0").strip()`, with an empty result replaced by `"0"`. */
  function PinValue(value: Option<string>): (r: string)
    ensures r != [] && Strip(r) == r
    ensures value.None? || Strip(value.value) == [] ==> r == "0"
    ensures value.Some? && Strip(value.value) != [] ==> r == Strip(value.value)
  {
    if value.None? || Strip(value.value) == [] then
      StripZero();
      "0"
    else
      var v := Strip(value.value);
      StripOfStripped(v);
      v
  }

  /** `_parse_pin_definition` */
  function ParsePinDefinition(define: DefineNode): (r: PinDefinition)
    ensures r.name == define.name && r.pinString == PinValue(define.value)
    ensures r.featureDependency == define.conditionalScope && r.comment == define.comment && r.lineNumber == define.lineNumber
    ensures r.isAnalog <==> IsAnalogName(r.pinString)
    ensures r.isAnalog ==> r.pinNumber.None? && !r.isDisabled && !r.isRemote
    ensures !r.isAnalog ==> r.pinNumber == ParseInt(r.pinString)
    ensures r.pinNumber.None? && !r.isAnalog ==> r.isDisabled && !r.isRemote
    ensures r.pinNumber.Some? ==> (r.isDisabled <==> r.pinNumber.value == 0) && (r.isRemote <==> r.pinNumber.value > 99)
  {
    var s := PinValue(define.value);
    var base := PinDefinition(define.name, None, s, false, false, false, define.conditionalScope, define.comment, define.lineNumber);
    if IsAnalogName(s) then base.(isAnalog := true)
    else match ParseInt(s)
      case None => base.(isDisabled := true)
      case Some(n) => base.(pinNumber := Some(n), isDisabled := n == 0, isRemote := n > 99)
  }

  /** A define with no value, or one that strips to nothing, is a disabled digital pin 0. */
  lemma MissingValueDisabled(define: DefineNode)
    requires define.value.None? || Strip(define.value.value) == []
    ensures var p := ParsePinDefinition(define);
      p.pinString == "0" && p.pinNumber == Some(0) && p.isDisabled && !p.isAnalog && !p.isRemote
  {
    ZeroIsDigital();
  }

  lemma ZeroIsDigital()
    ensures !IsAnalogName("0") && ParseInt("0") == Some(0)
  {
    StripZero();
    assert "0"[1..] == [];
    assert DigitsValue("0") == 0 by {
      assert "0"[..0] == [];
    }
  }

  /** A value that is neither `A<digits>` nor an integer is a disabled pin with no number. */
  lemma NonNumericDisabled(define: DefineNode)
    requires !IsAnalogName(PinValue(define.value)) && ParseInt(PinValue(define.value)).None?
    ensures var p := ParsePinDefinition(define);
      p.isDisabled && p.pinNumber.None? && !p.isAnalog && !p.isRemote
  {
  }

  /** An integer value `n` gives pin number `n`, disabled iff `n` is 0, remote iff above 99. */
  lemma NumericPin(define: DefineNode, n: int)
    requires !IsAnalogName(PinValue(define.value)) && ParseInt(PinValue(define.value)) == Some(n)
    ensures var p := ParsePinDefinition(define);
      p.pinNumber == Some(n) && !p.isAnalog && (p.isDisabled <==> n == 0) && (p.isRemote <==> n > 99)
  {
  }

  /** A pin whose number counts towards the used digital pins and the conflicts. */
  predicate IsLiveDigital(p: PinDefinition) {
    !p.isDisabled && !p.isRemote && !p.isAnalog && p.pinNumber.Some?
  }

  // ---------------------------------------------------------------------------------------
  // The pin table, the used-pin sets and the conflicts
  // ---------------------------------------------------------------------------------------

  /** The filter of the extraction loop. */
  function PinLike(keywords: seq<string>): string -> bool {
    name => IsPinDefine(keywords, name)
  }

  /** `pins` after the extraction loop of `parse()`. */
  function ExtractPins(keywords: seq<string>, pins: Dict<string, PinDefinition>, src: Dict<string, DefineNode>): Dict<string, PinDefinition> {
    Collect(pins, src, PinLike(keywords), ParsePinDefinition, |src.keys|)
  }

  /** On an empty table the extraction keeps exactly the pin-like defines, each parsed. */
  lemma ExtractedPins(keywords: seq<string>, src: Dict<string, DefineNode>, name: string)
    ensures var pins := ExtractPins(keywords, Empty(), src);
      && (name in pins.values <==> name in src.values && IsPinDefine(keywords, name))
      && (name in pins.values ==> pins.values[name] == ParsePinDefinition(src.values[name]))
  {
    CollectAll(src, PinLike(keywords), ParsePinDefinition);
  }

  /** The digital pin numbers in use. */
  function UsedDigital(pins: Dict<string, PinDefinition>): set<int> {
    set k | k in pins.values && IsLiveDigital(pins.values[k]) :: pins.values[k].pinNumber.value
  }

  /** The analog pin names in use. */
  function UsedAnalog(pins: Dict<string, PinDefinition>): set<string> {
    set k | k in pins.values && !pins.values[k].isDisabled && !pins.values[k].isRemote && pins.values[k].isAnalog :: pins.values[k].pinString
  }

  /** The number a pin contributes to `pin_usage`, if it is live and digital. */
  function LiveNumber(pins: Dict<string, PinDefinition>): string -> Option<int> {
    k => if k in pins.values && IsLiveDigital(pins.values[k]) then Some(pins.values[k].pinNumber.value) else None
  }

  /** `pin_usage`: each live digital number with the names using it, in table order. */
  function Usage(pins: Dict<string, PinDefinition>): Dict<int, seq<string>> {
    GroupBy(pins.keys, LiveNumber(pins), |pins.keys|)
  }

  /** The names, in table order, whose live digital number is `x`. */
  function Users(pins: Dict<string, PinDefinition>, x: int): seq<string> {
    Labelled(pins.keys, LiveNumber(pins), |pins.keys|, x)
  }

  /** The loop of `_detect_conflicts` that builds `pin_usage`. */
  method BuildUsage(pins: Dict<string, PinDefinition>) returns (usage: Dict<int, seq<string>>)
    ensures usage == Usage(pins)
  {
    usage := Empty();
    var i := 0;
    while i < |pins.keys|
      invariant 0 <= i <= |pins.keys|
      invariant usage == GroupBy(pins.keys, LiveNumber(pins), i)
    {
      var name := pins.keys[i];
      var p := pins.values[name];
      GroupByNext(pins.keys, LiveNumber(pins), i);
      if IsLiveDigital(p) {
        var x := p.pinNumber.value;
        usage := Put(usage, x, GetOr(usage, x, []) + [name]);
      }
      i := i + 1;
    }
  }

  /** The conflicts `_detect_conflicts` reports for a usage table, in its key order. */
  function ConflictsOf(u: Dict<int, seq<string>>): seq<Conflict> {
    SharedUpTo(u, |u.keys|)
  }

  /** `_detect_conflicts` as a function of the pin table. */
  function Conflicts(pins: Dict<string, PinDefinition>): seq<Conflict> {
    ConflictsOf(Usage(pins))
  }

  /** A digital number is reported exactly when two or more live pins use it, the report names
      exactly those pins in table order, and no number is reported twice. */
  lemma ConflictsExact(pins: Dict<string, PinDefinition>, x: int)
    ensures (exists c | c in Conflicts(pins) :: c.key == x) <==> |Users(pins, x)| >= 2
    ensures forall c | c in Conflicts(pins) :: c.members == Users(pins, c.key) && |c.members| >= 2
    ensures forall i, j | 0 <= i < j < |Conflicts(pins)| :: Conflicts(pins)[i].key != Conflicts(pins)[j].key
  {
    var u := Usage(pins);
    var cs := SharedUpTo(u, |u.keys|);
    assert Conflicts(pins) == cs;
    GroupByMembers(pins.keys, LiveNumber(pins), |pins.keys|);
    SharedUpToSpec(u, |u.keys|);
    assert u.keys[..|u.keys|] == u.keys;
    forall i, j | 0 <= i < j < |cs|
      ensures cs[i].key != cs[j].key
    {
      DistinctIndices(KeysOf(cs), i, j);
    }
    if |Users(pins, x)| >= 2 {
      assert x in u.values;
      assert x in u.keys[..|u.keys|] && |u.values[x]| > 1;
    }
  }

  /** Ignoring the disabled, remote and analog pins: a pin that is not live digital is named in
      no conflict. */
  lemma ConflictsSkipNonDigital(pins: Dict<string, PinDefinition>, k: string)
    requires k in pins.values && !IsLiveDigital(pins.values[k])
    ensures forall c | c in Conflicts(pins) :: k !in c.members
  {
    ConflictsExact(pins, 0);
    forall c | c in Conflicts(pins)
      ensures k !in c.members
    {
      LabelledFilters(pins.keys, LiveNumber(pins), |pins.keys|, c.key);
    }
  }

  // ---------------------------------------------------------------------------------------
  // The parser object
  // ---------------------------------------------------------------------------------------

  /** Names of the pin groups and their members, in declaration order. */
  const PIN_GROUPS: seq<(string, seq<string>)> := [
    ("Azimuth Motor Control", [
        "rotate_cw", "rotate_ccw",
        "rotate_cw_pwm", "rotate_ccw_pwm",
        "rotate_cw_freq", "rotate_ccw_freq",
        "brake_az", "azimuth_speed_voltage"]),
    ("Elevation Motor Control", [
        "rotate_up", "rotate_down",
        "rotate_up_pwm", "rotate_down_pwm",
        "rotate_up_freq", "rotate_down_freq",
        "brake_el", "elevation_speed_voltage"]),
    ("Position Sensors (Azimuth)", [
        "rotator_analog_az",
        "az_rotary_position_pin1", "az_rotary_position_pin2",
        "az_position_pulse_pin",
        "az_incremental_encoder_pin_a", "az_incremental_encoder_pin_b",
        "az_incremental_encoder_pin_z"]),
    ("Position Sensors (Elevation)", [
        "rotator_analog_el",
        "el_rotary_position_pin1", "el_rotary_position_pin2",
        "el_position_pulse_pin",
        "el_incremental_encoder_pin_a", "el_incremental_encoder_pin_b",
        "el_incremental_encoder_pin_z"]),
    ("Manual Control Buttons", [
        "button_cw", "button_ccw",
        "button_up", "button_down",
        "button_stop", "button_park",
        "moon_tracking_button", "sun_tracking_button",
        "satellite_tracking_button"]),
    ("LCD Display (4-bit)", [
        "lcd_4_bit_rs_pin", "lcd_4_bit_enable_pin",
        "lcd_4_bit_d4_pin", "lcd_4_bit_d5_pin",
        "lcd_4_bit_d6_pin", "lcd_4_bit_d7_pin"]),
    ("Status & Indicators", [
        "serial_led", "overlap_led", "status_led",
        "rotation_indication_pin", "audible_alert_pin",
        "brake_active_state", "brake_inactive_state"]),
    ("Limit Switches", [
        "az_limit_sense_pin", "el_limit_sense_pin"]),
    ("Speed & Preset Controls", [
        "az_speed_pot", "az_preset_pot",
        "el_speed_pot", "el_preset_pot",
        "preset_encoder_pin1", "preset_encoder_pin2"]),
    ("Stepper Motor", [
        "az_stepper_motor_pulse", "az_stepper_motor_direction",
        "el_stepper_motor_pulse", "el_stepper_motor_direction"])
  ]

  const OTHER_PINS := "Other Pins"
  const OTHER_PINS_DESCRIPTION := "Additional pins not categorized"

  /** `_build_groups` */
  function BuildGroups(table: seq<(string, seq<string>)>, pins: Dict<string, PinDefinition>): seq<Group> {
    Build(table, pins, OTHER_PINS, OTHER_PINS_DESCRIPTION)
  }

  /** `get_pins_by_group`: the present members of the first table entry with that name, or
      nothing for an unknown group. */
  function PinsByGroup(table: seq<(string, seq<string>)>, pins: Dict<string, PinDefinition>, groupName: string): (r: seq<PinDefinition>)
    ensures (forall e | e in table :: e.0 != groupName) ==> r == []
    ensures forall p | p in r :: exists k | k in pins.values :: pins.values[k] == p
    decreases |table|
  {
    if table == [] then []
    else if table[0].0 == groupName then
      var present := Existing(table[0].1, pins);
      seq(|present|, i requires 0 <= i < |present| => pins.values[present[i]])
    else PinsByGroup(table[1..], pins, groupName)
  }

  /** For a group the table names, with no earlier entry of that name, `get_pins_by_group`
      gives the definitions of its present members in the group's order, and every
      present member's definition is among them. */
  lemma {:induction false} PinsByGroupKnown(table: seq<(string, seq<string>)>, pins: Dict<string, PinDefinition>, groupName: string, i: nat)
    requires i < |table| && table[i].0 == groupName && forall j | 0 <= j < i :: table[j].0 != groupName
    ensures var present := Existing(table[i].1, pins);
      && (forall n :: n in present <==> n in table[i].1 && n in pins.values)
      && |PinsByGroup(table, pins, groupName)| == |present|
      && forall j | 0 <= j < |present| :: present[j] in pins.values && PinsByGroup(table, pins, groupName)[j] == pins.values[present[j]]
    ensures forall n | n in table[i].1 && n in pins.values :: pins.values[n] in PinsByGroup(table, pins, groupName)
    decreases i
  {
    var present := Existing(table[i].1, pins);
    if i > 0 {
      PinsByGroupKnown(table[1..], pins, groupName, i - 1);
    }
    var r := PinsByGroup(table, pins, groupName);
    forall n | n in table[i].1 && n in pins.values
      ensures pins.values[n] in r
    {
      var j :| 0 <= j < |present| && present[j] == n;
      assert r[j] == pins.values[n];
    }
  }

  /** The second loop of `_detect_conflicts`: one conflict per number with several users. */
  method ReportShared(usage: Dict<int, seq<string>>) returns (conflicts: seq<Conflict>)
    ensures conflicts == ConflictsOf(usage)
  {
    conflicts := [];
    var j := 0;
    while j < |usage.keys|
      invariant 0 <= j <= |usage.keys|
      invariant conflicts == SharedUpTo(usage, j)
    {
      var x := usage.keys[j];
      if |usage.values[x]| > 1 {
        conflicts := conflicts + [Shared(x, usage.values[x])];
      }
      j := j + 1;
    }
  }

  class PinParser {
    /** `PIN_GROUPS` */
    const groupTable: seq<(string, seq<string>)>
    /** The keyword list of `_is_pin_define` */
    const pinKeywords: seq<string>
    var pins: Dict<string, PinDefinition>

    constructor ()
      ensures groupTable == PIN_GROUPS && pinKeywords == PIN_KEYWORDS && pins == Empty()
    {
      groupTable := PIN_GROUPS;
      pinKeywords := PIN_KEYWORDS;
      pins := Empty();
    }

    /** `parse()`, given what the preprocessor made of the header. A failed preprocessor parse
        is the `ValueError` carrying its errors. */
    method Parse(pre: ParseResult) returns (r: Result<PinConfig, seq<ParseError>>)
      modifies this
      ensures !pre.success ==> r == Err(pre.errors) && pins == old(pins)
      ensures pre.success ==>
        && pins == ExtractPins(pinKeywords, old(pins), pre.defines)
        && r == Ok(PinConfig(pins, BuildGroups(groupTable, pins), UsedDigital(pins), UsedAnalog(pins), Conflicts(pins)))
    {
      if !pre.success {
        return Err(pre.errors);
      }
      Extract(pre.defines);
      var groups := BuildGroups(groupTable, pins);
      var digital, analog := UsedPins();
      var conflicts := DetectConflicts();
      r := Ok(PinConfig(pins, groups, digital, analog, conflicts));
    }

    /** The extraction loop of `parse()`. */
    method Extract(src: Dict<string, DefineNode>)
      modifies this
      ensures pins == ExtractPins(pinKeywords, old(pins), src)
    {
      var d := pins;
      var i := 0;
      while i < |src.keys|
        invariant 0 <= i <= |src.keys|
        invariant d == Collect(old(pins), src, PinLike(pinKeywords), ParsePinDefinition, i)
      {
        var name := src.keys[i];
        CollectNext(old(pins), src, PinLike(pinKeywords), ParsePinDefinition, i);
        if IsPinDefine(pinKeywords, name) {
          d := Put(d, name, ParsePinDefinition(src.values[name]));
        }
        i := i + 1;
      }
      pins := d;
    }

    /** The loop of `parse()` that collects the digital and analog pins in use. */
    method UsedPins() returns (digital: set<int>, analog: set<string>)
      ensures digital == UsedDigital(pins) && analog == UsedAnalog(pins)
    {
      digital, analog := {}, {};
      var i := 0;
      while i < |pins.keys|
        invariant 0 <= i <= |pins.keys|
        invariant digital == set k | k in pins.keys[..i] && IsLiveDigital(pins.values[k]) :: pins.values[k].pinNumber.value
        invariant analog == set k | k in pins.keys[..i] && !pins.values[k].isDisabled && !pins.values[k].isRemote && pins.values[k].isAnalog :: pins.values[k].pinString
      {
        var k := pins.keys[i];
        var p := pins.values[k];
        assert pins.keys[..i + 1] == pins.keys[..i] + [k];
        if !p.isDisabled && !p.isRemote {
          if p.isAnalog {
            analog := analog + {p.pinString};
          } else if p.pinNumber.Some? {
            digital := digital + {p.pinNumber.value};
          }
        }
        i := i + 1;
      }
      assert pins.keys[..i] == pins.keys;
    }

    /** `_detect_conflicts` */
    method DetectConflicts() returns (conflicts: seq<Conflict>)
      ensures conflicts == Conflicts(pins)
    {
      var usage := PinUsage();
      conflicts := ReportShared(usage);
    }

    /** The first loop of `_detect_conflicts`, building `pin_usage`. */
    method PinUsage() returns (usage: Dict<int, seq<string>>)
      ensures usage == Usage(pins)
    {
      usage := BuildUsage(pins);
    }

    /** `get_pin` */
    function GetPin(name: string): (r: Option<PinDefinition>)
      reads this
      ensures r.Some? <==> name in pins.values
      ensures r.Some? ==> r.value == pins.values[name]
    {
      if name in pins.values then Some(pins.values[name]) else None
    }
  }
}
