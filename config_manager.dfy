/** The configuration manager: where the three header files live, and the edits it makes
    to the parsed feature, pin and settings tables once they are loaded. */
module Config {
  import opened Wrappers
  import opened Strings
  import opened Dicts
  import opened Seqs
  import opened Numbers
  import opened Preprocessor
  import opened Features
  import opened Pins
  import opened Settings
  import Groups

  // ---------------------------------------------------------------------------------------
  // File locations
  // ---------------------------------------------------------------------------------------

  /** A filesystem path as its list of components; `p / name` appends one component. */
  datatype Path = Path(parts: seq<string>)

  function Join(p: Path, name: string): Path {
    Path(p.parts + [name])
  }

  /** `p.parent` of a path with at least one component. */
  function Parent(p: Path): Path
    requires p.parts != []
  {
    Path(p.parts[..|p.parts| - 1])
  }

  /** `p.name` of a path with at least one component. */
  function FileName(p: Path): string
    requires p.parts != []
  {
    p.parts[|p.parts| - 1]
  }

  /** Appending a component and then taking the parent and the name gives both back. */
  lemma JoinSplits(p: Path, name: string)
    ensures Join(p, name).parts != []
    ensures Parent(Join(p, name)) == p && FileName(Join(p, name)) == name
  {
    assert Join(p, name).parts[..|p.parts|] == p.parts;
  }

  const FIRMWARE_DIR := "k3ng_rotator_controller"

  datatype ConfigurationPaths = ConfigurationPaths(
    projectDir: Path,
    featuresFile: Path,
    pinsFile: Path,
    settingsFile: Path,
    hardwareFile: Option<Path>)

  /** `ConfigurationPaths.from_project_dir`: the four headers side by side in the firmware
      directory of the project. */
  function FromProjectDir(projectDir: Path): (r: ConfigurationPaths)
    ensures r.projectDir == projectDir && r.hardwareFile.Some?
    ensures r.featuresFile.parts != [] && r.pinsFile.parts != [] && r.settingsFile.parts != []
    ensures r.hardwareFile.value.parts != []
    ensures Parent(r.featuresFile) == Join(projectDir, FIRMWARE_DIR) && FileName(r.featuresFile) == "rotator_features.h"
    ensures Parent(r.pinsFile) == Join(projectDir, FIRMWARE_DIR) && FileName(r.pinsFile) == "rotator_pins.h"
    ensures Parent(r.settingsFile) == Join(projectDir, FIRMWARE_DIR) && FileName(r.settingsFile) == "rotator_settings.h"
    ensures Parent(r.hardwareFile.value) == Join(projectDir, FIRMWARE_DIR) && FileName(r.hardwareFile.value) == "rotator_hardware.h"
  {
    var base := Join(projectDir, FIRMWARE_DIR);
    JoinSplits(base, "rotator_features.h");
    JoinSplits(base, "rotator_pins.h");
    JoinSplits(base, "rotator_settings.h");
    JoinSplits(base, "rotator_hardware.h");
    ConfigurationPaths(projectDir, Join(base, "rotator_features.h"), Join(base, "rotator_pins.h"),
                       Join(base, "rotator_settings.h"), Some(Join(base, "rotator_hardware.h")))
  }

  /** The three parsed headers are three different files. */
  lemma HeadersDistinct(projectDir: Path)
    ensures var r := FromProjectDir(projectDir);
      r.featuresFile != r.pinsFile && r.pinsFile != r.settingsFile && r.featuresFile != r.settingsFile
  {
    var r := FromProjectDir(projectDir);
    assert FileName(r.featuresFile) != FileName(r.pinsFile);
    assert FileName(r.pinsFile) != FileName(r.settingsFile);
    assert FileName(r.featuresFile) != FileName(r.settingsFile);
  }

  // ---------------------------------------------------------------------------------------
  // Feature toggles
  // ---------------------------------------------------------------------------------------

  /** The active set is exactly the features whose define is active, as the parser builds it. */
  predicate ActiveConsistent(fc: FeatureConfig) {
    fc.activeFeatures == ActiveNames(fc.features)
  }

  /** `enable_feature` on a loaded manager. */
  function EnableIn(fc: FeatureConfig, name: string): FeatureConfig {
    if name in fc.features.values then
      var d := fc.features.values[name];
      fc.(features := Update(fc.features, name, d.(isActive := true, isCommented := false)),
          activeFeatures := fc.activeFeatures + {name})
    else fc
  }

  /** `disable_feature` on a loaded manager. */
  function DisableIn(fc: FeatureConfig, name: string): FeatureConfig {
    if name in fc.features.values then
      var d := fc.features.values[name];
      fc.(features := Update(fc.features, name, d.(isActive := false, isCommented := true)),
          activeFeatures := fc.activeFeatures - {name})
    else fc
  }

  /** Enabling a known feature switches its define on and uncomments it and adds it to the
      active set; no other feature, and no other table, changes; an unknown name changes
      nothing. */
  lemma EnableEffect(fc: FeatureConfig, name: string, k: string)
    ensures var r := EnableIn(fc, name);
      && r.features.keys == fc.features.keys
      && r.options == fc.options && r.languages == fc.languages
      && r.categories == fc.categories && r.activeOptions == fc.activeOptions
      && (k in r.features.values <==> k in fc.features.values)
      && (name in fc.features.values ==>
            && r.features.values[name] == fc.features.values[name].(isActive := true, isCommented := false)
            && name in r.activeFeatures)
      && (k != name && k in fc.features.values ==> r.features.values[k] == fc.features.values[k])
      && (k != name ==> (k in r.activeFeatures <==> k in fc.activeFeatures))
      && (name !in fc.features.values ==> r == fc)
  {
  }

  /** The mirror image of `EnableEffect`. */
  lemma DisableEffect(fc: FeatureConfig, name: string, k: string)
    ensures var r := DisableIn(fc, name);
      && r.features.keys == fc.features.keys
      && r.options == fc.options && r.languages == fc.languages
      && r.categories == fc.categories && r.activeOptions == fc.activeOptions
      && (k in r.features.values <==> k in fc.features.values)
      && (name in fc.features.values ==>
            && r.features.values[name] == fc.features.values[name].(isActive := false, isCommented := true)
            && name !in r.activeFeatures)
      && (k != name && k in fc.features.values ==> r.features.values[k] == fc.features.values[k])
      && (k != name ==> (k in r.activeFeatures <==> k in fc.activeFeatures))
      && (name !in fc.features.values ==> r == fc)
  {
  }

  /** Of two toggles of the same name, the last one is the one that counts. */
  lemma LastToggleWins(fc: FeatureConfig, name: string)
    ensures DisableIn(EnableIn(fc, name), name) == DisableIn(fc, name)
    ensures EnableIn(DisableIn(fc, name), name) == EnableIn(fc, name)
  {
    if name in fc.features.values {
      var d := fc.features.values[name];
      var on := d.(isActive := true, isCommented := false);
      var off := d.(isActive := false, isCommented := true);
      UpdateTwice(fc.features, name, on, off);
      UpdateTwice(fc.features, name, off, on);
      assert (fc.activeFeatures + {name}) - {name} == fc.activeFeatures - {name};
      assert (fc.activeFeatures - {name}) + {name} == fc.activeFeatures + {name};
    }
  }

  /** Toggling keeps the active set in step with the defines. */
  lemma TogglesKeepActiveSet(fc: FeatureConfig, name: string)
    requires ActiveConsistent(fc)
    ensures ActiveConsistent(EnableIn(fc, name)) && ActiveConsistent(DisableIn(fc, name))
  {
    if name in fc.features.values {
      var e := EnableIn(fc, name);
      forall k
        ensures k in e.activeFeatures <==> k in ActiveNames(e.features)
      {
        EnableEffect(fc, name, k);
      }
      var d := DisableIn(fc, name);
      forall k
        ensures k in d.activeFeatures <==> k in ActiveNames(d.features)
      {
        DisableEffect(fc, name, k);
      }
    }
  }

  // ---------------------------------------------------------------------------------------
  // Pin assignment
  // ---------------------------------------------------------------------------------------

  predicate AnalogText(value: string) {
    |value| > 0 && value[0] == 'A'
  }

  /** `set_pin_assignment` on the definition of a known pin. */
  function AssignPin(d: PinDefinition, value: string): PinDefinition {
    var d := d.(pinString := value);
    if AnalogText(value) then d.(isAnalog := true, isDisabled := false, pinNumber := None)
    else match ParseInt(value)
      case Some(n) => d.(pinNumber := Some(n), isDisabled := n == 0, isRemote := n > 99, isAnalog := false)
      case None => d.(isDisabled := true)
  }

  /** The pin's name, feature, comment and line are never touched; the stored text is
      always the new value. */
  lemma AssignKeepsIdentity(d: PinDefinition, value: string)
    ensures var r := AssignPin(d, value);
      && r.pinString == value && r.name == d.name && r.featureDependency == d.featureDependency
      && r.comment == d.comment && r.lineNumber == d.lineNumber
  {
  }

  /** An `A…` value makes the pin analog and enabled, with no number, and keeps its remote flag. */
  lemma AssignAnalog(d: PinDefinition, value: string)
    requires AnalogText(value)
    ensures var r := AssignPin(d, value);
      r.isAnalog && !r.isDisabled && r.pinNumber == None && r.isRemote == d.isRemote
  {
  }

  /** An integer value becomes the pin number: disabled exactly when it is 0, remote exactly
      when it is above 99, never analog. */
  lemma AssignInteger(d: PinDefinition, value: string, n: int)
    requires !AnalogText(value) && ParseInt(value) == Some(n)
    ensures var r := AssignPin(d, value);
      && r.pinNumber == Some(n) && (r.isDisabled <==> n == 0) && (r.isRemote <==> n > 99) && !r.isAnalog
  {
  }

  /** Any other value only disables the pin. */
  lemma AssignOther(d: PinDefinition, value: string)
    requires !AnalogText(value) && ParseInt(value) == None
    ensures var r := AssignPin(d, value);
      && r.isDisabled && r.pinNumber == d.pinNumber && r.isAnalog == d.isAnalog && r.isRemote == d.isRemote
  {
  }

  /** The pin ends up disabled exactly when its value is neither an `A…` text nor a nonzero
      integer. */
  lemma DisabledMeaning(d: PinDefinition, value: string)
    ensures AssignPin(d, value).isDisabled <==> !AnalogText(value) && (ParseInt(value).None? || ParseInt(value) == Some(0))
  {
  }

  /** Assigning the same value twice is the same as assigning it once. */
  lemma AssignIdempotent(d: PinDefinition, value: string)
    ensures AssignPin(AssignPin(d, value), value) == AssignPin(d, value)
  {
  }

  /** `set_pin_assignment` on a loaded manager: only the named pin's definition changes; the
      used-pin sets, groups and conflicts computed by the parser are not recomputed. */
  function SetPinIn(pc: PinConfig, name: string, value: string): PinConfig {
    if name in pc.pins.values then pc.(pins := Update(pc.pins, name, AssignPin(pc.pins.values[name], value)))
    else pc
  }

  /** `set_setting_value` on a loaded manager: only the value of a known setting changes. */
  function SetSettingIn(sc: SettingsConfig, name: string, value: SettingValue): SettingsConfig {
    if name in sc.settings.values then sc.(settings := Update(sc.settings, name, sc.settings.values[name].(value := value)))
    else sc
  }

  // ---------------------------------------------------------------------------------------
  // Importing
  // ---------------------------------------------------------------------------------------

  /** The input of `import_from_dict`: per section, the entries in order. A feature entry
      carries the truth of its `enabled` field (falsy when absent); a pin or setting entry its
      `value` field, when present. */
  datatype ImportData = ImportData(
    features: Option<Dict<string, bool>>,
    pins: Option<Dict<string, Option<string>>>,
    settings: Option<Dict<string, Option<SettingValue>>>)

  /** The feature table after the first `n` entries of the features section. */
  function ImportFeatures(fc: FeatureConfig, entries: Dict<string, bool>, n: nat): FeatureConfig
    requires n <= |entries.keys|
  {
    if n == 0 then fc
    else
      var prev := ImportFeatures(fc, entries, n - 1);
      var k := entries.keys[n - 1];
      if k in prev.features.values then (if entries.values[k] then EnableIn(prev, k) else DisableIn(prev, k))
      else prev
  }

  /** The pin table after the first `n` entries of the pins section; a missing value
      stands for `"0"`. */
  function ImportPins(pc: PinConfig, entries: Dict<string, Option<string>>, n: nat): PinConfig
    requires n <= |entries.keys|
  {
    if n == 0 then pc
    else
      var k := entries.keys[n - 1];
      SetPinIn(ImportPins(pc, entries, n - 1), k, entries.values[k].GetOr("0"))
  }

  /** The settings table after the first `n` entries of the settings section; a missing
      value stands for `None`. */
  function ImportSettings(sc: SettingsConfig, entries: Dict<string, Option<SettingValue>>, n: nat): SettingsConfig
    requires n <= |entries.keys|
  {
    if n == 0 then sc
    else
      var k := entries.keys[n - 1];
      SetSettingIn(ImportSettings(sc, entries, n - 1), k, entries.values[k].GetOr(NoValue))
  }

  /** After importing the first `n` entries, a known feature listed among them is enabled
      exactly when its entry says so; every other feature keeps its define and its
      membership of the active set; the table keeps its keys. */
  predicate FeatureImported(fc: FeatureConfig, entries: Dict<string, bool>, n: nat, k: string)
    requires n <= |entries.keys|
  {
    var r := ImportFeatures(fc, entries, n);
    && r.features.keys == fc.features.keys
    && (k in r.features.values <==> k in fc.features.values)
    && (k in fc.features.values && k in entries.keys[..n] ==>
          && r.features.values[k] == fc.features.values[k].(isActive := entries.values[k], isCommented := !entries.values[k])
          && (k in r.activeFeatures <==> entries.values[k]))
    && (k in fc.features.values && k !in entries.keys[..n] ==> r.features.values[k] == fc.features.values[k])
    && (k !in fc.features.values || k !in entries.keys[..n] ==> (k in r.activeFeatures <==> k in fc.activeFeatures))
  }

  /** Importing a features section has the effect `FeatureImported` describes on every name. */
  lemma {:induction false} ImportFeaturesEffect(fc: FeatureConfig, entries: Dict<string, bool>, n: nat, k: string)
    requires n <= |entries.keys|
    ensures FeatureImported(fc, entries, n, k)
  {
    if n > 0 {
      var j := entries.keys[n - 1];
      ImportFeaturesEffect(fc, entries, n - 1, k);
      ImportFeaturesEffect(fc, entries, n - 1, j);
      assert entries.keys[..n] == entries.keys[..n - 1] + [j];
      LastKeyNew(entries, n);
      ImportFeatureStep(fc, entries, n, k);
    }
  }

  /** One more entry of the features section: the `n`-th key, new among the first `n`. */
  lemma ImportFeatureStep(fc: FeatureConfig, entries: Dict<string, bool>, n: nat, k: string)
    requires 0 < n <= |entries.keys|
    requires FeatureImported(fc, entries, n - 1, k) && FeatureImported(fc, entries, n - 1, entries.keys[n - 1])
    requires entries.keys[..n] == entries.keys[..n - 1] + [entries.keys[n - 1]]
    requires entries.keys[n - 1] !in entries.keys[..n - 1]
    ensures FeatureImported(fc, entries, n, k)
  {
    var prev := ImportFeatures(fc, entries, n - 1);
    var j := entries.keys[n - 1];
    if j in prev.features.values {
      if entries.values[j] {
        EnableEffect(prev, j, k);
      } else {
        DisableEffect(prev, j, k);
      }
    } else {
      assert ImportFeatures(fc, entries, n) == prev;
    }
  }

  /** After importing, a known pin listed in the section holds the assignment of its value
      (or of `"0"`) to its old definition; every other pin is as it was, and so are the
      parser's derived sets. */
  lemma {:induction false} ImportPinsEffect(pc: PinConfig, entries: Dict<string, Option<string>>, n: nat, k: string)
    requires n <= |entries.keys|
    ensures var r := ImportPins(pc, entries, n);
      && r.pins.keys == pc.pins.keys
      && r.groups == pc.groups && r.digitalPins == pc.digitalPins && r.analogPins == pc.analogPins && r.conflicts == pc.conflicts
      && (k in r.pins.values <==> k in pc.pins.values)
      && (k in pc.pins.values && k in entries.keys[..n] ==> r.pins.values[k] == AssignPin(pc.pins.values[k], entries.values[k].GetOr("0")))
      && (k in pc.pins.values && k !in entries.keys[..n] ==> r.pins.values[k] == pc.pins.values[k])
  {
    if n > 0 {
      var j := entries.keys[n - 1];
      ImportPinsEffect(pc, entries, n - 1, k);
      assert entries.keys[..n] == entries.keys[..n - 1] + [j];
      LastKeyNew(entries, n);
    }
  }

  /** After importing, a known setting listed in the section holds its entry's value (or
      `None`), and nothing else about any setting changes. */
  lemma {:induction false} ImportSettingsEffect(sc: SettingsConfig, entries: Dict<string, Option<SettingValue>>, n: nat, k: string)
    requires n <= |entries.keys|
    ensures var r := ImportSettings(sc, entries, n);
      && r.settings.keys == sc.settings.keys
      && r.categories == sc.categories && r.eepromSettings == sc.eepromSettings
      && (k in r.settings.values <==> k in sc.settings.values)
      && (k in sc.settings.values && k in entries.keys[..n] ==>
            r.settings.values[k] == sc.settings.values[k].(value := entries.values[k].GetOr(NoValue)))
      && (k in sc.settings.values && k !in entries.keys[..n] ==> r.settings.values[k] == sc.settings.values[k])
  {
    if n > 0 {
      var j := entries.keys[n - 1];
      ImportSettingsEffect(sc, entries, n - 1, k);
      assert entries.keys[..n] == entries.keys[..n - 1] + [j];
      LastKeyNew(entries, n);
    }
  }

  // ---------------------------------------------------------------------------------------
  // Summary
  // ---------------------------------------------------------------------------------------

  datatype ConfigurationSummary = ConfigurationSummary(
    protocol: Option<string>,
    azSensor: Option<string>,
    elSensor: Option<string>,
    hasElevation: bool,
    displayType: Option<string>,
    totalFeatures: nat,
    enabledFeatures: nat,
    totalPins: nat,
    assignedPins: nat,
    totalSettings: nat,
    eepromSettings: nat,
    validationErrors: nat,
    validationWarnings: nat)

  const PROTOCOL_FEATURES: seq<string> := ["FEATURE_YAESU_EMULATION", "FEATURE_EASYCOM_EMULATION", "FEATURE_DCU_1_EMULATION"]
  const DISPLAY_FEATURES: seq<string> := ["FEATURE_4_BIT_LCD_DISPLAY", "FEATURE_ADAFRUIT_I2C_LCD", "FEATURE_NEXTION_DISPLAY", "FEATURE_YWROBOT_I2C_DISPLAY"]
  const AZ_SENSOR_PREFIX := "FEATURE_AZ_POSITION_"
  const EL_SENSOR_PREFIX := "FEATURE_EL_POSITION_"
  const ELEVATION_FEATURE := "FEATURE_ELEVATION_CONTROL"

  /** The first candidate that is in the active set. */
  function FirstListed(candidates: seq<string>, active: set<string>): Option<string>
    decreases |candidates|
  {
    if candidates == [] then None
    else if candidates[0] in active then Some(candidates[0])
    else FirstListed(candidates[1..], active)
  }

  /** `FirstListed` finds an active candidate with no active candidate before it, and finds
      none exactly when no candidate is active. */
  lemma {:induction false} FirstListedMeaning(candidates: seq<string>, active: set<string>)
    ensures var r := FirstListed(candidates, active);
      && (r.Some? ==> exists i | 0 <= i < |candidates| :: candidates[i] == r.value && r.value in active
                                                    && forall j | 0 <= j < i :: candidates[j] !in active)
      && (r.None? <==> forall c | c in candidates :: c !in active)
    decreases |candidates|
  {
    if candidates != [] && candidates[0] !in active {
      var rest := candidates[1..];
      FirstListedMeaning(rest, active);
      var r := FirstListed(candidates, active);
      if r.Some? {
        var i :| 0 <= i < |rest| && rest[i] == r.value && r.value in active && forall j | 0 <= j < i :: rest[j] !in active;
        assert candidates[i + 1] == r.value;
        assert forall j | 1 <= j < i + 1 :: candidates[j] == rest[j - 1];
      }
      assert forall c | c in candidates :: c == candidates[0] || c in rest;
    }
  }

  /** The test `not pin.is_disabled`, for a name of the table. */
  function Assigned(pins: Dict<string, PinDefinition>): string -> bool {
    name => name in pins.values && !pins.values[name].isDisabled
  }

  /** `assigned_pins` */
  function AssignedCount(pins: Dict<string, PinDefinition>): nat {
    Count(pins.keys, Assigned(pins))
  }

  /** At most every pin is assigned, and every pin is exactly when none is disabled. */
  lemma AssignedCountBounds(pins: Dict<string, PinDefinition>)
    ensures AssignedCount(pins) <= |pins.keys|
    ensures AssignedCount(pins) == |pins.keys| <==> forall k | k in pins.values :: !pins.values[k].isDisabled
  {
    CountFull(pins.keys, Assigned(pins));
    assert forall k | k in pins.values :: exists i | 0 <= i < |pins.keys| :: pins.keys[i] == k;
  }

  /** A summary's `az_sensor`/`el_sensor` condition: some active feature with the prefix, or
      none when no active feature has it. */
  predicate SensorFound(r: Option<string>, active: set<string>, prefix: string) {
    (r.Some? ==> r.value in active && StartsWith(r.value, prefix))
    && (r.None? ==> forall x | x in active :: !StartsWith(x, prefix))
  }

  /** The members of the first group with the name, or none. */
  function MembersOf(groups: seq<Groups.Group>, name: string): seq<string>
    decreases |groups|
  {
    if groups == [] then []
    else if groups[0].name == name then groups[0].members
    else MembersOf(groups[1..], name)
  }

  /** `MembersOf` gives the members of the first group with the name, and nothing when no
      group has it. */
  lemma {:induction false} MembersOfMeaning(groups: seq<Groups.Group>, name: string)
    ensures (forall i | 0 <= i < |groups| :: groups[i].name != name) ==> MembersOf(groups, name) == []
    ensures forall i | 0 <= i < |groups| && groups[i].name == name && (forall j | 0 <= j < i :: groups[j].name != name) ::
      MembersOf(groups, name) == groups[i].members
    decreases |groups|
  {
    if groups != [] && groups[0].name != name {
      var rest := groups[1..];
      MembersOfMeaning(rest, name);
      assert forall i | 1 <= i < |groups| :: groups[i] == rest[i - 1];
      forall i | 0 <= i < |groups| && groups[i].name == name && (forall j | 0 <= j < i :: groups[j].name != name)
        ensures MembersOf(groups, name) == groups[i].members
      {
        assert i >= 1;
        assert forall j | 0 <= j < i - 1 :: rest[j].name != name by {
          forall j | 0 <= j < i - 1
            ensures rest[j].name != name
          {
            assert rest[j] == groups[j + 1];
          }
        }
      }
    }
  }

  /** The search loop of `get_features_by_category` and `get_settings_by_category`. */
  method FirstMembers(groups: seq<Groups.Group>, name: string) returns (r: seq<string>)
    ensures r == MembersOf(groups, name)
  {
    var i := 0;
    while i < |groups|
      invariant 0 <= i <= |groups|
      invariant MembersOf(groups[i..], name) == MembersOf(groups, name)
    {
      if groups[i].name == name {
        return groups[i].members;
      }
      assert groups[i..][1..] == groups[i + 1..];
      i := i + 1;
    }
    r := [];
  }

  /** Setting a known setting's value changes that value alone; an unknown name changes
      nothing. */
  lemma SetSettingEffect(sc: SettingsConfig, name: string, value: SettingValue, k: string)
    ensures var r := SetSettingIn(sc, name, value);
      && r.settings.keys == sc.settings.keys && r.categories == sc.categories && r.eepromSettings == sc.eepromSettings
      && (k in r.settings.values <==> k in sc.settings.values)
      && (name in sc.settings.values ==> r.settings.values[name] == sc.settings.values[name].(value := value))
      && (k != name && k in sc.settings.values ==> r.settings.values[k] == sc.settings.values[k])
      && (name !in sc.settings.values ==> r == sc)
  {
  }

  datatype ManagerError = NotLoaded

  const NO_FEATURES: FeatureConfig := FeatureConfig(Empty(), Empty(), Empty(), [], {}, {})
  const NO_PINS: PinConfig := PinConfig(Empty(), [], {}, {}, [])
  const NO_SETTINGS: SettingsConfig := SettingsConfig(Empty(), [], {})

  // ---------------------------------------------------------------------------------------
  // The manager
  // ---------------------------------------------------------------------------------------

  /** `ConfigurationManager`. Before anything is loaded the three tables are empty (the
      source holds `None`, which no operation reads before `load` succeeds). */
  class ConfigurationManager {
    const paths: ConfigurationPaths
    var featuresConfig: FeatureConfig
    var pinsConfig: PinConfig
    var settingsConfig: SettingsConfig
    var loaded: bool

    constructor(paths: ConfigurationPaths)
      ensures this.paths == paths && !loaded
      ensures featuresConfig == NO_FEATURES && pinsConfig == NO_PINS && settingsConfig == NO_SETTINGS
    {
      this.paths := paths;
      featuresConfig := NO_FEATURES;
      pinsConfig := NO_PINS;
      settingsConfig := NO_SETTINGS;
      loaded := false;
    }

    /** `load`, given what the three parsers return (`None` where the parser raises). Each
        table is stored as soon as its parser succeeds; the first failure stops the load and
        leaves the loaded flag as it was. */
    method Load(features: Option<FeatureConfig>, pins: Option<PinConfig>, settings: Option<SettingsConfig>) returns (ok: bool)
      modifies this
      ensures ok == (features.Some? && pins.Some? && settings.Some?)
      ensures loaded == (old(loaded) || ok)
      ensures featuresConfig == (if features.Some? then features.value else old(featuresConfig))
      ensures pinsConfig == (if features.Some? && pins.Some? then pins.value else old(pinsConfig))
      ensures settingsConfig == (if ok then settings.value else old(settingsConfig))
    {
      if features.None? {
        return false;
      }
      featuresConfig := features.value;
      if pins.None? {
        return false;
      }
      pinsConfig := pins.value;
      if settings.None? {
        return false;
      }
      settingsConfig := settings.value;
      loaded := true;
      ok := true;
    }

    method EnableFeature(name: string) returns (r: Outcome<ManagerError>)
      modifies this
      ensures r == if old(loaded) then Pass else Fail(NotLoaded)
      ensures featuresConfig == if old(loaded) then EnableIn(old(featuresConfig), name) else old(featuresConfig)
      ensures pinsConfig == old(pinsConfig) && settingsConfig == old(settingsConfig) && loaded == old(loaded)
    {
      if !loaded {
        return Fail(NotLoaded);
      }
      if name in featuresConfig.features.values {
        var d := featuresConfig.features.values[name];
        featuresConfig := featuresConfig.(
          features := Update(featuresConfig.features, name, d.(isActive := true, isCommented := false)),
          activeFeatures := featuresConfig.activeFeatures + {name});
      }
      r := Pass;
    }

    method DisableFeature(name: string) returns (r: Outcome<ManagerError>)
      modifies this
      ensures r == if old(loaded) then Pass else Fail(NotLoaded)
      ensures featuresConfig == if old(loaded) then DisableIn(old(featuresConfig), name) else old(featuresConfig)
      ensures pinsConfig == old(pinsConfig) && settingsConfig == old(settingsConfig) && loaded == old(loaded)
    {
      if !loaded {
        return Fail(NotLoaded);
      }
      if name in featuresConfig.features.values {
        var d := featuresConfig.features.values[name];
        featuresConfig := featuresConfig.(
          features := Update(featuresConfig.features, name, d.(isActive := false, isCommented := true)),
          activeFeatures := featuresConfig.activeFeatures - {name});
      }
      r := Pass;
    }

    method SetPinAssignment(name: string, value: string) returns (r: Outcome<ManagerError>)
      modifies this
      ensures r == if old(loaded) then Pass else Fail(NotLoaded)
      ensures pinsConfig == if old(loaded) then SetPinIn(old(pinsConfig), name, value) else old(pinsConfig)
      ensures featuresConfig == old(featuresConfig) && settingsConfig == old(settingsConfig) && loaded == old(loaded)
    {
      if !loaded {
        return Fail(NotLoaded);
      }
      if name in pinsConfig.pins.values {
        pinsConfig := pinsConfig.(pins := Update(pinsConfig.pins, name, AssignPin(pinsConfig.pins.values[name], value)));
      }
      r := Pass;
    }

    method SetSettingValue(name: string, value: SettingValue) returns (r: Outcome<ManagerError>)
      modifies this
      ensures r == if old(loaded) then Pass else Fail(NotLoaded)
      ensures settingsConfig == if old(loaded) then SetSettingIn(old(settingsConfig), name, value) else old(settingsConfig)
      ensures featuresConfig == old(featuresConfig) && pinsConfig == old(pinsConfig) && loaded == old(loaded)
    {
      if !loaded {
        return Fail(NotLoaded);
      }
      if name in settingsConfig.settings.values {
        settingsConfig := settingsConfig.(settings := Update(settingsConfig.settings, name, settingsConfig.settings.values[name].(value := value)));
      }
      r := Pass;
    }

    /** `import_from_dict`: the features section through `enable_feature`/`disable_feature`,
        then the pins section through `set_pin_assignment`, then the settings section through
        `set_setting_value`. */
    method ImportFromDict(data: ImportData) returns (r: Outcome<ManagerError>)
      modifies this
      ensures r == if old(loaded) then Pass else Fail(NotLoaded)
      ensures loaded == old(loaded)
      ensures featuresConfig == if old(loaded) && data.features.Some?
        then ImportFeatures(old(featuresConfig), data.features.value, |data.features.value.keys|) else old(featuresConfig)
      ensures pinsConfig == if old(loaded) && data.pins.Some?
        then ImportPins(old(pinsConfig), data.pins.value, |data.pins.value.keys|) else old(pinsConfig)
      ensures settingsConfig == if old(loaded) && data.settings.Some?
        then ImportSettings(old(settingsConfig), data.settings.value, |data.settings.value.keys|) else old(settingsConfig)
    {
      if !loaded {
        return Fail(NotLoaded);
      }
      if data.features.Some? {
        ImportFeatureSection(data.features.value);
      }
      if data.pins.Some? {
        ImportPinSection(data.pins.value);
      }
      if data.settings.Some? {
        ImportSettingSection(data.settings.value);
      }
      r := Pass;
    }

    method ImportFeatureSection(entries: Dict<string, bool>)
      requires loaded
      modifies this
      ensures featuresConfig == ImportFeatures(old(featuresConfig), entries, |entries.keys|)
      ensures pinsConfig == old(pinsConfig) && settingsConfig == old(settingsConfig) && loaded
    {
      var i := 0;
      while i < |entries.keys|
        invariant 0 <= i <= |entries.keys| && loaded
        invariant featuresConfig == ImportFeatures(old(featuresConfig), entries, i)
        invariant pinsConfig == old(pinsConfig) && settingsConfig == old(settingsConfig)
      {
        var name := entries.keys[i];
        if name in featuresConfig.features.values {
          var outcome;
          if entries.values[name] {
            outcome := EnableFeature(name);
          } else {
            outcome := DisableFeature(name);
          }
        }
        i := i + 1;
      }
    }

    method ImportPinSection(entries: Dict<string, Option<string>>)
      requires loaded
      modifies this
      ensures pinsConfig == ImportPins(old(pinsConfig), entries, |entries.keys|)
      ensures featuresConfig == old(featuresConfig) && settingsConfig == old(settingsConfig) && loaded
    {
      var i := 0;
      while i < |entries.keys|
        invariant 0 <= i <= |entries.keys| && loaded
        invariant pinsConfig == ImportPins(old(pinsConfig), entries, i)
        invariant featuresConfig == old(featuresConfig) && settingsConfig == old(settingsConfig)
      {
        var name := entries.keys[i];
        var outcome := SetPinAssignment(name, entries.values[name].GetOr("0"));
        i := i + 1;
      }
    }

    method ImportSettingSection(entries: Dict<string, Option<SettingValue>>)
      requires loaded
      modifies this
      ensures settingsConfig == ImportSettings(old(settingsConfig), entries, |entries.keys|)
      ensures featuresConfig == old(featuresConfig) && pinsConfig == old(pinsConfig) && loaded
    {
      var i := 0;
      while i < |entries.keys|
        invariant 0 <= i <= |entries.keys| && loaded
        invariant settingsConfig == ImportSettings(old(settingsConfig), entries, i)
        invariant featuresConfig == old(featuresConfig) && pinsConfig == old(pinsConfig)
      {
        var name := entries.keys[i];
        var outcome := SetSettingValue(name, entries.values[name].GetOr(NoValue));
        i := i + 1;
      }
    }

    /** `get_summary` */
    method GetSummary() returns (r: Result<ConfigurationSummary, ManagerError>)
      ensures !loaded ==> r == Err(NotLoaded)
      ensures loaded ==> r.Ok?
      ensures r.Ok? ==>
        var s := r.value;
        var active := featuresConfig.activeFeatures;
        && s.protocol == FirstListed(PROTOCOL_FEATURES, active)
        && SensorFound(s.azSensor, active, AZ_SENSOR_PREFIX)
        && s.hasElevation == (ELEVATION_FEATURE in active)
        && (s.hasElevation ==> SensorFound(s.elSensor, active, EL_SENSOR_PREFIX))
        && (!s.hasElevation ==> s.elSensor == None)
        && s.displayType == FirstListed(DISPLAY_FEATURES, active)
        && s.totalFeatures == |featuresConfig.features.keys| && s.enabledFeatures == |active|
        && s.totalPins == |pinsConfig.pins.keys| && s.assignedPins == AssignedCount(pinsConfig.pins)
        && s.totalSettings == |settingsConfig.settings.keys| && s.eepromSettings == |settingsConfig.eepromSettings|
        && s.validationErrors == 0 && s.validationWarnings == 0
    {
      if !loaded {
        return Err(NotLoaded);
      }
      var active := featuresConfig.activeFeatures;
      var protocol := FirstActive(PROTOCOL_FEATURES, active);
      var azSensor := AnyWithPrefix(active, AZ_SENSOR_PREFIX);
      var elSensor := None;
      var hasElevation := ELEVATION_FEATURE in active;
      if hasElevation {
        elSensor := AnyWithPrefix(active, EL_SENSOR_PREFIX);
      }
      var displayType := FirstActive(DISPLAY_FEATURES, active);
      var assignedPins := CountAssigned(pinsConfig.pins);
      r := Ok(ConfigurationSummary(protocol, azSensor, elSensor, hasElevation, displayType,
                                   |featuresConfig.features.keys|, |active|, |pinsConfig.pins.keys|, assignedPins,
                                   |settingsConfig.settings.keys|, |settingsConfig.eepromSettings|, 0, 0));
    }

    /** The search loops over a fixed list, stopping at the first active entry. */
    static method FirstActive(candidates: seq<string>, active: set<string>) returns (r: Option<string>)
      ensures r == FirstListed(candidates, active)
    {
      var i := 0;
      while i < |candidates|
        invariant 0 <= i <= |candidates|
        invariant FirstListed(candidates[i..], active) == FirstListed(candidates, active)
      {
        if candidates[i] in active {
          return Some(candidates[i]);
        }
        assert candidates[i..][1..] == candidates[i + 1..];
        i := i + 1;
      }
      r := None;
    }

    /** The search loops over the active set, stopping at the first name with the prefix.
        The set's iteration order is not specified, so any such name may be found. */
    static method AnyWithPrefix(active: set<string>, prefix: string) returns (r: Option<string>)
      ensures SensorFound(r, active, prefix)
    {
      var rest := active;
      while rest != {}
        invariant rest <= active
        invariant forall x | x in active - rest :: !StartsWith(x, prefix)
        decreases |rest|
      {
        var name :| name in rest;
        if StartsWith(name, prefix) {
          return Some(name);
        }
        rest := rest - {name};
      }
      r := None;
    }

    /** The sum over the pin table of the definitions that are not disabled. */
    static method CountAssigned(pins: Dict<string, PinDefinition>) returns (n: nat)
      ensures n == AssignedCount(pins)
    {
      n := 0;
      var i := 0;
      while i < |pins.keys|
        invariant 0 <= i <= |pins.keys|
        invariant n == Count(pins.keys[..i], Assigned(pins))
      {
        assert pins.keys[..i + 1] == pins.keys[..i] + [pins.keys[i]];
        CountSnoc(pins.keys[..i], pins.keys[i], Assigned(pins));
        if !pins.values[pins.keys[i]].isDisabled {
          n := n + 1;
        }
        i := i + 1;
      }
      assert pins.keys[..i] == pins.keys;
    }

    /** `is_feature_enabled`: never before loading. */
    predicate IsFeatureEnabled(name: string)
      reads this
    {
      loaded && name in featuresConfig.activeFeatures
    }

    /** `get_features_by_category`: the features of the first category with the name, or
        none before loading or for an unknown name. */
    method GetFeaturesByCategory(category: string) returns (r: seq<string>)
      ensures r == if loaded then MembersOf(featuresConfig.categories, category) else []
    {
      if !loaded {
        return [];
      }
      r := FirstMembers(featuresConfig.categories, category);
    }

    /** `get_pin_assignment`: the stored text of a known pin, once loaded. */
    function GetPinAssignment(name: string): (r: Option<string>)
      reads this
      ensures r.Some? <==> loaded && name in pinsConfig.pins.values
      ensures r.Some? ==> r.value == pinsConfig.pins.values[name].pinString
    {
      if loaded && name in pinsConfig.pins.values then Some(pinsConfig.pins.values[name].pinString) else None
    }

    /** `get_pin_conflicts`: the conflicts the pin parser found, none before loading. */
    function GetPinConflicts(): seq<Conflict>
      reads this
    {
      if loaded then pinsConfig.conflicts else []
    }

    /** `get_setting_value`: `None` before loading and for an unknown name, as for an unset
        setting. */
    function GetSettingValue(name: string): (r: SettingValue)
      reads this
      ensures !loaded || name !in settingsConfig.settings.values ==> r == NoValue
      ensures loaded && name in settingsConfig.settings.values ==> r == settingsConfig.settings.values[name].value
    {
      if loaded && name in settingsConfig.settings.values then settingsConfig.settings.values[name].value else NoValue
    }

    /** `get_settings_by_category`: the settings listed by the first category with the
        name, or none before loading or for an unknown name. */
    method GetSettingsByCategory(category: string) returns (r: seq<string>)
      ensures r == if loaded then MembersOf(settingsConfig.categories, category) else []
    {
      if !loaded {
        return [];
      }
      r := FirstMembers(settingsConfig.categories, category);
    }
  }
}
