/** The fixed tables of the pin validator. */
module PinTables {
  /** `PIN_REQUIREMENTS`: the configuration pins that need each capability. */
  datatype Requirements = Requirements(pwm: seq<string>, interrupt: seq<string>, analog: seq<string>)

  const PIN_REQUIREMENTS := Requirements(
    ["azimuth_speed_voltage", "elevation_speed_voltage"],
    ["az_incremental_encoder_a_pin", "az_incremental_encoder_b_pin",
     "el_incremental_encoder_a_pin", "el_incremental_encoder_b_pin",
     "az_position_pulse_pin", "el_position_pulse_pin",
     "az_pulse_start_pin", "el_pulse_start_pin"],
    ["rotator_analog_az", "rotator_analog_el", "azimuth_analog_input", "elevation_analog_input",
     "analog_az_full_ccw", "analog_az_full_cw", "analog_el_0_degrees", "analog_el_max_elevation"])

  /** The features that put the I2C pins in use. */
  const I2C_FEATURES: set<string> := {
    "FEATURE_ADAFRUIT_I2C_LCD", "FEATURE_YWROBOT_I2C_DISPLAY", "FEATURE_WIRE_SUPPORT",
    "FEATURE_RTC_DS1307", "FEATURE_RTC_PCF8583", "FEATURE_ADXL345_USING_ADAFRUIT_LIB",
    "FEATURE_ADXL345_USING_LOVE_ELECTRON_LIB", "FEATURE_HMC5883L", "FEATURE_LSM303", "FEATURE_QMC5883"}

  /** The features that put the SPI pins in use. */
  const SPI_FEATURES: set<string> := {"FEATURE_SPI", "FEATURE_ETHERNET"}
}

/** The pin validator: checks a pin assignment map against a board of the board table. Pins
    the configuration requires to be PWM-, interrupt- or analog-capable are checked for that
    capability, values used twice are reported as conflicts, pins reserved for I2C or SPI are
    warned about when such a feature is enabled, and pin numbers are checked against the
    board's digital range. Assignments to `0`, `'0'`, `None` or `'disabled'` take part in no
    check. */
module PinValidation {
  import opened Wrappers
  import opened Strings
  import opened Seqs
  import opened Dicts
  import opened Dependencies
  import opened Boards
  import opened PinTables

  // ---------------------------------------------------------------------------------------
  // Requirement tables
  // ---------------------------------------------------------------------------------------

  /** Pins remotely attached are numbered above this. */
  const REMOTE_THRESHOLD := 99

  // ---------------------------------------------------------------------------------------
  // The active pins and the issues
  // ---------------------------------------------------------------------------------------

  /** A value that takes part in the checks: not `0`, `'0'`, `None` or `'disabled'`. */
  predicate Enabled(v: PinValue) {
    v != PinInt(0) && v != PinText("0") && v != PinNone && v != PinText("disabled")
  }

  /** `active_pins`: the assignments whose value is enabled, in assignment order. */
  function ActivePins(assignments: Dict<string, PinValue>): (r: Dict<string, PinValue>)
    ensures forall k :: k in r.values <==> k in assignments.values && Enabled(assignments.values[k])
    ensures forall k | k in r.values :: r.values[k] == assignments.values[k]
  {
    FilterKeys(assignments, k => k in assignments.values && Enabled(assignments.values[k]))
  }

  /** An issue about one configuration pin (message and suggestion texts are formatted). */
  function PinIssue(severity: Severity, ruleType: RuleType, name: string): ValidationIssue {
    ValidationIssue(severity, ruleType, Composed, [name], Some(Composed), false)
  }

  /** The one error for a board the table does not hold. */
  const UNKNOWN_BOARD_ISSUE := ValidationIssue(Error, BoardValidation, Composed, [], Some(Composed), false)

  /** The error for one conflict: it names every pin sharing the value. */
  function ConflictIssue(c: Conflict): seq<ValidationIssue> {
    [ValidationIssue(Error, Dependencies.PinConflict, Composed, c.members, Some(Composed), false)]
  }

  /** One error per conflict, in order, each naming the conflict's pins. */
  lemma {:induction false} ConflictIssues(cs: seq<Conflict>)
    ensures |ConcatMap(cs, ConflictIssue)| == |cs|
    ensures forall i | 0 <= i < |cs| ::
      ConcatMap(cs, ConflictIssue)[i] == ValidationIssue(Error, Dependencies.PinConflict, Composed, cs[i].members, Some(Composed), false)
    decreases |cs|
  {
    if cs != [] {
      var p := cs[..|cs| - 1];
      ConflictIssues(p);
      assert forall i | 0 <= i < |p| :: p[i] == cs[i];
    }
  }

  /** What `explain_pin_requirements` says about one configuration pin. */
  datatype PinExplanation = PinExplanation(pinName: string, requiredCapability: Option<string>, description: string, notes: seq<string>)

  /** A text value that the analog check looks at. */
  predicate AnalogText(v: PinValue) {
    v.PinText? && AnalogName(v.s)
  }

  class PinValidator {
    const boardDb: BoardDatabase
    /** `PIN_REQUIREMENTS` */
    const requirements: Requirements
    /** The I2C and SPI feature sets of `_validate_reserved_pins`. */
    const i2cFeatures: set<string>
    const spiFeatures: set<string>

    constructor (boardDb: BoardDatabase)
      ensures this.boardDb == boardDb && requirements == PIN_REQUIREMENTS
      ensures i2cFeatures == I2C_FEATURES && spiFeatures == SPI_FEATURES
    {
      this.boardDb := boardDb;
      requirements := PIN_REQUIREMENTS;
      i2cFeatures := I2C_FEATURES;
      spiFeatures := SPI_FEATURES;
    }

    // -------------------------------------------------------------------------------------
    // What each check reports
    // -------------------------------------------------------------------------------------

    /** The PWM check of one required pin: an integer value the board cannot drive with PWM. */
    function PwmCheck(boardId: string, pins: Dict<string, PinValue>): string -> seq<ValidationIssue> {
      name =>
        if name in pins.values && pins.values[name].PinInt? && !boardDb.IsPwmPin(boardId, pins.values[name].n)
        then [PinIssue(Error, PinCapability, name)] else []
    }

    /** The number cannot raise an interrupt on the board (the keys are numeric wherever the
        validator runs). */
    predicate LacksInterrupt(boardId: string, n: int) {
      boardDb.InterruptKeysNumeric(boardId) && !boardDb.IsInterruptPin(boardId, n)
    }

    /** The interrupt check of one required pin. */
    function InterruptCheck(boardId: string, pins: Dict<string, PinValue>): string -> seq<ValidationIssue> {
      name =>
        if name in pins.values && pins.values[name].PinInt? && LacksInterrupt(boardId, pins.values[name].n)
        then [PinIssue(Error, PinCapability, name)] else []
    }

    /** The analog check of one required pin: only a text starting with `A` is looked at. */
    function AnalogCheck(boardId: string, pins: Dict<string, PinValue>): string -> seq<ValidationIssue> {
      name =>
        if name in pins.values && AnalogText(pins.values[name]) && !boardDb.IsAnalogPin(boardId, pins.values[name].s)
        then [PinIssue(Error, PinCapability, name)] else []
    }

    /** `_validate_pin_capabilities`: the PWM, then interrupt, then analog errors. */
    function CapabilityErrors(boardId: string, pins: Dict<string, PinValue>): seq<ValidationIssue> {
      ConcatMap(requirements.pwm, PwmCheck(boardId, pins))
      + ConcatMap(requirements.interrupt, InterruptCheck(boardId, pins))
      + ConcatMap(requirements.analog, AnalogCheck(boardId, pins))
    }

    /** `_validate_pin_conflicts` */
    function ConflictErrors(boardId: string, pins: Dict<string, PinValue>): seq<ValidationIssue> {
      ConcatMap(boardDb.DetectedConflicts(boardId, pins), ConflictIssue)
    }

    /** The warning for one pin whose value is in a reserved list. */
    function ReservedCheck(pins: Dict<string, PinValue>, reserved: seq<PinValue>): string -> seq<ValidationIssue> {
      name => if name in pins.values && pins.values[name] in reserved then [PinIssue(Warning, ReservedPin, name)] else []
    }

    /** `_validate_reserved_pins`: I2C warnings when an I2C feature is active, then SPI
        warnings when an SPI feature is. */
    function ReservedWarnings(boardId: string, pins: Dict<string, PinValue>, features: set<string>): seq<ValidationIssue> {
      if !boardDb.Known(boardId) then []
      else
        (if i2cFeatures * features != {} then ConcatMap(pins.keys, ReservedCheck(pins, boardDb.GetReservedPins(boardId, "i2c"))) else [])
        + (if spiFeatures * features != {} then ConcatMap(pins.keys, ReservedCheck(pins, boardDb.GetReservedPins(boardId, "spi"))) else [])
    }

    /** The number lies outside a two-element digital range. */
    static predicate OutsideRange(b: Board, n: int) {
      b.digitalRange.RangeList? && |b.digitalRange.items| == 2
      && (n < b.digitalRange.items[0] || n > b.digitalRange.items[1])
    }

    /** The range check of one pin: analog texts and numbers above 99 are skipped. */
    static function RangeCheck(b: Board, pins: Dict<string, PinValue>): string -> seq<ValidationIssue> {
      name =>
        if name in pins.values && pins.values[name].PinInt? && pins.values[name].n <= REMOTE_THRESHOLD
           && OutsideRange(b, pins.values[name].n)
        then [PinIssue(Error, PinRange, name)] else []
    }

    /** `_validate_pin_numbers` */
    function RangeErrors(boardId: string, pins: Dict<string, PinValue>): seq<ValidationIssue> {
      if boardDb.Known(boardId) then ConcatMap(pins.keys, RangeCheck(boardDb.boards.values[boardId], pins)) else []
    }

    /** `validate`: the outcome for a board and an assignment map. */
    function Validation(boardId: string, assignments: Dict<string, PinValue>, features: set<string>): Report {
      if !boardDb.Known(boardId) then Report(false, [UNKNOWN_BOARD_ISSUE], [], [], [])
      else
        var pins := ActivePins(assignments);
        var errors := CapabilityErrors(boardId, pins) + ConflictErrors(boardId, pins) + RangeErrors(boardId, pins);
        Report(errors == [], errors, ReservedWarnings(boardId, pins, features), [], [])
    }

    // -------------------------------------------------------------------------------------
    // Properties of the outcome
    // -------------------------------------------------------------------------------------

    /** An unknown board gives exactly one board error, no warning, and fails. */
    lemma UnknownBoardOneError(boardId: string, assignments: Dict<string, PinValue>, features: set<string>)
      requires !boardDb.Known(boardId)
      ensures var v := Validation(boardId, assignments, features);
        && |v.errors| == 1 && v.errors[0].ruleType == BoardValidation && v.errors[0].severity == Error
        && v.errors[0].affectedFeatures == [] && v.warnings == [] && !v.passed
    {
    }

    /** The validation passes exactly when it finds no error, and the active features (which
        only decide the reserved-pin warnings) never change the errors or the verdict. */
    lemma PassedIgnoresFeatures(boardId: string, assignments: Dict<string, PinValue>, f: set<string>, g: set<string>)
      ensures Validation(boardId, assignments, f).passed == (Validation(boardId, assignments, f).errors == [])
      ensures Validation(boardId, assignments, f).errors == Validation(boardId, assignments, g).errors
      ensures Validation(boardId, assignments, f).passed == Validation(boardId, assignments, g).passed
    {
    }

    /** A reserved-pin warning names one pin, and that pin is in the map checked. */
    lemma ReservedAbout(pins: Dict<string, PinValue>, reserved: seq<PinValue>, x: ValidationIssue)
      requires x in ConcatMap(pins.keys, ReservedCheck(pins, reserved))
      ensures x.severity == Warning && x.ruleType == ReservedPin
      ensures |x.affectedFeatures| == 1 && x.affectedFeatures[0] in pins.values
    {
      ConcatMapMember(pins.keys, ReservedCheck(pins, reserved), x);
    }

    /** A range error names one pin, and that pin is in the map checked. */
    static lemma RangeAbout(b: Board, pins: Dict<string, PinValue>, x: ValidationIssue)
      requires x in ConcatMap(pins.keys, RangeCheck(b, pins))
      ensures x.severity == Error && x.ruleType == PinRange
      ensures |x.affectedFeatures| == 1 && x.affectedFeatures[0] in pins.values
    {
      ConcatMapMember(pins.keys, RangeCheck(b, pins), x);
    }

    /** A conflict error names only pins of the map checked. */
    lemma ConflictAbout(boardId: string, pins: Dict<string, PinValue>, x: ValidationIssue, name: string)
      requires x in ConflictErrors(boardId, pins) && name in x.affectedFeatures
      ensures x.ruleType == Dependencies.PinConflict && name in pins.values
    {
      var cs := boardDb.DetectedConflicts(boardId, pins);
      ConcatMapMember(cs, ConflictIssue, x);
      var i :| 0 <= i < |cs| && x in ConflictIssue(cs[i]);
      ConflictsExact(pins, cs[i].key);
      UsersMembers(pins, cs[i].key);
      assert cs[i] in cs;
      assert name in Users(pins, cs[i].key);
      assert pins.keys[..|pins.keys|] == pins.keys;
    }

    /** A reserved-pin warning names one pin, and that pin is in the map checked. */
    lemma ReservedWarningsAbout(boardId: string, pins: Dict<string, PinValue>, features: set<string>, x: ValidationIssue)
      requires x in ReservedWarnings(boardId, pins, features)
      ensures x.severity == Warning && x.ruleType == ReservedPin
      ensures |x.affectedFeatures| == 1 && x.affectedFeatures[0] in pins.values
    {
      var i2c := boardDb.GetReservedPins(boardId, "i2c");
      var spi := boardDb.GetReservedPins(boardId, "spi");
      if x in ConcatMap(pins.keys, ReservedCheck(pins, i2c)) {
        ReservedAbout(pins, i2c, x);
      } else {
        ReservedAbout(pins, spi, x);
      }
    }

    /** Every warning is a reserved-pin warning, and none appears unless an I2C or SPI feature
        is active. */
    lemma ReservedOnlyWhenEnabled(boardId: string, assignments: Dict<string, PinValue>, features: set<string>)
      ensures forall x | x in Validation(boardId, assignments, features).warnings :: x.severity == Warning && x.ruleType == ReservedPin
      ensures i2cFeatures * features == {} && spiFeatures * features == {} ==> Validation(boardId, assignments, features).warnings == []
    {
      if boardDb.Known(boardId) {
        var pins := ActivePins(assignments);
        forall x | x in ReservedWarnings(boardId, pins, features)
          ensures x.severity == Warning && x.ruleType == ReservedPin
        {
          ReservedWarningsAbout(boardId, pins, features, x);
        }
      }
    }

    /** Every pin an issue of the four checks names is in the map checked. */
    lemma IssueAbout(boardId: string, pins: Dict<string, PinValue>, features: set<string>, x: ValidationIssue, name: string)
      requires boardDb.Known(boardId)
      requires x in CapabilityErrors(boardId, pins) + ConflictErrors(boardId, pins) + RangeErrors(boardId, pins)
        || x in ReservedWarnings(boardId, pins, features)
      requires name in x.affectedFeatures
      ensures name in pins.values
    {
      if x in CapabilityErrors(boardId, pins) {
        CapabilityErrorsExplained(boardId, pins, x);
        SoleName(x.affectedFeatures, name);
      } else if x in ConflictErrors(boardId, pins) {
        ConflictAbout(boardId, pins, x, name);
      } else if x in RangeErrors(boardId, pins) {
        RangeAbout(boardDb.boards.values[boardId], pins, x);
        SoleName(x.affectedFeatures, name);
      } else {
        ReservedWarningsAbout(boardId, pins, features, x);
        SoleName(x.affectedFeatures, name);
      }
    }

    static lemma SoleName(names: seq<string>, name: string)
      requires |names| == 1 && name in names
      ensures name == names[0]
    {
    }

    /** An assignment to `0`, `'0'`, `None` or `'disabled'` is named by no issue. */
    lemma DisabledValuesIgnored(boardId: string, assignments: Dict<string, PinValue>, features: set<string>, k: string)
      requires k in assignments.values && !Enabled(assignments.values[k])
      ensures forall x | x in Validation(boardId, assignments, features).errors :: k !in x.affectedFeatures
      ensures forall x | x in Validation(boardId, assignments, features).warnings :: k !in x.affectedFeatures
    {
      if boardDb.Known(boardId) {
        var v := Validation(boardId, assignments, features);
        forall x | x in v.errors + v.warnings
          ensures k !in x.affectedFeatures
        {
          if k in x.affectedFeatures {
            IssueAbout(boardId, ActivePins(assignments), features, x, k);
          }
        }
      }
    }

    /** A PWM-required pin with a number the board cannot drive with PWM gets an error naming
        it; so does an interrupt-required pin with a number that cannot interrupt. */
    lemma CapabilityFailuresReported(boardId: string, assignments: Dict<string, PinValue>, features: set<string>, name: string, n: int)
      requires boardDb.Known(boardId) && boardDb.InterruptKeysNumeric(boardId)
      requires name in assignments.values && assignments.values[name] == PinInt(n) && n != 0
      ensures name in requirements.pwm && !boardDb.IsPwmPin(boardId, n) ==>
        PinIssue(Error, PinCapability, name) in Validation(boardId, assignments, features).errors
      ensures name in requirements.interrupt && !boardDb.IsInterruptPin(boardId, n) ==>
        PinIssue(Error, PinCapability, name) in Validation(boardId, assignments, features).errors
    {
      var pins := ActivePins(assignments);
      var x := PinIssue(Error, PinCapability, name);
      if name in requirements.pwm && !boardDb.IsPwmPin(boardId, n) {
        var i :| 0 <= i < |requirements.pwm| && requirements.pwm[i] == name;
        assert x in PwmCheck(boardId, pins)(requirements.pwm[i]);
        ConcatMapMember(requirements.pwm, PwmCheck(boardId, pins), x);
      }
      if name in requirements.interrupt && !boardDb.IsInterruptPin(boardId, n) {
        var i :| 0 <= i < |requirements.interrupt| && requirements.interrupt[i] == name;
        assert x in InterruptCheck(boardId, pins)(requirements.interrupt[i]);
        ConcatMapMember(requirements.interrupt, InterruptCheck(boardId, pins), x);
      }
    }

    /** An analog-required pin holding an `A` text that is not among the board's analog
        names gets an error naming it. */
    lemma AnalogFailureReported(boardId: string, assignments: Dict<string, PinValue>, features: set<string>, name: string, s: string)
      requires boardDb.Known(boardId)
      requires name in assignments.values && assignments.values[name] == PinText(s) && AnalogName(s)
      ensures name in requirements.analog && !boardDb.IsAnalogPin(boardId, s) ==>
        PinIssue(Error, PinCapability, name) in Validation(boardId, assignments, features).errors
    {
      var pins := ActivePins(assignments);
      var x := PinIssue(Error, PinCapability, name);
      if name in requirements.analog && !boardDb.IsAnalogPin(boardId, s) {
        assert s != "0" && s != "disabled" by {
          assert s[0] == 'A';
          assert "0"[0] == '0' && "disabled"[0] == 'd';
        }
        assert name in pins.values;
        var i :| 0 <= i < |requirements.analog| && requirements.analog[i] == name;
        assert x in AnalogCheck(boardId, pins)(requirements.analog[i]);
        ConcatMapMember(requirements.analog, AnalogCheck(boardId, pins), x);
      }
    }

    /** Each capability error names one active pin that failed its check: an integer for the
        PWM and interrupt lists, an `A` text for the analog list. */
    lemma CapabilityErrorsExplained(boardId: string, pins: Dict<string, PinValue>, x: ValidationIssue)
      requires x in CapabilityErrors(boardId, pins)
      ensures |x.affectedFeatures| == 1 && x.ruleType == PinCapability && x.severity == Error
      ensures var name := x.affectedFeatures[0];
        && name in pins.values
        && ((name in requirements.pwm && pins.values[name].PinInt? && !boardDb.IsPwmPin(boardId, pins.values[name].n))
            || (name in requirements.interrupt && pins.values[name].PinInt? && LacksInterrupt(boardId, pins.values[name].n))
            || (name in requirements.analog && AnalogText(pins.values[name]) && !boardDb.IsAnalogPin(boardId, pins.values[name].s)))
    {
      ConcatMapMember(requirements.pwm, PwmCheck(boardId, pins), x);
      ConcatMapMember(requirements.interrupt, InterruptCheck(boardId, pins), x);
      ConcatMapMember(requirements.analog, AnalogCheck(boardId, pins), x);
    }

    /** Every conflict the board database reports becomes exactly one error, in order. */
    lemma ConflictsBecomeErrors(boardId: string, pins: Dict<string, PinValue>)
      ensures var cs := boardDb.DetectedConflicts(boardId, pins);
        && |ConflictErrors(boardId, pins)| == |cs|
        && forall i | 0 <= i < |cs| :: ConflictErrors(boardId, pins)[i].ruleType == Dependencies.PinConflict
             && ConflictErrors(boardId, pins)[i].affectedFeatures == cs[i].members
    {
      ConflictIssues(boardDb.DetectedConflicts(boardId, pins));
    }

    /** Two active pins assigned the same value are named together in a conflict error,
        whatever the value: numbers above 99 included. */
    lemma SharedValueReported(boardId: string, assignments: Dict<string, PinValue>, features: set<string>, a: string, b: string)
      requires boardDb.Known(boardId) && a != b
      requires a in assignments.values && b in assignments.values && assignments.values[a] == assignments.values[b]
      requires Enabled(assignments.values[a])
      ensures exists x | x in Validation(boardId, assignments, features).errors ::
        x.ruleType == Dependencies.PinConflict && a in x.affectedFeatures && b in x.affectedFeatures
    {
      var pins := ActivePins(assignments);
      var v := assignments.values[a];
      var us := Users(pins, v);
      UsersMembers(pins, v);
      assert a in pins.keys && b in pins.keys;
      assert pins.keys[..|pins.keys|] == pins.keys;
      assert a in us && b in us;
      TwoMembers(us, a, b);
      ConflictsExact(pins, v);
      var cs := boardDb.DetectedConflicts(boardId, pins);
      var c :| c in cs && c.key == v;
      var i :| 0 <= i < |cs| && cs[i] == c;
      ConflictIssues(cs);
      var x := ConflictErrors(boardId, pins)[i];
      assert x in ConflictErrors(boardId, pins);
      assert x in Validation(boardId, assignments, features).errors;
    }

    /** A sequence holding two different elements has at least two. */
    static lemma TwoMembers(s: seq<string>, a: string, b: string)
      requires a in s && b in s && a != b
      ensures |s| >= 2
    {
      var i :| 0 <= i < |s| && s[i] == a;
      var j :| 0 <= j < |s| && s[j] == b;
      assert i != j;
    }

    /** The range check skips numbers above 99 and texts, and reports every other number
        outside a two-element range. */
    lemma RangeCheckSkips(b: Board, pins: Dict<string, PinValue>, name: string)
      requires name in pins.values
      ensures !pins.values[name].PinInt? ==> RangeCheck(b, pins)(name) == []
      ensures pins.values[name].PinInt? && pins.values[name].n > REMOTE_THRESHOLD ==> RangeCheck(b, pins)(name) == []
      ensures pins.values[name].PinInt? && pins.values[name].n <= REMOTE_THRESHOLD && OutsideRange(b, pins.values[name].n) ==>
        RangeCheck(b, pins)(name) == [PinIssue(Error, PinRange, name)]
    {
    }

    /** Every range error names an active pin numbered at most 99 outside the board's
        two-element range, and every such pin is named by one. */
    lemma RangeErrorsExact(boardId: string, pins: Dict<string, PinValue>, name: string)
      requires boardDb.Known(boardId)
      ensures var b := boardDb.boards.values[boardId];
        PinIssue(Error, PinRange, name) in RangeErrors(boardId, pins) <==>
          name in pins.values && pins.values[name].PinInt? && pins.values[name].n <= REMOTE_THRESHOLD
          && OutsideRange(b, pins.values[name].n)
    {
      var b := boardDb.boards.values[boardId];
      var x := PinIssue(Error, PinRange, name);
      ConcatMapMember(pins.keys, RangeCheck(b, pins), x);
      if name in pins.values && pins.values[name].PinInt? && pins.values[name].n <= REMOTE_THRESHOLD
         && OutsideRange(b, pins.values[name].n) {
        var i :| 0 <= i < |pins.keys| && pins.keys[i] == name;
        assert x in RangeCheck(b, pins)(pins.keys[i]);
      }
    }

    // -------------------------------------------------------------------------------------
    // The validator
    // -------------------------------------------------------------------------------------

    /** `validate` */
    method Validate(boardId: string, assignments: Dict<string, PinValue>, activeFeatures: set<string>) returns (result: ValidationResult)
      requires boardDb.InterruptKeysNumeric(boardId)
      ensures fresh(result)
      ensures var v := Validation(boardId, assignments, activeFeatures);
        && result.passed == v.passed && result.errors == v.errors && result.warnings == v.warnings
        && result.info == v.info && result.autoFixes == v.autoFixes
    {
      result := new ValidationResult(true);
      if !boardDb.Known(boardId) {
        result.errors := result.errors + [UNKNOWN_BOARD_ISSUE];
        result.passed := false;
        return;
      }
      var pins := ActivePins(assignments);
      RunChecks(boardId, pins, activeFeatures, result);
      EmptyAppend(CapabilityErrors(boardId, pins) + ConflictErrors(boardId, pins) + RangeErrors(boardId, pins));
      EmptyAppend(ReservedWarnings(boardId, pins, activeFeatures));
    }

    /** The four checks of `validate`, in order, on the active pins of a known board. */
    method RunChecks(boardId: string, pins: Dict<string, PinValue>, activeFeatures: set<string>, result: ValidationResult)
      requires boardDb.InterruptKeysNumeric(boardId)
      modifies result
      ensures result.errors == old(result.errors) + (CapabilityErrors(boardId, pins) + ConflictErrors(boardId, pins) + RangeErrors(boardId, pins))
      ensures result.warnings == old(result.warnings) + ReservedWarnings(boardId, pins, activeFeatures)
      ensures result.passed == (old(result.passed) && CapabilityErrors(boardId, pins) == [] && ConflictErrors(boardId, pins) == [] && RangeErrors(boardId, pins) == [])
      ensures result.info == old(result.info) && result.autoFixes == old(result.autoFixes)
    {
      ValidatePinCapabilities(boardId, pins, activeFeatures, result);
      ValidatePinConflicts(boardId, pins, result);
      ValidateReservedPins(boardId, pins, activeFeatures, result);
      ValidatePinNumbers(boardId, pins, result);
      AppendAssoc(old(result.errors), CapabilityErrors(boardId, pins), ConflictErrors(boardId, pins));
      AppendAssoc(old(result.errors), CapabilityErrors(boardId, pins) + ConflictErrors(boardId, pins), RangeErrors(boardId, pins));
    }

    static lemma EmptyAppend(s: seq<ValidationIssue>)
      ensures [] + s == s
    {
    }

    /** `_validate_pin_capabilities`; the active features are not consulted. */
    method ValidatePinCapabilities(boardId: string, pins: Dict<string, PinValue>, activeFeatures: set<string>, result: ValidationResult)
      requires boardDb.InterruptKeysNumeric(boardId)
      modifies result
      ensures result.errors == old(result.errors) + CapabilityErrors(boardId, pins)
      ensures result.passed == (old(result.passed) && CapabilityErrors(boardId, pins) == [])
      ensures result.warnings == old(result.warnings) && result.info == old(result.info) && result.autoFixes == old(result.autoFixes)
    {
      ghost var e0 := result.errors;
      ghost var pwm := ConcatMap(requirements.pwm, PwmCheck(boardId, pins));
      ghost var interrupt := ConcatMap(requirements.interrupt, InterruptCheck(boardId, pins));
      ghost var analog := ConcatMap(requirements.analog, AnalogCheck(boardId, pins));
      CheckPwmPins(boardId, pins, result);
      CheckInterruptPins(boardId, pins, result);
      CheckAnalogPins(boardId, pins, result);
      AppendAssoc(e0, pwm, interrupt);
      AppendAssoc(e0, pwm + interrupt, analog);
    }

    /** The PWM loop of `_validate_pin_capabilities`. */
    method CheckPwmPins(boardId: string, pins: Dict<string, PinValue>, result: ValidationResult)
      modifies result
      ensures result.errors == old(result.errors) + ConcatMap(requirements.pwm, PwmCheck(boardId, pins))
      ensures result.passed == (old(result.passed) && ConcatMap(requirements.pwm, PwmCheck(boardId, pins)) == [])
      ensures result.warnings == old(result.warnings) && result.info == old(result.info) && result.autoFixes == old(result.autoFixes)
    {
      var names := requirements.pwm;
      var i := 0;
      while i < |names|
        invariant 0 <= i <= |names|
        invariant result.errors == old(result.errors) + ConcatMap(names[..i], PwmCheck(boardId, pins))
        invariant result.passed == (old(result.passed) && ConcatMap(names[..i], PwmCheck(boardId, pins)) == [])
        invariant result.warnings == old(result.warnings) && result.info == old(result.info) && result.autoFixes == old(result.autoFixes)
      {
        var name := names[i];
        ConcatMapNext(names, PwmCheck(boardId, pins), i);
        AppendAssoc(old(result.errors), ConcatMap(names[..i], PwmCheck(boardId, pins)), PwmCheck(boardId, pins)(name));
        if name in pins.values {
          var value := pins.values[name];
          if value.PinInt? {
            if !boardDb.IsPwmPin(boardId, value.n) {
              result.errors := result.errors + [PinIssue(Error, PinCapability, name)];
              result.passed := false;
            }
          }
        }
        i := i + 1;
      }
      assert names[..i] == names;
    }

    /** The interrupt loop of `_validate_pin_capabilities`. */
    method CheckInterruptPins(boardId: string, pins: Dict<string, PinValue>, result: ValidationResult)
      requires boardDb.InterruptKeysNumeric(boardId)
      modifies result
      ensures result.errors == old(result.errors) + ConcatMap(requirements.interrupt, InterruptCheck(boardId, pins))
      ensures result.passed == (old(result.passed) && ConcatMap(requirements.interrupt, InterruptCheck(boardId, pins)) == [])
      ensures result.warnings == old(result.warnings) && result.info == old(result.info) && result.autoFixes == old(result.autoFixes)
    {
      var names := requirements.interrupt;
      var i := 0;
      while i < |names|
        invariant 0 <= i <= |names|
        invariant result.errors == old(result.errors) + ConcatMap(names[..i], InterruptCheck(boardId, pins))
        invariant result.passed == (old(result.passed) && ConcatMap(names[..i], InterruptCheck(boardId, pins)) == [])
        invariant result.warnings == old(result.warnings) && result.info == old(result.info) && result.autoFixes == old(result.autoFixes)
      {
        var name := names[i];
        ConcatMapNext(names, InterruptCheck(boardId, pins), i);
        AppendAssoc(old(result.errors), ConcatMap(names[..i], InterruptCheck(boardId, pins)), InterruptCheck(boardId, pins)(name));
        if name in pins.values {
          var value := pins.values[name];
          if value.PinInt? {
            if !boardDb.IsInterruptPin(boardId, value.n) {
              result.errors := result.errors + [PinIssue(Error, PinCapability, name)];
              result.passed := false;
            }
          }
        }
        i := i + 1;
      }
      assert names[..i] == names;
    }

    /** The analog loop of `_validate_pin_capabilities`. */
    method CheckAnalogPins(boardId: string, pins: Dict<string, PinValue>, result: ValidationResult)
      modifies result
      ensures result.errors == old(result.errors) + ConcatMap(requirements.analog, AnalogCheck(boardId, pins))
      ensures result.passed == (old(result.passed) && ConcatMap(requirements.analog, AnalogCheck(boardId, pins)) == [])
      ensures result.warnings == old(result.warnings) && result.info == old(result.info) && result.autoFixes == old(result.autoFixes)
    {
      var names := requirements.analog;
      var i := 0;
      while i < |names|
        invariant 0 <= i <= |names|
        invariant result.errors == old(result.errors) + ConcatMap(names[..i], AnalogCheck(boardId, pins))
        invariant result.passed == (old(result.passed) && ConcatMap(names[..i], AnalogCheck(boardId, pins)) == [])
        invariant result.warnings == old(result.warnings) && result.info == old(result.info) && result.autoFixes == old(result.autoFixes)
      {
        var name := names[i];
        ConcatMapNext(names, AnalogCheck(boardId, pins), i);
        AppendAssoc(old(result.errors), ConcatMap(names[..i], AnalogCheck(boardId, pins)), AnalogCheck(boardId, pins)(name));
        if name in pins.values {
          var value := pins.values[name];
          if value.PinText? && AnalogName(value.s) {
            if !boardDb.IsAnalogPin(boardId, value.s) {
              result.errors := result.errors + [PinIssue(Error, PinCapability, name)];
              result.passed := false;
            }
          }
        }
        i := i + 1;
      }
      assert names[..i] == names;
    }

    /** `_validate_pin_conflicts` */
    method ValidatePinConflicts(boardId: string, pins: Dict<string, PinValue>, result: ValidationResult)
      modifies result
      ensures result.errors == old(result.errors) + ConflictErrors(boardId, pins)
      ensures result.passed == (old(result.passed) && ConflictErrors(boardId, pins) == [])
      ensures result.warnings == old(result.warnings) && result.info == old(result.info) && result.autoFixes == old(result.autoFixes)
    {
      var conflicts := boardDb.DetectPinConflicts(boardId, pins);
      ReportConflicts(conflicts, result);
    }

    /** The loop of `_validate_pin_conflicts`: one error per conflict, naming its pins. */
    static method ReportConflicts(conflicts: seq<Conflict>, result: ValidationResult)
      modifies result
      ensures result.errors == old(result.errors) + ConcatMap(conflicts, ConflictIssue)
      ensures result.passed == (old(result.passed) && ConcatMap(conflicts, ConflictIssue) == [])
      ensures result.warnings == old(result.warnings) && result.info == old(result.info) && result.autoFixes == old(result.autoFixes)
    {
      var i := 0;
      while i < |conflicts|
        invariant 0 <= i <= |conflicts|
        invariant result.errors == old(result.errors) + ConcatMap(conflicts[..i], ConflictIssue)
        invariant result.passed == (old(result.passed) && ConcatMap(conflicts[..i], ConflictIssue) == [])
        invariant result.warnings == old(result.warnings) && result.info == old(result.info) && result.autoFixes == old(result.autoFixes)
      {
        var conflict := conflicts[i];
        ConcatMapNext(conflicts, ConflictIssue, i);
        AppendAssoc(old(result.errors), ConcatMap(conflicts[..i], ConflictIssue), ConflictIssue(conflict));
        result.errors := result.errors + [ValidationIssue(Error, Dependencies.PinConflict, Composed, conflict.members, Some(Composed), false)];
        result.passed := false;
        i := i + 1;
      }
      assert conflicts[..i] == conflicts;
    }

    /** `_validate_reserved_pins` */
    method ValidateReservedPins(boardId: string, pins: Dict<string, PinValue>, activeFeatures: set<string>, result: ValidationResult)
      modifies result
      ensures result.warnings == old(result.warnings) + ReservedWarnings(boardId, pins, activeFeatures)
      ensures result.errors == old(result.errors) && result.passed == old(result.passed)
      ensures result.info == old(result.info) && result.autoFixes == old(result.autoFixes)
    {
      if !boardDb.Known(boardId) {
        return;
      }
      ghost var i2cPart: seq<ValidationIssue> := [];
      ghost var spiPart: seq<ValidationIssue> := [];
      if i2cFeatures * activeFeatures != {} {
        var reserved := boardDb.GetReservedPins(boardId, "i2c");
        WarnReserved(pins, reserved, result);
        i2cPart := ConcatMap(pins.keys, ReservedCheck(pins, reserved));
      }
      assert result.warnings == old(result.warnings) + i2cPart;
      ghost var afterI2c := result.warnings;
      if spiFeatures * activeFeatures != {} {
        var reserved := boardDb.GetReservedPins(boardId, "spi");
        WarnReserved(pins, reserved, result);
        spiPart := ConcatMap(pins.keys, ReservedCheck(pins, reserved));
      }
      assert result.warnings == afterI2c + spiPart;
      AppendAssoc(old(result.warnings), i2cPart, spiPart);
      assert ReservedWarnings(boardId, pins, activeFeatures) == i2cPart + spiPart;
    }

    /** One reserved-pin loop of `_validate_reserved_pins`: a warning for each pin whose value
        is in the reserved list. */
    method WarnReserved(pins: Dict<string, PinValue>, reserved: seq<PinValue>, result: ValidationResult)
      modifies result
      ensures result.warnings == old(result.warnings) + ConcatMap(pins.keys, ReservedCheck(pins, reserved))
      ensures result.errors == old(result.errors) && result.passed == old(result.passed)
      ensures result.info == old(result.info) && result.autoFixes == old(result.autoFixes)
    {
      var i := 0;
      while i < |pins.keys|
        invariant 0 <= i <= |pins.keys|
        invariant result.warnings == old(result.warnings) + ConcatMap(pins.keys[..i], ReservedCheck(pins, reserved))
        invariant result.errors == old(result.errors) && result.passed == old(result.passed)
        invariant result.info == old(result.info) && result.autoFixes == old(result.autoFixes)
      {
        var name := pins.keys[i];
        ConcatMapNext(pins.keys, ReservedCheck(pins, reserved), i);
        AppendAssoc(old(result.warnings), ConcatMap(pins.keys[..i], ReservedCheck(pins, reserved)), ReservedCheck(pins, reserved)(name));
        var value := pins.values[name];
        if value in reserved {
          result.warnings := result.warnings + [PinIssue(Warning, ReservedPin, name)];
        }
        i := i + 1;
      }
      assert pins.keys[..i] == pins.keys;
    }

    /** `_validate_pin_numbers` */
    method ValidatePinNumbers(boardId: string, pins: Dict<string, PinValue>, result: ValidationResult)
      modifies result
      ensures result.errors == old(result.errors) + RangeErrors(boardId, pins)
      ensures result.passed == (old(result.passed) && RangeErrors(boardId, pins) == [])
      ensures result.warnings == old(result.warnings) && result.info == old(result.info) && result.autoFixes == old(result.autoFixes)
    {
      if !boardDb.Known(boardId) {
        return;
      }
      var board := boardDb.boards.values[boardId];
      var i := 0;
      while i < |pins.keys|
        invariant 0 <= i <= |pins.keys|
        invariant result.errors == old(result.errors) + ConcatMap(pins.keys[..i], RangeCheck(board, pins))
        invariant result.passed == (old(result.passed) && ConcatMap(pins.keys[..i], RangeCheck(board, pins)) == [])
        invariant result.warnings == old(result.warnings) && result.info == old(result.info) && result.autoFixes == old(result.autoFixes)
      {
        var name := pins.keys[i];
        ConcatMapNext(pins.keys, RangeCheck(board, pins), i);
        AppendAssoc(old(result.errors), ConcatMap(pins.keys[..i], RangeCheck(board, pins)), RangeCheck(board, pins)(name));
        CheckPinNumber(board, pins, name, result);
        i := i + 1;
      }
      assert pins.keys[..i] == pins.keys;
    }

    /** The body of `_validate_pin_numbers`' loop for one pin: analog texts and numbers
        above 99 are skipped, another number outside a two-element range is an error. */
    static method CheckPinNumber(board: Board, pins: Dict<string, PinValue>, name: string, result: ValidationResult)
      requires name in pins.values
      modifies result
      ensures result.errors == old(result.errors) + RangeCheck(board, pins)(name)
      ensures result.passed == (old(result.passed) && RangeCheck(board, pins)(name) == [])
      ensures result.warnings == old(result.warnings) && result.info == old(result.info) && result.autoFixes == old(result.autoFixes)
    {
      var value := pins.values[name];
      if value.PinText? && AnalogName(value.s) {
        return;
      }
      if value.PinInt? && value.n > REMOTE_THRESHOLD {
        return;
      }
      if value.PinInt? {
        if board.digitalRange.RangeList? && |board.digitalRange.items| == 2 {
          var minPin, maxPin := board.digitalRange.items[0], board.digitalRange.items[1];
          if value.n < minPin || value.n > maxPin {
            result.errors := result.errors + [PinIssue(Error, PinRange, name)];
            result.passed := false;
          }
        }
      }
    }

    /** `get_pin_suggestions` */
    function GetPinSuggestions(boardId: string, capability: string): (r: seq<int>)
      requires capability == "interrupt" ==> boardDb.InterruptKeysNumeric(boardId)
      ensures capability != "pwm" && capability != "interrupt" ==> r == []
      ensures !boardDb.Known(boardId) ==> r == []
    {
      if capability == "pwm" then boardDb.GetPwmPins(boardId)
      else if capability == "interrupt" then boardDb.GetInterruptPins(boardId)
      else []
    }

    /** Suggestions exist only for PWM and interrupts (none for `analog`), and are then
        exactly the pins with that capability. */
    lemma SuggestionsMatchCapability(boardId: string, capability: string, pin: int)
      requires capability == "interrupt" ==> boardDb.InterruptKeysNumeric(boardId)
      ensures capability != "pwm" && capability != "interrupt" ==> GetPinSuggestions(boardId, capability) == []
      ensures capability == "pwm" ==> (pin in GetPinSuggestions(boardId, capability) <==> boardDb.IsPwmPin(boardId, pin))
      ensures capability == "interrupt" ==> (pin in GetPinSuggestions(boardId, capability) <==> boardDb.IsInterruptPin(boardId, pin))
    {
      if capability == "interrupt" {
        boardDb.PinListsMatchQueries(boardId, pin);
      }
    }

    /** `explain_pin_requirements`: the first capability, in the table's order (PWM,
        interrupt, analog), whose list holds the pin, with the fixed description and notes
        for it; a pin in no list gets no capability, an empty description and no notes. */
    function ExplainPinRequirements(pinName: string): (r: PinExplanation)
      ensures r.pinName == pinName
      ensures r.requiredCapability == Some("pwm") <==> pinName in requirements.pwm
      ensures r.requiredCapability == Some("interrupt") <==> pinName !in requirements.pwm && pinName in requirements.interrupt
      ensures r.requiredCapability == Some("analog") <==>
        pinName !in requirements.pwm && pinName !in requirements.interrupt && pinName in requirements.analog
      ensures r.requiredCapability.None? <==>
        pinName !in requirements.pwm && pinName !in requirements.interrupt && pinName !in requirements.analog
      ensures r.requiredCapability.None? <==> r.notes == [] && r.description == []
    {
      if pinName in requirements.pwm then
        PinExplanation(pinName, Some("pwm"), "This pin controls motor speed using PWM",
          ["Must be connected to a PWM-capable pin"])
      else if pinName in requirements.interrupt then
        PinExplanation(pinName, Some("interrupt"), "This pin reads pulses and requires interrupt capability",
          ["Must be connected to an interrupt-capable pin", "Used for encoders or pulse position sensors"])
      else if pinName in requirements.analog then
        PinExplanation(pinName, Some("analog"), "This pin reads analog voltage",
          ["Must be connected to an analog input pin (A0-A15)", "Used for potentiometer position sensors"])
      else PinExplanation(pinName, None, "", [])
    }

    /** The explanation and the capability check agree: every pin that gets a capability
        error is one the explanation gives a required capability, with notes. */
    lemma CapabilityErrorsAreExplained(boardId: string, pins: Dict<string, PinValue>, x: ValidationIssue)
      requires x in CapabilityErrors(boardId, pins)
      ensures |x.affectedFeatures| == 1
      ensures var e := ExplainPinRequirements(x.affectedFeatures[0]);
        e.pinName == x.affectedFeatures[0] && e.requiredCapability.Some? && e.notes != []
    {
      CapabilityErrorsExplained(boardId, pins, x);
    }
  }
}
