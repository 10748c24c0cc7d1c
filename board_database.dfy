/** The Arduino board table and the pin capability queries made against it: which pins of a
    board support PWM, interrupts or analog input, which pins a feature reserves, whether one
    configured pin value suits a board, and which values a pin assignment map uses twice. The
    table itself is given; loading it from board definition files is not modelled. */
module Boards {
  import opened Wrappers
  import opened Seqs
  import opened Dicts
  import opened Numbers

  // ---------------------------------------------------------------------------------------
  // Board definitions
  // ---------------------------------------------------------------------------------------

  /** A value in a pin assignment map: a pin number, a text such as `A0`, `0` or `disabled`,
      or `None`. */
  datatype PinValue = PinInt(n: int) | PinText(s: string) | PinNone

  /** `pins['digital']['range']`: a list (a `[min, max]` pair or the valid pins themselves),
      or something that is not a list. */
  datatype DigitalRange = RangeList(items: seq<int>) | NotAList

  /** One entry of `pins['serial']`, either of whose `rx` and `tx` keys may be missing. */
  datatype SerialPort = SerialPort(rx: Option<int>, tx: Option<int>)

  /** The parts of a board definition the queries read. `interruptKeys` are the keys of
      `pins['interrupt']` as written in the definition; `i2c` and `spi` are the values of the
      `pins['i2c']` and `pins['spi']` maps; `validationRules` holds the `<feature>_reserved`
      lists. */
  datatype Board = Board(
    boardName: string,
    digitalRange: DigitalRange,
    pwm: seq<int>,
    interruptKeys: seq<string>,
    analogNames: seq<string>,
    digitalEquivalent: Option<seq<int>>,
    i2c: seq<int>,
    spi: seq<int>,
    serial: seq<SerialPort>,
    validationRules: Dict<string, seq<PinValue>>)

  /** The key suffix of a feature's reserved-pin list in `validation_rules`. */
  const RESERVED_SUFFIX := "_reserved"

  /** Every interrupt key reads as an integer; otherwise `int()` raises on the first that
      does not. */
  predicate NumericKeys(b: Board) {
    MapAll(b.interruptKeys, ParseInt).Some?
  }

  /** `[int(p) for p in pins['interrupt'].keys()]` */
  function InterruptNumbers(b: Board): seq<int>
    requires NumericKeys(b)
  {
    MapAll(b.interruptKeys, ParseInt).value
  }

  /** An interrupt number is exactly the value of some interrupt key. */
  lemma InterruptKeyMembership(b: Board, pin: int)
    requires NumericKeys(b)
    ensures pin in InterruptNumbers(b) <==> exists k | k in b.interruptKeys :: ParseInt(k) == Some(pin)
  {
    MapAllMember(b.interruptKeys, ParseInt, pin);
  }

  // ---------------------------------------------------------------------------------------
  // Capabilities
  // ---------------------------------------------------------------------------------------

  /** The capability names `get_pin_capabilities` reports. */
  datatype Capability = Digital | Pwm | Interrupt | AnalogInput | I2c | Spi | Uart

  const ALL_CAPABILITIES: set<Capability> := {Digital, Pwm, Interrupt, AnalogInput, I2c, Spi, Uart}

  lemma EveryCapabilityListed(c: Capability)
    ensures c in ALL_CAPABILITIES
  {
  }

  /** `{c}` when the test holds, nothing otherwise. */
  function If(test: bool, c: Capability): set<Capability> {
    if test then {c} else {}
  }

  /** The pin is the receive or transmit pin of a serial port. */
  predicate OnPort(s: SerialPort, pin: int) {
    s.rx == Some(pin) || s.tx == Some(pin)
  }

  /** What each capability means for a pin of a known board. */
  predicate Supports(b: Board, pin: int, c: Capability)
    requires NumericKeys(b)
  {
    match c
    case Digital => true
    case Pwm => pin in b.pwm
    case Interrupt => pin in InterruptNumbers(b)
    case AnalogInput => b.digitalEquivalent.Some? && pin in b.digitalEquivalent.value
    case I2c => pin in b.i2c
    case Spi => pin in b.spi
    case Uart => exists s | s in b.serial :: OnPort(s, pin)
  }

  /** The capabilities of a pin of a known board, tested in the order `get_pin_capabilities`
      tests them. */
  function CapabilitiesOf(b: Board, pin: int): set<Capability>
    requires NumericKeys(b)
  {
    Tested(pin in b.pwm, pin in InterruptNumbers(b), b.digitalEquivalent.Some? && pin in b.digitalEquivalent.value,
      pin in b.i2c, pin in b.spi, exists s | s in b.serial :: OnPort(s, pin))
  }

  /** `digital`, then each capability whose test passed. */
  function Tested(pwm: bool, interrupt: bool, analog: bool, i2c: bool, spi: bool, uart: bool): set<Capability> {
    {Digital} + If(pwm, Pwm) + If(interrupt, Interrupt) + If(analog, AnalogInput) + If(i2c, I2c) + If(spi, Spi) + If(uart, Uart)
  }

  lemma TestedMeaning(pwm: bool, interrupt: bool, analog: bool, i2c: bool, spi: bool, uart: bool, c: Capability)
    ensures c in Tested(pwm, interrupt, analog, i2c, spi, uart) <==>
      c == Digital || (pwm && c == Pwm) || (interrupt && c == Interrupt) || (analog && c == AnalogInput)
      || (i2c && c == I2c) || (spi && c == Spi) || (uart && c == Uart)
  {
    var a := {Digital} + If(pwm, Pwm);
    var b := a + If(interrupt, Interrupt);
    var d := b + If(analog, AnalogInput);
    var e := d + If(i2c, I2c);
    var f := e + If(spi, Spi);
    assert c in a <==> c == Digital || (pwm && c == Pwm);
    assert c in b <==> c in a || (interrupt && c == Interrupt);
    assert c in d <==> c in b || (analog && c == AnalogInput);
    assert c in e <==> c in d || (i2c && c == I2c);
    assert c in f <==> c in e || (spi && c == Spi);
    assert c in f + If(uart, Uart) <==> c in f || (uart && c == Uart);
  }

  lemma CapabilitiesOfMeaning(b: Board, pin: int, c: Capability)
    requires NumericKeys(b)
    ensures c in CapabilitiesOf(b, pin) <==> Supports(b, pin, c)
  {
    var interrupt := pin in InterruptNumbers(b);
    var uart := exists s | s in b.serial :: OnPort(s, pin);
    TestedMeaning(pin in b.pwm, interrupt, b.digitalEquivalent.Some? && pin in b.digitalEquivalent.value,
      pin in b.i2c, pin in b.spi, uart, c);
    assert Supports(b, pin, c) <==> match c
      case Digital => true
      case Pwm => pin in b.pwm
      case Interrupt => interrupt
      case AnalogInput => b.digitalEquivalent.Some? && pin in b.digitalEquivalent.value
      case I2c => pin in b.i2c
      case Spi => pin in b.spi
      case Uart => uart;
  }

  // ---------------------------------------------------------------------------------------
  // Assignment verdicts and conflicts
  // ---------------------------------------------------------------------------------------

  /** Why `validate_pin_assignment` rejects a value (its message text is not modelled). */
  datatype Problem = UnknownBoard | NotAnalog | OutOfRange | NotDigital | NoPwm | NoInterrupt

  /** `(True, None)` or `(False, message)`. */
  datatype Verdict = Valid | Invalid(problem: Problem)

  /** A text value naming an analog pin: one that starts with `A`. */
  predicate AnalogName(s: string) {
    |s| > 0 && s[0] == 'A'
  }

  /** One entry of `detect_pin_conflicts`: the value and the names that use it (the message
      text is not modelled). */
  type Conflict = Shared<PinValue, string>

  /** The value a name contributes to `usage_map`: none for `0` and `None`. */
  function Counted(assignments: Dict<string, PinValue>): string -> Option<PinValue> {
    k => if k in assignments.values && assignments.values[k] != PinInt(0) && assignments.values[k] != PinNone
         then Some(assignments.values[k]) else None
  }

  /** `usage_map`: each counted value with the names using it, in assignment order. */
  function Usage(assignments: Dict<string, PinValue>): Dict<PinValue, seq<string>> {
    GroupBy(assignments.keys, Counted(assignments), |assignments.keys|)
  }

  /** The names, in assignment order, whose counted value is `v`. */
  function Users(assignments: Dict<string, PinValue>, v: PinValue): seq<string> {
    Labelled(assignments.keys, Counted(assignments), |assignments.keys|, v)
  }

  /** The users of `v` are the assigned names whose counted value is `v`. */
  lemma UsersMembers(assignments: Dict<string, PinValue>, v: PinValue)
    ensures forall k :: k in Users(assignments, v) <==> k in assignments.values && Counted(assignments)(k) == Some(v)
  {
    LabelledFilters(assignments.keys, Counted(assignments), |assignments.keys|, v);
    assert assignments.keys[..|assignments.keys|] == assignments.keys;
  }

  /** The conflicts of a usage map, in its key order. */
  function ConflictsOf(u: Dict<PinValue, seq<string>>): seq<Conflict> {
    SharedUpTo(u, |u.keys|)
  }

  /** A value is reported exactly when two or more names use it, the report lists exactly
      those names in assignment order, and no value is reported twice. */
  lemma ConflictsExact(assignments: Dict<string, PinValue>, v: PinValue)
    ensures (exists c | c in ConflictsOf(Usage(assignments)) :: c.key == v) <==> |Users(assignments, v)| >= 2
    ensures forall c | c in ConflictsOf(Usage(assignments)) :: c.members == Users(assignments, c.key) && |c.members| >= 2
    ensures var r := ConflictsOf(Usage(assignments)); forall i, j | 0 <= i < j < |r| :: r[i].key != r[j].key
  {
    var u := Usage(assignments);
    GroupByMembers(assignments.keys, Counted(assignments), |assignments.keys|);
    SharedUpToSpec(u, |u.keys|);
    assert u.keys[..|u.keys|] == u.keys;
    var r := ConflictsOf(u);
    forall i, j | 0 <= i < j < |r|
      ensures r[i].key != r[j].key
    {
      DistinctIndices(KeysOf(r), i, j);
    }
    if |Users(assignments, v)| >= 2 {
      assert v in u.values;
      assert v in u.keys[..|u.keys|] && |u.values[v]| > 1;
    }
  }

  /** Values `0` and `None` are never reported, whoever uses them; the text `'0'` is. */
  lemma ConflictsSkipUnassigned(assignments: Dict<string, PinValue>)
    ensures forall c | c in ConflictsOf(Usage(assignments)) :: c.key != PinInt(0) && c.key != PinNone
  {
    forall c | c in ConflictsOf(Usage(assignments))
      ensures c.key != PinInt(0) && c.key != PinNone
    {
      ConflictsExact(assignments, c.key);
      var us := Users(assignments, c.key);
      UsersMembers(assignments, c.key);
      assert us[0] in us;
      assert Counted(assignments)(us[0]) == Some(c.key);
    }
  }

  /** The first loop of `detect_pin_conflicts`, building `usage_map`. */
  method BuildUsage(assignments: Dict<string, PinValue>) returns (usage: Dict<PinValue, seq<string>>)
    ensures usage == Usage(assignments)
  {
    usage := Empty();
    var i := 0;
    while i < |assignments.keys|
      invariant 0 <= i <= |assignments.keys|
      invariant usage == GroupBy(assignments.keys, Counted(assignments), i)
    {
      var name := assignments.keys[i];
      var value := assignments.values[name];
      GroupByNext(assignments.keys, Counted(assignments), i);
      if value != PinInt(0) && value != PinNone {
        var users := if value in usage.values then usage.values[value] else [];
        usage := Put(usage, value, users + [name]);
      }
      i := i + 1;
    }
  }

  /** The second loop of `detect_pin_conflicts`: one conflict per value with several users. */
  method ReportShared(usage: Dict<PinValue, seq<string>>) returns (conflicts: seq<Conflict>)
    ensures conflicts == ConflictsOf(usage)
  {
    conflicts := [];
    var j := 0;
    while j < |usage.keys|
      invariant 0 <= j <= |usage.keys|
      invariant conflicts == SharedUpTo(usage, j)
    {
      var v := usage.keys[j];
      if |usage.values[v]| > 1 {
        conflicts := conflicts + [Shared(v, usage.values[v])];
      }
      j := j + 1;
    }
  }

  // ---------------------------------------------------------------------------------------
  // The database
  // ---------------------------------------------------------------------------------------

  class BoardDatabase {
    /** `boards`: board id to definition. */
    const boards: Dict<string, Board>

    constructor (boards: Dict<string, Board>)
      ensures this.boards == boards
    {
      this.boards := boards;
    }

    predicate Known(boardId: string) {
      boardId in boards.values
    }

    /** The interrupt queries can be asked of this board id without `int()` raising. */
    predicate InterruptKeysNumeric(boardId: string) {
      boardId in boards.values ==> NumericKeys(boards.values[boardId])
    }

    /** `is_pwm_pin`: false for an unknown board. */
    predicate IsPwmPin(boardId: string, pin: int)
      ensures IsPwmPin(boardId, pin) ==> Known(boardId)
    {
      boardId in boards.values && pin in boards.values[boardId].pwm
    }

    /** `is_interrupt_pin`: false for an unknown board, otherwise whether the pin is the
        `int()` of an interrupt-map key. */
    predicate IsInterruptPin(boardId: string, pin: int)
      requires InterruptKeysNumeric(boardId)
      ensures IsInterruptPin(boardId, pin) ==> Known(boardId)
      ensures IsInterruptPin(boardId, pin) <==>
        Known(boardId) && exists k | k in boards.values[boardId].interruptKeys :: ParseInt(k) == Some(pin)
    {
      boardId in boards.values && pin in InterruptNumbers(boards.values[boardId])
    }

    /** `is_analog_pin`: false for an unknown board. */
    predicate IsAnalogPin(boardId: string, pin: string)
      ensures IsAnalogPin(boardId, pin) ==> Known(boardId)
    {
      boardId in boards.values && pin in boards.values[boardId].analogNames
    }

    /** `get_pwm_pins`: nothing for an unknown board, otherwise exactly the PWM pins. */
    function GetPwmPins(boardId: string): (r: seq<int>)
      ensures !Known(boardId) ==> r == []
      ensures forall p :: p in r <==> IsPwmPin(boardId, p)
    {
      if boardId in boards.values then boards.values[boardId].pwm else []
    }

    /** `get_interrupt_pins`: nothing for an unknown board, otherwise one number per
        interrupt-map key, in key order. */
    function GetInterruptPins(boardId: string): (r: seq<int>)
      requires InterruptKeysNumeric(boardId)
      ensures !Known(boardId) ==> r == []
      ensures Known(boardId) ==> |r| == |boards.values[boardId].interruptKeys|
    {
      if boardId in boards.values then InterruptNumbers(boards.values[boardId]) else []
    }

    /** `get_reserved_pins`: the board's `<feature>_reserved` rule, or nothing when the
        board is unknown or has no such rule. */
    function GetReservedPins(boardId: string, feature: string): (r: seq<PinValue>)
      ensures !Known(boardId) ==> r == []
      ensures Known(boardId) && feature + RESERVED_SUFFIX in boards.values[boardId].validationRules.values ==>
        r == boards.values[boardId].validationRules.values[feature + RESERVED_SUFFIX]
      ensures Known(boardId) && feature + RESERVED_SUFFIX !in boards.values[boardId].validationRules.values ==> r == []
    {
      if boardId in boards.values then GetOr(boards.values[boardId].validationRules, feature + RESERVED_SUFFIX, [])
      else []
    }

    /** The pin lists agree with the membership queries. */
    lemma PinListsMatchQueries(boardId: string, pin: int)
      requires InterruptKeysNumeric(boardId)
      ensures pin in GetPwmPins(boardId) <==> IsPwmPin(boardId, pin)
      ensures pin in GetInterruptPins(boardId) <==> IsInterruptPin(boardId, pin)
    {
    }

    /** A board the table does not hold answers every query negatively. */
    lemma UnknownBoardAnswers(boardId: string, pin: int, name: string, feature: string, assignments: Dict<string, PinValue>)
      requires !Known(boardId)
      ensures !IsPwmPin(boardId, pin) && !IsInterruptPin(boardId, pin) && !IsAnalogPin(boardId, name)
      ensures GetPwmPins(boardId) == [] && GetInterruptPins(boardId) == [] && GetReservedPins(boardId, feature) == []
      ensures Capabilities(boardId, pin) == {}
      ensures DetectedConflicts(boardId, assignments) == []
      ensures forall v, required | required == Some("interrupt") ==> InterruptKeysNumeric(boardId) ::
        ValidatePinAssignment(boardId, name, v, required) == Invalid(UnknownBoard)
    {
    }

    /** `get_pin_capabilities`, as a set: the capabilities the pin supports on a known board,
        none on an unknown one. */
    function Capabilities(boardId: string, pin: int): set<Capability>
      requires InterruptKeysNumeric(boardId)
    {
      if boardId in boards.values then CapabilitiesOf(boards.values[boardId], pin) else {}
    }

    /** On a known board every pin is digital, and has PWM or interrupt capability exactly when
        the matching query says so. */
    lemma KnownBoardCapabilities(boardId: string, pin: int)
      requires Known(boardId) && InterruptKeysNumeric(boardId)
      ensures Digital in Capabilities(boardId, pin)
      ensures Pwm in Capabilities(boardId, pin) <==> IsPwmPin(boardId, pin)
      ensures Interrupt in Capabilities(boardId, pin) <==> IsInterruptPin(boardId, pin)
      ensures Uart in Capabilities(boardId, pin) <==> exists s | s in boards.values[boardId].serial :: OnPort(s, pin)
    {
      CapabilitiesMeaning(boardId, pin, Digital);
      CapabilitiesMeaning(boardId, pin, Pwm);
      CapabilitiesMeaning(boardId, pin, Interrupt);
      CapabilitiesMeaning(boardId, pin, Uart);
    }

    /** A capability is reported exactly when the pin supports it. */
    lemma CapabilitiesMeaning(boardId: string, pin: int, c: Capability)
      requires Known(boardId) && InterruptKeysNumeric(boardId)
      ensures c in Capabilities(boardId, pin) <==> Supports(boards.values[boardId], pin, c)
    {
      CapabilitiesOfMeaning(boards.values[boardId], pin, c);
    }

    /** `get_pin_capabilities`: `digital`, then each further capability added as its test
        passes, the serial ports searched until one uses the pin. */
    method GetPinCapabilities(boardId: string, pin: int) returns (caps: set<Capability>)
      requires InterruptKeysNumeric(boardId)
      ensures caps == Capabilities(boardId, pin)
    {
      if boardId !in boards.values {
        return {};
      }
      var b := boards.values[boardId];
      caps := {Digital};
      if IsPwmPin(boardId, pin) {
        caps := caps + {Pwm};
      }
      if IsInterruptPin(boardId, pin) {
        caps := caps + {Interrupt};
      }
      assert caps == {Digital} + If(pin in b.pwm, Pwm) + If(pin in InterruptNumbers(b), Interrupt);
      caps := AddWiredCapabilities(b, pin, caps);
    }

    /** The tests of `get_pin_capabilities` on the board's analog, bus and serial pins, adding
        to the capabilities found so far. */
    static method AddWiredCapabilities(b: Board, pin: int, found: set<Capability>) returns (caps: set<Capability>)
      ensures caps == found + If(b.digitalEquivalent.Some? && pin in b.digitalEquivalent.value, AnalogInput)
        + If(pin in b.i2c, I2c) + If(pin in b.spi, Spi) + If(exists s | s in b.serial :: OnPort(s, pin), Uart)
    {
      caps := found;
      if b.digitalEquivalent.Some? && pin in b.digitalEquivalent.value {
        caps := caps + {AnalogInput};
      }
      if pin in b.i2c {
        caps := caps + {I2c};
      }
      if pin in b.spi {
        caps := caps + {Spi};
      }
      var uart := UsesSerial(b.serial, pin);
      if uart {
        caps := caps + {Uart};
      }
    }

    /** The serial-port loop of `get_pin_capabilities`, stopping at the first port that uses
        the pin. */
    static method UsesSerial(ports: seq<SerialPort>, pin: int) returns (found: bool)
      ensures found <==> exists s | s in ports :: OnPort(s, pin)
    {
      var i := 0;
      while i < |ports|
        invariant 0 <= i <= |ports|
        invariant forall j | 0 <= j < i :: !OnPort(ports[j], pin)
      {
        if OnPort(ports[i], pin) {
          return true;
        }
        i := i + 1;
      }
      return false;
    }

    /** `validate_pin_assignment`, its message reduced to the reason. `pinName` is unused, as
        in the source. */
    function ValidatePinAssignment(boardId: string, pinName: string, value: PinValue, required: Option<string>): (r: Verdict)
      requires required == Some("interrupt") ==> InterruptKeysNumeric(boardId)
      ensures r == Invalid(UnknownBoard) <==> !Known(boardId)
      ensures Known(boardId) && !value.PinInt? && !(value.PinText? && AnalogName(value.s)) ==> r == Valid
      ensures r == Invalid(NotAnalog) <==> Known(boardId) && value.PinText? && AnalogName(value.s) && !IsAnalogPin(boardId, value.s)
      ensures r == Invalid(NoPwm) ==> value.PinInt? && required == Some("pwm") && !IsPwmPin(boardId, value.n)
      ensures r == Invalid(NoInterrupt) ==> value.PinInt? && required == Some("interrupt") && !IsInterruptPin(boardId, value.n)
      ensures r == Invalid(OutOfRange) || r == Invalid(NotDigital) ==> value.PinInt? && value.n != 0
    {
      if boardId !in boards.values then Invalid(UnknownBoard)
      else if value == PinInt(0) then Valid
      else if value.PinText? && AnalogName(value.s) then
        if IsAnalogPin(boardId, value.s) then Valid else Invalid(NotAnalog)
      else if value.PinInt? then
        var range := boards.values[boardId].digitalRange;
        var n := value.n;
        if range.RangeList? && |range.items| == 2 && (n < range.items[0] || n > range.items[1]) then Invalid(OutOfRange)
        else if range.RangeList? && |range.items| != 2 && n !in range.items then Invalid(NotDigital)
        else if required == Some("pwm") && !IsPwmPin(boardId, n) then Invalid(NoPwm)
        else if required == Some("interrupt") && !IsInterruptPin(boardId, n) then Invalid(NoInterrupt)
        else Valid
      else Valid
    }

    /** On a known board, the pin number `0` is accepted whatever capability is asked for. */
    lemma ZeroIsValid(boardId: string, name: string, required: Option<string>)
      requires Known(boardId)
      requires required == Some("interrupt") ==> InterruptKeysNumeric(boardId)
      ensures ValidatePinAssignment(boardId, name, PinInt(0), required) == Valid
    {
    }

    /** On a known board, a text starting with `A` is accepted exactly when it is one of the
        board's analog names, whatever capability is asked for. */
    lemma AnalogNameValid(boardId: string, name: string, s: string, required: Option<string>)
      requires Known(boardId) && AnalogName(s)
      requires required == Some("interrupt") ==> InterruptKeysNumeric(boardId)
      ensures ValidatePinAssignment(boardId, name, PinText(s), required) == Valid <==> s in boards.values[boardId].analogNames
      ensures ValidatePinAssignment(boardId, name, PinText(s), required) != Valid ==>
        ValidatePinAssignment(boardId, name, PinText(s), required) == Invalid(NotAnalog)
    {
    }

    /** A two-element digital range is read as an inclusive `[min, max]` interval: a number
        strictly between the two is accepted though it is neither of them. */
    lemma TwoElementRangeIsInterval(boardId: string, name: string, n: int)
      requires Known(boardId) && n != 0
      requires boards.values[boardId].digitalRange.RangeList? && |boards.values[boardId].digitalRange.items| == 2
      ensures var items := boards.values[boardId].digitalRange.items;
        ValidatePinAssignment(boardId, name, PinInt(n), None) == Valid <==> items[0] <= n <= items[1]
      ensures var items := boards.values[boardId].digitalRange.items;
        items[0] < n < items[1] ==> ValidatePinAssignment(boardId, name, PinInt(n), None) == Valid && n !in items
    {
    }

    /** Any other digital range list is the set of valid pins. */
    lemma OtherRangeIsMembership(boardId: string, name: string, n: int)
      requires Known(boardId) && n != 0
      requires boards.values[boardId].digitalRange.RangeList? && |boards.values[boardId].digitalRange.items| != 2
      ensures ValidatePinAssignment(boardId, name, PinInt(n), None) == Valid <==> n in boards.values[boardId].digitalRange.items
    {
    }

    /** A missing capability is reported only for a number the range accepts: an out-of-range
        number gets the range verdict whatever capability is asked for, and an in-range one
        fails exactly when it lacks the capability asked for. */
    lemma CapabilityAfterRange(boardId: string, name: string, n: int, required: Option<string>)
      requires Known(boardId) && n != 0
      requires required == Some("interrupt") ==> InterruptKeysNumeric(boardId)
      requires boards.values[boardId].digitalRange.RangeList? && |boards.values[boardId].digitalRange.items| == 2
      ensures var items := boards.values[boardId].digitalRange.items;
        !(items[0] <= n <= items[1]) ==> ValidatePinAssignment(boardId, name, PinInt(n), required) == Invalid(OutOfRange)
      ensures var items := boards.values[boardId].digitalRange.items;
        items[0] <= n <= items[1] && required == Some("pwm") ==>
          (ValidatePinAssignment(boardId, name, PinInt(n), required) == Valid <==> IsPwmPin(boardId, n))
      ensures var items := boards.values[boardId].digitalRange.items;
        items[0] <= n <= items[1] && required == Some("interrupt") ==>
          (ValidatePinAssignment(boardId, name, PinInt(n), required) == Valid <==> IsInterruptPin(boardId, n))
    {
    }

    /** `detect_pin_conflicts`, as a list. */
    function DetectedConflicts(boardId: string, assignments: Dict<string, PinValue>): seq<Conflict> {
      if boardId in boards.values then ConflictsOf(Usage(assignments)) else []
    }

    /** `detect_pin_conflicts` */
    method DetectPinConflicts(boardId: string, assignments: Dict<string, PinValue>) returns (conflicts: seq<Conflict>)
      ensures conflicts == DetectedConflicts(boardId, assignments)
    {
      if boardId !in boards.values {
        return [];
      }
      var usage := BuildUsage(assignments);
      conflicts := ReportShared(usage);
    }
  }
}
