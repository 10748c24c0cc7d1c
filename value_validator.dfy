/** The value range validator: rules from the values file are indexed by setting name, and
    every indexed setting's value is checked against each of its rules, scalars for bounds,
    warning thresholds and allowed values, arrays for size, ascending order and per-element
    bounds. */
module Values {
  import opened Wrappers
  import opened Strings
  import opened Seqs
  import opened Dicts
  import opened Numbers
  import opened Dependencies

  /** A setting value as the validator receives it. A value of any other Python type is
      `OtherVal`. */
  datatype Value = NoneValue | IntVal(i: int) | FloatVal(r: real) | StrVal(s: string) | ListVal(items: seq<Value>) | OtherVal

  /** One rule of the values file; every key may be absent. `category` is filled in by the
      index. */
  datatype ValueRule = ValueRule(
    settings: Option<seq<string>>,
    min: Option<Number>,
    max: Option<Number>,
    warningMin: Option<Number>,
    warningMax: Option<Number>,
    allowedValues: Option<seq<Value>>,
    arrayMinSize: Option<int>,
    arrayMaxSize: Option<int>,
    consistencyCheck: Option<string>,
    unit: Option<string>,
    warningMessage: Option<string>,
    consistencyMessage: Option<string>,
    category: Option<string>)

  /** The value under one top-level key of the values file: a list of rules, or anything else. */
  datatype RuleGroup = RuleList(rules: seq<ValueRule>) | NotAList

  type Index = Dict<string, seq<ValueRule>>

  // ---------------------------------------------------------------------------------------
  // _build_setting_index
  // ---------------------------------------------------------------------------------------

  /** The index entries of one rule: each of its settings paired with the rule tagged by the
      category; a rule without `settings` has none. */
  function Tagged(category: string, r: ValueRule): (es: seq<(string, ValueRule)>)
    ensures r.settings.Some? ==> |es| == |r.settings.value|
  {
    if r.settings.None? then []
    else seq(|r.settings.value|, k requires 0 <= k < |r.settings.value| => (r.settings.value[k], r.(category := Some(category))))
  }

  lemma TaggedAt(category: string, r: ValueRule, k: nat)
    requires r.settings.Some? && k < |r.settings.value|
    ensures Tagged(category, r)[..k + 1] == Tagged(category, r)[..k] + [(r.settings.value[k], r.(category := Some(category)))]
  {
    var es := Tagged(category, r);
    assert es[k] == (r.settings.value[k], r.(category := Some(category)));
    assert es[..k + 1] == es[..k] + [es[k]];
  }

  function TagAll(category: string): ValueRule -> seq<(string, ValueRule)> {
    r => Tagged(category, r)
  }

  /** The entries of one category; one whose value is not a list has none. */
  function CategoryEntries(c: (string, RuleGroup)): seq<(string, ValueRule)> {
    if c.1.RuleList? then ConcatMap(c.1.rules, TagAll(c.0)) else []
  }

  /** Every entry of the values file, in file order. */
  function Entries(categories: seq<(string, RuleGroup)>): seq<(string, ValueRule)> {
    ConcatMap(categories, CategoryEntries)
  }

  /** `self._setting_rules.setdefault(name, []).append(rule)` */
  function Add(d: Index, e: (string, ValueRule)): Index {
    Put(d, e.0, GetOr(d, e.0, []) + [e.1])
  }

  function AddAll(d: Index, es: seq<(string, ValueRule)>): Index
    decreases |es|
  {
    if es == [] then d else Add(AddAll(d, es[..|es| - 1]), es[|es| - 1])
  }

  lemma AddAllSnoc(d: Index, s: seq<(string, ValueRule)>, e: (string, ValueRule))
    ensures AddAll(d, s + [e]) == Add(AddAll(d, s), e)
  {
    assert (s + [e])[..|s|] == s;
  }

  lemma {:induction false} AddAllAppend(d: Index, a: seq<(string, ValueRule)>, b: seq<(string, ValueRule)>)
    ensures AddAll(d, a + b) == AddAll(AddAll(d, a), b)
    decreases |b|
  {
    if b == [] {
      assert a + b == a;
    } else {
      var b', last := b[..|b| - 1], b[|b| - 1];
      assert b == b' + [last] && a + b == (a + b') + [last];
      AddAllAppend(d, a, b');
      AddAllSnoc(d, a + b', last);
      AddAllSnoc(AddAll(d, a), b', last);
    }
  }

  /** The index built from the values file. */
  function IndexOf(categories: seq<(string, RuleGroup)>): Index {
    AddAll(Empty(), Entries(categories))
  }

  function Under(name: string): ((string, ValueRule)) -> seq<ValueRule> {
    (e: (string, ValueRule)) => if e.0 == name then [e.1] else []
  }

  /** The rules the entries file under one setting, in order. */
  function RulesFor(es: seq<(string, ValueRule)>, name: string): seq<ValueRule> {
    ConcatMap(es, Under(name))
  }

  /** Adding entries appends, under each setting, exactly the rules filed under it. */
  lemma {:induction false} AddAllContents(d: Index, es: seq<(string, ValueRule)>, name: string)
    ensures Has(AddAll(d, es), name) <==> Has(d, name) || RulesFor(es, name) != []
    ensures GetOr(AddAll(d, es), name, []) == GetOr(d, name, []) + RulesFor(es, name)
    decreases |es|
  {
    if es != [] {
      AddAllContents(d, es[..|es| - 1], name);
    }
  }

  /** Where a value-file entry comes from: a setting listed by a rule of a list-valued
      category, paired with that rule tagged by the category's name. */
  lemma EntryOrigin(categories: seq<(string, RuleGroup)>, e: (string, ValueRule))
    ensures e in Entries(categories) <==> exists i | 0 <= i < |categories| ::
      && categories[i].1.RuleList?
      && exists j | 0 <= j < |categories[i].1.rules| ::
        && categories[i].1.rules[j].settings.Some?
        && e.0 in categories[i].1.rules[j].settings.value
        && e.1 == categories[i].1.rules[j].(category := Some(categories[i].0))
  {
    ConcatMapMember(categories, CategoryEntries, e);
    forall i | 0 <= i < |categories| && categories[i].1.RuleList?
      ensures e in CategoryEntries(categories[i]) <==> exists j | 0 <= j < |categories[i].1.rules| ::
        && categories[i].1.rules[j].settings.Some?
        && e.0 in categories[i].1.rules[j].settings.value
        && e.1 == categories[i].1.rules[j].(category := Some(categories[i].0))
    {
      var c := categories[i];
      ConcatMapMember(c.1.rules, TagAll(c.0), e);
      forall j | 0 <= j < |c.1.rules|
        ensures e in Tagged(c.0, c.1.rules[j]) <==>
          c.1.rules[j].settings.Some? && e.0 in c.1.rules[j].settings.value && e.1 == c.1.rules[j].(category := Some(c.0))
      {
        var r := c.1.rules[j];
        if r.settings.Some? && e.0 in r.settings.value && e.1 == r.(category := Some(c.0)) {
          var k :| 0 <= k < |r.settings.value| && r.settings.value[k] == e.0;
          assert Tagged(c.0, r)[k] == e;
        }
      }
    }
  }

  /** Only rules with a `settings` key in list-valued categories are indexed: a setting is in
      the index exactly when one of them lists it. */
  lemma IndexedSettings(categories: seq<(string, RuleGroup)>, name: string)
    ensures Has(IndexOf(categories), name) <==> exists e | e in Entries(categories) :: e.0 == name
  {
    var es := Entries(categories);
    AddAllContents(Empty(), es, name);
    if Has(IndexOf(categories), name) {
      var r := RulesFor(es, name)[0];
      assert r in RulesFor(es, name);
      ConcatMapMember(es, Under(name), r);
    }
    if exists e | e in es :: e.0 == name {
      var e :| e in es && e.0 == name;
      var k :| 0 <= k < |es| && es[k] == e;
      assert e.1 in Under(name)(es[k]);
      ConcatMapMember(es, Under(name), e.1);
    }
  }

  /** Every rule filed under a setting lists it and carries the name of the list-valued
      category it came from. */
  lemma FiledRulesListSetting(categories: seq<(string, RuleGroup)>, name: string, r: ValueRule)
    requires r in GetOr(IndexOf(categories), name, [])
    ensures r.settings.Some? && name in r.settings.value && r.category.Some?
    ensures exists i | 0 <= i < |categories| :: categories[i].0 == r.category.value && categories[i].1.RuleList?
  {
    var es := Entries(categories);
    AddAllContents(Empty(), es, name);
    ConcatMapMember(es, Under(name), r);
    var k :| 0 <= k < |es| && r in Under(name)(es[k]);
    EntryOrigin(categories, es[k]);
  }

  /** The innermost loop of `_build_setting_index`: one rule filed under each of its settings. */
  method IndexRule(d: Index, category: string, rule: ValueRule) returns (d': Index)
    ensures d' == AddAll(d, Tagged(category, rule))
  {
    d' := d;
    if rule.settings.None? {
      return;
    }
    var names := rule.settings.value;
    ghost var es := Tagged(category, rule);
    var copy := rule.(category := Some(category));
    var k := 0;
    while k < |names|
      invariant 0 <= k <= |names|
      invariant d' == AddAll(d, es[..k])
    {
      TaggedAt(category, rule, k);
      AddAllSnoc(d, es[..k], (names[k], copy));
      d' := Add(d', (names[k], copy));
      k := k + 1;
    }
    assert es[..k] == es;
  }

  /** The middle loop: every rule of one list-valued category. */
  method IndexCategory(d: Index, category: string, rules: seq<ValueRule>) returns (d': Index)
    ensures d' == AddAll(d, ConcatMap(rules, TagAll(category)))
  {
    d' := d;
    var j := 0;
    while j < |rules|
      invariant 0 <= j <= |rules|
      invariant d' == AddAll(d, ConcatMap(rules[..j], TagAll(category)))
    {
      ConcatMapNext(rules, TagAll(category), j);
      AddAllAppend(d, ConcatMap(rules[..j], TagAll(category)), Tagged(category, rules[j]));
      d' := IndexRule(d', category, rules[j]);
      j := j + 1;
    }
    assert rules[..j] == rules;
  }

  // ---------------------------------------------------------------------------------------
  // _validate_setting and _validate_array
  // ---------------------------------------------------------------------------------------

  /** The number a value converts to: ints and floats as they are, strings through `float()`;
      `None` for every value the validator skips as non-numeric. */
  function ScalarNumber(v: Value): (r: Option<Number>)
    ensures v.IntVal? ==> r == Some(IntNum(v.i))
    ensures v.FloatVal? ==> r == Some(FloatNum(v.r))
    ensures v.StrVal? ==> (r.Some? <==> ParseFloat(v.s).Some?) && (r.Some? ==> r.value == FloatNum(ParseFloat(v.s).value))
    ensures v.NoneValue? || v.ListVal? || v.OtherVal? ==> r.None?
  {
    match v
    case IntVal(i) => Some(IntNum(i))
    case FloatVal(r) => Some(FloatNum(r))
    case StrVal(s) => (match ParseFloat(s) case Some(r) => Some(FloatNum(r)) case None => None)
    case _ => None
  }

  predicate Below(x: Number, bound: Option<Number>) {
    bound.Some? && ToReal(x) < ToReal(bound.value)
  }

  predicate Above(x: Number, bound: Option<Number>) {
    bound.Some? && ToReal(x) > ToReal(bound.value)
  }

  /** An integral float becomes an int before the allowed-values test. */
  function Normalize(x: Number): Number {
    if x.FloatNum? && x.r.Floor as real == x.r then IntNum(x.r.Floor) else x
  }

  /** Python's `==` between a number and an allowed value: equal only to an int or float of
      the same mathematical value. */
  predicate Matches(x: Number, a: Value) {
    (a.IntVal? && ToReal(x) == a.i as real) || (a.FloatVal? && ToReal(x) == a.r)
  }

  /** `x in allowed_values` */
  predicate IsAllowed(x: Number, allowed: seq<Value>) {
    exists a | a in allowed :: Matches(x, a)
  }

  /** Normalising never changes the allowed-values verdict, since int/float equality in
      Python compares values. */
  lemma NormalizationIrrelevant(x: Number, allowed: seq<Value>)
    ensures IsAllowed(Normalize(x), allowed) == IsAllowed(x, allowed)
    ensures Normalize(x).IntNum? <==> x.IntNum? || x.r.Floor as real == x.r
  {
    assert ToReal(Normalize(x)) == ToReal(x);
  }

  /** An issue about one setting; its text is formatted by the validator. */
  function Issue(severity: Severity, ruleType: RuleType, name: string, suggestion: Message): ValidationIssue {
    ValidationIssue(severity, ruleType, Composed, [name], Some(suggestion), false)
  }

  /** `warning_message`, or a formatted hint when the rule has none. */
  function WarningHint(r: ValueRule): Message {
    if r.warningMessage.Some? then RuleText(r.warningMessage.value) else Composed
  }

  const DEFAULT_CONSISTENCY_MESSAGE := "Values should be in ascending order"
  const ASCENDING := "ascending"

  function ConsistencyHint(r: ValueRule): Message {
    RuleText(r.consistencyMessage.GetOr(DEFAULT_CONSISTENCY_MESSAGE))
  }

  function RangeErrors(name: string, x: Number, r: ValueRule): seq<ValidationIssue> {
    (if Below(x, r.min) then [Issue(Error, ValueRange, name, Composed)] else [])
    + (if Above(x, r.max) then [Issue(Error, ValueRange, name, Composed)] else [])
  }

  /** The errors a scalar gets: below `min`, above `max`, then not among `allowed_values`. */
  function ScalarErrors(name: string, x: Number, r: ValueRule): seq<ValidationIssue> {
    RangeErrors(name, x, r)
    + (if r.allowedValues.Some? && !IsAllowed(Normalize(x), r.allowedValues.value) then [Issue(Error, AllowedValues, name, Composed)] else [])
  }

  function ScalarWarnings(name: string, x: Number, r: ValueRule): seq<ValidationIssue> {
    (if Below(x, r.warningMin) then [Issue(Warning, ValueRange, name, WarningHint(r))] else [])
    + (if Above(x, r.warningMax) then [Issue(Warning, ValueRange, name, WarningHint(r))] else [])
  }

  function SizeErrors(name: string, n: nat, r: ValueRule): seq<ValidationIssue> {
    (if r.arrayMinSize.Some? && n < r.arrayMinSize.value then [Issue(Error, ArraySize, name, Composed)] else [])
    + (if r.arrayMaxSize.Some? && n > r.arrayMaxSize.value then [Issue(Error, ArraySize, name, Composed)] else [])
  }

  /** The bound errors of one array element; an element without a number is skipped. */
  function ElementErrors(name: string, r: ValueRule, e: Value): seq<ValidationIssue> {
    match ScalarNumber(e)
    case None => []
    case Some(x) => RangeErrors(name, x, r)
  }

  function ElementCheck(name: string, r: ValueRule): Value -> seq<ValidationIssue> {
    e => ElementErrors(name, r, e)
  }

  /** Neighbours `i` and `i + 1` both convert and are not strictly ascending. */
  predicate DescentAt(vs: seq<Value>, i: nat)
    requires i + 1 < |vs|
  {
    ScalarNumber(vs[i]).Some? && ScalarNumber(vs[i + 1]).Some?
    && ToReal(ScalarNumber(vs[i]).value) >= ToReal(ScalarNumber(vs[i + 1]).value)
  }

  /** `len(range(len(vs) - 1))` */
  function Pairs(vs: seq<Value>): nat {
    if vs == [] then 0 else |vs| - 1
  }

  /** The warnings of the first `n` neighbour comparisons. */
  function AscendingWarnings(name: string, r: ValueRule, vs: seq<Value>, n: nat): seq<ValidationIssue>
    requires n <= Pairs(vs)
  {
    if n == 0 then []
    else AscendingWarnings(name, r, vs, n - 1) + (if DescentAt(vs, n - 1) then [Issue(Warning, ArrayConsistency, name, ConsistencyHint(r))] else [])
  }

  /** The comparisons that warn. */
  function DescendsAt(vs: seq<Value>): nat -> bool {
    (i: nat) => i + 1 < |vs| && DescentAt(vs, i)
  }

  /** The indices of the first `n` comparisons that warn. */
  function Descents(vs: seq<Value>, n: nat): seq<nat>
    requires n <= Pairs(vs)
  {
    Where(n, DescendsAt(vs))
  }

  /** One warning per descending neighbour pair. */
  lemma {:induction false} AscendingWarningsCounted(name: string, r: ValueRule, vs: seq<Value>, n: nat)
    requires n <= Pairs(vs)
    ensures |AscendingWarnings(name, r, vs, n)| == |Descents(vs, n)|
    ensures forall w | w in AscendingWarnings(name, r, vs, n) :: w == Issue(Warning, ArrayConsistency, name, ConsistencyHint(r))
  {
    if n > 0 {
      AscendingWarningsCounted(name, r, vs, n - 1);
    }
  }

  /** The warning comparisons are exactly the descending neighbour pairs. */
  lemma DescentIndices(vs: seq<Value>, n: nat)
    requires n <= Pairs(vs)
    ensures forall i: nat :: i in Descents(vs, n) <==> i < n && DescentAt(vs, i)
    ensures Descents(vs, n) == [] <==> forall i: nat | i < n :: !DescentAt(vs, i)
  {
    WhereMeaning(n, DescendsAt(vs));
  }

  /** Equal neighbours warn, and a strictly ascending numeric array has no warning. */
  lemma EqualNeighboursWarn(name: string, r: ValueRule, vs: seq<Value>, i: nat)
    requires i + 1 < |vs| && ScalarNumber(vs[i]).Some? && ScalarNumber(vs[i]) == ScalarNumber(vs[i + 1])
    ensures i in Descents(vs, Pairs(vs))
  {
    DescentIndices(vs, Pairs(vs));
  }

  lemma StrictlyAscendingQuiet(name: string, r: ValueRule, vs: seq<Value>)
    requires forall i: nat | i + 1 < |vs| :: !DescentAt(vs, i)
    ensures AscendingWarnings(name, r, vs, Pairs(vs)) == []
  {
    DescentIndices(vs, Pairs(vs));
    AscendingWarningsCounted(name, r, vs, Pairs(vs));
  }

  function ArrayErrors(name: string, vs: seq<Value>, r: ValueRule): seq<ValidationIssue> {
    SizeErrors(name, |vs|, r) + ConcatMap(vs, ElementCheck(name, r))
  }

  function ArrayWarnings(name: string, vs: seq<Value>, r: ValueRule): seq<ValidationIssue> {
    if r.consistencyCheck == Some(ASCENDING) then AscendingWarnings(name, r, vs, Pairs(vs)) else []
  }

  /** The errors one rule gives a value: none for `None` or a value without a number, the
      array checks for a list, the scalar checks otherwise. */
  function RuleErrors(name: string, v: Value, r: ValueRule): (issues: seq<ValidationIssue>)
    ensures v.NoneValue? || v.OtherVal? || (v.StrVal? && ParseFloat(v.s).None?) ==> issues == []
  {
    match v
    case NoneValue => []
    case ListVal(vs) => ArrayErrors(name, vs, r)
    case _ => (match ScalarNumber(v) case None => [] case Some(x) => ScalarErrors(name, x, r))
  }

  function RuleWarnings(name: string, v: Value, r: ValueRule): (issues: seq<ValidationIssue>)
    ensures v.NoneValue? || v.OtherVal? || (v.StrVal? && ParseFloat(v.s).None?) ==> issues == []
  {
    match v
    case NoneValue => []
    case ListVal(vs) => ArrayWarnings(name, vs, r)
    case _ => (match ScalarNumber(v) case None => [] case Some(x) => ScalarWarnings(name, x, r))
  }

  /** A list gets the array checks. */
  lemma ArrayIssues(name: string, vs: seq<Value>, r: ValueRule)
    ensures RuleErrors(name, ListVal(vs), r) == ArrayErrors(name, vs, r)
    ensures RuleWarnings(name, ListVal(vs), r) == ArrayWarnings(name, vs, r)
  {
  }

  /** A value that converts to `x` and is not a list gets the scalar checks. */
  lemma ScalarIssues(name: string, v: Value, x: Number, r: ValueRule)
    requires !v.ListVal? && ScalarNumber(v) == Some(x)
    ensures RuleErrors(name, v, r) == ScalarErrors(name, x, r)
    ensures RuleWarnings(name, v, r) == ScalarWarnings(name, x, r)
  {
  }

  /** A scalar below `min` gets exactly one range error and one above `max` exactly one; with
      `min <= max` it never gets both. */
  lemma ScalarRangeChecks(name: string, x: Number, r: ValueRule)
    ensures |Filter(ScalarErrors(name, x, r), IsRangeError)| == (if Below(x, r.min) then 1 else 0) + (if Above(x, r.max) then 1 else 0)
    ensures r.min.Some? && r.max.Some? && ToReal(r.min.value) <= ToReal(r.max.value) ==> !(Below(x, r.min) && Above(x, r.max))
  {
    var rest := if r.allowedValues.Some? && !IsAllowed(Normalize(x), r.allowedValues.value) then [Issue(Error, AllowedValues, name, Composed)] else [];
    FilterAppend(RangeErrors(name, x, r), rest, IsRangeError);
    var a := if Below(x, r.min) then [Issue(Error, ValueRange, name, Composed)] else [];
    var b := if Above(x, r.max) then [Issue(Error, ValueRange, name, Composed)] else [];
    FilterAppend(a, b, IsRangeError);
  }

  /** A scalar's errors are errors and its warnings (the thresholds) are warnings, each naming
      the setting alone. */
  lemma ScalarSeverities(name: string, x: Number, r: ValueRule)
    ensures forall w | w in ScalarWarnings(name, x, r) :: w.severity == Warning && w.affectedFeatures == [name]
    ensures forall e | e in ScalarErrors(name, x, r) :: e.severity == Error && e.affectedFeatures == [name]
  {
  }

  function IsRangeError(i: ValidationIssue): bool {
    i.ruleType == ValueRange
  }

  /** `allowed_values`: an error exactly when no allowed int or float equals the value. */
  lemma AllowedValuesCheck(name: string, x: Number, r: ValueRule)
    requires r.allowedValues.Some?
    ensures Issue(Error, AllowedValues, name, Composed) in ScalarErrors(name, x, r) <==> !IsAllowed(x, r.allowedValues.value)
  {
    NormalizationIrrelevant(x, r.allowedValues.value);
  }

  /** The number of element bound violations among the first `n` elements. */
  function Violations(name: string, r: ValueRule, vs: seq<Value>, n: nat): nat
    requires n <= |vs|
  {
    if n == 0 then 0
    else Violations(name, r, vs, n - 1) + |ElementErrors(name, r, vs[n - 1])|
  }

  /** Each array element below `min` or above `max` gets its own error; the array gets one
      more per violated size bound, and nothing else. */
  lemma {:induction false} ArrayErrorsCounted(name: string, r: ValueRule, vs: seq<Value>, n: nat)
    requires n <= |vs|
    ensures |ConcatMap(vs[..n], ElementCheck(name, r))| == Violations(name, r, vs, n)
    ensures forall i | 0 <= i < n ::
      |ElementErrors(name, r, vs[i])| ==
        (if ScalarNumber(vs[i]).Some? && Below(ScalarNumber(vs[i]).value, r.min) then 1 else 0)
        + (if ScalarNumber(vs[i]).Some? && Above(ScalarNumber(vs[i]).value, r.max) then 1 else 0)
  {
    if n > 0 {
      ArrayErrorsCounted(name, r, vs, n - 1);
      ConcatMapNext(vs, ElementCheck(name, r), n - 1);
    }
  }

  /** Warning thresholds and the consistency check never produce errors, so they never
      change `passed`. */
  lemma WarningsNeverErr(name: string, v: Value, r: ValueRule, warningMin: Option<Number>, warningMax: Option<Number>, check: Option<string>)
    ensures RuleErrors(name, v, r.(warningMin := warningMin, warningMax := warningMax, consistencyCheck := check)) == RuleErrors(name, v, r)
  {
    var r' := r.(warningMin := warningMin, warningMax := warningMax, consistencyCheck := check);
    match v {
      case NoneValue =>
      case ListVal(vs) =>
        SameElementErrors(name, r, r', vs);
        SameSizeErrors(name, vs, r, r');
      case _ =>
        match ScalarNumber(v) {
          case None =>
          case Some(x) =>
            ScalarIssues(name, v, x, r);
            ScalarIssues(name, v, x, r');
            SameScalarErrors(name, x, r, r');
        }
    }
  }

  lemma SameScalarErrors(name: string, x: Number, r: ValueRule, r': ValueRule)
    requires r.min == r'.min && r.max == r'.max && r.allowedValues == r'.allowedValues
    ensures ScalarErrors(name, x, r) == ScalarErrors(name, x, r')
  {
  }

  lemma SameSizeErrors(name: string, vs: seq<Value>, r: ValueRule, r': ValueRule)
    requires r.arrayMinSize == r'.arrayMinSize && r.arrayMaxSize == r'.arrayMaxSize
    requires ConcatMap(vs, ElementCheck(name, r)) == ConcatMap(vs, ElementCheck(name, r'))
    ensures RuleErrors(name, ListVal(vs), r) == RuleErrors(name, ListVal(vs), r')
  {
  }

  /** Two rules with the same bounds give every element the same errors. */
  lemma {:induction false} SameElementErrors(name: string, r: ValueRule, r': ValueRule, vs: seq<Value>)
    requires r.min == r'.min && r.max == r'.max
    ensures ConcatMap(vs, ElementCheck(name, r)) == ConcatMap(vs, ElementCheck(name, r'))
    decreases |vs|
  {
    if vs != [] {
      SameElementErrors(name, r, r', vs[..|vs| - 1]);
    }
  }

  // ---------------------------------------------------------------------------------------
  // validate
  // ---------------------------------------------------------------------------------------

  function ErrorsOf(name: string, v: Value): ValueRule -> seq<ValidationIssue> {
    r => RuleErrors(name, v, r)
  }

  function WarningsOf(name: string, v: Value): ValueRule -> seq<ValidationIssue> {
    r => RuleWarnings(name, v, r)
  }

  /** Every setting's issues under each of its indexed rules, in setting order. */
  function SettingErrors(index: Index, settings: Dict<string, Value>): string -> seq<ValidationIssue> {
    k => ConcatMap(GetOr(index, k, []), ErrorsOf(k, GetOr(settings, k, NoneValue)))
  }

  function SettingWarnings(index: Index, settings: Dict<string, Value>): string -> seq<ValidationIssue> {
    k => ConcatMap(GetOr(index, k, []), WarningsOf(k, GetOr(settings, k, NoneValue)))
  }

  function ValidationErrors(index: Index, settings: Dict<string, Value>): seq<ValidationIssue> {
    ConcatMap(settings.keys, SettingErrors(index, settings))
  }

  function ValidationWarnings(index: Index, settings: Dict<string, Value>): seq<ValidationIssue> {
    ConcatMap(settings.keys, SettingWarnings(index, settings))
  }

  /** What the loop of `validate` adds for the `i`-th setting: nothing when it has no rules. */
  lemma SettingStep(index: Index, settings: Dict<string, Value>, i: nat)
    requires i < |settings.keys|
    ensures var k := settings.keys[i];
      && k in settings.values
      && SettingErrors(index, settings)(k) == (if Has(index, k) then ConcatMap(index.values[k], ErrorsOf(k, settings.values[k])) else [])
      && SettingWarnings(index, settings)(k) == (if Has(index, k) then ConcatMap(index.values[k], WarningsOf(k, settings.values[k])) else [])
  {
    assert settings.keys[i] in settings.keys;
  }

  /** Every issue is about one given setting that has rules: settings absent from the index
      produce no issues. */
  lemma IssuesAreAboutIndexedSettings(index: Index, settings: Dict<string, Value>, x: ValidationIssue)
    requires x in ValidationErrors(index, settings) + ValidationWarnings(index, settings)
    ensures exists k | k in settings.keys :: Has(index, k) && x.affectedFeatures == [k]
  {
    ConcatMapMember(settings.keys, SettingErrors(index, settings), x);
    ConcatMapMember(settings.keys, SettingWarnings(index, settings), x);
    var i :| 0 <= i < |settings.keys| && (x in SettingErrors(index, settings)(settings.keys[i]) || x in SettingWarnings(index, settings)(settings.keys[i]));
    SettingIssuesAbout(index, settings.keys[i], GetOr(settings, settings.keys[i], NoneValue), x);
  }

  lemma SettingIssuesAbout(index: Index, k: string, v: Value, x: ValidationIssue)
    requires x in ConcatMap(GetOr(index, k, []), ErrorsOf(k, v)) + ConcatMap(GetOr(index, k, []), WarningsOf(k, v))
    ensures Has(index, k) && x.affectedFeatures == [k]
  {
    var rules := GetOr(index, k, []);
    ConcatMapMember(rules, ErrorsOf(k, v), x);
    ConcatMapMember(rules, WarningsOf(k, v), x);
    var j :| 0 <= j < |rules| && (x in RuleErrors(k, v, rules[j]) || x in RuleWarnings(k, v, rules[j]));
    AboutTheSetting(k, v, rules[j], x);
  }

  /** Every issue a rule gives a setting names just that setting. */
  lemma AboutTheSetting(name: string, v: Value, r: ValueRule, x: ValidationIssue)
    requires x in RuleErrors(name, v, r) + RuleWarnings(name, v, r)
    ensures x.affectedFeatures == [name]
  {
    match v
    case ListVal(vs) => ArrayIssuesAbout(name, vs, r, x);
    case _ =>
      match ScalarNumber(v) {
        case Some(x) => ScalarSeverities(name, x, r);
        case None =>
      }
  }

  lemma ArrayIssuesAbout(name: string, vs: seq<Value>, r: ValueRule, x: ValidationIssue)
    requires x in ArrayErrors(name, vs, r) + ArrayWarnings(name, vs, r)
    ensures x.affectedFeatures == [name]
  {
    if x in ConcatMap(vs, ElementCheck(name, r)) {
      ConcatMapMember(vs, ElementCheck(name, r), x);
    } else if x in ArrayWarnings(name, vs, r) {
      AscendingWarningsCounted(name, r, vs, Pairs(vs));
    }
  }

  // ---------------------------------------------------------------------------------------
  // get_setting_constraints
  // ---------------------------------------------------------------------------------------

  datatype Range = Range(min: Option<Number>, max: Option<Number>, unit: Option<string>)

  /** The merged constraints: `has_range` is `range.Some?`, `has_allowed_values` is
      `allowedValues.Some?`. */
  datatype Constraints = Constraints(rules: seq<ValueRule>, range: Option<Range>, allowedValues: Option<seq<Value>>)

  /** The range of the last of the first `n` rules that has a `min` or a `max`. */
  function LastRange(rules: seq<ValueRule>, n: nat): (g: Option<Range>)
    requires n <= |rules|
    ensures g.None? <==> forall i | 0 <= i < n :: rules[i].min.None? && rules[i].max.None?
    ensures g.Some? ==> exists i | 0 <= i < n ::
      && (rules[i].min.Some? || rules[i].max.Some?)
      && g.value == Range(rules[i].min, rules[i].max, rules[i].unit)
      && forall j | i < j < n :: rules[j].min.None? && rules[j].max.None?
    decreases n
  {
    if n == 0 then None
    else if rules[n - 1].min.Some? || rules[n - 1].max.Some? then Some(Range(rules[n - 1].min, rules[n - 1].max, rules[n - 1].unit))
    else LastRange(rules, n - 1)
  }

  /** The `allowed_values` of the last of the first `n` rules that has them. */
  function LastAllowed(rules: seq<ValueRule>, n: nat): (g: Option<seq<Value>>)
    requires n <= |rules|
    ensures g.None? <==> forall i | 0 <= i < n :: rules[i].allowedValues.None?
    ensures g.Some? ==> exists i | 0 <= i < n ::
      && rules[i].allowedValues == g
      && forall j | i < j < n :: rules[j].allowedValues.None?
    decreases n
  {
    if n == 0 then None
    else if rules[n - 1].allowedValues.Some? then rules[n - 1].allowedValues
    else LastAllowed(rules, n - 1)
  }

  lemma LastNext(rules: seq<ValueRule>, i: nat)
    requires i < |rules|
    ensures LastRange(rules, i + 1) == if rules[i].min.Some? || rules[i].max.Some? then Some(Range(rules[i].min, rules[i].max, rules[i].unit)) else LastRange(rules, i)
    ensures LastAllowed(rules, i + 1) == if rules[i].allowedValues.Some? then rules[i].allowedValues else LastAllowed(rules, i)
  {
  }

  function ConstraintsOf(index: Index, name: string): Option<Constraints> {
    if !Has(index, name) then None
    else
      var rules := index.values[name];
      Some(Constraints(rules, LastRange(rules, |rules|), LastAllowed(rules, |rules|)))
  }

  // ---------------------------------------------------------------------------------------
  // The validator object
  // ---------------------------------------------------------------------------------------

  class ValueValidator {
    /** The values file, as loaded: its top-level keys in order, with their values. */
    const rules: seq<(string, RuleGroup)>
    /** `_setting_rules` */
    var settingRules: Index

    constructor (rules: seq<(string, RuleGroup)>)
      ensures this.rules == rules && settingRules == IndexOf(rules)
    {
      this.rules := rules;
      settingRules := Empty();
      new;
      BuildSettingIndex();
    }

    /** `_build_setting_index` */
    method BuildSettingIndex()
      modifies this
      ensures settingRules == AddAll(old(settingRules), Entries(rules))
    {
      var d := settingRules;
      var i := 0;
      while i < |rules|
        invariant 0 <= i <= |rules|
        invariant d == AddAll(old(settingRules), ConcatMap(rules[..i], CategoryEntries))
      {
        ConcatMapNext(rules, CategoryEntries, i);
        AddAllAppend(old(settingRules), ConcatMap(rules[..i], CategoryEntries), CategoryEntries(rules[i]));
        var (category, group) := rules[i];
        if group.RuleList? {
          d := IndexCategory(d, category, group.rules);
        }
        i := i + 1;
      }
      assert rules[..i] == rules;
      settingRules := d;
    }

    /** `validate`: each setting with indexed rules, against each of them, in order. */
    method Validate(settings: Dict<string, Value>) returns (result: ValidationResult)
      ensures fresh(result)
      ensures result.errors == ValidationErrors(settingRules, settings)
      ensures result.warnings == ValidationWarnings(settingRules, settings)
      ensures result.passed == (result.errors == [])
      ensures result.info == [] && result.autoFixes == []
    {
      result := new ValidationResult(true);
      var i := 0;
      while i < |settings.keys|
        invariant 0 <= i <= |settings.keys|
        invariant result.errors == ConcatMap(settings.keys[..i], SettingErrors(settingRules, settings))
        invariant result.warnings == ConcatMap(settings.keys[..i], SettingWarnings(settingRules, settings))
        invariant result.passed == (result.errors == [])
        invariant result.info == [] && result.autoFixes == []
      {
        ConcatMapNext(settings.keys, SettingErrors(settingRules, settings), i);
        ConcatMapNext(settings.keys, SettingWarnings(settingRules, settings), i);
        ValidateEntry(settings, i, result);
        i := i + 1;
      }
      assert settings.keys[..i] == settings.keys;
    }

    /** One turn of the loop of `validate`: the `i`-th setting, when it has rules. */
    method ValidateEntry(settings: Dict<string, Value>, i: nat, result: ValidationResult)
      requires i < |settings.keys|
      modifies result
      ensures result.errors == old(result.errors) + SettingErrors(settingRules, settings)(settings.keys[i])
      ensures result.warnings == old(result.warnings) + SettingWarnings(settingRules, settings)(settings.keys[i])
      ensures result.passed == (old(result.passed) && SettingErrors(settingRules, settings)(settings.keys[i]) == [])
      ensures result.info == old(result.info) && result.autoFixes == old(result.autoFixes)
    {
      SettingStep(settingRules, settings, i);
      var name := settings.keys[i];
      if Has(settingRules, name) {
        ValidateAgainstAll(name, settings.values[name], settingRules.values[name], result);
      }
    }

    /** The inner loop of `validate`: one setting against each of its rules. */
    method ValidateAgainstAll(name: string, value: Value, rules: seq<ValueRule>, result: ValidationResult)
      modifies result
      ensures result.errors == old(result.errors) + ConcatMap(rules, ErrorsOf(name, value))
      ensures result.warnings == old(result.warnings) + ConcatMap(rules, WarningsOf(name, value))
      ensures result.passed == (old(result.passed) && ConcatMap(rules, ErrorsOf(name, value)) == [])
      ensures result.info == old(result.info) && result.autoFixes == old(result.autoFixes)
    {
      var j := 0;
      while j < |rules|
        invariant 0 <= j <= |rules|
        invariant result.errors == old(result.errors) + ConcatMap(rules[..j], ErrorsOf(name, value))
        invariant result.warnings == old(result.warnings) + ConcatMap(rules[..j], WarningsOf(name, value))
        invariant result.passed == (old(result.passed) && ConcatMap(rules[..j], ErrorsOf(name, value)) == [])
        invariant result.info == old(result.info) && result.autoFixes == old(result.autoFixes)
      {
        ConcatMapAfter(old(result.errors), rules, ErrorsOf(name, value), j);
        ConcatMapAfter(old(result.warnings), rules, WarningsOf(name, value), j);
        ValidateRule(name, value, rules[j], result);
        j := j + 1;
      }
      assert rules[..j] == rules;
    }

    /** One turn of the inner loop of `validate`, stated through the loop's own filters. */
    method ValidateRule(name: string, value: Value, rule: ValueRule, result: ValidationResult)
      modifies result
      ensures result.errors == old(result.errors) + ErrorsOf(name, value)(rule)
      ensures result.warnings == old(result.warnings) + WarningsOf(name, value)(rule)
      ensures result.passed == (old(result.passed) && ErrorsOf(name, value)(rule) == [])
      ensures result.info == old(result.info) && result.autoFixes == old(result.autoFixes)
    {
      ValidateSetting(name, value, rule, result);
    }

    /** `_validate_setting` */
    method ValidateSetting(name: string, value: Value, rule: ValueRule, result: ValidationResult)
      modifies result
      ensures result.errors == old(result.errors) + RuleErrors(name, value, rule)
      ensures result.warnings == old(result.warnings) + RuleWarnings(name, value, rule)
      ensures result.passed == (old(result.passed) && RuleErrors(name, value, rule) == [])
      ensures result.info == old(result.info) && result.autoFixes == old(result.autoFixes)
    {
      if value.ListVal? {
        ArrayIssues(name, value.items, rule);
        ValidateArray(name, value.items, rule, result);
      } else if !value.NoneValue? {
        var number := ScalarNumber(value);
        if number.Some? {
          ScalarIssues(name, value, number.value, rule);
          CheckScalar(name, number.value, rule, result);
        }
      }
    }

    /** The numeric checks of `_validate_setting` on a converted scalar. */
    method CheckScalar(name: string, x: Number, rule: ValueRule, result: ValidationResult)
      modifies result
      ensures result.errors == old(result.errors) + ScalarErrors(name, x, rule)
      ensures result.warnings == old(result.warnings) + ScalarWarnings(name, x, rule)
      ensures result.passed == (old(result.passed) && ScalarErrors(name, x, rule) == [])
      ensures result.info == old(result.info) && result.autoFixes == old(result.autoFixes)
    {
      CheckRange(name, x, rule, result);
      if rule.warningMin.Some? && ToReal(x) < ToReal(rule.warningMin.value) {
        result.warnings := result.warnings + [Issue(Warning, ValueRange, name, WarningHint(rule))];
      }
      if rule.warningMax.Some? && ToReal(x) > ToReal(rule.warningMax.value) {
        result.warnings := result.warnings + [Issue(Warning, ValueRange, name, WarningHint(rule))];
      }
      assert result.warnings == old(result.warnings) + ScalarWarnings(name, x, rule);
      if rule.allowedValues.Some? {
        var n := Normalize(x);
        if !IsAllowed(n, rule.allowedValues.value) {
          result.errors := result.errors + [Issue(Error, AllowedValues, name, Composed)];
          result.passed := false;
        }
      }
    }

    /** The `min` and `max` tests, shared by scalars and array elements. */
    method CheckRange(name: string, x: Number, rule: ValueRule, result: ValidationResult)
      modifies result
      ensures result.errors == old(result.errors) + RangeErrors(name, x, rule)
      ensures result.passed == (old(result.passed) && RangeErrors(name, x, rule) == [])
      ensures result.warnings == old(result.warnings)
      ensures result.info == old(result.info) && result.autoFixes == old(result.autoFixes)
    {
      if rule.min.Some? && ToReal(x) < ToReal(rule.min.value) {
        result.errors := result.errors + [Issue(Error, ValueRange, name, Composed)];
        result.passed := false;
      }
      if rule.max.Some? && ToReal(x) > ToReal(rule.max.value) {
        result.errors := result.errors + [Issue(Error, ValueRange, name, Composed)];
        result.passed := false;
      }
    }

    /** `_validate_array` */
    method ValidateArray(name: string, vs: seq<Value>, rule: ValueRule, result: ValidationResult)
      modifies result
      ensures result.errors == old(result.errors) + ArrayErrors(name, vs, rule)
      ensures result.warnings == old(result.warnings) + ArrayWarnings(name, vs, rule)
      ensures result.passed == (old(result.passed) && ArrayErrors(name, vs, rule) == [])
      ensures result.info == old(result.info) && result.autoFixes == old(result.autoFixes)
    {
      CheckSize(name, |vs|, rule, result);
      if rule.consistencyCheck == Some(ASCENDING) {
        CheckAscending(name, vs, rule, result);
      }
      CheckElements(name, vs, rule, result);
      AppendAssoc(old(result.errors), SizeErrors(name, |vs|, rule), ConcatMap(vs, ElementCheck(name, rule)));
    }

    /** The size tests of `_validate_array`. */
    method CheckSize(name: string, n: nat, rule: ValueRule, result: ValidationResult)
      modifies result
      ensures result.errors == old(result.errors) + SizeErrors(name, n, rule)
      ensures result.passed == (old(result.passed) && SizeErrors(name, n, rule) == [])
      ensures result.warnings == old(result.warnings)
      ensures result.info == old(result.info) && result.autoFixes == old(result.autoFixes)
    {
      if rule.arrayMinSize.Some? && n < rule.arrayMinSize.value {
        result.errors := result.errors + [Issue(Error, ArraySize, name, Composed)];
        result.passed := false;
      }
      if rule.arrayMaxSize.Some? && n > rule.arrayMaxSize.value {
        result.errors := result.errors + [Issue(Error, ArraySize, name, Composed)];
        result.passed := false;
      }
    }

    /** The ascending-order loop of `_validate_array`. */
    method CheckAscending(name: string, vs: seq<Value>, rule: ValueRule, result: ValidationResult)
      modifies result
      ensures result.warnings == old(result.warnings) + AscendingWarnings(name, rule, vs, Pairs(vs))
      ensures result.errors == old(result.errors) && result.passed == old(result.passed)
      ensures result.info == old(result.info) && result.autoFixes == old(result.autoFixes)
    {
      var i := 0;
      while i < Pairs(vs)
        invariant 0 <= i <= Pairs(vs)
        invariant result.warnings == old(result.warnings) + AscendingWarnings(name, rule, vs, i)
        invariant result.errors == old(result.errors) && result.passed == old(result.passed)
        invariant result.info == old(result.info) && result.autoFixes == old(result.autoFixes)
      {
        var a, b := ScalarNumber(vs[i]), ScalarNumber(vs[i + 1]);
        if a.Some? && b.Some? && ToReal(a.value) >= ToReal(b.value) {
          result.warnings := result.warnings + [Issue(Warning, ArrayConsistency, name, ConsistencyHint(rule))];
        }
        i := i + 1;
      }
    }

    /** The per-element loop of `_validate_array`. */
    method CheckElements(name: string, vs: seq<Value>, rule: ValueRule, result: ValidationResult)
      modifies result
      ensures result.errors == old(result.errors) + ConcatMap(vs, ElementCheck(name, rule))
      ensures result.passed == (old(result.passed) && ConcatMap(vs, ElementCheck(name, rule)) == [])
      ensures result.warnings == old(result.warnings)
      ensures result.info == old(result.info) && result.autoFixes == old(result.autoFixes)
    {
      var i := 0;
      while i < |vs|
        invariant 0 <= i <= |vs|
        invariant result.errors == old(result.errors) + ConcatMap(vs[..i], ElementCheck(name, rule))
        invariant result.passed == (old(result.passed) && ConcatMap(vs[..i], ElementCheck(name, rule)) == [])
        invariant result.warnings == old(result.warnings)
        invariant result.info == old(result.info) && result.autoFixes == old(result.autoFixes)
      {
        ConcatMapAfter(old(result.errors), vs, ElementCheck(name, rule), i);
        var number := ScalarNumber(vs[i]);
        if number.Some? {
          CheckRange(name, number.value, rule, result);
        }
        i := i + 1;
      }
      assert vs[..i] == vs;
    }

    /** `get_setting_constraints` */
    method GetSettingConstraints(name: string) returns (c: Option<Constraints>)
      ensures c == ConstraintsOf(settingRules, name)
    {
      if !Has(settingRules, name) {
        return None;
      }
      var rules := settingRules.values[name];
      var range: Option<Range> := None;
      var allowed: Option<seq<Value>> := None;
      var i := 0;
      while i < |rules|
        invariant 0 <= i <= |rules|
        invariant range == LastRange(rules, i) && allowed == LastAllowed(rules, i)
      {
        LastNext(rules, i);
        var rule := rules[i];
        if rule.min.Some? || rule.max.Some? {
          range := Some(Range(rule.min, rule.max, rule.unit));
        }
        if rule.allowedValues.Some? {
          allowed := rule.allowedValues;
        }
        i := i + 1;
      }
      c := Some(Constraints(rules, range, allowed));
    }
  }
}
