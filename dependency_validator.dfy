/** The dependency rule engine: four families of rules (mutual exclusivity, required
    dependencies, auto-enablement, conditional disable) are evaluated in that order against
    the union of the active features and options, filling one validation result with error,
    warning and info issues and a list of features to enable automatically. The issue and
    result types here are shared by the value and pin validators. */
module Dependencies {
  import opened Wrappers
  import opened Strings
  import opened Seqs

  // ---------------------------------------------------------------------------------------
  // Issues and results
  // ---------------------------------------------------------------------------------------

  datatype Severity = Error | Warning | Info

  /** `rule_type`, for every validator. */
  datatype RuleType =
    | MutualExclusivity | RequiredDependency | ConflictRule | AutoEnablement | ConditionalDisable
    | ValueRange | AllowedValues | ArraySize | ArrayConsistency
    | BoardValidation | PinCapability | PinConflict | ReservedPin | PinRange

  /** An issue text: one taken verbatim from a rule table, or one the validator formats from
      names and numbers (its wording is not modelled). */
  datatype Message = RuleText(text: string) | Composed

  datatype ValidationIssue = ValidationIssue(
    severity: Severity,
    ruleType: RuleType,
    message: Message,
    affectedFeatures: seq<string>,
    suggestion: Option<Message>,
    autoFixable: bool)

  /** The result every validator fills in place. */
  class ValidationResult {
    var passed: bool
    var errors: seq<ValidationIssue>
    var warnings: seq<ValidationIssue>
    var info: seq<ValidationIssue>
    /** Features to enable automatically. */
    var autoFixes: seq<string>

    constructor (passed: bool)
      ensures this.passed == passed && errors == [] && warnings == [] && info == [] && autoFixes == []
    {
      this.passed := passed;
      errors, warnings, info, autoFixes := [], [], [], [];
    }

    /** `total_issues` */
    function TotalIssues(): (r: nat)
      reads this
      ensures r == |errors| + |warnings| + |info|
      ensures r == 0 <==> errors == [] && warnings == [] && info == []
    {
      |errors| + |warnings| + |info|
    }
  }

  // ---------------------------------------------------------------------------------------
  // Rule tables
  // ---------------------------------------------------------------------------------------

  /** A `mutual_exclusivity` entry; `max_count` and `min_count` default to 1 and 0. */
  datatype ExclusivityRule = ExclusivityRule(
    group: string,
    features: seq<string>,
    maxCount: Option<int>,
    minCount: Option<int>,
    when: Option<string>,
    errorMessage: string)

  /** A `required_dependencies` entry; each of the three lists may be absent. */
  datatype DependencyRule = DependencyRule(
    feature: string,
    required: Option<seq<string>>,
    requiredAny: Option<seq<string>>,
    conflictsWith: Option<seq<string>>,
    errorMessage: string)

  /** The `trigger` of an auto-enablement rule: absent, one name, or a list. */
  datatype Trigger = NoTrigger | Single(name: string) | AnyOf(names: seq<string>)

  datatype AutoEnableRule = AutoEnableRule(
    trigger: Trigger,
    triggerAny: Option<seq<string>>,
    autoEnable: seq<string>,
    message: string)

  datatype DisableRule = DisableRule(
    feature: string,
    required: Option<seq<string>>,
    message: string)

  /** The loaded rules file; a family missing from it is an empty list. */
  datatype RuleSet = RuleSet(
    exclusivity: seq<ExclusivityRule>,
    dependencies: seq<DependencyRule>,
    autoEnablement: seq<AutoEnableRule>,
    conditionalDisable: seq<DisableRule>)

  // ---------------------------------------------------------------------------------------
  // What each rule contributes
  // ---------------------------------------------------------------------------------------

  function InSet(active: set<string>): string -> bool {
    x => x in active
  }

  function NotIn(active: set<string>): string -> bool {
    x => x !in active
  }

  /** `[r for r in names if r not in active]` */
  function Missing(names: seq<string>, active: set<string>): (r: seq<string>)
    ensures forall x :: x in r <==> x in names && x !in active
  {
    Filter(names, NotIn(active))
  }

  /** `[f for f in names if f in active]` */
  function Present(names: seq<string>, active: set<string>): (r: seq<string>)
    ensures forall x :: x in r <==> x in names && x in active
  {
    Filter(names, InSet(active))
  }

  function MaxCount(r: ExclusivityRule): int {
    r.maxCount.GetOr(1)
  }

  function MinCount(r: ExclusivityRule): int {
    r.minCount.GetOr(0)
  }

  /** The rule is checked unless it has a non-empty `when` symbol that is inactive. */
  predicate Applies(r: ExclusivityRule, active: set<string>) {
    r.when.None? || r.when.value == [] || r.when.value in active
  }

  function ExclusivityIssues(r: ExclusivityRule, active: set<string>): seq<ValidationIssue> {
    if !Applies(r, active) then []
    else
      var members := Present(r.features, active);
      (if |members| > MaxCount(r) then [ValidationIssue(Error, MutualExclusivity, RuleText(r.errorMessage), members, Some(Composed), false)] else [])
      + (if |members| < MinCount(r) then [ValidationIssue(Error, MutualExclusivity, RuleText(r.errorMessage), r.features, Some(Composed), false)] else [])
  }

  /** The errors of one required-dependency rule, in the order the three checks run. */
  function DependencyIssues(r: DependencyRule, active: set<string>): seq<ValidationIssue> {
    if r.feature !in active then []
    else
      var missing := if r.required.Some? then Missing(r.required.value, active) else [];
      var conflicting := if r.conflictsWith.Some? then Present(r.conflictsWith.value, active) else [];
      (if missing != [] then [ValidationIssue(Error, RequiredDependency, RuleText(r.errorMessage), [r.feature] + missing, Some(Composed), true)] else [])
      + (if r.requiredAny.Some? && Present(r.requiredAny.value, active) == [] then
           [ValidationIssue(Error, RequiredDependency, RuleText(r.errorMessage), [r.feature] + r.requiredAny.value, Some(Composed), false)]
         else [])
      + (if conflicting != [] then [ValidationIssue(Error, ConflictRule, RuleText(r.errorMessage), [r.feature] + conflicting, Some(Composed), true)] else [])
  }

  /** The names one required-dependency rule adds to `auto_fixes`. */
  function DependencyFixes(r: DependencyRule, active: set<string>): seq<string> {
    if r.feature in active && r.required.Some? then Missing(r.required.value, active) else []
  }

  /** Whether the rule fires: `trigger_any` when present, else `trigger` (any of a list). */
  predicate ShouldEnable(r: AutoEnableRule, active: set<string>) {
    if r.triggerAny.Some? then exists t | t in r.triggerAny.value :: t in active
    else
      match r.trigger
      case NoTrigger => false
      case Single(t) => t in active
      case AnyOf(ts) => exists t | t in ts :: t in active
  }

  function AutoEnableIssues(r: AutoEnableRule, active: set<string>): seq<ValidationIssue> {
    var missing := Missing(r.autoEnable, active);
    if ShouldEnable(r, active) && missing != [] then
      [ValidationIssue(Info, AutoEnablement, RuleText(r.message), missing, Some(Composed), true)]
    else []
  }

  function AutoEnableFixes(r: AutoEnableRule, active: set<string>): seq<string> {
    if ShouldEnable(r, active) then Missing(r.autoEnable, active) else []
  }

  function DisableIssues(r: DisableRule, active: set<string>): seq<ValidationIssue> {
    if r.feature in active && r.required.Some? && Missing(r.required.value, active) != [] then
      [ValidationIssue(Warning, ConditionalDisable, RuleText(r.message), [r.feature] + Missing(r.required.value, active), Some(Composed), false)]
    else []
  }

  // The per-rule functions as values, for the concatenations below.

  function ExclusivityCheck(active: set<string>): ExclusivityRule -> seq<ValidationIssue> {
    r => ExclusivityIssues(r, active)
  }

  function DependencyCheck(active: set<string>): DependencyRule -> seq<ValidationIssue> {
    r => DependencyIssues(r, active)
  }

  function DependencyFix(active: set<string>): DependencyRule -> seq<string> {
    r => DependencyFixes(r, active)
  }

  function AutoEnableCheck(active: set<string>): AutoEnableRule -> seq<ValidationIssue> {
    r => AutoEnableIssues(r, active)
  }

  function AutoEnableFix(active: set<string>): AutoEnableRule -> seq<string> {
    r => AutoEnableFixes(r, active)
  }

  function DisableCheck(active: set<string>): DisableRule -> seq<ValidationIssue> {
    r => DisableIssues(r, active)
  }

  // ---------------------------------------------------------------------------------------
  // The whole validation
  // ---------------------------------------------------------------------------------------

  /** What `validate` reports for an active set: `passed` and the four lists. */
  datatype Report = Report(
    passed: bool,
    errors: seq<ValidationIssue>,
    warnings: seq<ValidationIssue>,
    info: seq<ValidationIssue>,
    autoFixes: seq<string>)

  function Validation(rules: RuleSet, active: set<string>): Report {
    var errors := ConcatMap(rules.exclusivity, ExclusivityCheck(active)) + ConcatMap(rules.dependencies, DependencyCheck(active));
    Report(
      errors == [],
      errors,
      ConcatMap(rules.conditionalDisable, DisableCheck(active)),
      ConcatMap(rules.autoEnablement, AutoEnableCheck(active)),
      ConcatMap(rules.dependencies, DependencyFix(active)) + ConcatMap(rules.autoEnablement, AutoEnableFix(active)))
  }

  // ---------------------------------------------------------------------------------------
  // Properties of the rule families
  // ---------------------------------------------------------------------------------------

  /** A mutual-exclusivity rule: nothing when gated off; otherwise one error when more members
      than `max_count` are active, naming just those in list order, and one when fewer than
      `min_count` are, naming the whole group. */
  lemma ExclusivityRuleIssues(r: ExclusivityRule, active: set<string>)
    ensures var issues := ExclusivityIssues(r, active);
      var members := Filter(r.features, InSet(active));
      && (!Applies(r, active) ==> issues == [])
      && (Applies(r, active) ==>
            && |issues| == (if |members| > MaxCount(r) then 1 else 0) + (if |members| < MinCount(r) then 1 else 0)
            && (|members| > MaxCount(r) ==> issues[0].affectedFeatures == members)
            && (|members| < MinCount(r) ==> issues[|issues| - 1].affectedFeatures == r.features))
      && (forall i | 0 <= i < |issues| :: issues[i].severity == Error && issues[i].ruleType == MutualExclusivity && !issues[i].autoFixable)
      && (forall x | x in members :: x in active && x in r.features)
  {
  }

  /** A required-dependency rule whose subject is inactive contributes nothing. */
  lemma InactiveSubjectSkipped(r: DependencyRule, active: set<string>)
    requires r.feature !in active
    ensures DependencyIssues(r, active) == [] && DependencyFixes(r, active) == []
  {
  }

  /** For an active subject: missing `requires` give one auto-fixable error naming the subject
      and the missing names, which are also the rule's only auto-fixes; `requires_any` with
      none active gives an error that is not auto-fixable; active `conflicts_with` names give
      an auto-fixable `conflict` error that adds no auto-fix. */
  lemma DependencyRuleIssues(r: DependencyRule, active: set<string>)
    requires r.feature in active
    ensures var issues := DependencyIssues(r, active);
      var missing := if r.required.Some? then Missing(r.required.value, active) else [];
      var none := r.requiredAny.Some? && Present(r.requiredAny.value, active) == [];
      var conflicting := if r.conflictsWith.Some? then Present(r.conflictsWith.value, active) else [];
      && |issues| == (if missing != [] then 1 else 0) + (if none then 1 else 0) + (if conflicting != [] then 1 else 0)
      && (forall i | 0 <= i < |issues| :: issues[i].severity == Error)
      && (missing != [] ==> issues[0] == ValidationIssue(Error, RequiredDependency, RuleText(r.errorMessage), [r.feature] + missing, Some(Composed), true))
      && (none ==> exists i | 0 <= i < |issues| :: issues[i].ruleType == RequiredDependency && !issues[i].autoFixable && issues[i].affectedFeatures == [r.feature] + r.requiredAny.value)
      && (conflicting != [] ==> issues[|issues| - 1] == ValidationIssue(Error, ConflictRule, RuleText(r.errorMessage), [r.feature] + conflicting, Some(Composed), true))
      && DependencyFixes(r, active) == missing
  {
    var missing := if r.required.Some? then Missing(r.required.value, active) else [];
    var none := r.requiredAny.Some? && Present(r.requiredAny.value, active) == [];
    var issues := DependencyIssues(r, active);
    if none {
      var i := if missing != [] then 1 else 0;
      assert issues[i].ruleType == RequiredDependency && !issues[i].autoFixable;
    }
  }

  /** `trigger_any` overrides `trigger`; a list-valued `trigger` means any of its names. */
  lemma TriggerAnyOverrides(r: AutoEnableRule, active: set<string>)
    ensures r.triggerAny.Some? ==> ShouldEnable(r, active) == ShouldEnable(r.(trigger := NoTrigger), active)
    ensures r.triggerAny.None? && r.trigger.AnyOf? ==> ShouldEnable(r, active) == (Present(r.trigger.names, active) != [])
  {
    AnyActive(r.trigger, r.triggerAny, active);
  }

  /** A firing auto-enablement rule adds one info issue naming the inactive companions and
      appends exactly those to the auto-fixes; it never produces an error or a warning. */
  lemma AutoEnableRuleIssues(r: AutoEnableRule, active: set<string>)
    ensures var issues := AutoEnableIssues(r, active);
      var missing := Missing(r.autoEnable, active);
      && (issues != [] <==> ShouldEnable(r, active) && missing != [])
      && (forall i | 0 <= i < |issues| :: issues[i].severity == Info && issues[i].autoFixable && issues[i].affectedFeatures == missing)
      && AutoEnableFixes(r, active) == (if ShouldEnable(r, active) then missing else [])
  {
  }

  /** A conditional-disable rule only ever adds a warning, never auto-fixable, and never an
      auto-fix. */
  lemma DisableRuleIssues(r: DisableRule, active: set<string>)
    ensures var issues := DisableIssues(r, active);
      && (issues != [] <==> r.feature in active && r.required.Some? && Missing(r.required.value, active) != [])
      && (forall i | 0 <= i < |issues| :: issues[i].severity == Warning && !issues[i].autoFixable
            && issues[i].affectedFeatures == [r.feature] + Missing(r.required.value, active))
  {
  }

  /** `passed` holds exactly when there are no errors, so auto-enablement and
      conditional-disable rules, which add only info issues and warnings, never change it. */
  lemma PassedIgnoresInfoAndWarnings(rules: RuleSet, other: RuleSet, active: set<string>)
    requires other.exclusivity == rules.exclusivity && other.dependencies == rules.dependencies
    ensures Validation(rules, active).passed == Validation(other, active).passed
    ensures Validation(rules, active).passed <==> Validation(rules, active).errors == []
  {
  }

  /** Every issue lands in the list of its severity. */
  lemma SeveritiesSorted(rules: RuleSet, active: set<string>)
    ensures var v := Validation(rules, active);
      && (forall x | x in v.errors :: x.severity == Error)
      && (forall x | x in v.warnings :: x.severity == Warning)
      && (forall x | x in v.info :: x.severity == Info)
  {
    var v := Validation(rules, active);
    forall x | x in v.errors
      ensures x.severity == Error
    {
      ConcatMapMember(rules.exclusivity, ExclusivityCheck(active), x);
      ConcatMapMember(rules.dependencies, DependencyCheck(active), x);
      if x in ConcatMap(rules.exclusivity, ExclusivityCheck(active)) {
        var i :| 0 <= i < |rules.exclusivity| && x in ExclusivityIssues(rules.exclusivity[i], active);
        ExclusivityRuleIssues(rules.exclusivity[i], active);
      } else {
        var i :| 0 <= i < |rules.dependencies| && x in DependencyIssues(rules.dependencies[i], active);
        if rules.dependencies[i].feature in active {
          DependencyRuleIssues(rules.dependencies[i], active);
        }
      }
    }
    forall x | x in v.warnings
      ensures x.severity == Warning
    {
      ConcatMapMember(rules.conditionalDisable, DisableCheck(active), x);
    }
    forall x | x in v.info
      ensures x.severity == Info
    {
      ConcatMapMember(rules.autoEnablement, AutoEnableCheck(active), x);
    }
  }

  /** Every auto-fix is an inactive name that some auto-fixable error or info issue names. */
  lemma FixesAreAnnounced(rules: RuleSet, active: set<string>, x: string)
    requires x in Validation(rules, active).autoFixes
    ensures x !in active
    ensures var v := Validation(rules, active);
      exists i | i in v.errors + v.info :: i.autoFixable && x in i.affectedFeatures
  {
    var v := Validation(rules, active);
    ConcatMapMember(rules.dependencies, DependencyFix(active), x);
    ConcatMapMember(rules.autoEnablement, AutoEnableFix(active), x);
    if x in ConcatMap(rules.dependencies, DependencyFix(active)) {
      var k :| 0 <= k < |rules.dependencies| && x in DependencyFixes(rules.dependencies[k], active);
      var r := rules.dependencies[k];
      DependencyRuleIssues(r, active);
      var issue := DependencyIssues(r, active)[0];
      assert issue in DependencyIssues(r, active);
      ConcatMapMember(rules.dependencies, DependencyCheck(active), issue);
      assert issue in v.errors;
      assert x in issue.affectedFeatures;
    } else {
      var k :| 0 <= k < |rules.autoEnablement| && x in AutoEnableFixes(rules.autoEnablement[k], active);
      var r := rules.autoEnablement[k];
      var issue := AutoEnableIssues(r, active)[0];
      assert issue in AutoEnableIssues(r, active);
      ConcatMapMember(rules.autoEnablement, AutoEnableCheck(active), issue);
      assert issue in v.info;
    }
  }

  // ---------------------------------------------------------------------------------------
  // explain_feature_requirements
  // ---------------------------------------------------------------------------------------

  /** `part_of_group` */
  datatype GroupInfo = GroupInfo(name: string, members: seq<string>, maxCount: int)

  datatype Explanation = Explanation(
    required: seq<string>,
    requiredAny: seq<string>,
    conflictsWith: seq<string>,
    autoEnables: seq<string>,
    partOfGroup: Option<GroupInfo>)

  /** The three lists a required-dependency rule about `feature` contributes. */
  function RequiresOf(feature: string): DependencyRule -> seq<string> {
    (r: DependencyRule) => if r.feature == feature then r.required.GetOr([]) else []
  }

  function RequiresAnyOf(feature: string): DependencyRule -> seq<string> {
    (r: DependencyRule) => if r.feature == feature then r.requiredAny.GetOr([]) else []
  }

  function ConflictsOf(feature: string): DependencyRule -> seq<string> {
    (r: DependencyRule) => if r.feature == feature then r.conflictsWith.GetOr([]) else []
  }

  /** The group of the last mutual-exclusivity rule among the first `n` that lists the
      feature. */
  function LastGroup(rules: seq<ExclusivityRule>, feature: string, n: nat): (g: Option<GroupInfo>)
    requires n <= |rules|
    ensures g.None? <==> forall i | 0 <= i < n :: feature !in rules[i].features
    ensures g.Some? ==> exists i | 0 <= i < n ::
      && feature in rules[i].features
      && g.value == GroupInfo(rules[i].group, rules[i].features, MaxCount(rules[i]))
      && forall j | i < j < n :: feature !in rules[j].features
    decreases n
  {
    if n == 0 then None
    else if feature in rules[n - 1].features then Some(GroupInfo(rules[n - 1].group, rules[n - 1].features, MaxCount(rules[n - 1])))
    else LastGroup(rules, feature, n - 1)
  }

  /** `feature in trigger or feature in trigger_any` as written: on a single-name trigger,
      Python's `in` is a substring test. */
  predicate ListedTriggerAsWritten(r: AutoEnableRule, feature: string) {
    (match r.trigger
     case NoTrigger => false
     case Single(t) => Contains(t, feature)
     case AnyOf(ts) => feature in ts)
    || (r.triggerAny.Some? && feature in r.triggerAny.value)
  }

  /** The same test with a single-name trigger compared as a name. */
  predicate ListedTrigger(r: AutoEnableRule, feature: string) {
    (match r.trigger
     case NoTrigger => false
     case Single(t) => t == feature
     case AnyOf(ts) => feature in ts)
    || (r.triggerAny.Some? && feature in r.triggerAny.value)
  }

  /** The substring test lists a rule under a feature that does not trigger it: a rule
      triggered by `FEATURE_MOON_TRACKING` is explained as an auto-enable of `FEATURE_MOON`,
      although activating `FEATURE_MOON` alone never fires it. */
  lemma SubstringTriggerListed()
    ensures var r := AutoEnableRule(Single("FEATURE_MOON_TRACKING"), None, ["FEATURE_CLOCK"], "");
      ListedTriggerAsWritten(r, "FEATURE_MOON") && !ShouldEnable(r, {"FEATURE_MOON"}) && !ListedTrigger(r, "FEATURE_MOON")
  {
    var t := "FEATURE_MOON_TRACKING";
    assert t[0..|"FEATURE_MOON"|] == "FEATURE_MOON";
    ContainsSegment(t, 0, "FEATURE_MOON");
  }

  /** With the name comparison, and no `trigger_any` override, a rule is listed exactly when
      activating the feature alone fires it. */
  lemma ListedMeansTriggers(r: AutoEnableRule, feature: string)
    requires r.triggerAny.None?
    ensures ListedTrigger(r, feature) <==> ShouldEnable(r, {feature})
  {
  }

  function AutoEnablesOf(feature: string): AutoEnableRule -> seq<string> {
    (r: AutoEnableRule) => if ListedTrigger(r, feature) then r.autoEnable else []
  }

  /** `explain_feature_requirements` */
  function Explain(rules: RuleSet, feature: string): Explanation {
    Explanation(
      ConcatMap(rules.dependencies, RequiresOf(feature)),
      ConcatMap(rules.dependencies, RequiresAnyOf(feature)),
      ConcatMap(rules.dependencies, ConflictsOf(feature)),
      ConcatMap(rules.autoEnablement, AutoEnablesOf(feature)),
      LastGroup(rules.exclusivity, feature, |rules.exclusivity|))
  }

  /** Every name the explanation says the feature requires is required by a rule about it. */
  lemma ExplainedRequirements(rules: RuleSet, feature: string, x: string)
    ensures x in Explain(rules, feature).required <==>
      exists i | 0 <= i < |rules.dependencies| :: rules.dependencies[i].feature == feature
        && rules.dependencies[i].required.Some? && x in rules.dependencies[i].required.value
  {
    ConcatMapMember(rules.dependencies, RequiresOf(feature), x);
  }

  /** A required name the explanation lists is reported missing whenever the feature is
      active and that name is not, so explanation and validation agree. */
  lemma ExplainedRequirementChecked(rules: RuleSet, feature: string, x: string, active: set<string>)
    requires x in Explain(rules, feature).required && feature in active && x !in active
    ensures x in Validation(rules, active).autoFixes
  {
    ExplainedRequirements(rules, feature, x);
    var i :| 0 <= i < |rules.dependencies| && rules.dependencies[i].feature == feature
      && rules.dependencies[i].required.Some? && x in rules.dependencies[i].required.value;
    assert x in DependencyFixes(rules.dependencies[i], active);
    ConcatMapMember(rules.dependencies, DependencyFix(active), x);
  }

  // ---------------------------------------------------------------------------------------
  // One rule at a time, as the loop bodies of the validator do it
  // ---------------------------------------------------------------------------------------

  /** `[f for f in names if f in active]`, element by element. */
  method ActiveMembers(names: seq<string>, active: set<string>) returns (members: seq<string>)
    ensures members == Present(names, active)
  {
    members := [];
    var j := 0;
    while j < |names|
      invariant 0 <= j <= |names|
      invariant members == Present(names[..j], active)
    {
      assert names[..j + 1] == names[..j] + [names[j]];
      FilterAppend(names[..j], [names[j]], InSet(active));
      if names[j] in active {
        members := members + [names[j]];
      }
      j := j + 1;
    }
    assert names[..j] == names;
  }

  /** `[r for r in names if r not in active]`, element by element. */
  method MissingMembers(names: seq<string>, active: set<string>) returns (missing: seq<string>)
    ensures missing == Missing(names, active)
  {
    missing := [];
    var j := 0;
    while j < |names|
      invariant 0 <= j <= |names|
      invariant missing == Missing(names[..j], active)
    {
      assert names[..j + 1] == names[..j] + [names[j]];
      FilterAppend(names[..j], [names[j]], NotIn(active));
      if names[j] !in active {
        missing := missing + [names[j]];
      }
      j := j + 1;
    }
    assert names[..j] == names;
  }

  /** The body of the mutual-exclusivity loop for one rule. */
  method CheckExclusivity(rule: ExclusivityRule, active: set<string>) returns (issues: seq<ValidationIssue>)
    ensures issues == ExclusivityIssues(rule, active)
  {
    issues := [];
    if rule.when.Some? && rule.when.value != [] && rule.when.value !in active {
      return;
    }
    var members := ActiveMembers(rule.features, active);
    var count := |members|;
    if count > MaxCount(rule) {
      issues := issues + [ValidationIssue(Error, MutualExclusivity, RuleText(rule.errorMessage), members, Some(Composed), false)];
    }
    if count < MinCount(rule) {
      issues := issues + [ValidationIssue(Error, MutualExclusivity, RuleText(rule.errorMessage), rule.features, Some(Composed), false)];
    }
  }

  /** The body of the required-dependency loop for one rule: its errors and its auto-fixes. */
  method CheckDependency(rule: DependencyRule, active: set<string>) returns (issues: seq<ValidationIssue>, fixes: seq<string>)
    ensures issues == DependencyIssues(rule, active) && fixes == DependencyFixes(rule, active)
  {
    issues, fixes := [], [];
    if rule.feature !in active {
      return;
    }
    if rule.required.Some? {
      var missing := MissingMembers(rule.required.value, active);
      if missing != [] {
        issues := issues + [ValidationIssue(Error, RequiredDependency, RuleText(rule.errorMessage), [rule.feature] + missing, Some(Composed), true)];
        fixes := fixes + missing;
      }
    }
    if rule.requiredAny.Some? {
      var present := ActiveMembers(rule.requiredAny.value, active);
      if present == [] {
        issues := issues + [ValidationIssue(Error, RequiredDependency, RuleText(rule.errorMessage), [rule.feature] + rule.requiredAny.value, Some(Composed), false)];
      }
    }
    if rule.conflictsWith.Some? {
      var conflicting := ActiveMembers(rule.conflictsWith.value, active);
      if conflicting != [] {
        issues := issues + [ValidationIssue(Error, ConflictRule, RuleText(rule.errorMessage), [rule.feature] + conflicting, Some(Composed), true)];
      }
    }
  }

  /** The body of the auto-enablement loop for one rule: its info issue and auto-fixes. */
  method CheckAutoEnable(rule: AutoEnableRule, active: set<string>) returns (issues: seq<ValidationIssue>, fixes: seq<string>)
    ensures issues == AutoEnableIssues(rule, active) && fixes == AutoEnableFixes(rule, active)
  {
    issues, fixes := [], [];
    var shouldEnable := false;
    match rule.trigger {
      case NoTrigger =>
      case Single(t) => shouldEnable := t in active;
      case AnyOf(ts) =>
        var present := ActiveMembers(ts, active);
        shouldEnable := present != [];
    }
    if rule.triggerAny.Some? {
      var present := ActiveMembers(rule.triggerAny.value, active);
      shouldEnable := present != [];
    }
    assert shouldEnable == ShouldEnable(rule, active) by {
      AnyActive(rule.trigger, rule.triggerAny, active);
    }
    if shouldEnable {
      var missing := MissingMembers(rule.autoEnable, active);
      if missing != [] {
        issues := [ValidationIssue(Info, AutoEnablement, RuleText(rule.message), missing, Some(Composed), true)];
        fixes := missing;
      }
    }
  }

  /** `any(t in active for t in ts)` is a non-empty filter, for both trigger lists. */
  lemma AnyActive(trigger: Trigger, triggerAny: Option<seq<string>>, active: set<string>)
    ensures trigger.AnyOf? ==> ((exists t | t in trigger.names :: t in active) <==> Present(trigger.names, active) != [])
    ensures triggerAny.Some? ==> ((exists t | t in triggerAny.value :: t in active) <==> Present(triggerAny.value, active) != [])
  {
    if trigger.AnyOf? && Present(trigger.names, active) != [] {
      assert Present(trigger.names, active)[0] in Present(trigger.names, active);
    }
    if triggerAny.Some? && Present(triggerAny.value, active) != [] {
      assert Present(triggerAny.value, active)[0] in Present(triggerAny.value, active);
    }
  }

  /** The body of the conditional-disable loop for one rule. */
  method CheckDisable(rule: DisableRule, active: set<string>) returns (issues: seq<ValidationIssue>)
    ensures issues == DisableIssues(rule, active)
  {
    issues := [];
    if rule.feature !in active {
      return;
    }
    if rule.required.Some? {
      var missing := MissingMembers(rule.required.value, active);
      if missing != [] {
        issues := [ValidationIssue(Warning, ConditionalDisable, RuleText(rule.message), [rule.feature] + missing, Some(Composed), false)];
      }
    }
  }

  /** The first loop of `explain_feature_requirements`: the lists of every dependency rule
      about the feature, concatenated. */
  method DependencyLists(rules: seq<DependencyRule>, feature: string) returns (req: seq<string>, reqAny: seq<string>, conflicts: seq<string>)
    ensures req == ConcatMap(rules, RequiresOf(feature))
    ensures reqAny == ConcatMap(rules, RequiresAnyOf(feature))
    ensures conflicts == ConcatMap(rules, ConflictsOf(feature))
  {
    req, reqAny, conflicts := [], [], [];
    var i := 0;
    while i < |rules|
      invariant 0 <= i <= |rules|
      invariant req == ConcatMap(rules[..i], RequiresOf(feature))
      invariant reqAny == ConcatMap(rules[..i], RequiresAnyOf(feature))
      invariant conflicts == ConcatMap(rules[..i], ConflictsOf(feature))
    {
      var rule := rules[i];
      ConcatMapNext(rules, RequiresOf(feature), i);
      ConcatMapNext(rules, RequiresAnyOf(feature), i);
      ConcatMapNext(rules, ConflictsOf(feature), i);
      if rule.feature == feature {
        if rule.required.Some? {
          req := req + rule.required.value;
        }
        if rule.requiredAny.Some? {
          reqAny := reqAny + rule.requiredAny.value;
        }
        if rule.conflictsWith.Some? {
          conflicts := conflicts + rule.conflictsWith.value;
        }
      }
      i := i + 1;
    }
    assert rules[..i] == rules;
  }

  /** The second loop: the group of the last exclusivity rule listing the feature. */
  method PartOfGroup(rules: seq<ExclusivityRule>, feature: string) returns (group: Option<GroupInfo>)
    ensures group == LastGroup(rules, feature, |rules|)
  {
    group := None;
    var i := 0;
    while i < |rules|
      invariant 0 <= i <= |rules|
      invariant group == LastGroup(rules, feature, i)
    {
      if feature in rules[i].features {
        group := Some(GroupInfo(rules[i].group, rules[i].features, MaxCount(rules[i])));
      }
      i := i + 1;
    }
  }

  /** The third loop: the companions of every auto-enablement rule the feature is listed in. */
  method AutoEnables(rules: seq<AutoEnableRule>, feature: string) returns (enables: seq<string>)
    ensures enables == ConcatMap(rules, AutoEnablesOf(feature))
  {
    enables := [];
    var i := 0;
    while i < |rules|
      invariant 0 <= i <= |rules|
      invariant enables == ConcatMap(rules[..i], AutoEnablesOf(feature))
    {
      ConcatMapNext(rules, AutoEnablesOf(feature), i);
      if ListedTrigger(rules[i], feature) {
        enables := enables + rules[i].autoEnable;
      }
      i := i + 1;
    }
    assert rules[..i] == rules;
  }

  // ---------------------------------------------------------------------------------------
  // The validator object
  // ---------------------------------------------------------------------------------------

  class DependencyValidator {
    /** The rules file, as loaded. */
    const rules: RuleSet

    constructor (rules: RuleSet)
      ensures this.rules == rules
    {
      this.rules := rules;
    }

    /** `validate`: the four families in order against the union of features and options,
        then `passed` set from the error list. */
    method Validate(activeFeatures: set<string>, activeOptions: set<string>) returns (result: ValidationResult)
      ensures fresh(result)
      ensures var v := Validation(rules, activeFeatures + activeOptions);
        && result.passed == v.passed && result.errors == v.errors && result.warnings == v.warnings
        && result.info == v.info && result.autoFixes == v.autoFixes
    {
      result := new ValidationResult(true);
      var active := activeFeatures + activeOptions;
      ghost var v := Validation(rules, active);
      ValidateMutualExclusivity(active, result);
      assert result.errors == ConcatMap(rules.exclusivity, ExclusivityCheck(active));
      ValidateRequiredDependencies(active, result);
      assert result.errors == v.errors && result.autoFixes == ConcatMap(rules.dependencies, DependencyFix(active));
      ApplyAutoEnablement(active, result);
      assert result.info == v.info && result.autoFixes == v.autoFixes;
      CheckConditionalDisable(active, result);
      assert result.warnings == v.warnings;
      result.passed := |result.errors| == 0;
    }

    /** `_validate_mutual_exclusivity` */
    method ValidateMutualExclusivity(active: set<string>, result: ValidationResult)
      modifies result
      ensures result.errors == old(result.errors) + ConcatMap(rules.exclusivity, ExclusivityCheck(active))
      ensures result.warnings == old(result.warnings) && result.info == old(result.info)
      ensures result.autoFixes == old(result.autoFixes) && result.passed == old(result.passed)
    {
      var i := 0;
      while i < |rules.exclusivity|
        invariant 0 <= i <= |rules.exclusivity|
        invariant result.errors == old(result.errors) + ConcatMap(rules.exclusivity[..i], ExclusivityCheck(active))
        invariant result.warnings == old(result.warnings) && result.info == old(result.info)
        invariant result.autoFixes == old(result.autoFixes) && result.passed == old(result.passed)
      {
        ConcatMapNext(rules.exclusivity, ExclusivityCheck(active), i);
        var issues := CheckExclusivity(rules.exclusivity[i], active);
        result.errors := result.errors + issues;
        i := i + 1;
      }
      assert rules.exclusivity[..i] == rules.exclusivity;
    }

    /** `_validate_required_dependencies` */
    method ValidateRequiredDependencies(active: set<string>, result: ValidationResult)
      modifies result
      ensures result.errors == old(result.errors) + ConcatMap(rules.dependencies, DependencyCheck(active))
      ensures result.autoFixes == old(result.autoFixes) + ConcatMap(rules.dependencies, DependencyFix(active))
      ensures result.warnings == old(result.warnings) && result.info == old(result.info) && result.passed == old(result.passed)
    {
      var i := 0;
      while i < |rules.dependencies|
        invariant 0 <= i <= |rules.dependencies|
        invariant result.errors == old(result.errors) + ConcatMap(rules.dependencies[..i], DependencyCheck(active))
        invariant result.autoFixes == old(result.autoFixes) + ConcatMap(rules.dependencies[..i], DependencyFix(active))
        invariant result.warnings == old(result.warnings) && result.info == old(result.info) && result.passed == old(result.passed)
      {
        ConcatMapNext(rules.dependencies, DependencyCheck(active), i);
        ConcatMapNext(rules.dependencies, DependencyFix(active), i);
        var issues, fixes := CheckDependency(rules.dependencies[i], active);
        AppendAssoc(old(result.errors), ConcatMap(rules.dependencies[..i], DependencyCheck(active)), issues);
        AppendAssoc(old(result.autoFixes), ConcatMap(rules.dependencies[..i], DependencyFix(active)), fixes);
        result.errors := result.errors + issues;
        result.autoFixes := result.autoFixes + fixes;
        i := i + 1;
      }
      assert rules.dependencies[..i] == rules.dependencies;
    }

    /** `_apply_auto_enablement` */
    method ApplyAutoEnablement(active: set<string>, result: ValidationResult)
      modifies result
      ensures result.info == old(result.info) + ConcatMap(rules.autoEnablement, AutoEnableCheck(active))
      ensures result.autoFixes == old(result.autoFixes) + ConcatMap(rules.autoEnablement, AutoEnableFix(active))
      ensures result.errors == old(result.errors) && result.warnings == old(result.warnings) && result.passed == old(result.passed)
    {
      var i := 0;
      while i < |rules.autoEnablement|
        invariant 0 <= i <= |rules.autoEnablement|
        invariant result.info == old(result.info) + ConcatMap(rules.autoEnablement[..i], AutoEnableCheck(active))
        invariant result.autoFixes == old(result.autoFixes) + ConcatMap(rules.autoEnablement[..i], AutoEnableFix(active))
        invariant result.errors == old(result.errors) && result.warnings == old(result.warnings) && result.passed == old(result.passed)
      {
        ConcatMapNext(rules.autoEnablement, AutoEnableCheck(active), i);
        ConcatMapNext(rules.autoEnablement, AutoEnableFix(active), i);
        var issues, fixes := CheckAutoEnable(rules.autoEnablement[i], active);
        AppendAssoc(old(result.info), ConcatMap(rules.autoEnablement[..i], AutoEnableCheck(active)), issues);
        AppendAssoc(old(result.autoFixes), ConcatMap(rules.autoEnablement[..i], AutoEnableFix(active)), fixes);
        result.info := result.info + issues;
        result.autoFixes := result.autoFixes + fixes;
        i := i + 1;
      }
      assert rules.autoEnablement[..i] == rules.autoEnablement;
    }

    /** `_check_conditional_disable` */
    method CheckConditionalDisable(active: set<string>, result: ValidationResult)
      modifies result
      ensures result.warnings == old(result.warnings) + ConcatMap(rules.conditionalDisable, DisableCheck(active))
      ensures result.errors == old(result.errors) && result.info == old(result.info)
      ensures result.autoFixes == old(result.autoFixes) && result.passed == old(result.passed)
    {
      var i := 0;
      while i < |rules.conditionalDisable|
        invariant 0 <= i <= |rules.conditionalDisable|
        invariant result.warnings == old(result.warnings) + ConcatMap(rules.conditionalDisable[..i], DisableCheck(active))
        invariant result.errors == old(result.errors) && result.info == old(result.info)
        invariant result.autoFixes == old(result.autoFixes) && result.passed == old(result.passed)
      {
        ConcatMapNext(rules.conditionalDisable, DisableCheck(active), i);
        var issues := CheckDisable(rules.conditionalDisable[i], active);
        result.warnings := result.warnings + issues;
        i := i + 1;
      }
      assert rules.conditionalDisable[..i] == rules.conditionalDisable;
    }

    /** `get_auto_fixes`: the auto-fix names as a set to enable, and nothing to disable. */
    method GetAutoFixes(activeFeatures: set<string>, activeOptions: set<string>) returns (enable: set<string>, disable: set<string>)
      ensures enable == set x | x in Validation(rules, activeFeatures + activeOptions).autoFixes
      ensures disable == {}
      ensures enable * (activeFeatures + activeOptions) == {}
    {
      var result := Validate(activeFeatures, activeOptions);
      enable := set x | x in result.autoFixes;
      disable := {};
      forall x | x in enable
        ensures x !in activeFeatures + activeOptions
      {
        FixesAreAnnounced(rules, activeFeatures + activeOptions, x);
      }
    }

    /** `explain_feature_requirements` */
    method ExplainFeatureRequirements(feature: string) returns (info: Explanation)
      ensures info == Explain(rules, feature)
    {
      var req, reqAny, conflicts := DependencyLists(rules.dependencies, feature);
      var group := PartOfGroup(rules.exclusivity, feature);
      var enables := AutoEnables(rules.autoEnablement, feature);
      info := Explanation(req, reqAny, conflicts, enables, group);
    }
  }
}
