# A verified model of the k3ng_config_tool configuration pipeline

`k3ng_config_tool` reads the three configuration headers of the K3NG antenna rotator
controller firmware (`rotator_features.h`, `rotator_pins.h`, `rotator_settings.h`), checks
the configuration against dependency rules, value rules and a board table, and lets a user
toggle features and reassign pins. This project models the core of that pipeline in Dafny
and proves what its code promises:

- **Preprocessor** (`preprocessor_parser.dfy`): the one forward pass over header lines. It
  keeps a stack of open `#ifdef`/`#ifndef`/`#if defined()`/`#if !defined()` blocks and a
  block-comment flag. It fills the define table, builds the tree of conditional blocks and
  reports a stray `#endif` or an unclosed block. The model also covers
  `resolve_conditionals`, the lookups and `extract_documentation`. The directive regular
  expressions are written out as prefix and identifier matching over strings.
- **Features, pins, settings** (`feature_parser.dfy`, `pin_parser.dfy`,
  `settings_parser.dfy`, with the category and group building they share in `groups.dfy`):
  the three extractors built on the preprocessor's result.
- **Dependency rules** (`dependency_validator.dfy`): the four rule families (mutual
  exclusivity, required dependencies, auto-enablement, conditional disable) run over the
  active set. They fill a `ValidationResult` object in place.
- **Value rules** (`value_validator.dfy`): bounds, warning thresholds, allowed values,
  array sizes, element bounds and the ascending check on a settings map.
- **Board table and pin rules** (`board_database.dfy`, `pin_validator.dfy`): capability
  queries on a board record, and the PWM, interrupt, analog, conflict, reserved-pin and
  range checks.
- **Configuration manager** (`config_manager.dfy`): the file layout, the feature toggles,
  pin reassignment, setting edits, `import_from_dict` and `get_summary`.
- **Test framework aggregates** (`test_base.dfy`, `test_engine.dfy`): result predicates,
  suite counters, `execute`/`skip`, the assertion helpers, categories, the registry and the
  result-collection loop of `run_tests`.

Helper modules: `wrappers.dfy` (Option, Result, Outcome), `strings.dfy` (ASCII
whitespace, `strip`, prefixes, substrings, `split`/`join`, ordering and sorting),
`dicts.dfy` (an insertion-ordered dictionary: a key list plus a map, as Python's `dict`
behaves), `seqs.dfy` (filters, counts, concatenating maps) and `numbers.dfy` (Python's
`int()` and `float()` on decimal text, as partial parses).

Where the Python code mutates an object, the model is a class with `modifies` methods and
loops. Each such method is proved equal to a specification function, and the properties
are proved about that function.

File reading, YAML and JSON loading, clocks, the subclass test hooks and the stop flag
become parameters. Messages built with f-strings are kept opaque, except where a rule
table supplies the text.

## Model

| member | source | states |
|---|---|---|
| Preprocessor.ActiveComplement | k3ng_config_tool/parsers/preprocessor_parser.py:57-67 | `#ifdef` and `#if defined()` are active exactly when the symbol is in the set; their negations exactly when it is not; a test and its negation are never both active |
| Preprocessor.IdentLen | k3ng_config_tool/parsers/preprocessor_parser.py:95-102 | the identifier pattern `[A-Za-z0-9_]*` consumes the longest run of identifier characters |
| Preprocessor.FindComment | k3ng_config_tool/parsers/preprocessor_parser.py:95 | the lazy value group stops at the first `//`: no `//` starts before the returned index |
| Preprocessor.DirectivePassesFilter | k3ng_config_tool/parsers/preprocessor_parser.py:169-174 | every line a directive pattern accepts starts with `#`, or starts with `//` and contains `#`, so the filter before the patterns never hides a directive |
| Preprocessor.ClassifyIfdef | k3ng_config_tool/parsers/preprocessor_parser.py:213-225 | `#ifdef NAME` opens an `#ifdef` block on NAME |
| Preprocessor.ClassifyIfndef | k3ng_config_tool/parsers/preprocessor_parser.py:227-239 | `#ifndef NAME` opens an `#ifndef` block on NAME |
| Preprocessor.ClassifyIfDefined | k3ng_config_tool/parsers/preprocessor_parser.py:241-253 | `#if defined(NAME)` opens an `#if defined` block on NAME |
| Preprocessor.ClassifyIfNotDefined | k3ng_config_tool/parsers/preprocessor_parser.py:255-267 | `#if !defined(NAME)` opens an `#if !defined` block on NAME, although the earlier patterns are tried first |
| Preprocessor.ClassifyElseEndif | k3ng_config_tool/parsers/preprocessor_parser.py:269-288 | `#else` and `#endif` are recognised by their prefix, whatever follows |
| Preprocessor.ClassifyUndef | k3ng_config_tool/parsers/preprocessor_parser.py:290-296 | `#undef NAME` names NAME |
| Preprocessor.ClassifyBareDefine | k3ng_config_tool/parsers/preprocessor_parser.py:176-181 | `#define NAME` alone has no value and no comment |
| Preprocessor.ClassifyDefine | k3ng_config_tool/parsers/preprocessor_parser.py:176-178 | a line the `#define` pattern matches is classified by that pattern, before any other |
| Preprocessor.ClassifyValueDefine | k3ng_config_tool/parsers/preprocessor_parser.py:180 | `#define NAME VALUE` keeps VALUE as written when it holds no `//` and no surrounding blanks |
| Preprocessor.ClassifyCommentDefine | k3ng_config_tool/parsers/preprocessor_parser.py:181 | `#define NAME // text` has no value and the comment text |
| Preprocessor.CommentedDirectiveRecognised | k3ng_config_tool/parsers/preprocessor_parser.py:95-102 | a `// ` prefix does not hide a directive: the commented line is recognised exactly like the plain one, so commented conditionals still open and close blocks |
| Preprocessor.AddToTop | k3ng_config_tool/parsers/preprocessor_parser.py:204-209 | a define is recorded in the innermost open block only; the stack keeps its depth |
| Preprocessor.UnclosedErrors | k3ng_config_tool/parsers/preprocessor_parser.py:299-303 | one error per block still open |
| Preprocessor.LiveStep | k3ng_config_tool/parsers/preprocessor_parser.py:148-174 | a line outside a block comment and without `/*` goes to the directive patterns, stripped |
| Preprocessor.StrayEndifOneError | k3ng_config_tool/parsers/preprocessor_parser.py:286-287 | `#endif` with no open block adds exactly one error and changes nothing else |
| Preprocessor.StepErrors | k3ng_config_tool/parsers/preprocessor_parser.py:144-296 | during the pass a line adds an error only when it is a stray `#endif`, and then exactly one |
| Preprocessor.InterpretErrors | k3ng_config_tool/parsers/preprocessor_parser.py:176-296 | interpreting a directive adds an error only for `#endif` with no open block |
| Preprocessor.DefineOverwrites | k3ng_config_tool/parsers/preprocessor_parser.py:176-202 | a `#define` line replaces the table entry of its name and keeps that name's first position; no other entry changes; a `//` line gives an inactive, commented entry; value, comment and line number come from the line |
| Preprocessor.DefinePlacement | k3ng_config_tool/parsers/preprocessor_parser.py:186-209 | inside a block a define goes to the innermost block, to its `#else` list after `#else` and to its true-branch list otherwise; outer blocks are untouched; the entry names the innermost condition as its scope |
| Preprocessor.EndifNests | k3ng_config_tool/parsers/preprocessor_parser.py:275-285 | `#endif` closes the innermost block at this line and appends it to the enclosing block's nested list, or to the top-level list when it was outermost; the stack shrinks by one and nothing else changes |
| Preprocessor.UndefDeactivates | k3ng_config_tool/parsers/preprocessor_parser.py:290-296 | `#undef` of a known name keeps the entry and makes it inactive; of an unknown name it changes nothing |
| Preprocessor.CommentLinesSkipped | k3ng_config_tool/parsers/preprocessor_parser.py:148-167 | a line in a block comment, or one containing `/*`, yields no directive: defines, blocks, errors and stack are unchanged; only the comment table may gain this line; the block ends exactly when the line holds `*/` |
| Preprocessor.NoMarksKept | k3ng_config_tool/parsers/preprocessor_parser.py:152-162 | removing `/*` and `*/` leaves a line without them unchanged |
| Preprocessor.ErrorsOnlyGrow | k3ng_config_tool/parsers/preprocessor_parser.py:144-296 | errors are only appended during the pass |
| Preprocessor.UnclosedReported | k3ng_config_tool/parsers/preprocessor_parser.py:298-303 | the end of the pass adds one error per open block, in stack order, naming its start line, kind and condition |
| Preprocessor.SuccessMeansBalanced | k3ng_config_tool/parsers/preprocessor_parser.py:305-312 | `success` holds exactly when the error list is empty; a successful pass met no stray `#endif` and left no block open |
| Preprocessor.StepKeepsEntry | k3ng_config_tool/parsers/preprocessor_parser.py:176-202 | a line that neither defines nor undefines a name leaves its entry alone |
| Preprocessor.LastDefinitionWins | k3ng_config_tool/parsers/preprocessor_parser.py:202 | the entry of a name after the whole file is the one left by its last `#define` or `#undef` line |
| Preprocessor.LookupAfterLine | k3ng_config_tool/parsers/preprocessor_parser.py:383-391 | after a live `#define`, `has_define` holds and `get_define_value` gives the line's value; after a commented `#define` or an `#undef` it does not, and the lookup gives the default |
| Preprocessor.PreprocessorParser.HasDefine | k3ng_config_tool/parsers/preprocessor_parser.py:383-385 | true exactly when the name is in the symbol table and its entry is active |
| Preprocessor.PreprocessorParser.GetDefineValue | k3ng_config_tool/parsers/preprocessor_parser.py:387-391 | the entry's value when `has_define` holds, otherwise the caller's default |
| Preprocessor.ProcessBlockBounds | k3ng_config_tool/parsers/preprocessor_parser.py:342-353 | processing a block only adds names, and only names its branches define |
| Preprocessor.ProcessBlocksBounds | k3ng_config_tool/parsers/preprocessor_parser.py:340-358 | `resolve_conditionals` returns a superset of the base set, made only of names the blocks define |
| Preprocessor.ActiveBlockAddsDefines | k3ng_config_tool/parsers/preprocessor_parser.py:343-349 | an active block adds its true-branch names, and its `#else` list is never consulted |
| Preprocessor.InactiveBlockSkipsNested | k3ng_config_tool/parsers/preprocessor_parser.py:350-353 | an inactive block adds exactly its `#else` names, and its nested blocks are never visited |
| Preprocessor.ResolutionExample | k3ng_config_tool/parsers/preprocessor_parser.py:355-356 | blocks are processed in order, each seeing the names earlier ones added |
| Preprocessor.ProcessBlockInto | k3ng_config_tool/parsers/preprocessor_parser.py:342-353 | the statement-by-statement `process_block` adds exactly what the recursive definition adds |
| Preprocessor.PreprocessorParser.Parse | k3ng_config_tool/parsers/preprocessor_parser.py:118-312 | an unreadable file gives `success=False`, empty tables and a read error; otherwise the fields end as the pass over the lines leaves them, and `success` holds exactly when no error was recorded |
| Preprocessor.PreprocessorParser.ReportUnclosed | k3ng_config_tool/parsers/preprocessor_parser.py:298-303 | appends one error per open block and changes no other field |
| Preprocessor.PreprocessorParser.ReadLine | k3ng_config_tool/parsers/preprocessor_parser.py:144-174 | one turn of the loop changes the parser exactly as one step of the pass does |
| Preprocessor.PreprocessorParser.ApplyDirective | k3ng_config_tool/parsers/preprocessor_parser.py:176-296 | the directive branches change the parser exactly as interpreting the directive does |
| Preprocessor.PreprocessorParser.RecordDefine | k3ng_config_tool/parsers/preprocessor_parser.py:176-211 | the `#define` branch changes the parser exactly as interpreting the define does |
| Preprocessor.PreprocessorParser.CloseBlock | k3ng_config_tool/parsers/preprocessor_parser.py:275-288 | the `#endif` branch changes the parser exactly as interpreting `#endif` does |
| Preprocessor.PreprocessorParser.ResolveConditionals | k3ng_config_tool/parsers/preprocessor_parser.py:330-358 | the result is what processing the top-level blocks in order makes of the base set |
| Preprocessor.PreprocessorParser.ExtractDocumentation | k3ng_config_tool/parsers/preprocessor_parser.py:360-377 | the loop builds exactly the documentation map the definition describes |
| Preprocessor.DocumentationMeaning | k3ng_config_tool/parsers/preprocessor_parser.py:367-377 | a define is documented exactly when it has a non-empty inline comment or a comment on the line before it; the inline comment wins |
| Groups.Named | k3ng_config_tool/parsers/feature_parser.py:198-210 | the first loop of `_build_categories` and `_build_groups`: at most one group per table entry, none empty, each listing only names that exist |
| Groups.NamedMembership | k3ng_config_tool/parsers/feature_parser.py:198-210 | a table entry naming an existing name yields a group of that name listing it |
| Groups.ListExisting | k3ng_config_tool/parsers/feature_parser.py:198-227 | every group lists only existing names, and none is empty |
| Groups.OtherLast | k3ng_config_tool/parsers/feature_parser.py:212-227 | the named groups come first, then at most one more group: it is sorted, holds only names no named group lists, and is present exactly when some name is in no named group |
| Groups.Cover | k3ng_config_tool/parsers/feature_parser.py:212-227 | every existing name appears in some group |
| Groups.ListedTwice | k3ng_config_tool/parsers/feature_parser.py:198-210 | a name the table lists under two entries is shown in both groups |
| Features.FreshSplit | k3ng_config_tool/parsers/feature_parser.py:169-176 | the `features`, `options` and `languages` tables take exactly the defines with their prefix, with the preprocessor's nodes, and no name is in two of them |
| Features.FreshActiveFeatures | k3ng_config_tool/parsers/feature_parser.py:178-180 | a name is an active feature (option) exactly when it has the prefix and the header defines it live, that is when `is_feature_enabled` holds |
| Features.TableListsRotationIndicatorTwice | k3ng_config_tool/parsers/feature_parser.py:108-128 | the category table lists `FEATURE_ROTATION_INDICATOR_PIN` under Motor Control and under User Interface, so the feature is shown in both |
| Features.FeatureParser.Parse | k3ng_config_tool/parsers/feature_parser.py:157-192 | a failed preprocessor parse is the `ValueError` and leaves the tables alone; otherwise the tables hold the split defines and the result holds the tables, the categories and the active sets |
| Features.FeatureParser.Split | k3ng_config_tool/parsers/feature_parser.py:169-176 | the loop files each define exactly as the split function does |
| Features.FeatureParser.FirstEnabled | k3ng_config_tool/parsers/feature_parser.py:258-282 | the search loop returns the first candidate with the prefix that is enabled, or nothing when there is none |
| Features.FeatureParser.GetProtocolEmulation | k3ng_config_tool/parsers/feature_parser.py:258-268 | the first enabled of YAESU, EASYCOM and DCU-1 in that order, or `None` when none is |
| Features.FeatureParser.IsFeatureEnabled | k3ng_config_tool/parsers/feature_parser.py:235-237 | true exactly when the name is a parsed feature whose define is active |
| Features.FeatureParser.IsOptionEnabled | k3ng_config_tool/parsers/feature_parser.py:243-245 | true exactly when the name is a parsed option whose define is active |
| Features.FeatureParser.GetAzPositionSensor | k3ng_config_tool/parsers/feature_parser.py:270-275 | the first enabled `FEATURE_AZ_POSITION_` feature in table order, or `None` |
| Features.FeatureParser.GetElPositionSensor | k3ng_config_tool/parsers/feature_parser.py:277-282 | the first enabled `FEATURE_EL_POSITION_` feature in table order, or `None` |
| Pins.PinDefineIgnoresCase | k3ng_config_tool/parsers/pin_parser.py:184-193 | `_is_pin_define` lower-cases the name first, so upper-casing it changes nothing |
| Pins.PinValue | k3ng_config_tool/parsers/pin_parser.py:197-201 | the value text is the stripped value, or `"0"` when the value is missing or blank; it is never empty |
| Pins.ParsePinDefinition | k3ng_config_tool/parsers/pin_parser.py:195-251 | `A<digits>` gives an analog pin with no number, enabled and not remote; otherwise the number is what `int()` makes of the text; no number means disabled; a number n means disabled iff n is 0 and remote iff n > 99; name, scope, comment and line come from the define |
| Pins.MissingValueDisabled | k3ng_config_tool/parsers/pin_parser.py:197-236 | a missing or blank value is a disabled digital pin 0 |
| Pins.NonNumericDisabled | k3ng_config_tool/parsers/pin_parser.py:218-233 | a value that is neither `A<digits>` nor an integer gives a disabled pin with no number |
| Pins.NumericPin | k3ng_config_tool/parsers/pin_parser.py:235-251 | an integer n gives pin number n, not analog, disabled iff n is 0, remote iff n > 99 |
| Pins.ExtractedPins | k3ng_config_tool/parsers/pin_parser.py:153-157 | on a fresh parser the table holds exactly the pin-like defines, each parsed |
| Pins.BuildUsage | k3ng_config_tool/parsers/pin_parser.py:297-304 | the first loop of `_detect_conflicts` builds exactly the usage table of the live digital pins |
| Pins.ConflictsExact | k3ng_config_tool/parsers/pin_parser.py:290-313 | a digital number is reported exactly when two or more live pins use it; the report lists exactly those pins in table order; no number is reported twice |
| Pins.ConflictsSkipNonDigital | k3ng_config_tool/parsers/pin_parser.py:297-299 | a disabled, remote or analog pin is named in no conflict |
| Pins.PinsByGroup | k3ng_config_tool/parsers/pin_parser.py:319-328 | an unknown group gives nothing, and every returned definition is in the table |
| Pins.PinsByGroupKnown | k3ng_config_tool/parsers/pin_parser.py:319-328 | for the first table entry with the group's name: the definitions of the group's members that are in the table, in the group's order, and every such definition |
| Pins.ReportShared | k3ng_config_tool/parsers/pin_parser.py:306-311 | the second loop reports exactly the numbers with several users, in table order |
| Pins.PinParser.Parse | k3ng_config_tool/parsers/pin_parser.py:141-182 | a failed preprocessor parse is the `ValueError` and leaves the table alone; otherwise the table holds the extracted pins and the result holds the groups, the used digital numbers and analog names (the enabled, local ones) and the conflicts |
| Pins.PinParser.Extract | k3ng_config_tool/parsers/pin_parser.py:153-157 | the extraction loop adds exactly the parsed pin-like defines |
| Pins.PinParser.UsedPins | k3ng_config_tool/parsers/pin_parser.py:162-171 | the loop collects exactly the numbers of enabled, local digital pins and the texts of enabled, local analog pins |
| Pins.PinParser.DetectConflicts | k3ng_config_tool/parsers/pin_parser.py:290-313 | `_detect_conflicts` returns the conflicts of its pin table |
| Pins.PinParser.PinUsage | k3ng_config_tool/parsers/pin_parser.py:294-304 | the first loop builds the usage table of the parser's pins |
| Pins.PinParser.GetPin | k3ng_config_tool/parsers/pin_parser.py:315-317 | a definition exactly for a known name, and then that name's definition |
| Settings.SettingsAreNotFeatures | k3ng_config_tool/parsers/settings_parser.py:175-193 | a setting define never has a feature, option or language prefix, so the feature parser does not collect it |
| Settings.SettingIgnoresCase | k3ng_config_tool/parsers/settings_parser.py:175-193 | apart from the three case-sensitive prefix tests, the setting test is the same on the lower-cased name |
| Settings.CloseAfter | k3ng_config_tool/parsers/settings_parser.py:133 | the index of the first `}` after a position, with no `}` between |
| Settings.Captured | k3ng_config_tool/parsers/settings_parser.py:233-235 | the group of an array match is non-empty and holds no `}` |
| Settings.ArraySearch | k3ng_config_tool/parsers/settings_parser.py:233 | `ARRAY_PATTERN.search`: nothing exactly when no position matches, otherwise the group of the leftmost match |
| Settings.StripAll | k3ng_config_tool/parsers/settings_parser.py:236 | each piece stripped, in order |
| Settings.Elements | k3ng_config_tool/parsers/settings_parser.py:236 | splitting an array body on commas gives at least one element |
| Settings.ParseElements | k3ng_config_tool/parsers/settings_parser.py:239-246 | floats when some element has a `.`, ints otherwise, each the conversion of its element; the raw strings exactly when some conversion fails |
| Settings.ParseValue | k3ng_config_tool/parsers/settings_parser.py:227-259 | unknown and unset exactly for empty text; an array exactly when the array pattern matches, parsed from its group; text otherwise kept verbatim |
| Settings.NumberLiteralStripped | k3ng_config_tool/parsers/settings_parser.py:249 | text the number pattern accepts has no surrounding whitespace |
| Settings.NumberLiteralParses | k3ng_config_tool/parsers/settings_parser.py:249-256 | text the number pattern accepts always converts, so the `ValueError` fallback is never taken |
| Settings.ScalarTypes | k3ng_config_tool/parsers/settings_parser.py:249-259 | without an array, an int exactly for a number without `.`, a float exactly for one with `.`, text otherwise, with the converted numbers |
| Settings.FirstUnit | k3ng_config_tool/parsers/settings_parser.py:281-285 | no unit exactly when no keyword occurs, otherwise the unit of the first keyword that occurs |
| Settings.ExtractUnit | k3ng_config_tool/parsers/settings_parser.py:261-285 | no unit for a missing or empty comment; otherwise no unit exactly when no keyword occurs in the lower-cased comment, else the unit of the first keyword that occurs |
| Settings.MillisecondIsMs | k3ng_config_tool/parsers/settings_parser.py:269-283 | a comment mentioning "millisecond" (and no "degree") gets `ms`, not `s` |
| Settings.ShadowedUnit | k3ng_config_tool/parsers/settings_parser.py:281-283 | an entry whose keyword contains an earlier entry's keyword is never the one returned |
| Settings.KilohertzShadowed | k3ng_config_tool/parsers/settings_parser.py:269-279 | in the unit table "khz" comes after "hz" and contains it, and `kHz` is that entry's alone |
| Settings.NeverKilohertz | k3ng_config_tool/parsers/settings_parser.py:261-285 | no comment is ever given the unit `kHz` |
| Settings.KilohertzIsHertz | k3ng_config_tool/parsers/settings_parser.py:261-285 | a comment mentioning "khz" (and no degree, second or minute) gets `Hz` |
| Settings.InferBounds | k3ng_config_tool/parsers/settings_parser.py:287-322 | inferred bounds always have the minimum below the maximum |
| Settings.PwmBoundsFirst | k3ng_config_tool/parsers/settings_parser.py:291-293 | a name mentioning "pwm" or "voltage" gets `(0, 255)` whatever else it mentions |
| Settings.BoundsIgnoreCase | k3ng_config_tool/parsers/settings_parser.py:289 | the bounds depend on the name only up to case |
| Settings.NoBounds | k3ng_config_tool/parsers/settings_parser.py:287-322 | no bounds exactly when the name mentions none of the rule keywords |
| Settings.FirstWhere | k3ng_config_tool/parsers/settings_parser.py:326-346 | no category exactly when no list is accepted, otherwise the name of the first accepted list |
| Settings.ExplicitFirst | k3ng_config_tool/parsers/settings_parser.py:326-328 | a name the explicit table lists gets the first category listing it, whatever keywords it contains |
| Settings.Categorize | k3ng_config_tool/parsers/settings_parser.py:324-348 | a category of the explicit table listing the name, of the keyword table matching it, or "Other Settings"; an explicitly listed name always gets an explicit category |
| Settings.CategoryNames | k3ng_config_tool/parsers/settings_parser.py:324-348 | a name nothing lists or matches goes to "Other Settings"; every category is one the tables name |
| Settings.BlankIsUnset | k3ng_config_tool/parsers/settings_parser.py:197-230 | a missing value and a blank one both give an unset setting of unknown type |
| Settings.BoundsPaired | k3ng_config_tool/parsers/settings_parser.py:209-220 | a setting's minimum and maximum are both present or both absent, and the minimum is below the maximum |
| Settings.ExtractedSettings | k3ng_config_tool/parsers/settings_parser.py:155-158 | a fresh parser holds exactly the setting defines, each parsed from its define |
| Settings.EepromAgreesWithFlag | k3ng_config_tool/parsers/settings_parser.py:164-200 | a setting is in `eeprom_settings` exactly when it is flagged EEPROM-persistent |
| Settings.BucketOf | k3ng_config_tool/parsers/settings_parser.py:354-358 | the names in a bucket are exactly the settings with that category, and every setting's category has a bucket |
| Settings.Listing | k3ng_config_tool/parsers/settings_parser.py:360-363 | one category per name, in order, with its settings sorted |
| Settings.CategoriesLayout | k3ng_config_tool/parsers/settings_parser.py:350-365 | the built categories follow the sorted, distinct bucket names, each with its sorted bucket |
| Settings.CategoriesSorted | k3ng_config_tool/parsers/settings_parser.py:360-363 | categories are sorted by name with distinct names, and each lists its settings sorted |
| Settings.CategoryMembers | k3ng_config_tool/parsers/settings_parser.py:350-365 | a category lists exactly the settings filed under its name |
| Settings.FiledCategoryBuilt | k3ng_config_tool/parsers/settings_parser.py:350-365 | the category a setting is filed under is among the built categories |
| Settings.ExactlyOneCategory | k3ng_config_tool/parsers/settings_parser.py:350-365 | each setting appears in exactly one category, the one it is filed under |
| Settings.InCategory | k3ng_config_tool/parsers/settings_parser.py:371-376 | only settings of the category, each from the table, and every such setting |
| Settings.SettingsParser.Parse | k3ng_config_tool/parsers/settings_parser.py:142-173 | a failed preprocessor parse is an error carrying its errors and leaves the table; otherwise the table gains the extracted settings and the result holds them, their categories and the EEPROM names |
| Settings.SettingsParser.Extract | k3ng_config_tool/parsers/settings_parser.py:155-158 | the extraction loop adds exactly the kept defines, converted |
| Settings.SettingsParser.CollectCategories | k3ng_config_tool/parsers/settings_parser.py:350-365 | the bucketing loop and the listing build the categories of the table |
| Settings.SettingsParser.GetSetting | k3ng_config_tool/parsers/settings_parser.py:367-369 | a definition exactly for a known name, and then that name's definition |
| Settings.SettingsParser.SettingsByCategory | k3ng_config_tool/parsers/settings_parser.py:371-376 | only the settings of that category, and all of them |
| Settings.InCategoryInOrder | k3ng_config_tool/parsers/settings_parser.py:371-376 | the result over the first `n` settings is indexed by the strictly increasing table positions holding a setting of the category: table order, each setting once |
| Settings.SettingsParser.SettingsByCategoryInOrder | k3ng_config_tool/parsers/settings_parser.py:371-376 | the settings of the category in table order, each once: position `i` of the result is the `i`-th table position holding one |
| Values.Tagged | k3ng_config_tool/validators/value_validator.py:65-72 | one index entry per setting of a rule that has `settings`, in order |
| Values.AddAllContents | k3ng_config_tool/validators/value_validator.py:65-72 | adding entries appends, under each setting, exactly the rules filed under it, and creates a list only for a setting that gets one |
| Values.EntryOrigin | k3ng_config_tool/validators/value_validator.py:57-72 | an entry comes exactly from a setting listed by a rule with `settings` in a list-valued category, paired with the rule tagged by that category |
| Values.IndexedSettings | k3ng_config_tool/validators/value_validator.py:55-72 | a setting is in the index exactly when some indexed rule lists it |
| Values.FiledRulesListSetting | k3ng_config_tool/validators/value_validator.py:55-72 | every rule filed under a setting lists that setting and carries the name of a list-valued category |
| Values.IndexRule | k3ng_config_tool/validators/value_validator.py:65-72 | the innermost loop files the tagged rule under each of its settings |
| Values.IndexCategory | k3ng_config_tool/validators/value_validator.py:61-72 | the middle loop files every rule of the category |
| Values.ScalarNumber | k3ng_config_tool/validators/value_validator.py:109-121 | ints and floats convert to themselves, strings through `float()` when it accepts them, everything else is skipped |
| Values.NormalizationIrrelevant | k3ng_config_tool/validators/value_validator.py:164-169 | turning an integral float into an int never changes the allowed-values verdict |
| Values.AscendingWarningsCounted | k3ng_config_tool/validators/value_validator.py:205-218 | one consistency warning, carrying the rule's message, per descending neighbour pair |
| Values.DescentIndices | k3ng_config_tool/validators/value_validator.py:206-208 | the warned indices are exactly the neighbour pairs that do not ascend |
| Values.EqualNeighboursWarn | k3ng_config_tool/validators/value_validator.py:208 | equal numeric neighbours warn (the test is `>=`) |
| Values.StrictlyAscendingQuiet | k3ng_config_tool/validators/value_validator.py:204-218 | a strictly ascending array gets no consistency warning |
| Values.RuleErrors | k3ng_config_tool/validators/value_validator.py:100-121 | a `None` value, a value of another type and a string `float()` rejects get no errors |
| Values.RuleWarnings | k3ng_config_tool/validators/value_validator.py:100-121 | the same values get no warnings |
| Values.ArrayIssues | k3ng_config_tool/validators/value_validator.py:104-107 | a list gets exactly the array checks |
| Values.ScalarIssues | k3ng_config_tool/validators/value_validator.py:109-177 | a non-list that converts gets exactly the scalar checks on its number |
| Values.ScalarRangeChecks | k3ng_config_tool/validators/value_validator.py:123-142 | one range error for a value below `min`, one for a value above `max`, never both when `min <= max` |
| Values.ScalarSeverities | k3ng_config_tool/validators/value_validator.py:123-177 | scalar errors are errors and threshold issues are warnings, each naming the setting alone |
| Values.AllowedValuesCheck | k3ng_config_tool/validators/value_validator.py:163-177 | an allowed-values error exactly when no allowed int or float equals the value |
| Values.ArrayErrorsCounted | k3ng_config_tool/validators/value_validator.py:220-247 | each element gets one error per bound it violates and non-numeric elements none |
| Values.WarningsNeverErr | k3ng_config_tool/validators/value_validator.py:144-218 | warning thresholds and the consistency check never change the errors, so never `passed` |
| Values.SameElementErrors | k3ng_config_tool/validators/value_validator.py:220-247 | element errors depend only on `min` and `max` |
| Values.SettingStep | k3ng_config_tool/validators/value_validator.py:86-92 | a setting without indexed rules adds nothing; one with rules adds what each rule gives it |
| Values.IssuesAreAboutIndexedSettings | k3ng_config_tool/validators/value_validator.py:74-94 | every issue of `validate` names exactly one given setting that has rules |
| Values.AboutTheSetting | k3ng_config_tool/validators/value_validator.py:96-247 | every issue a rule gives a setting names just that setting |
| Values.LastRange | k3ng_config_tool/validators/value_validator.py:269-274 | the range of the last rule with a `min` or `max`, none exactly when no rule has either |
| Values.LastAllowed | k3ng_config_tool/validators/value_validator.py:276-278 | the allowed values of the last rule that has them, none exactly when no rule does |
| Values.ValueValidator.BuildSettingIndex | k3ng_config_tool/validators/value_validator.py:55-72 | the three loops add exactly the entries of the values file |
| Values.ValueValidator.Validate | k3ng_config_tool/validators/value_validator.py:74-94 | the errors and warnings of every indexed setting under every rule, in order, and `passed` exactly when there is no error |
| Values.ValueValidator.ValidateEntry | k3ng_config_tool/validators/value_validator.py:86-92 | one turn of the outer loop adds that setting's issues |
| Values.ValueValidator.ValidateAgainstAll | k3ng_config_tool/validators/value_validator.py:90-92 | the inner loop adds the issues of each rule in turn |
| Values.ValueValidator.ValidateRule | k3ng_config_tool/validators/value_validator.py:92 | one rule adds its issues and clears `passed` only on an error |
| Values.ValueValidator.ValidateSetting | k3ng_config_tool/validators/value_validator.py:96-177 | `_validate_setting` adds the rule's errors and warnings and clears `passed` exactly on an error |
| Values.ValueValidator.CheckScalar | k3ng_config_tool/validators/value_validator.py:123-177 | the scalar tests add the scalar errors and warnings |
| Values.ValueValidator.CheckRange | k3ng_config_tool/validators/value_validator.py:124-142 | the `min`/`max` tests add only errors |
| Values.ValueValidator.ValidateArray | k3ng_config_tool/validators/value_validator.py:179-247 | `_validate_array` adds the array errors and warnings |
| Values.ValueValidator.CheckSize | k3ng_config_tool/validators/value_validator.py:183-202 | the size tests add only errors |
| Values.ValueValidator.CheckAscending | k3ng_config_tool/validators/value_validator.py:204-218 | the ascending loop adds only warnings, one per descent |
| Values.ValueValidator.CheckElements | k3ng_config_tool/validators/value_validator.py:220-247 | the element loop adds only errors, element by element |
| Values.ValueValidator.GetSettingConstraints | k3ng_config_tool/validators/value_validator.py:249-280 | no constraints for a setting without rules; otherwise its rules, with the last range and the last allowed values |
| Dependencies.ValidationResult.TotalIssues | k3ng_config_tool/validators/dependency_validator.py:47-49 | the errors, warnings and info issues counted, zero exactly when all three lists are empty |
| Dependencies.Missing | k3ng_config_tool/validators/dependency_validator.py:164-253 | exactly the listed names that are not active |
| Dependencies.Present | k3ng_config_tool/validators/dependency_validator.py:127-193 | exactly the listed names that are active |
| Dependencies.ExclusivityRuleIssues | k3ng_config_tool/validators/dependency_validator.py:111-148 | a rule gated off by `when` adds nothing; otherwise one error above `max_count` naming the active members in list order and one below `min_count` naming the whole group, none auto-fixable |
| Dependencies.InactiveSubjectSkipped | k3ng_config_tool/validators/dependency_validator.py:157-159 | a rule about an inactive feature adds no error and no auto-fix |
| Dependencies.DependencyRuleIssues | k3ng_config_tool/validators/dependency_validator.py:150-202 | for an active feature: one auto-fixable error for missing `requires`, one plain error when no `requires_any` is active, one auto-fixable `conflict` error for active `conflicts_with`; only the missing requirements become auto-fixes |
| Dependencies.TriggerAnyOverrides | k3ng_config_tool/validators/dependency_validator.py:211-222 | `trigger_any` overrides `trigger`, and a list-valued `trigger` fires when any of its names is active |
| Dependencies.AutoEnableRuleIssues | k3ng_config_tool/validators/dependency_validator.py:204-237 | a firing rule with inactive companions adds one auto-fixable info issue naming them and appends them to the auto-fixes; nothing otherwise |
| Dependencies.DisableRuleIssues | k3ng_config_tool/validators/dependency_validator.py:239-262 | a warning, never auto-fixable, exactly when the feature is active and some requirement is missing |
| Dependencies.PassedIgnoresInfoAndWarnings | k3ng_config_tool/validators/dependency_validator.py:101-107 | `passed` holds exactly when there are no errors, so the auto-enable and conditional-disable rules never change it |
| Dependencies.SeveritiesSorted | k3ng_config_tool/validators/dependency_validator.py:86-109 | errors, warnings and info issues each carry their own severity |
| Dependencies.FixesAreAnnounced | k3ng_config_tool/validators/dependency_validator.py:175-237 | every auto-fix is an inactive name that an auto-fixable error or info issue names |
| Dependencies.LastGroup | k3ng_config_tool/validators/dependency_validator.py:310-317 | the group of the last exclusivity rule listing the feature, none exactly when no rule lists it |
| Dependencies.SubstringTriggerListed | k3ng_config_tool/validators/dependency_validator.py:321-325 | on a single-name trigger the `in` test is a substring test, so a rule the feature cannot fire is listed under it |
| Dependencies.ListedMeansTriggers | k3ng_config_tool/validators/dependency_validator.py:319-325 | compared as names, a rule is listed under a feature exactly when activating that feature alone fires it |
| Dependencies.ExplainedRequirements | k3ng_config_tool/validators/dependency_validator.py:300-308 | a name is among the explained requirements exactly when a rule about the feature requires it |
| Dependencies.ExplainedRequirementChecked | k3ng_config_tool/validators/dependency_validator.py:300-304 | a requirement the explanation lists is reported as an auto-fix whenever the feature is active and that name is not |
| Dependencies.ActiveMembers | k3ng_config_tool/validators/dependency_validator.py:127 | the filter loop gives exactly the active names, in order |
| Dependencies.MissingMembers | k3ng_config_tool/validators/dependency_validator.py:164 | the filter loop gives exactly the inactive names, in order |
| Dependencies.CheckExclusivity | k3ng_config_tool/validators/dependency_validator.py:116-148 | the loop body gives the rule's exclusivity errors |
| Dependencies.CheckDependency | k3ng_config_tool/validators/dependency_validator.py:155-202 | the loop body gives the rule's errors and auto-fixes |
| Dependencies.CheckAutoEnable | k3ng_config_tool/validators/dependency_validator.py:209-237 | the loop body gives the rule's info issue and auto-fixes |
| Dependencies.AnyActive | k3ng_config_tool/validators/dependency_validator.py:215-222 | `any(t in active for t in ts)` holds exactly when some listed name is active |
| Dependencies.CheckDisable | k3ng_config_tool/validators/dependency_validator.py:244-262 | the loop body gives the rule's warning |
| Dependencies.DependencyLists | k3ng_config_tool/validators/dependency_validator.py:300-308 | the first loop concatenates the three lists of every rule about the feature |
| Dependencies.PartOfGroup | k3ng_config_tool/validators/dependency_validator.py:310-317 | the second loop keeps the group of the last exclusivity rule listing the feature |
| Dependencies.AutoEnables | k3ng_config_tool/validators/dependency_validator.py:319-325 | the third loop concatenates the companions of every rule listed under the feature |
| Dependencies.DependencyValidator.Validate | k3ng_config_tool/validators/dependency_validator.py:86-109 | the four rule families checked in order against features and options together, with `passed` exactly when there is no error |
| Dependencies.DependencyValidator.ValidateMutualExclusivity | k3ng_config_tool/validators/dependency_validator.py:111-148 | adds only errors, rule by rule |
| Dependencies.DependencyValidator.ValidateRequiredDependencies | k3ng_config_tool/validators/dependency_validator.py:150-202 | adds only errors and auto-fixes, rule by rule |
| Dependencies.DependencyValidator.ApplyAutoEnablement | k3ng_config_tool/validators/dependency_validator.py:204-237 | adds only info issues and auto-fixes, rule by rule |
| Dependencies.DependencyValidator.CheckConditionalDisable | k3ng_config_tool/validators/dependency_validator.py:239-262 | adds only warnings, rule by rule |
| Dependencies.DependencyValidator.GetAutoFixes | k3ng_config_tool/validators/dependency_validator.py:264-280 | the set of auto-fix names to enable, none of them active, and nothing to disable |
| Dependencies.DependencyValidator.ExplainFeatureRequirements | k3ng_config_tool/validators/dependency_validator.py:282-327 | the requirement lists, the group and the auto-enables, as the explanation function gives them |
| Boards.InterruptKeyMembership | k3ng_config_tool/boards/board_database.py:188-190 | an interrupt pin number is exactly the integer value of one of the interrupt keys |
| Boards.TestedMeaning | k3ng_config_tool/boards/board_database.py:275-302 | the capability set holds `digital` and exactly the capabilities whose test passed |
| Boards.CapabilitiesOfMeaning | k3ng_config_tool/boards/board_database.py:260-304 | a pin of a known board has a capability exactly when the board supports it on that pin |
| Boards.UsersMembers | k3ng_config_tool/boards/board_database.py:380-387 | the names using a value are exactly the assigned names whose value is that one, other than `0` and `None` |
| Boards.ConflictsExact | k3ng_config_tool/boards/board_database.py:378-398 | a value is reported exactly when two or more names use it, with exactly those names in assignment order, and never twice |
| Boards.ConflictsSkipUnassigned | k3ng_config_tool/boards/board_database.py:381-383 | `0` and `None` are never reported |
| Boards.BuildUsage | k3ng_config_tool/boards/board_database.py:378-387 | the first loop builds the usage map of the assignments |
| Boards.ReportShared | k3ng_config_tool/boards/board_database.py:389-396 | the second loop reports every value with more than one name, in map order |
| Boards.BoardDatabase.PinListsMatchQueries | k3ng_config_tool/boards/board_database.py:156-240 | a pin is in the PWM and interrupt lists exactly when the matching query answers yes |
| Boards.BoardDatabase.IsPwmPin | k3ng_config_tool/boards/board_database.py:156-170 | false for an unknown board |
| Boards.BoardDatabase.IsInterruptPin | k3ng_config_tool/boards/board_database.py:172-190 | true exactly when the board is known and the pin is the `int()` of one of its interrupt-map keys |
| Boards.BoardDatabase.IsAnalogPin | k3ng_config_tool/boards/board_database.py:192-205 | false for an unknown board |
| Boards.BoardDatabase.GetPwmPins | k3ng_config_tool/boards/board_database.py:207-220 | nothing for an unknown board; a pin is listed exactly when `is_pwm_pin` holds |
| Boards.BoardDatabase.GetInterruptPins | k3ng_config_tool/boards/board_database.py:222-237 | nothing for an unknown board, otherwise one number per interrupt-map key |
| Boards.BoardDatabase.GetReservedPins | k3ng_config_tool/boards/board_database.py:239-255 | the board's `<feature>_reserved` list, or nothing for an unknown board or a missing rule |
| Boards.BoardDatabase.UnknownBoardAnswers | k3ng_config_tool/boards/board_database.py:167-374 | an unknown board answers no, the empty list, the empty set or "unknown board" to every query |
| Boards.BoardDatabase.KnownBoardCapabilities | k3ng_config_tool/boards/board_database.py:275-302 | on a known board every pin is digital, has PWM or interrupt capability exactly as the queries say, and `uart` exactly when a serial port uses it |
| Boards.BoardDatabase.CapabilitiesMeaning | k3ng_config_tool/boards/board_database.py:260-304 | a reported capability is exactly one the pin supports |
| Boards.BoardDatabase.GetPinCapabilities | k3ng_config_tool/boards/board_database.py:260-304 | `get_pin_capabilities` returns the capabilities of the pin, or none for an unknown board |
| Boards.BoardDatabase.AddWiredCapabilities | k3ng_config_tool/boards/board_database.py:283-302 | the analog, I2C, SPI and serial tests add exactly the capabilities whose test passes |
| Boards.BoardDatabase.UsesSerial | k3ng_config_tool/boards/board_database.py:299-302 | the serial loop finds a port exactly when some port's `rx` or `tx` is the pin |
| Boards.BoardDatabase.ZeroIsValid | k3ng_config_tool/boards/board_database.py:324-326 | on a known board the number `0` is accepted whatever capability is asked for |
| Boards.BoardDatabase.ValidatePinAssignment | k3ng_config_tool/boards/board_database.py:306-359 | rejected as an unknown board exactly when the board is unknown; values that are neither integers nor `A` texts are accepted; an `A` text is rejected exactly when it is not an analog name; a PWM or interrupt rejection only for an integer lacking the capability asked for; range rejections only for non-zero integers |
| Boards.BoardDatabase.AnalogNameValid | k3ng_config_tool/boards/board_database.py:328-333 | a text starting with `A` is accepted exactly when it is one of the board's analog names, with no capability test |
| Boards.BoardDatabase.TwoElementRangeIsInterval | k3ng_config_tool/boards/board_database.py:339-343 | a two-element range is an inclusive interval, so numbers strictly between its ends are accepted |
| Boards.BoardDatabase.OtherRangeIsMembership | k3ng_config_tool/boards/board_database.py:344-347 | any other range list is the list of valid pins |
| Boards.BoardDatabase.CapabilityAfterRange | k3ng_config_tool/boards/board_database.py:336-359 | an out-of-range number is rejected as such whatever is asked for; an in-range one fails exactly when it lacks the PWM or interrupt capability asked for |
| Boards.BoardDatabase.DetectPinConflicts | k3ng_config_tool/boards/board_database.py:361-398 | no conflicts for an unknown board, otherwise the conflicts of the assignments |
| PinValidation.ActivePins | k3ng_config_tool/validators/pin_validator.py:101-105 | exactly the assignments whose value is not `0`, `'0'`, `None` or `'disabled'`, with their values |
| PinValidation.ConflictIssues | k3ng_config_tool/validators/pin_validator.py:180-188 | one error per conflict, in order, naming the conflict's pins |
| PinValidation.PinValidator.UnknownBoardOneError | k3ng_config_tool/validators/pin_validator.py:89-99 | an unknown board gives exactly one `board_validation` error naming no pin, no warning, and fails |
| PinValidation.PinValidator.PassedIgnoresFeatures | k3ng_config_tool/validators/pin_validator.py:73-119 | the validation passes exactly when there is no error, and the active features never change the errors or the verdict |
| PinValidation.PinValidator.ReservedAbout | k3ng_config_tool/validators/pin_validator.py:214-240 | a reserved-pin warning names one pin of the map checked |
| PinValidation.PinValidator.RangeAbout | k3ng_config_tool/validators/pin_validator.py:250-272 | a range error names one pin of the map checked |
| PinValidation.PinValidator.ConflictAbout | k3ng_config_tool/validators/pin_validator.py:178-188 | a conflict error names only pins of the map checked |
| PinValidation.PinValidator.ReservedWarningsAbout | k3ng_config_tool/validators/pin_validator.py:190-240 | every reserved-pin warning names one pin of the map checked |
| PinValidation.PinValidator.ReservedOnlyWhenEnabled | k3ng_config_tool/validators/pin_validator.py:212-240 | every warning is a reserved-pin warning, and there is none unless an I2C or SPI feature is active |
| PinValidation.PinValidator.IssueAbout | k3ng_config_tool/validators/pin_validator.py:107-117 | every pin any of the four checks names is one of the pins checked |
| PinValidation.PinValidator.DisabledValuesIgnored | k3ng_config_tool/validators/pin_validator.py:101-117 | an assignment to `0`, `'0'`, `None` or `'disabled'` is named by no error and no warning |
| PinValidation.PinValidator.CapabilityFailuresReported | k3ng_config_tool/validators/pin_validator.py:125-155 | a PWM-required or interrupt-required pin whose number lacks that capability gets an error naming it |
| PinValidation.PinValidator.AnalogFailureReported | k3ng_config_tool/validators/pin_validator.py:158-172 | an analog-required pin holding an `A` text that is not among the board's analog names gets an error naming it |
| PinValidation.PinValidator.CapabilityErrorsExplained | k3ng_config_tool/validators/pin_validator.py:121-172 | each capability error names one active pin that failed its check: a number for PWM and interrupts, an `A` text for analog input |
| PinValidation.PinValidator.ConflictsBecomeErrors | k3ng_config_tool/validators/pin_validator.py:178-188 | every conflict the board database reports becomes exactly one error, in order, naming its pins |
| PinValidation.PinValidator.SharedValueReported | k3ng_config_tool/validators/pin_validator.py:178-188 | two active pins with the same value are named together in a conflict error |
| PinValidation.PinValidator.RangeCheckSkips | k3ng_config_tool/validators/pin_validator.py:250-272 | texts and numbers above 99 are skipped, every other number outside a two-element range gets an error |
| PinValidation.PinValidator.RangeErrorsExact | k3ng_config_tool/validators/pin_validator.py:242-272 | a range error exactly for each active pin numbered at most 99 outside the board's two-element range |
| PinValidation.PinValidator.Validate | k3ng_config_tool/validators/pin_validator.py:73-119 | `validate` returns the errors, warnings and verdict of the model validation |
| PinValidation.PinValidator.RunChecks | k3ng_config_tool/validators/pin_validator.py:107-117 | the four checks add their errors and warnings in order, and the verdict fails exactly on an error |
| PinValidation.PinValidator.ValidatePinCapabilities | k3ng_config_tool/validators/pin_validator.py:121-172 | the three capability loops add only capability errors |
| PinValidation.PinValidator.CheckPwmPins | k3ng_config_tool/validators/pin_validator.py:125-139 | the PWM loop adds one error per PWM-required pin whose number lacks PWM |
| PinValidation.PinValidator.CheckInterruptPins | k3ng_config_tool/validators/pin_validator.py:141-155 | the interrupt loop adds one error per interrupt-required pin whose number lacks an interrupt |
| PinValidation.PinValidator.CheckAnalogPins | k3ng_config_tool/validators/pin_validator.py:157-172 | the analog loop adds one error per analog-required `A` text the board does not name |
| PinValidation.PinValidator.ValidatePinConflicts | k3ng_config_tool/validators/pin_validator.py:174-188 | adds only the conflict errors |
| PinValidation.PinValidator.ReportConflicts | k3ng_config_tool/validators/pin_validator.py:180-188 | the loop adds one error per conflict |
| PinValidation.PinValidator.ValidateReservedPins | k3ng_config_tool/validators/pin_validator.py:190-240 | adds only reserved-pin warnings, and never changes the verdict |
| PinValidation.PinValidator.WarnReserved | k3ng_config_tool/validators/pin_validator.py:214-240 | one reserved-pin loop warns about each pin whose value is in the reserved list |
| PinValidation.PinValidator.ValidatePinNumbers | k3ng_config_tool/validators/pin_validator.py:242-272 | adds only range errors |
| PinValidation.PinValidator.CheckPinNumber | k3ng_config_tool/validators/pin_validator.py:250-272 | the loop body adds the pin's range error, if any |
| PinValidation.PinValidator.SuggestionsMatchCapability | k3ng_config_tool/validators/pin_validator.py:274-290 | suggestions only for `pwm` and `interrupt` (none for `analog`), and then exactly the pins with that capability |
| PinValidation.PinValidator.GetPinSuggestions | k3ng_config_tool/validators/pin_validator.py:274-290 | nothing for a capability other than `pwm` or `interrupt`, and nothing for an unknown board |
| PinValidation.PinValidator.ExplainPinRequirements | k3ng_config_tool/validators/pin_validator.py:292-325 | the first capability, in the order PWM, interrupt, analog, whose requirement list holds the pin; no capability, description or notes for a pin in no list |
| PinValidation.PinValidator.CapabilityErrorsAreExplained | k3ng_config_tool/validators/pin_validator.py:292-325 | `explain_pin_requirements` gives a required capability, with notes, to every pin that the capability check reports |
| Config.JoinSplits | k3ng_config_tool/core/config_manager.py:32-38 | appending a component and then taking the parent and the last component gives both back |
| Config.FromProjectDir | k3ng_config_tool/core/config_manager.py:29-39 | the four headers, under their own names, side by side in the `k3ng_rotator_controller` directory of the project |
| Config.HeadersDistinct | k3ng_config_tool/core/config_manager.py:35-37 | the features, pins and settings files are three different paths |
| Config.EnableEffect | k3ng_config_tool/core/config_manager.py:189-197 | enabling a known feature switches its define on, uncomments it and adds it to the active set; nothing else changes; an unknown name changes nothing |
| Config.DisableEffect | k3ng_config_tool/core/config_manager.py:199-207 | disabling a known feature switches its define off, comments it out and removes it from the active set; nothing else changes; an unknown name changes nothing |
| Config.LastToggleWins | k3ng_config_tool/core/config_manager.py:189-207 | of two toggles of the same name the last one decides |
| Config.TogglesKeepActiveSet | k3ng_config_tool/core/config_manager.py:194-207 | toggling keeps the active set equal to the names whose define is active |
| Config.AssignKeepsIdentity | k3ng_config_tool/core/config_manager.py:233-235 | assigning a pin stores the new text and keeps the pin's name, feature, comment and line |
| Config.AssignAnalog | k3ng_config_tool/core/config_manager.py:238-241 | an `A…` value makes the pin analog and enabled with no number, and keeps its remote flag |
| Config.AssignInteger | k3ng_config_tool/core/config_manager.py:243-248 | an integer value becomes the pin number: disabled exactly for 0, remote exactly above 99, never analog |
| Config.AssignOther | k3ng_config_tool/core/config_manager.py:249-250 | any other value only disables the pin |
| Config.DisabledMeaning | k3ng_config_tool/core/config_manager.py:238-250 | a pin ends up disabled exactly when its value is neither an `A…` text nor a nonzero integer |
| Config.AssignIdempotent | k3ng_config_tool/core/config_manager.py:228-250 | assigning the same value twice is the same as assigning it once |
| Config.ImportFeaturesEffect | k3ng_config_tool/core/config_manager.py:333-340 | after the features section, a known feature it lists is enabled exactly when its entry says so; everything else keeps its define and its place in the active set |
| Config.ImportFeatureStep | k3ng_config_tool/core/config_manager.py:335-340 | one more entry of the features section keeps that description true |
| Config.ImportPinsEffect | k3ng_config_tool/core/config_manager.py:342-345 | after the pins section, a known pin it lists holds the assignment of its value, or of `"0"`; every other pin and the parser's derived sets are unchanged |
| Config.ImportSettingsEffect | k3ng_config_tool/core/config_manager.py:347-350 | after the settings section, a known setting it lists holds its entry's value, or `None`; nothing else changes |
| Config.SetSettingEffect | k3ng_config_tool/core/config_manager.py:266-272 | setting a known setting's value changes that value alone; an unknown name changes nothing |
| Config.FirstListedMeaning | k3ng_config_tool/core/config_manager.py:127-160 | the first active candidate of a fixed list, none exactly when no candidate is active |
| Config.AssignedCountBounds | k3ng_config_tool/core/config_manager.py:162-166 | at most every pin is assigned, and every pin exactly when none is disabled |
| Config.MembersOfMeaning | k3ng_config_tool/core/config_manager.py:209-282 | the members of the first category with the name, none when no category has it |
| Config.FirstMembers | k3ng_config_tool/core/config_manager.py:209-282 | the search loop returns the members of the first category with the name |
| Config.ConfigurationManager.Load | k3ng_config_tool/core/config_manager.py:85-110 | each table is stored as its parser succeeds; the first failure stops the load and leaves the loaded flag; success exactly when all three parse |
| Config.ConfigurationManager.EnableFeature | k3ng_config_tool/core/config_manager.py:189-197 | an error before loading, otherwise the enable edit on the feature table alone |
| Config.ConfigurationManager.DisableFeature | k3ng_config_tool/core/config_manager.py:199-207 | an error before loading, otherwise the disable edit on the feature table alone |
| Config.ConfigurationManager.SetPinAssignment | k3ng_config_tool/core/config_manager.py:228-250 | an error before loading, otherwise the assignment of a known pin, on the pin table alone |
| Config.ConfigurationManager.SetSettingValue | k3ng_config_tool/core/config_manager.py:266-272 | an error before loading, otherwise a known setting's new value, on the settings table alone |
| Config.ConfigurationManager.ImportFromDict | k3ng_config_tool/core/config_manager.py:328-350 | an error before loading; otherwise each present section imported, entry by entry, into its own table |
| Config.ConfigurationManager.ImportFeatureSection | k3ng_config_tool/core/config_manager.py:334-340 | the features loop gives the imported feature table |
| Config.ConfigurationManager.ImportPinSection | k3ng_config_tool/core/config_manager.py:343-345 | the pins loop gives the imported pin table |
| Config.ConfigurationManager.ImportSettingSection | k3ng_config_tool/core/config_manager.py:348-350 | the settings loop gives the imported settings table |
| Config.ConfigurationManager.GetSummary | k3ng_config_tool/core/config_manager.py:116-180 | an error before loading; otherwise the first listed protocol and display, a sensor with the right prefix whenever one is active, the elevation sensor only with elevation control, and the table counts |
| Config.ConfigurationManager.FirstActive | k3ng_config_tool/core/config_manager.py:127-160 | the search loop stops at the first active entry of the list |
| Config.ConfigurationManager.AnyWithPrefix | k3ng_config_tool/core/config_manager.py:134-147 | the loop finds an active name with the prefix whenever there is one, and none otherwise |
| Config.ConfigurationManager.CountAssigned | k3ng_config_tool/core/config_manager.py:162-166 | the sum counts the pins that are not disabled |
| Config.ConfigurationManager.GetFeaturesByCategory | k3ng_config_tool/core/config_manager.py:209-217 | nothing before loading, otherwise the features of the first category with the name |
| Config.ConfigurationManager.GetPinAssignment | k3ng_config_tool/core/config_manager.py:220-226 | a text exactly for a known pin once loaded, and then its stored text |
| Config.ConfigurationManager.GetSettingValue | k3ng_config_tool/core/config_manager.py:259-264 | `None` before loading and for an unknown name, otherwise the setting's value |
| Config.ConfigurationManager.GetSettingsByCategory | k3ng_config_tool/core/config_manager.py:274-282 | nothing before loading, otherwise the settings of the first category with the name |
| TestBase.StatusPredicatesExclusive | k3ng_config_tool/testing/test_base.py:35-45 | at most one of `passed()`, `failed()` and `skipped()` holds, and none exactly for a pending, running or error result |
| TestBase.StatusCountsSum | k3ng_config_tool/testing/test_base.py:86-104 | the six status counts of a result list add up to its length |
| TestBase.NoneCounted | k3ng_config_tool/testing/test_base.py:86-104 | a status count is zero exactly when no result has that status |
| TestBase.TestSuiteResult.SuccessRate | k3ng_config_tool/testing/test_base.py:106-111 | 0 for no results, always between 0 and 100, and 100 exactly when there are results and all passed |
| TestBase.TestSuiteResult.CountsWithinTotal | k3ng_config_tool/testing/test_base.py:81-104 | passed, failed, skipped and error results are all results but the pending and running ones |
| TestBase.TestSuiteResult.AllPassedMeaning | k3ng_config_tool/testing/test_base.py:113-115 | `all_passed` holds exactly when there is a result and none failed or raised |
| TestBase.Executed | k3ng_config_tool/testing/test_base.py:194-197 | the returned result carries the measured duration |
| TestBase.ExecutedMeaning | k3ng_config_tool/testing/test_base.py:156-199 | an exception from setup, the test or teardown becomes an error result carrying the test's name and that exception; otherwise the test's own result is kept |
| TestBase.ExecutedKeepsStatus | k3ng_config_tool/testing/test_base.py:165-199 | a test whose hooks all complete keeps the status it reported |
| TestBase.BaseTest.Execute | k3ng_config_tool/testing/test_base.py:156-199 | `execute` returns and stores the result its hooks determine, with the elapsed time |
| TestBase.BaseTest.Skip | k3ng_config_tool/testing/test_base.py:201-216 | a skipped result for the test, carrying the reason or "Test skipped" when none is given |
| TestBase.Failure | k3ng_config_tool/testing/test_base.py:221-246 | the caller's message when there is one, otherwise the helper's default text |
| TestBase.AssertTrue | k3ng_config_tool/testing/test_base.py:218-221 | raises exactly when the condition is false |
| TestBase.AssertFalse | k3ng_config_tool/testing/test_base.py:223-226 | raises exactly when the condition is true |
| TestBase.AssertEqual | k3ng_config_tool/testing/test_base.py:228-233 | raises exactly when the values differ |
| TestBase.AssertNotEqual | k3ng_config_tool/testing/test_base.py:235-240 | raises exactly when the values are equal |
| TestBase.AssertInRange | k3ng_config_tool/testing/test_base.py:242-247 | raises exactly when the value is outside the closed interval |
| TestBase.EqualityAssertionsComplement | k3ng_config_tool/testing/test_base.py:228-240 | exactly one of `assert_equal` and `assert_not_equal` raises on the same values, with the same message |
| TestBase.EmptyRangeRejects | k3ng_config_tool/testing/test_base.py:242-247 | an interval with crossed bounds rejects every value |
| TestEngine.TestCategory.AddTest | k3ng_config_tool/testing/test_engine.py:103-112 | the test is appended and the length grows by one |
| TestEngine.FirstNamedMeaning | k3ng_config_tool/testing/test_engine.py:129-134 | the first category with the name, none exactly when no category has it |
| TestEngine.TotalIsAllTests | k3ng_config_tool/testing/test_engine.py:136-156 | the total count is the number of tests `get_all_tests` returns |
| TestEngine.AllTestsMembers | k3ng_config_tool/testing/test_engine.py:136-141 | a test is among all tests exactly when some category holds it |
| TestEngine.TestRegistry.AddCategory | k3ng_config_tool/testing/test_engine.py:125-127 | the category is appended |
| TestEngine.TestRegistry.GetCategory | k3ng_config_tool/testing/test_engine.py:129-134 | the search loop returns the first category with the name |
| TestEngine.TestRegistry.GetAllTests | k3ng_config_tool/testing/test_engine.py:136-141 | the loop concatenates the categories' tests in order |
| TestEngine.TestRegistry.GetTestsByCategory | k3ng_config_tool/testing/test_engine.py:143-148 | the named category's tests, or none for an unknown name |
| TestEngine.TestRegistry.CategoryNames | k3ng_config_tool/testing/test_engine.py:150-152 | the category names, in order |
| TestEngine.TestRegistry.NamedIffListed | k3ng_config_tool/testing/test_engine.py:129-152 | a name finds a category exactly when it is among the category names |
| TestEngine.TestRegistry.TotalTests | k3ng_config_tool/testing/test_engine.py:154-156 | the sum of the categories' lengths, which is the number of all tests |
| TestEngine.RecordedUpTo | k3ng_config_tool/testing/test_engine.py:52-74 | one recorded result per test run |
| TestEngine.RaisedSpoilsSuite | k3ng_config_tool/testing/test_engine.py:64-73 | a test whose `execute` raised leaves an error result under its name, so the suite has an error |
| TestEngine.RunCount | k3ng_config_tool/testing/test_engine.py:52-55 | all tests run unless the engine is stopped before one, and then just those before it |
| TestEngine.TestEngine.Stop | k3ng_config_tool/testing/test_engine.py:82-84 | the engine is no longer running |
| TestEngine.TestEngine.RunTests | k3ng_config_tool/testing/test_engine.py:32-80 | a fresh suite with the name and the two times, holding one result per test run, in input order; the engine ends not running |

## Left out

- File reading, YAML and JSON loading (header files, rule files, board definition files,
  `export_to_json`, `import_from_json`): the lines, rule tables, board table and imported
  data are parameters. An unreadable header is modelled as absent lines.
- `export_to_dict`: it only copies fields into a JSON-shaped dictionary.
- `load`'s console message on failure: output, not state.
- `is_loaded`, `TestEngine.is_running` and `TestCategory.get_tests` only return a field; the
  model reads the field.
- The regular expressions: directive, identifier and array-literal recognition are written
  out as explicit prefix, token and character matching.
- Python `int()` and `float()` are partial parses of ASCII decimal literals. Underscore
  digit separators, exponents, `inf`/`nan` and non-ASCII digits are not accepted by the
  model. Floats are exact reals, so rounding is not modelled.
- Message and suggestion texts built with f-strings are the opaque value `Composed`. Texts
  taken verbatim from a rule table are kept.
- User interface, serial communication, hardware test cases, calibration, code generation,
  export and backups, the command-line entry points, the launcher and packaging: outside
  the configuration pipeline.
- `create_test_registry` only builds the hardware tests. `SerialTest` needs a serial link.
- The Qt signals of `TestEngine`. The cross-thread `stop` is the index `stopAt` at which
  the loop first finds itself stopped.
- Timestamps, `__str__`/`__repr__`, and the `expected`, `actual` and `metadata` fields of
  a test result. Durations come from clock readings given as parameters.
- TestBase.BaseTest.Execute: treats `run_test` as always returning a result, so a `None`
  return is not modelled. The second `teardown` call in the error path is left out: its
  exceptions are swallowed and it cannot change the result.
- Config.ConfigurationManager.GetSummary: states only that the reported sensor is some
  active feature with the prefix. Python iterates a `set`, and its order is unspecified.
- Config.ConfigurationManager.IsFeatureEnabled and Config.ConfigurationManager.GetPinConflicts
  have no contract of their own. The first is the membership test on the active set. The
  second returns the pin parser's conflict list, whose properties are proved as
  Pins.ConflictsExact and Pins.ConflictsSkipNonDigital.
- Boards.BoardDatabase.GetPinCapabilities: requires every interrupt-map key of the board
  to be a decimal number, because `int()` raising on another key is not modelled. The same
  requirement applies to Boards.BoardDatabase.IsInterruptPin and
  Boards.BoardDatabase.GetInterruptPins.
- PinValidation.PinValidator.Validate: has the same requirement on the interrupt-map keys
  of the board being validated.
- Dependencies.DependencyValidator.ExplainFeatureRequirements: compares a single-name
  `trigger` with the feature by name, not by Python's substring `in` (see Findings).
- Rule tables are taken as well formed: a rule missing a key that the Python code indexes
  directly (a `KeyError`) is not modelled.
- Text handling is ASCII-only. Python's `str.strip`, `str.isspace`, `str.lower`/`upper`
  and the `\s` and `\d` classes of `re` also accept non-ASCII whitespace, digits and
  letters, and the model does not.
- TestEngine.TestEngine.RunTests: takes each test's `execute` outcome as a parameter and
  does not update the test objects. In Python, `execute` also stores the result in the
  test's own `result` field; TestBase.BaseTest.Execute models that for a single test.
- Pin values are integers, texts or `None`. Other Python values are not modelled, nor is
  the equality of `True` with `1`.
- Paths are lists of components. The model does no normalisation and no operating-system
  separators.
- `ConfigurationManager.validate`, `apply_auto_fixes` and `list_boards` are called by
  `main.py` but not defined in `config_manager.py`. They are not part of this model.

## Findings

| source | as written | input that shows it | evidently intended | confidence | as-written member | corrected member |
|---|---|---|---|---|---|---|
| k3ng_config_tool/validators/dependency_validator.py:321-325 | `feature in trigger` is a substring test when `trigger` is a single name | trigger `FEATURE_MOON_TRACKING`, feature `FEATURE_MOON`: the rule is listed as an auto-enable of `FEATURE_MOON`, although enabling `FEATURE_MOON` alone never fires it | compare the trigger with the feature by name | not executed | Dependencies.SubstringTriggerListed | Dependencies.ListedMeansTriggers |
