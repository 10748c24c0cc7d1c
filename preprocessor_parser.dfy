/** The C preprocessor directive parser for the K3NG rotator headers: a single forward pass
    over the lines of a header that records every `#define` (including ones disabled with a
    leading `//`), builds the tree of `#ifdef`/`#ifndef`/`#if defined()`/`#if !defined()`
    blocks, collects block-comment text, and reports unbalanced `#endif`/unclosed blocks.
    `resolve_conditionals` then computes which names are active from a base set. */
module Preprocessor {
  import opened Wrappers
  import opened Strings
  import opened Dicts

  // ---------------------------------------------------------------------------------------
  // Data model
  // ---------------------------------------------------------------------------------------

  datatype ConditionalType = Ifdef | Ifndef | IfDefined | IfNotDefined

  /** One `#define NAME [VALUE] [// comment]`, possibly written as `// #define …`. */
  datatype DefineNode = DefineNode(
    name: string,
    value: Option<string>,
    lineNumber: nat,
    comment: Option<string>,
    conditionalScope: Option<string>,
    isActive: bool,
    isCommented: bool)

  /** A conditional block: the defines of its true branch, of its `#else` branch, and the
      blocks closed inside it, in the order they were closed. */
  datatype ConditionalBlock = ConditionalBlock(
    conditionType: ConditionalType,
    condition: string,
    startLine: nat,
    endLine: nat,
    defines: seq<DefineNode>,
    elseDefines: seq<DefineNode>,
    nestedBlocks: seq<ConditionalBlock>)

  datatype ParseError =
    | ReadFailure
    | StrayEndif(line: nat)
    | Unclosed(line: nat, kind: ConditionalType, condition: string)

  datatype ParseResult = ParseResult(
    defines: Dict<string, DefineNode>,
    conditionals: seq<ConditionalBlock>,
    comments: map<nat, string>,
    rawLines: seq<string>,
    success: bool,
    errors: seq<ParseError>)

  /** `ConditionalBlock.is_active` */
  predicate IsActive(b: ConditionalBlock, active: set<string>) {
    match b.conditionType
    case Ifdef => b.condition in active
    case Ifndef => b.condition !in active
    case IfDefined => b.condition in active
    case IfNotDefined => b.condition !in active
  }

  /** The positive and the negative test of the same symbol are never active together,
      and exactly one of them always is. */
  lemma ActiveComplement(b: ConditionalBlock, active: set<string>)
    ensures IsActive(b.(conditionType := Ifdef), active) != IsActive(b.(conditionType := Ifndef), active)
    ensures IsActive(b.(conditionType := IfDefined), active) != IsActive(b.(conditionType := IfNotDefined), active)
    ensures IsActive(b.(conditionType := Ifdef), active) <==> b.condition in active
    ensures IsActive(b.(conditionType := IfDefined), active) <==> b.condition in active
  {
  }

  // ---------------------------------------------------------------------------------------
  // Directive recognition (the eight directive patterns, as token matching)
  // ---------------------------------------------------------------------------------------

  datatype Directive =
    | DefineLine(name: string, value: Option<string>, comment: Option<string>)
    | Open(kind: ConditionalType, condition: string)
    | ElseLine
    | EndifLine
    | UndefLine(name: string)
    | NoDirective

  /** Length of the longest prefix made of identifier characters. */
  function IdentLen(s: string): (r: nat)
    ensures r <= |s|
    ensures forall i | 0 <= i < r :: IsIdentChar(s[i])
    ensures r < |s| ==> !IsIdentChar(s[r])
  {
    if s != [] && IsIdentChar(s[0]) then 1 + IdentLen(s[1..]) else 0
  }

  /** A `//` starts at position `i`. */
  predicate MarkAt(s: string, i: int) {
    0 <= i && i + 1 < |s| && s[i] == '/' && s[i + 1] == '/'
  }

  /** Index of the first `//` in a string, or its length when there is none. */
  function FindComment(s: string): (r: nat)
    ensures r <= |s|
    ensures r < |s| ==> MarkAt(s, r)
    ensures forall i | 0 <= i < r :: !MarkAt(s, i)
  {
    if |s| < 2 then |s|
    else if s[0] == '/' && s[1] == '/' then 0
    else
      var r := FindComment(s[1..]);
      assert forall i | 1 <= i < 1 + r :: MarkAt(s, i) == MarkAt(s[1..], i - 1);
      1 + r
  }

  /** What the patterns see after their optional `//` prefix and the blanks following it. */
  function DirectiveBody(stripped: string): string {
    if StartsWith(stripped, "//") then TrimLeft(stripped[2..]) else stripped
  }

  /** `kw\s+([A-Za-z_][A-Za-z0-9_]*)` at the start of `body`: the identifier and what follows it. */
  function KeywordIdent(body: string, kw: string): (r: Option<(string, string)>)
    ensures r.Some? ==> StartsWith(body, kw)
  {
    if !StartsWith(body, kw) then None
    else
      var a := body[|kw|..];
      var t := TrimLeft(a);
      if |t| == |a| || t == [] || !IsIdentStart(t[0]) then None
      else
        var k := IdentLen(t);
        Some((t[..k], t[k..]))
  }

  /** `\(\s*([A-Za-z_][A-Za-z0-9_]*)\s*\)` at the start of `u`: the parenthesised identifier. */
  function CallArg(u: string): Option<string> {
    if !StartsWith(u, "(") then None
    else
      var v := TrimLeft(u[1..]);
      if v == [] || !IsIdentStart(v[0]) then None
      else
        var k := IdentLen(v);
        if StartsWith(TrimLeft(v[k..]), ")") then Some(v[..k]) else None
  }

  /** `#if\s+kw\s*\(\s*([A-Za-z_][A-Za-z0-9_]*)\s*\)` at the start of `body`,
      for `kw` either `defined` or `!defined`. */
  function IfDefinedName(body: string, kw: string): (r: Option<string>)
    ensures r.Some? ==> StartsWith(body, "#if")
  {
    if !StartsWith(body, "#if") then None
    else
      var a := body[3..];
      var t := TrimLeft(a);
      if |t| == |a| || !StartsWith(t, kw) then None
      else CallArg(TrimLeft(t[|kw|..]))
  }

  /** `#define\s+NAME\s*(.*?)(?://(.*))?$`: the value runs up to the first `//` and the
      comment is everything after it; each is absent when empty. */
  function DefineDirective(body: string): (r: Option<Directive>)
    ensures r.Some? ==> StartsWith(body, "#define") && r.value.DefineLine?
  {
    match KeywordIdent(body, "#define")
    case None => None
    case Some((name, rest)) => Some(DefineParts(name, rest))
  }

  /** The value and comment groups of a `#define` whose name is followed by `rest`. */
  function DefineParts(name: string, rest: string): (r: Directive)
    ensures r.DefineLine? && r.name == name
  {
    var t := TrimLeft(rest);
    var k := FindComment(t);
    var v := t[..k];
    var c := if k < |t| then t[k + 2..] else [];
    DefineLine(name, if v != [] then Some(Strip(v)) else None, if c != [] then Some(Strip(c)) else None)
  }

  /** The directive a stripped line holds, trying the patterns in the parser's order. */
  function Classify(stripped: string): Directive {
    ClassifyBody(DirectiveBody(stripped))
  }

  function ClassifyBody(body: string): (r: Directive)
    ensures r != NoDirective ==> body != [] && body[0] == '#'
  {
    if body == [] || body[0] != '#' then NoDirective
    else if DefineDirective(body).Some? then DefineDirective(body).value
    else if KeywordIdent(body, "#ifdef").Some? then Open(Ifdef, KeywordIdent(body, "#ifdef").value.0)
    else if KeywordIdent(body, "#ifndef").Some? then Open(Ifndef, KeywordIdent(body, "#ifndef").value.0)
    else if IfDefinedName(body, "defined").Some? then Open(IfDefined, IfDefinedName(body, "defined").value)
    else if IfDefinedName(body, "!defined").Some? then Open(IfNotDefined, IfDefinedName(body, "!defined").value)
    else if StartsWith(body, "#else") then ElseLine
    else if StartsWith(body, "#endif") then EndifLine
    else if KeywordIdent(body, "#undef").Some? then UndefLine(KeywordIdent(body, "#undef").value.0)
    else NoDirective
  }

  /** A recognised directive always starts with `#`, possibly after `//`. */
  lemma DirectivePassesFilter(stripped: string)
    requires Classify(stripped) != NoDirective
    ensures StartsWith(stripped, "#") || (StartsWith(stripped, "//") && '#' in stripped)
  {
    var body := DirectiveBody(stripped);
    if StartsWith(stripped, "//") {
      assert body[0] == stripped[|stripped| - |body|];
    }
  }

  lemma {:induction false} IdentLenOfIdentifier(n: string, tail: string)
    requires forall i | 0 <= i < |n| :: IsIdentChar(n[i])
    requires tail == [] || !IsIdentChar(tail[0])
    ensures IdentLen(n + tail) == |n|
    decreases |n|
  {
    var s := n + tail;
    if n == [] {
      assert s == tail;
    } else {
      assert s[0] == n[0];
      assert s[1..] == n[1..] + tail;
      var m := n[1..];
      assert forall i | 0 <= i < |m| :: IsIdentChar(m[i]) by {
        forall i | 0 <= i < |m|
          ensures IsIdentChar(m[i])
        {
          assert m[i] == n[i + 1];
        }
      }
      IdentLenOfIdentifier(m, tail);
    }
  }

  /** One blank before a string that does not start with one is all `lstrip` removes. */
  lemma TrimOneBlank(x: string)
    requires x == [] || !IsSpace(x[0])
    ensures TrimLeft(" " + x) == x
  {
    assert (" " + x)[1..] == x;
    NoTrimLeft(x);
  }

  /** `kw NAME tail` for an identifier NAME and a tail that cannot extend it. */
  lemma KeywordIdentOf(kw: string, n: string, tail: string)
    requires IsIdentifier(n) && (tail == [] || !IsIdentChar(tail[0]))
    ensures KeywordIdent(kw + " " + n + tail, kw) == Some((n, tail))
  {
    var body := kw + " " + n + tail;
    AppendAssoc(kw + " ", n, tail);
    AppendAssoc(kw, " ", n + tail);
    assert body == kw + (" " + (n + tail));
    assert body[..|kw|] == kw;
    assert body[|kw|..] == " " + (n + tail);
    TrimOneBlank(n + tail);
    IdentLenOfIdentifier(n, tail);
    assert (n + tail)[..|n|] == n;
    assert (n + tail)[|n|..] == tail;
  }

  /** A keyword the body differs from at some position matches nothing. */
  lemma KeywordMiss(body: string, kw: string, i: nat)
    requires i < |body| && i < |kw| && body[i] != kw[i]
    ensures KeywordIdent(body, kw) == None
  {
    NotPrefix(body, kw, i);
  }

  lemma CallArgOf(n: string)
    requires IsIdentifier(n)
    ensures CallArg("(" + n + ")") == Some(n)
  {
    var u := "(" + n + ")";
    var v := n + ")";
    assert u[0] == '(';
    assert StartsWith(u, "(");
    assert u[1..] == v;
    NoTrimLeft(v);
    IdentLenOfIdentifier(n, ")");
    assert v[..|n|] == n;
    assert v[|n|..] == ")";
    NoTrimLeft(")");
  }

  /** After `#if` and one blank, the test reads its keyword and then the parenthesised name. */
  lemma IfDefinedNameAfterBlank(t: string, kw: string)
    requires t != [] && !IsSpace(t[0])
    ensures IfDefinedName("#if " + t, kw) == if StartsWith(t, kw) then CallArg(TrimLeft(t[|kw|..])) else None
  {
    var body := "#if " + t;
    assert body[..3] == "#if";
    assert body[3..] == " " + t;
    TrimOneBlank(t);
  }

  /** A body that differs from `#if` in its first three characters is no `defined` test. */
  lemma IfDefinedMiss(body: string, kw: string, i: nat)
    requires i < 3 && i < |body| && body[i] != "#if"[i]
    ensures IfDefinedName(body, kw) == None
  {
    NotPrefix(body, "#if", i);
  }

  /** `#if ` followed by text that differs from the keyword is no test of that keyword. */
  lemma IfDefinedKeywordMiss(body: string, kw: string, i: nat)
    requires |body| > 4 && StartsWith(body, "#if") && body[3] == ' ' && !IsSpace(body[4])
    requires 4 + i < |body| && i < |kw| && body[4 + i] != kw[i]
    ensures IfDefinedName(body, kw) == None
  {
    var a := body[3..];
    assert a[1..] == body[4..];
    NoTrimLeft(body[4..]);
    assert TrimLeft(a) == body[4..];
    NotPrefix(body[4..], kw, i);
  }

  /** `#if` glued to what follows it is no `defined` test. */
  lemma IfDefinedNoBlank(body: string, kw: string)
    requires |body| > 3 && !IsSpace(body[3])
    ensures IfDefinedName(body, kw) == None
  {
    NoTrimLeft(body[3..]);
  }

  /** `#if KW(NAME)` for an identifier NAME. */
  lemma IfDefinedNameOf(kw: string, n: string)
    requires IsIdentifier(n) && kw != [] && !IsSpace(kw[0])
    ensures IfDefinedName("#if " + kw + "(" + n + ")", kw) == Some(n)
  {
    var u := "(" + n + ")";
    var t := kw + u;
    assert "#if " + kw + "(" + n + ")" == "#if " + t;
    IfDefinedNameAfterBlank(t, kw);
    assert t[..|kw|] == kw;
    assert t[|kw|..] == u;
    NoTrimLeft(u);
    CallArgOf(n);
  }

  /** The directive spellings used below, as the pieces the matching lemmas take apart. */
  lemma SpelledApart()
    ensures "#if defined(" == "#if " + "defined" + "("
    ensures "#if !defined(" == "#if " + "!defined" + "("
    ensures "#define " == "#define" + " "
    ensures " //" == " " + "//"
  {
  }

  lemma PlainBody(s: string)
    requires s != [] && s[0] == '#'
    ensures DirectiveBody(s) == s
  {
  }

  /** `#ifdef NAME` opens an `#ifdef` block on NAME. */
  lemma ClassifyIfdef(n: string)
    requires IsIdentifier(n)
    ensures Classify("#ifdef " + n) == Open(Ifdef, n)
  {
    var s := "#ifdef " + n;
    assert s == "#ifdef" + " " + n + "";
    assert KeywordIdent(s, "#define") == None by { KeywordMiss(s, "#define", 1); }
    assert KeywordIdent(s, "#ifdef") == Some((n, "")) by { KeywordIdentOf("#ifdef", n, ""); }
    PlainBody(s);
  }

  /** `#ifndef NAME` opens an `#ifndef` block on NAME. */
  lemma ClassifyIfndef(n: string)
    requires IsIdentifier(n)
    ensures Classify("#ifndef " + n) == Open(Ifndef, n)
  {
    var s := "#ifndef " + n;
    assert s == "#ifndef" + " " + n + "";
    assert KeywordIdent(s, "#define") == None by { KeywordMiss(s, "#define", 1); }
    assert KeywordIdent(s, "#ifdef") == None by { KeywordMiss(s, "#ifdef", 3); }
    assert KeywordIdent(s, "#ifndef") == Some((n, "")) by { KeywordIdentOf("#ifndef", n, ""); }
    PlainBody(s);
  }

  /** `#if defined(NAME)` opens an `#if defined` block on NAME. */
  lemma ClassifyIfDefined(n: string)
    requires IsIdentifier(n)
    ensures Classify("#if defined(" + n + ")") == Open(IfDefined, n)
  {
    var s := "#if defined(" + n + ")";
    assert s == "#if " + "defined" + "(" + n + ")" by { SpelledApart(); }
    assert KeywordIdent(s, "#define") == None by { KeywordMiss(s, "#define", 1); }
    assert KeywordIdent(s, "#ifdef") == None by { KeywordMiss(s, "#ifdef", 3); }
    assert KeywordIdent(s, "#ifndef") == None by { KeywordMiss(s, "#ifndef", 3); }
    assert IfDefinedName(s, "defined") == Some(n) by { IfDefinedNameOf("defined", n); }
    PlainBody(s);
  }

  /** `#if !defined(NAME)` opens an `#if !defined` block on NAME. */
  lemma ClassifyIfNotDefined(n: string)
    requires IsIdentifier(n)
    ensures Classify("#if !defined(" + n + ")") == Open(IfNotDefined, n)
  {
    var s := "#if !defined(" + n + ")";
    IfNotDefinedMisses(n);
    IfNotDefinedNamed(n);
    PlainBody(s);
    ClassifyAsIfNotDefined(s, n);
  }

  /** `#if !defined(NAME)` matches none of the patterns tried before its own. */
  lemma IfNotDefinedMisses(n: string)
    ensures var s := "#if !defined(" + n + ")";
      && s[0] == '#'
      && KeywordIdent(s, "#define") == None && KeywordIdent(s, "#ifdef") == None
      && KeywordIdent(s, "#ifndef") == None
  {
    var s := "#if !defined(" + n + ")";
    KeywordMiss(s, "#define", 1);
    KeywordMiss(s, "#ifdef", 3);
    KeywordMiss(s, "#ifndef", 3);
  }

  /** `#if !defined(NAME)` is not `#if defined(...)`, and names NAME as `!defined`. */
  lemma IfNotDefinedNamed(n: string)
    requires IsIdentifier(n)
    ensures IfDefinedName("#if !defined(" + n + ")", "defined") == None
    ensures IfDefinedName("#if !defined(" + n + ")", "!defined") == Some(n)
  {
    var s := "#if !defined(" + n + ")";
    assert s == "#if " + "!defined" + "(" + n + ")" by { SpelledApart(); }
    IfDefinedKeywordMiss(s, "defined", 0);
    IfDefinedNameOf("!defined", n);
  }

  /** A line that gets past the earlier patterns and names NAME as `!defined` opens an
      `#if !defined` block on NAME. */
  lemma ClassifyAsIfNotDefined(body: string, n: string)
    requires body != [] && body[0] == '#'
    requires KeywordIdent(body, "#define") == None && KeywordIdent(body, "#ifdef") == None
    requires KeywordIdent(body, "#ifndef") == None && IfDefinedName(body, "defined") == None
    requires IfDefinedName(body, "!defined") == Some(n)
    ensures ClassifyBody(body) == Open(IfNotDefined, n)
  {
  }

  /** `#else` and `#endif` are recognised by their prefix alone. */
  lemma ClassifyElseEndif(tail: string)
    ensures Classify("#else" + tail) == ElseLine
    ensures Classify("#endif" + tail) == EndifLine
  {
    ElseMisses(tail);
    PlainBody("#else" + tail);
    ClassifyAsElse("#else" + tail);
    EndifMisses(tail);
    PlainBody("#endif" + tail);
    ClassifyAsEndif("#endif" + tail);
  }

  /** `#else...` matches no pattern that opens or defines, and starts with `#else`. */
  lemma ElseMisses(tail: string)
    ensures var e := "#else" + tail;
      && e[0] == '#' && StartsWith(e, "#else")
      && KeywordIdent(e, "#define") == None && KeywordIdent(e, "#ifdef") == None && KeywordIdent(e, "#ifndef") == None
      && IfDefinedName(e, "defined") == None && IfDefinedName(e, "!defined") == None
  {
    var e := "#else" + tail;
    KeywordMiss(e, "#define", 1);
    KeywordMiss(e, "#ifdef", 1);
    KeywordMiss(e, "#ifndef", 1);
    IfDefinedMiss(e, "defined", 1);
    IfDefinedMiss(e, "!defined", 1);
    assert e[..5] == "#else";
  }

  /** `#endif...` matches no pattern tried before its own, and starts with `#endif`. */
  lemma EndifMisses(tail: string)
    ensures var f := "#endif" + tail;
      && f[0] == '#' && !StartsWith(f, "#else") && StartsWith(f, "#endif")
      && KeywordIdent(f, "#define") == None && KeywordIdent(f, "#ifdef") == None && KeywordIdent(f, "#ifndef") == None
      && IfDefinedName(f, "defined") == None && IfDefinedName(f, "!defined") == None
  {
    var f := "#endif" + tail;
    KeywordMiss(f, "#define", 1);
    KeywordMiss(f, "#ifdef", 1);
    KeywordMiss(f, "#ifndef", 1);
    IfDefinedMiss(f, "defined", 1);
    IfDefinedMiss(f, "!defined", 1);
    NotPrefix(f, "#else", 2);
    assert f[..6] == "#endif";
  }

  lemma ClassifyAsElse(body: string)
    requires body != [] && body[0] == '#' && StartsWith(body, "#else")
    requires KeywordIdent(body, "#define") == None && KeywordIdent(body, "#ifdef") == None
    requires KeywordIdent(body, "#ifndef") == None
    requires IfDefinedName(body, "defined") == None && IfDefinedName(body, "!defined") == None
    ensures ClassifyBody(body) == ElseLine
  {
  }

  lemma ClassifyAsEndif(body: string)
    requires body != [] && body[0] == '#' && !StartsWith(body, "#else") && StartsWith(body, "#endif")
    requires KeywordIdent(body, "#define") == None && KeywordIdent(body, "#ifdef") == None
    requires KeywordIdent(body, "#ifndef") == None
    requires IfDefinedName(body, "defined") == None && IfDefinedName(body, "!defined") == None
    ensures ClassifyBody(body) == EndifLine
  {
  }

  /** `#undef NAME` names NAME. */
  lemma ClassifyUndef(n: string)
    requires IsIdentifier(n)
    ensures Classify("#undef " + n) == UndefLine(n)
  {
    var s := "#undef " + n;
    assert s == "#undef" + " " + n + "";
    assert KeywordIdent(s, "#define") == None by { KeywordMiss(s, "#define", 1); }
    assert KeywordIdent(s, "#ifdef") == None by { KeywordMiss(s, "#ifdef", 1); }
    assert KeywordIdent(s, "#ifndef") == None by { KeywordMiss(s, "#ifndef", 1); }
    assert IfDefinedName(s, "defined") == None by { IfDefinedMiss(s, "defined", 1); }
    assert IfDefinedName(s, "!defined") == None by { IfDefinedMiss(s, "!defined", 1); }
    assert !StartsWith(s, "#else") by { NotPrefix(s, "#else", 1); }
    assert !StartsWith(s, "#endif") by { NotPrefix(s, "#endif", 1); }
    assert KeywordIdent(s, "#undef") == Some((n, "")) by { KeywordIdentOf("#undef", n, ""); }
    PlainBody(s);
  }

  /** `#define NAME` with nothing after the name defines NAME with no value and no comment. */
  lemma ClassifyBareDefine(n: string)
    requires IsIdentifier(n)
    ensures Classify("#define " + n) == DefineLine(n, None, None)
  {
    var s := "#define " + n;
    assert s == "#define" + " " + n + "";
    assert KeywordIdent(s, "#define") == Some((n, "")) by { KeywordIdentOf("#define", n, ""); }
    PlainBody(s);
  }

  /** A line the `#define` pattern matches is classified by that pattern alone. */
  lemma ClassifyDefine(s: string)
    requires s != [] && s[0] == '#' && DefineDirective(s).Some?
    ensures Classify(s) == DefineDirective(s).value
  {
    PlainBody(s);
  }

  /** `#define NAME rest` for an identifier NAME and a `rest` that cannot extend it. */
  lemma ClassifyDefineOf(n: string, rest: string)
    requires IsIdentifier(n) && (rest == [] || !IsIdentChar(rest[0]))
    ensures Classify("#define" + " " + n + rest) == DefineParts(n, rest)
  {
    var s := "#define" + " " + n + rest;
    KeywordIdentOf("#define", n, rest);
    assert s[0] == '#';
    ClassifyDefine(s);
  }

  /** No `//` anywhere in the string. */
  predicate NoCommentMark(v: string) {
    forall i | 0 <= i < |v| :: !MarkAt(v, i)
  }

  lemma DefineWithValue(n: string, v: string)
    requires v != [] && !IsSpace(v[0]) && !IsSpace(v[|v| - 1]) && NoCommentMark(v)
    ensures DefineParts(n, " " + v) == DefineLine(n, Some(v), None)
  {
    assert FindComment(v) == |v|;
    TrimOneBlank(v);
    assert v[..|v|] == v;
    StripOfStripped(v);
  }

  lemma DefineWithComment(n: string, c: string)
    requires c != [] && !IsSpace(c[0]) && !IsSpace(c[|c| - 1])
    ensures DefineParts(n, " " + ("//" + c)) == DefineLine(n, None, Some(c))
  {
    var r := "//" + c;
    TrimOneBlank(r);
    assert FindComment(r) == 0;
    assert r[..0] == [];
    assert r[2..] == c;
    StripOfStripped(c);
  }

  /** `#define NAME VALUE` records the value verbatim when it holds no `//` and no
      surrounding blanks. */
  lemma ClassifyValueDefine(n: string, v: string)
    requires IsIdentifier(n)
    requires v != [] && !IsSpace(v[0]) && !IsSpace(v[|v| - 1]) && NoCommentMark(v)
    ensures Classify("#define " + n + " " + v) == DefineLine(n, Some(v), None)
  {
    ValueDefineSpelled(n, v);
    DefineWithValue(n, v);
    ClassifyDefineOf(n, " " + v);
  }

  lemma ValueDefineSpelled(n: string, v: string)
    ensures "#define " + n + " " + v == "#define" + " " + n + (" " + v)
  {
    SpelledApart();
    AppendAssoc("#define " + n, " ", v);
  }

  /** `#define NAME // text` records no value and the comment text. */
  lemma ClassifyCommentDefine(n: string, c: string)
    requires IsIdentifier(n)
    requires c != [] && !IsSpace(c[0]) && !IsSpace(c[|c| - 1])
    ensures Classify("#define " + n + " //" + c) == DefineLine(n, None, Some(c))
  {
    CommentDefineSpelled(n, c);
    DefineWithComment(n, c);
    ClassifyDefineOf(n, " " + ("//" + c));
  }

  lemma CommentDefineSpelled(n: string, c: string)
    ensures "#define " + n + " //" + c == "#define" + " " + n + (" " + ("//" + c))
  {
    SpelledApart();
    AppendAssoc(" ", "//", c);
    AppendAssoc("#define " + n, " //", c);
  }

  /** A `//` prefix does not hide a directive from the patterns: the commented line is
      recognised exactly like the uncommented one. */
  lemma CommentedDirectiveRecognised(s: string)
    requires StartsWith(s, "#")
    ensures Classify("// " + s) == Classify(s)
  {
    var c := "// " + s;
    assert c[..2] == "//";
    assert c[2..] == " " + s;
    TrimOneBlank(s);
    PlainBody(s);
  }

  // ---------------------------------------------------------------------------------------
  // The line-by-line pass, as a pure state machine
  // ---------------------------------------------------------------------------------------

  /** An open block on the stack, with the flag `#else` sets. */
  datatype Frame = Frame(block: ConditionalBlock, inElse: bool)

  datatype State = State(
    defines: Dict<string, DefineNode>,
    conditionals: seq<ConditionalBlock>,
    comments: map<nat, string>,
    errors: seq<ParseError>,
    stack: seq<Frame>,
    inBlockComment: bool)

  // The comment-mark substitution: every "/" "*" pair and "*" "/" pair removed, scanning
  // left to right.
  function RemoveCommentMarks(s: string): (r: string)
    ensures |r| <= |s|
    decreases |s|
  {
    if |s| >= 2 && ((s[0] == '/' && s[1] == '*') || (s[0] == '*' && s[1] == '/')) then RemoveCommentMarks(s[2..])
    else if s == [] then []
    else [s[0]] + RemoveCommentMarks(s[1..])
  }

  predicate IsPreprocessorLine(stripped: string) {
    stripped != [] && (StartsWith(stripped, "#") || (StartsWith(stripped, "//") && '#' in stripped))
  }

  /** The defining node a `#define` line on `lineNum` yields with the given stack. */
  function NodeFor(stack: seq<Frame>, lineNum: nat, stripped: string, d: Directive): DefineNode
    requires d.DefineLine?
  {
    var commented := StartsWith(stripped, "//");
    DefineNode(d.name, d.value, lineNum, d.comment,
      if stack == [] then None else Some(stack[|stack| - 1].block.condition),
      !commented, commented)
  }

  /** Records a define in the innermost open block, in its `#else` branch if one was seen. */
  function AddToTop(stack: seq<Frame>, node: DefineNode): (r: seq<Frame>)
    ensures |r| == |stack|
  {
    if stack == [] then stack
    else
      var top := stack[|stack| - 1];
      var b := top.block;
      var b' := if top.inElse then b.(elseDefines := b.elseDefines + [node]) else b.(defines := b.defines + [node]);
      stack[..|stack| - 1] + [top.(block := b')]
  }

  /** The effect of the directive on a line that passed the filter. */
  function Apply(st: State, lineNum: nat, stripped: string): State {
    Interpret(st, lineNum, stripped, Classify(stripped))
  }

  /** The effect of one recognised directive `d` read from `stripped`. */
  function Interpret(st: State, lineNum: nat, stripped: string, d: Directive): State {
    match d
    case DefineLine(name, _, _) =>
      var node := NodeFor(st.stack, lineNum, stripped, d);
      st.(defines := Put(st.defines, name, node), stack := AddToTop(st.stack, node))
    case Open(kind, cond) =>
      st.(stack := st.stack + [Frame(ConditionalBlock(kind, cond, lineNum, 0, [], [], []), false)])
    case ElseLine =>
      if st.stack == [] then st
      else st.(stack := st.stack[..|st.stack| - 1] + [st.stack[|st.stack| - 1].(inElse := true)])
    case EndifLine =>
      if st.stack == [] then st.(errors := st.errors + [StrayEndif(lineNum)])
      else
        var b := st.stack[|st.stack| - 1].block.(endLine := lineNum);
        var rest := st.stack[..|st.stack| - 1];
        if rest == [] then st.(stack := rest, conditionals := st.conditionals + [b])
        else
          var parent := rest[|rest| - 1];
          st.(stack := rest[..|rest| - 1] + [parent.(block := parent.block.(nestedBlocks := parent.block.nestedBlocks + [b]))])
    case UndefLine(name) =>
      if name in st.defines.values then st.(defines := Update(st.defines, name, st.defines.values[name].(isActive := false)))
      else st
    case NoDirective => st
  }

  /** One iteration of the parsing loop: line `lineNum` (counted from 1). */
  function Step(st: State, lineNum: nat, line: string): State {
    if Contains(line, "/*") && !st.inBlockComment then
      var text := Strip(RemoveCommentMarks(line));
      st.(comments := if text != [] then st.comments[lineNum := text] else st.comments,
          inBlockComment := !Contains(line, "*/"))
    else if st.inBlockComment then
      var text := Strip(RemoveCommentMarks(line));
      st.(comments := if text != [] && lineNum !in st.comments then st.comments[lineNum := text] else st.comments,
          inBlockComment := !Contains(line, "*/"))
    else if !IsPreprocessorLine(Strip(line)) then st
    else Apply(st, lineNum, Strip(line))
  }

  /** The state after the first `|lines|` iterations. */
  function Run(st: State, lines: seq<string>): State
    decreases |lines|
  {
    if lines == [] then st else Step(Run(st, lines[..|lines| - 1]), |lines|, lines[|lines| - 1])
  }

  function UnclosedErrors(stack: seq<Frame>): (r: seq<ParseError>)
    ensures |r| == |stack|
  {
    seq(|stack|, i requires 0 <= i < |stack| => Unclosed(stack[i].block.startLine, stack[i].block.conditionType, stack[i].block.condition))
  }

  /** The end of the pass: one error per block still open, outermost first. */
  function Finish(st: State): State {
    st.(errors := st.errors + UnclosedErrors(st.stack))
  }

  function Initial(): State {
    State(Empty(), [], map[], [], [], false)
  }

  function ResultOf(st: State, lines: seq<string>): ParseResult {
    var fin := Finish(st);
    ParseResult(fin.defines, fin.conditionals, fin.comments, lines, fin.errors == [], fin.errors)
  }

  /** `parse()` on a fresh parser, for a header that could be read. */
  function ParseLines(lines: seq<string>): ParseResult {
    ResultOf(Run(Initial(), lines), lines)
  }

  // ---------------------------------------------------------------------------------------
  // Properties of one line
  // ---------------------------------------------------------------------------------------

  /** The line is outside a block comment and opens none, so its directive is interpreted. */
  predicate Live(st: State, line: string) {
    !st.inBlockComment && !Contains(line, "/*")
  }

  lemma LiveStep(st: State, lineNum: nat, line: string)
    requires Live(st, line)
    ensures Step(st, lineNum, line) == Apply(st, lineNum, Strip(line))
  {
    if !IsPreprocessorLine(Strip(line)) {
      var stripped := Strip(line);
      if Classify(stripped) != NoDirective {
        DirectivePassesFilter(stripped);
      }
    }
  }

  /** `#endif` with no open block adds exactly one error and changes nothing else. */
  lemma StrayEndifOneError(st: State, lineNum: nat, line: string)
    requires Live(st, line) && Classify(Strip(line)) == EndifLine && st.stack == []
    ensures Step(st, lineNum, line) == st.(errors := st.errors + [StrayEndif(lineNum)])
  {
    LiveStep(st, lineNum, line);
  }

  /** Only a stray `#endif` adds an error during the pass. */
  lemma StepErrors(st: State, lineNum: nat, line: string)
    ensures var st' := Step(st, lineNum, line);
      st'.errors == st.errors ||
      (st'.errors == st.errors + [StrayEndif(lineNum)] && Live(st, line) && Classify(Strip(line)) == EndifLine && st.stack == [])
  {
    if Live(st, line) {
      LiveStep(st, lineNum, line);
      InterpretErrors(st, lineNum, Strip(line), Classify(Strip(line)));
    }
  }

  /** Interpreting a directive adds an error only for `#endif` with no open block. */
  lemma InterpretErrors(st: State, lineNum: nat, stripped: string, d: Directive)
    ensures var st' := Interpret(st, lineNum, stripped, d);
      st'.errors == st.errors || (st'.errors == st.errors + [StrayEndif(lineNum)] && d == EndifLine && st.stack == [])
  {
  }

  /** A `#define` line (live, maybe commented out) overwrites the table entry for its name,
      keeps the name's original position, and leaves every other entry alone. A `//` line
      yields an inactive, commented entry. */
  lemma DefineOverwrites(st: State, lineNum: nat, line: string)
    requires Live(st, line) && Classify(Strip(line)).DefineLine?
    ensures var d := Classify(Strip(line));
      var st' := Step(st, lineNum, line);
      var node := st'.defines.values[d.name];
      && d.name in st'.defines.values
      && node.name == d.name && node.value == d.value && node.comment == d.comment
      && node.lineNumber == lineNum
      && node.isCommented == StartsWith(Strip(line), "//")
      && node.isActive == !node.isCommented
      && (forall k | k in st.defines.values && k != d.name :: k in st'.defines.values && st'.defines.values[k] == st.defines.values[k])
      && st'.defines.keys == (if d.name in st.defines.values then st.defines.keys else st.defines.keys + [d.name])
      && st'.errors == st.errors && st'.conditionals == st.conditionals
  {
    LiveStep(st, lineNum, line);
  }

  /** A define inside a block is recorded by the innermost block: in its `#else` list after
      `#else`, in its true-branch list otherwise. Outer blocks are untouched, and the entry
      names the innermost condition as its scope. */
  lemma DefinePlacement(st: State, lineNum: nat, line: string)
    requires Live(st, line) && Classify(Strip(line)).DefineLine? && st.stack != []
    ensures var d := Classify(Strip(line));
      var st' := Step(st, lineNum, line);
      var node := st'.defines.values[d.name];
      var n := |st.stack|;
      var top := st.stack[n - 1];
      && |st'.stack| == n
      && st'.stack[..n - 1] == st.stack[..n - 1]
      && node.conditionalScope == Some(top.block.condition)
      && st'.stack[n - 1].inElse == top.inElse
      && (if top.inElse
          then st'.stack[n - 1].block == top.block.(elseDefines := top.block.elseDefines + [node])
          else st'.stack[n - 1].block == top.block.(defines := top.block.defines + [node]))
  {
    LiveStep(st, lineNum, line);
  }

  /** `#endif` closes the innermost block at this line and hands it to the enclosing block's
      nested list, or to the top-level list when it was outermost. */
  lemma EndifNests(st: State, lineNum: nat, line: string)
    requires Live(st, line) && Classify(Strip(line)) == EndifLine && st.stack != []
    ensures var st' := Step(st, lineNum, line);
      var n := |st.stack|;
      var closed := st.stack[n - 1].block.(endLine := lineNum);
      && |st'.stack| == n - 1
      && st'.errors == st.errors
      && st'.defines == st.defines
      && (n == 1 ==> st'.conditionals == st.conditionals + [closed])
      && (n > 1 ==>
            && st'.conditionals == st.conditionals
            && st'.stack[..n - 2] == st.stack[..n - 2]
            && st'.stack[n - 2].block == st.stack[n - 2].block.(nestedBlocks := st.stack[n - 2].block.nestedBlocks + [closed]))
  {
    LiveStep(st, lineNum, line);
  }

  /** `#undef` of a known name keeps the entry but makes it inactive; of an unknown name it
      does nothing. */
  lemma UndefDeactivates(st: State, lineNum: nat, line: string)
    requires Live(st, line) && Classify(Strip(line)).UndefLine?
    ensures var name := Classify(Strip(line)).name;
      var st' := Step(st, lineNum, line);
      if name in st.defines.values then
        st'.defines.keys == st.defines.keys
        && st'.defines.values == st.defines.values[name := st.defines.values[name].(isActive := false)]
        && st'.stack == st.stack && st'.errors == st.errors
      else st' == st
  {
    LiveStep(st, lineNum, line);
  }

  // A line that opens a block comment, and every line inside one, is consumed as comment:
  // no define, block or error comes from it, whatever directive it holds. The comment
  // stays open exactly when the line has no closing mark.
  lemma CommentLinesSkipped(st: State, lineNum: nat, line: string)
    requires !Live(st, line)
    ensures var st' := Step(st, lineNum, line);
      && st'.defines == st.defines && st'.conditionals == st.conditionals
      && st'.errors == st.errors && st'.stack == st.stack
      && st'.inBlockComment == !Contains(line, "*/")
      && st'.comments.Keys <= st.comments.Keys + {lineNum}
      && (forall k | k in st.comments && k != lineNum :: k in st'.comments && st'.comments[k] == st.comments[k])
  {
  }

  /** A mark-free line loses nothing to comment-mark removal. */
  lemma NoMarksKept(s: string)
    requires !Contains(s, "/*") && !Contains(s, "*/")
    ensures RemoveCommentMarks(s) == s
    decreases |s|
  {
    if s != [] {
      assert !StartsWith(s, "/*") && !StartsWith(s, "*/");
      NoMarksKept(s[1..]);
    }
  }

  // ---------------------------------------------------------------------------------------
  // Properties of the whole pass
  // ---------------------------------------------------------------------------------------

  /** Errors are only ever appended. */
  lemma {:induction false} ErrorsOnlyGrow(st: State, lines: seq<string>)
    ensures |st.errors| <= |Run(st, lines).errors|
    ensures Run(st, lines).errors[..|st.errors|] == st.errors
    decreases |lines|
  {
    if lines != [] {
      var prev := Run(st, lines[..|lines| - 1]);
      ErrorsOnlyGrow(st, lines[..|lines| - 1]);
      StepErrors(prev, |lines|, lines[|lines| - 1]);
    }
  }

  /** The end of the pass reports each still-open block once, in stack order. */
  lemma {:induction false} UnclosedReported(st: State)
    ensures |Finish(st).errors| == |st.errors| + |st.stack|
    ensures forall i | 0 <= i < |st.stack| ::
      Finish(st).errors[|st.errors| + i] == Unclosed(st.stack[i].block.startLine, st.stack[i].block.conditionType, st.stack[i].block.condition)
  {
    var u := UnclosedErrors(st.stack);
    forall i | 0 <= i < |st.stack|
      ensures Finish(st).errors[|st.errors| + i] == u[i]
    {
    }
  }

  /** A successful parse closed every block it opened and met no stray `#endif`. */
  lemma SuccessMeansBalanced(lines: seq<string>)
    ensures ParseLines(lines).success <==> ParseLines(lines).errors == []
    ensures ParseLines(lines).success ==> Run(Initial(), lines).stack == [] && Run(Initial(), lines).errors == []
  {
    UnclosedReported(Run(Initial(), lines));
  }

  /** Once a live `#define` of a name has been read, later lines that neither define nor
      undefine that name leave its entry as it is: the last definition wins. */
  /** A line that neither defines nor undefines `name` leaves its entry alone. */
  lemma StepKeepsEntry(st: State, lineNum: nat, line: string, name: string)
    requires name in st.defines.values
    requires var d := Classify(Strip(line)); !(d.DefineLine? && d.name == name) && d != UndefLine(name)
    ensures name in Step(st, lineNum, line).defines.values
    ensures Step(st, lineNum, line).defines.values[name] == st.defines.values[name]
  {
    if Live(st, line) {
      LiveStep(st, lineNum, line);
    }
  }

  lemma {:induction false} LastDefinitionWins(st: State, lines: seq<string>, j: nat, name: string)
    requires j < |lines|
    requires name in Run(st, lines[..j + 1]).defines.values
    requires forall k | j < k < |lines| ::
      var d := Classify(Strip(lines[k])); !(d.DefineLine? && d.name == name) && d != UndefLine(name)
    ensures name in Run(st, lines).defines.values
    ensures Run(st, lines).defines.values[name] == Run(st, lines[..j + 1]).defines.values[name]
    decreases |lines|
  {
    if |lines| > j + 1 {
      var init := lines[..|lines| - 1];
      assert init[..j + 1] == lines[..j + 1];
      LastDefinitionWins(st, init, j, name);
      StepKeepsEntry(Run(st, init), |lines|, lines[|lines| - 1], name);
    } else {
      assert lines[..j + 1] == lines;
    }
  }

  // ---------------------------------------------------------------------------------------
  // Lookups
  // ---------------------------------------------------------------------------------------

  /** `has_define`: the name is present and active. */
  predicate Defined(defines: Dict<string, DefineNode>, name: string) {
    name in defines.values && defines.values[name].isActive
  }

  /** `get_define_value` */
  function DefineValue(defines: Dict<string, DefineNode>, name: string, default: Option<string>): Option<string> {
    if Defined(defines, name) then defines.values[name].value else default
  }

  /** After a live uncommented `#define`, the name is defined with that value; after a
      commented one or an `#undef`, it is not, and lookups fall back to the default. */
  lemma LookupAfterLine(st: State, lineNum: nat, line: string, default: Option<string>)
    requires Live(st, line)
    ensures var d := Classify(Strip(line));
      var st' := Step(st, lineNum, line);
      && (d.DefineLine? && !StartsWith(Strip(line), "//")
          ==> Defined(st'.defines, d.name) && DefineValue(st'.defines, d.name, default) == d.value)
      && (d.DefineLine? && StartsWith(Strip(line), "//")
          ==> !Defined(st'.defines, d.name) && DefineValue(st'.defines, d.name, default) == default)
      && (d.UndefLine? ==> !Defined(st'.defines, d.name) && DefineValue(st'.defines, d.name, default) == default)
  {
    LiveStep(st, lineNum, line);
  }

  // ---------------------------------------------------------------------------------------
  // Conditional resolution
  // ---------------------------------------------------------------------------------------

  /** The names the defines of one branch introduce. */
  function Names(ds: seq<DefineNode>): (r: set<string>)
    ensures forall i | 0 <= i < |ds| :: ds[i].name in r
    decreases |ds|
  {
    if ds == [] then {} else Names(ds[..|ds| - 1]) + {ds[|ds| - 1].name}
  }

  /** `process_block`, as a function of the accumulated set. */
  function ProcessBlock(b: ConditionalBlock, acc: set<string>): set<string>
    decreases b
  {
    if IsActive(b, acc) then ProcessBlocks(b.nestedBlocks, acc + Names(b.defines))
    else acc + Names(b.elseDefines)
  }

  function ProcessBlocks(bs: seq<ConditionalBlock>, acc: set<string>): set<string>
    decreases bs
  {
    if bs == [] then acc else ProcessBlocks(bs[1..], ProcessBlock(bs[0], acc))
  }

  /** Every name any define of the tree introduces, in either branch, at any depth. */
  function AllNames(b: ConditionalBlock): set<string>
    decreases b
  {
    Names(b.defines) + Names(b.elseDefines) + AllNamesOf(b.nestedBlocks)
  }

  function AllNamesOf(bs: seq<ConditionalBlock>): set<string>
    decreases bs
  {
    if bs == [] then {} else AllNames(bs[0]) + AllNamesOf(bs[1..])
  }

  /** Resolution only adds names, and only names the blocks define. */
  lemma {:induction false} ProcessBlockBounds(b: ConditionalBlock, acc: set<string>)
    ensures acc <= ProcessBlock(b, acc) <= acc + AllNames(b)
    decreases b, 1
  {
    if IsActive(b, acc) {
      ProcessBlocksBounds(b.nestedBlocks, acc + Names(b.defines));
    }
  }

  lemma {:induction false} ProcessBlocksBounds(bs: seq<ConditionalBlock>, acc: set<string>)
    ensures acc <= ProcessBlocks(bs, acc) <= acc + AllNamesOf(bs)
    decreases bs, 0
  {
    if bs != [] {
      ProcessBlockBounds(bs[0], acc);
      ProcessBlocksBounds(bs[1..], ProcessBlock(bs[0], acc));
    }
  }

  /** An active block contributes its true-branch names; its `#else` names are not consulted. */
  lemma ActiveBlockAddsDefines(b: ConditionalBlock, acc: set<string>, other: seq<DefineNode>)
    requires IsActive(b, acc)
    ensures acc + Names(b.defines) <= ProcessBlock(b, acc)
    ensures ProcessBlock(b.(elseDefines := other), acc) == ProcessBlock(b, acc)
  {
    ProcessBlocksBounds(b.nestedBlocks, acc + Names(b.defines));
  }

  /** An inactive block contributes exactly its `#else` names, and its nested blocks are never
      visited: replacing them changes nothing. */
  lemma {:induction false} InactiveBlockSkipsNested(b: ConditionalBlock, acc: set<string>, other: seq<ConditionalBlock>)
    requires !IsActive(b, acc)
    ensures ProcessBlock(b, acc) == acc + Names(b.elseDefines)
    ensures ProcessBlock(b.(nestedBlocks := other), acc) == ProcessBlock(b, acc)
  {
    assert !IsActive(b.(nestedBlocks := other), acc);
  }

  /** Blocks are resolved in order: a name an earlier block activates is visible to a later one. */
  lemma ResolutionExample()
    ensures var d := DefineNode("B", None, 2, None, Some("A"), true, false);
      var first := ConditionalBlock(Ifdef, "A", 1, 3, [d], [], []);
      var second := ConditionalBlock(Ifndef, "B", 4, 6, [d.(name := "C")], [d.(name := "D")], []);
      ProcessBlocks([first, second], {"A"}) == {"A", "B", "D"}
      && ProcessBlocks([first, second], {}) == {"C"}
  {
    var d := DefineNode("B", None, 2, None, Some("A"), true, false);
    var first := ConditionalBlock(Ifdef, "A", 1, 3, [d], [], []);
    var second := ConditionalBlock(Ifndef, "B", 4, 6, [d.(name := "C")], [d.(name := "D")], []);
    OneName(d);
    OneName(d.(name := "C"));
    OneName(d.(name := "D"));
    assert ProcessBlock(first, {"A"}) == {"A", "B"};
    assert ProcessBlock(second, {"A", "B"}) == {"A", "B", "D"};
    assert [first, second][1..] == [second];
    assert [second][1..] == [];
    assert ProcessBlocks([second], {"A", "B"}) == {"A", "B", "D"};
    assert ProcessBlock(first, {}) == {};
    assert ProcessBlock(second, {}) == {"C"};
    assert ProcessBlocks([second], {}) == {"C"};
  }

  lemma OneName(d: DefineNode)
    ensures Names([d]) == {d.name}
  {
    assert [d][..0] == [];
  }

  // ---------------------------------------------------------------------------------------
  // The parser object
  // ---------------------------------------------------------------------------------------

  /** `ProcessBlock`, run by statements: adds into the accumulated set step by step. */
  method ProcessBlockInto(b: ConditionalBlock, acc: set<string>) returns (result: set<string>)
    ensures result == ProcessBlock(b, acc)
    decreases b
  {
    result := acc;
    if IsActive(b, result) {
      var i := 0;
      while i < |b.defines|
        invariant 0 <= i <= |b.defines|
        invariant result == acc + Names(b.defines[..i])
      {
        assert b.defines[..i + 1][..i] == b.defines[..i];
        result := result + {b.defines[i].name};
        i := i + 1;
      }
      assert b.defines[..i] == b.defines;
      var j := 0;
      while j < |b.nestedBlocks|
        invariant 0 <= j <= |b.nestedBlocks|
        invariant ProcessBlocks(b.nestedBlocks[j..], result) == ProcessBlock(b, acc)
      {
        assert b.nestedBlocks[j..][1..] == b.nestedBlocks[j + 1..];
        result := ProcessBlockInto(b.nestedBlocks[j], result);
        j := j + 1;
      }
    } else {
      var i := 0;
      while i < |b.elseDefines|
        invariant 0 <= i <= |b.elseDefines|
        invariant result == acc + Names(b.elseDefines[..i])
      {
        assert b.elseDefines[..i + 1][..i] == b.elseDefines[..i];
        result := result + {b.elseDefines[i].name};
        i := i + 1;
      }
      assert b.elseDefines[..i] == b.elseDefines;
    }
  }

  class PreprocessorParser {
    var defines: Dict<string, DefineNode>
    var conditionals: seq<ConditionalBlock>
    var comments: map<nat, string>
    var rawLines: seq<string>
    var errors: seq<ParseError>

    constructor ()
      ensures defines == Empty() && conditionals == [] && comments == map[] && rawLines == [] && errors == []
    {
      defines := Empty();
      conditionals := [];
      comments := map[];
      rawLines := [];
      errors := [];
    }

    /** The pass's state: the parser's fields plus the loop's stack and comment flag. */
    function Snapshot(stack: seq<Frame>, inBlockComment: bool): State
      reads this
    {
      State(defines, conditionals, comments, errors, stack, inBlockComment)
    }

    /** `parse()`. `contents` is what reading the header gave: `None` when it could not be read. */
    method Parse(contents: Option<seq<string>>) returns (r: ParseResult)
      modifies this
      ensures contents.None? ==>
        && r == ParseResult(Empty(), [], map[], [], false, old(errors) + [ReadFailure])
        && errors == old(errors) + [ReadFailure]
        && defines == old(defines) && conditionals == old(conditionals)
        && comments == old(comments) && rawLines == old(rawLines)
      ensures contents.Some? ==>
        var fin := Finish(Run(old(Snapshot([], false)), contents.value));
        && Snapshot([], false) == fin.(stack := [], inBlockComment := false)
        && rawLines == contents.value
        && r == ResultOf(Run(old(Snapshot([], false)), contents.value), contents.value)
      ensures r.success <==> r.errors == []
    {
      if contents.None? {
        errors := errors + [ReadFailure];
        return ParseResult(Empty(), [], map[], [], false, errors);
      }
      var lines := contents.value;
      rawLines := lines;
      var stack: seq<Frame> := [];
      var inBlockComment := false;
      ghost var start := old(Snapshot([], false));
      var i := 0;
      while i < |lines|
        invariant 0 <= i <= |lines|
        invariant rawLines == lines
        invariant Snapshot(stack, inBlockComment) == Run(start, lines[..i])
      {
        assert lines[..i + 1][..i] == lines[..i];
        stack, inBlockComment := ReadLine(i + 1, lines[i], stack, inBlockComment);
        i := i + 1;
      }
      assert lines[..i] == lines;
      ReportUnclosed(stack);
      r := ParseResult(defines, conditionals, comments, rawLines, |errors| == 0, errors);
    }

    /** The end of the pass: one error per block still open, outermost first. */
    method ReportUnclosed(stack: seq<Frame>)
      modifies this
      ensures errors == old(errors) + UnclosedErrors(stack)
      ensures defines == old(defines) && conditionals == old(conditionals)
      ensures comments == old(comments) && rawLines == old(rawLines)
    {
      var k := 0;
      while k < |stack|
        invariant 0 <= k <= |stack|
        invariant errors == old(errors) + UnclosedErrors(stack)[..k]
        invariant defines == old(defines) && conditionals == old(conditionals)
        invariant comments == old(comments) && rawLines == old(rawLines)
      {
        var b := stack[k].block;
        errors := errors + [Unclosed(b.startLine, b.conditionType, b.condition)];
        assert UnclosedErrors(stack)[..k + 1] == UnclosedErrors(stack)[..k] + [UnclosedErrors(stack)[k]];
        k := k + 1;
      }
      assert UnclosedErrors(stack)[..k] == UnclosedErrors(stack);
    }

    /** The body of the parsing loop: the block-comment branches, then the directive filter. */
    method ReadLine(lineNum: nat, line: string, stack: seq<Frame>, inBlockComment: bool)
      returns (stack': seq<Frame>, inBlockComment': bool)
      modifies this
      ensures Snapshot(stack', inBlockComment') == Step(old(Snapshot(stack, inBlockComment)), lineNum, line)
      ensures rawLines == old(rawLines)
    {
      stack', inBlockComment' := stack, inBlockComment;
      if Contains(line, "/*") && !inBlockComment {
        inBlockComment' := true;
        var text := Strip(RemoveCommentMarks(line));
        if text != [] {
          comments := comments[lineNum := text];
        }
        if Contains(line, "*/") {
          inBlockComment' := false;
        }
      } else if inBlockComment {
        var text := Strip(RemoveCommentMarks(line));
        if text != [] && lineNum !in comments {
          comments := comments[lineNum := text];
        }
        if Contains(line, "*/") {
          inBlockComment' := false;
        }
      } else {
        var stripped := Strip(line);
        if IsPreprocessorLine(stripped) {
          stack' := ApplyDirective(lineNum, stripped, stack);
        }
      }
    }

    /** The directive branches of the loop body, for a line that passed the filter. */
    method ApplyDirective(lineNum: nat, stripped: string, stack: seq<Frame>) returns (stack': seq<Frame>)
      modifies this
      ensures Snapshot(stack', false) == Apply(old(Snapshot(stack, false)), lineNum, stripped)
      ensures rawLines == old(rawLines)
    {
      stack' := stack;
      var d := Classify(stripped);
      match d
      case DefineLine(_, _, _) =>
        stack' := RecordDefine(lineNum, stripped, d, stack);
      case Open(kind, condition) =>
        stack' := stack + [Frame(ConditionalBlock(kind, condition, lineNum, 0, [], [], []), false)];
      case ElseLine =>
        if |stack| > 0 {
          stack' := stack[..|stack| - 1] + [stack[|stack| - 1].(inElse := true)];
        }
      case EndifLine =>
        stack' := CloseBlock(lineNum, stripped, stack);
      case UndefLine(name) =>
        if name in defines.values {
          defines := Update(defines, name, defines.values[name].(isActive := false));
        }
      case NoDirective =>
    }

    /** The `#define` branch of the loop body. */
    method RecordDefine(lineNum: nat, stripped: string, d: Directive, stack: seq<Frame>) returns (stack': seq<Frame>)
      requires d.DefineLine?
      modifies this
      ensures Snapshot(stack', false) == Interpret(old(Snapshot(stack, false)), lineNum, stripped, d)
      ensures rawLines == old(rawLines)
    {
      stack' := stack;
      var commented := StartsWith(stripped, "//");
      var scope := if |stack| > 0 then Some(stack[|stack| - 1].block.condition) else None;
      var node := DefineNode(d.name, d.value, lineNum, d.comment, scope, !commented, commented);
      defines := Put(defines, d.name, node);
      if |stack| > 0 {
        var top := stack[|stack| - 1];
        if top.inElse {
          top := top.(block := top.block.(elseDefines := top.block.elseDefines + [node]));
        } else {
          top := top.(block := top.block.(defines := top.block.defines + [node]));
        }
        stack' := stack[..|stack| - 1] + [top];
      }
    }

    /** The `#endif` branch of the loop body. */
    method CloseBlock(lineNum: nat, stripped: string, stack: seq<Frame>) returns (stack': seq<Frame>)
      modifies this
      ensures Snapshot(stack', false) == Interpret(old(Snapshot(stack, false)), lineNum, stripped, EndifLine)
      ensures rawLines == old(rawLines)
    {
      stack' := stack;
      if |stack| > 0 {
        var block := stack[|stack| - 1].block.(endLine := lineNum);
        stack' := stack[..|stack| - 1];
        if |stack'| > 0 {
          var parent := stack'[|stack'| - 1];
          stack' := stack'[..|stack'| - 1] + [parent.(block := parent.block.(nestedBlocks := parent.block.nestedBlocks + [block]))];
        } else {
          conditionals := conditionals + [block];
        }
      } else {
        errors := errors + [StrayEndif(lineNum)];
      }
    }

    /** `resolve_conditionals`: walks the top-level blocks in order from the base set. */
    method ResolveConditionals(activeDefines: set<string>) returns (result: set<string>)
      ensures result == ProcessBlocks(conditionals, activeDefines)
    {
      result := activeDefines;
      var i := 0;
      while i < |conditionals|
        invariant 0 <= i <= |conditionals|
        invariant ProcessBlocks(conditionals[i..], result) == ProcessBlocks(conditionals, activeDefines)
      {
        assert conditionals[i..][1..] == conditionals[i + 1..];
        result := ProcessBlockInto(conditionals[i], result);
        i := i + 1;
      }
    }

    /** `extract_documentation`: each define's inline comment when it has a non-empty one,
        otherwise the comment recorded on the line before it, otherwise nothing. */
    method ExtractDocumentation() returns (docs: Dict<string, string>)
      ensures docs == Documentation(defines, comments)
    {
      docs := Empty();
      var i := 0;
      while i < |defines.keys|
        invariant 0 <= i <= |defines.keys|
        invariant docs == Collect(Empty(), defines, HasDoc(defines, comments), DocOf(comments), i)
      {
        var name := defines.keys[i];
        var define := defines.values[name];
        CollectNext(Empty(), defines, HasDoc(defines, comments), DocOf(comments), i);
        if Documented(define) {
          docs := Put(docs, name, define.comment.value);
        } else if define.lineNumber - 1 in comments {
          docs := Put(docs, name, comments[define.lineNumber - 1]);
        }
        i := i + 1;
      }
    }

    /** `has_define` */
    predicate HasDefine(name: string)
      reads this
      ensures HasDefine(name) <==> name in defines.values && defines.values[name].isActive
    {
      Defined(defines, name)
    }

    /** `get_define_value` */
    function GetDefineValue(name: string, default: Option<string>): (r: Option<string>)
      reads this
      ensures HasDefine(name) ==> r == defines.values[name].value
      ensures !HasDefine(name) ==> r == default
    {
      DefineValue(defines, name, default)
    }
  }

  /** An inline comment counts only when it is present and non-empty. */
  predicate Documented(d: DefineNode) {
    d.comment.Some? && d.comment.value != []
  }

  /** A define is documented by its inline comment or by a comment on the line above it. */
  function HasDoc(defines: Dict<string, DefineNode>, comments: map<nat, string>): string -> bool {
    k => k in defines.values && (Documented(defines.values[k]) || defines.values[k].lineNumber - 1 in comments)
  }

  /** The documentation of a define: its inline comment, else the comment on the line above. */
  function DocOf(comments: map<nat, string>): DefineNode -> string {
    d => if Documented(d) then d.comment.value
         else if d.lineNumber - 1 in comments then comments[d.lineNumber - 1] else ""
  }

  /** `extract_documentation` as a function of the define table and the collected comments. */
  function Documentation(defines: Dict<string, DefineNode>, comments: map<nat, string>): Dict<string, string> {
    Collect(Empty(), defines, HasDoc(defines, comments), DocOf(comments), |defines.keys|)
  }

  /** A define is documented exactly when it has a non-empty inline comment or a comment on
      the line above; the inline comment wins; the result lists defines in table order. */
  lemma DocumentationMeaning(defines: Dict<string, DefineNode>, comments: map<nat, string>)
    ensures var docs := Documentation(defines, comments);
      && (forall name :: name in docs.values <==>
            name in defines.values && (Documented(defines.values[name]) || defines.values[name].lineNumber - 1 in comments))
      && (forall name | name in docs.values ::
            docs.values[name] == if Documented(defines.values[name]) then defines.values[name].comment.value
                                 else comments[defines.values[name].lineNumber - 1])
  {
    CollectAll(defines, HasDoc(defines, comments), DocOf(comments));
  }
}
