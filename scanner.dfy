/**
 * The line scanner of `CodeAgent.analyze_file`: every line of a file is
 * checked for a missing colon after a statement keyword, for a leading tab,
 * and against the LINTING, TYPE_ERROR and IMPORT pattern tables, keeping at
 * most one finding per (line, category).
 *
 * `FileFindings` is the specification, built line by line; `AnalyzeLines`
 * is the source's nested loops with their `existing` scans, proved equal to
 * it; the lemmas state what a finding says about its line.
 */
module Scanner {
  import opened Wrappers
  import opened Text
  import opened FileSystem

  datatype Category = Syntax | Linting | TypeError | Indentation | Import

  function CategoryName(c: Category): string
  {
    match c
    case Syntax => "SYNTAX"
    case Linting => "LINTING"
    case TypeError => "TYPE_ERROR"
    case Indentation => "INDENTATION"
    case Import => "IMPORT"
  }

  /** Line numbers come from `enumerate(lines, 1)`. */
  type LineNo = n: int | 1 <= n witness 1

  /**
   * One bug report. The source stores its description and pattern as text;
   * here the finding records why it was made, and `Description` and
   * `PatternText` render that text.
   */
  datatype Finding = Finding(
    file: Path,
    line: LineNo,
    content: string,        // the line after `strip()`
    category: Category,
    reason: Reason)

  /** The statement openers that must end in a colon. */
  datatype Keyword = Def | Class | If | Elif | Else | For | While | Try | Except | Finally | With | AsyncDef

  /** The text each opener is looked for as; the bare ones already include their colon. */
  function KeywordText(k: Keyword): string
  {
    match k
    case Def => "def "
    case Class => "class "
    case If => "if "
    case Elif => "elif "
    case Else => "else:"
    case For => "for "
    case While => "while "
    case Try => "try:"
    case Except => "except "
    case Finally => "finally:"
    case With => "with "
    case AsyncDef => "async def "
  }

  /** The openers in the order they are tried. */
  const ColonKeywords: seq<Keyword> :=
    [Def, Class, If, Elif, Else, For, While, Try, Except, Finally, With, AsyncDef]

  // ---------------------------------------------------------------------------
  // The regular expressions of the LINTING, TYPE_ERROR and IMPORT tables, each
  // written out as the predicate it decides on one line (trailing '\n' included).

  datatype Rule =
    | ImportOs | FromOsImport | ImportSys | ImportNumpy | ImportPandas | DebugPrint
    | ImportMath | ImportRandom | NestedComprehension | BareImport | IncompleteFromImport

  predicate IsQuote(c: char) { c == '\'' || c == '"' }

  /** How many whitespace characters `s` starts with. */
  function SpaceRun(s: string): (n: nat)
    ensures n <= |s|
  {
    if s != [] && IsSpace(s[0]) then 1 + SpaceRun(s[1..]) else 0
  }

  /** How many word characters `s` starts with. */
  function WordRun(s: string): (n: nat)
    ensures n <= |s|
  {
    if s != [] && IsWordChar(s[0]) then 1 + WordRun(s[1..]) else 0
  }

  /** `.+\)` at the start of `s`: at least one character, none a newline, then a ')'. */
  predicate ClosingParenAfter(s: string) {
    exists j :: 1 <= j < |s| && s[j] == ')' && '\n' !in s[..j]
  }

  /** `print\(.+\)` anywhere in `s`. */
  predicate PrintCallIn(s: string) {
    (StartsWith(s, "print(") && ClosingParenAfter(s[6..])) || (s != [] && PrintCallIn(s[1..]))
  }

  /** One piece of a regular expression made of literals and the greedy classes `\s+` and `\w+`. */
  datatype Piece = Literal(t: string) | Spaces | Words

  /**
   * `s` starts with text matching `pieces`. The classes `\s` and `\w` are
   * disjoint and every literal here is made of word characters, so each
   * greedy run is the only one after which the rest can match.
   */
  predicate PiecesAt(s: string, pieces: seq<Piece>)
    decreases |pieces|
  {
    if pieces == [] then true
    else match pieces[0]
      case Literal(t) => StartsWith(s, t) && PiecesAt(s[|t|..], pieces[1..])
      case Spaces => SpaceRun(s) > 0 && PiecesAt(s[SpaceRun(s)..], pieces[1..])
      case Words => WordRun(s) > 0 && PiecesAt(s[WordRun(s)..], pieces[1..])
  }

  /** `for\s+\w+\s+in\s+\w+\s+for\s+` */
  const Comprehension: seq<Piece> :=
    [Literal("for"), Spaces, Words, Spaces, Literal("in"), Spaces, Words, Spaces, Literal("for"), Spaces]

  /** `re.search` of the comprehension pattern: it matches at some position of `s`. */
  predicate ComprehensionIn(s: string) {
    PiecesAt(s, Comprehension) || (s != [] && ComprehensionIn(s[1..]))
  }

  /** `^import ['"]name['"]` */
  predicate QuotedImport(line: string, name: string) {
    |line| >= 9 + |name| && StartsWith(line, "import ") && IsQuote(line[7])
    && line[8..8 + |name|] == name && IsQuote(line[8 + |name|])
  }

  /** `re.search(pattern, line)` for the rule's pattern. */
  predicate RuleMatches(rule: Rule, line: string) {
    match rule
    case ImportOs => QuotedImport(line, "os")
    case FromOsImport => StartsWith(line, "from os import")
    case ImportSys => QuotedImport(line, "sys")
    case ImportNumpy => QuotedImport(line, "numpy")
    case ImportPandas => QuotedImport(line, "pandas")
    case DebugPrint => PrintCallIn(line)
    case ImportMath => QuotedImport(line, "math")
    case ImportRandom => QuotedImport(line, "random")
    case NestedComprehension => ComprehensionIn(line)
    // `\s*` may take the final '\n' and `$` matches at the end, so the rest is all whitespace
    case BareImport => StartsWith(line, "import") && AllSpace(line[6..])
    // `\s+.*` is one or more whitespace characters followed by characters other than '\n'
    case IncompleteFromImport =>
      StartsWith(line, "from") && |line| > 4 && IsSpace(line[4]) &&
      exists q :: 4 < q <= |line| - 6 && line[q..q + 6] == "import"
        && '\n' !in LStrip(line[4..q]) && AllSpace(line[q + 6..])
  }

  /** The regular expression each rule is listed under; a finding records it as its pattern. */
  function Pattern(rule: Rule): string
  {
    match rule
    case ImportOs => "^import ['\\\"]os['\\\"]"
    case FromOsImport => "^from os import"
    case ImportSys => "^import ['\\\"]sys['\\\"]"
    case ImportNumpy => "^import ['\\\"]numpy['\\\"]"
    case ImportPandas => "^import ['\\\"]pandas['\\\"]"
    case DebugPrint => "print\\(.+\\)"
    case ImportMath => "^import ['\\\"]math['\\\"]"
    case ImportRandom => "^import ['\\\"]random['\\\"]"
    case NestedComprehension => "for\\s+\\w+\\s+in\\s+\\w+\\s+for\\s+"
    case BareImport => "^import\\s*$"
    case IncompleteFromImport => "^from\\s+.*import\\s*$"
  }

  function RuleDescription(rule: Rule): string
  {
    match rule
    case DebugPrint => "Debug print statement found"
    case NestedComprehension => "Confused list comprehension"
    case BareImport => "Incomplete import statement"
    case IncompleteFromImport => "Incomplete from import"
    case _ => "Unused standard library import"
  }

  /** Why a finding was made: a statement opener without its colon, a leading tab, or a table rule. */
  datatype Reason = MissingColonAfter(keyword: Keyword) | TabIndent | Matched(rule: Rule)

  /** The finding's `description`. */
  function Description(r: Reason): string
  {
    match r
    case MissingColonAfter(kw) => "Missing colon after " + Strip(KeywordText(kw)) + " statement"
    case TabIndent => "Tab indentation found (use spaces)"
    case Matched(rule) => RuleDescription(rule)
  }

  /** The finding's `pattern`. */
  function PatternText(r: Reason): string
  {
    match r
    case MissingColonAfter(kw) => "missing_colon_" + Strip(KeywordText(kw))
    case TabIndent => "tab_indent"
    case Matched(rule) => Pattern(rule)
  }

  const LintingRules: seq<Rule> :=
    [ImportOs, FromOsImport, ImportSys, ImportNumpy, ImportPandas, DebugPrint, ImportMath, ImportRandom]

  const TypeErrorRules: seq<Rule> := [NestedComprehension]

  const ImportRules: seq<Rule> := [BareImport, IncompleteFromImport]

  /** The tables the generic check walks, in the order of the pattern dictionary once SYNTAX and INDENTATION are skipped. */
  const PatternTables: seq<(Category, seq<Rule>)> :=
    [(Linting, LintingRules), (TypeError, TypeErrorRules), (Import, ImportRules)]

  /** The rules of each table category, in the order they are tried. */
  function TableRules(c: Category): seq<Rule>
  {
    match c
    case Linting => LintingRules
    case TypeError => TypeErrorRules
    case Import => ImportRules
    case _ => []
  }

  // ---------------------------------------------------------------------------
  // The specification of one scan.

  /** Blank lines and comment lines are not scanned. */
  predicate Skipped(line: string) {
    var s := Strip(line);
    s == [] || s[0] == '#'
  }

  predicate Opens(line: string, keyword: Keyword) {
    StartsWith(line, KeywordText(keyword)) || StartsWith(LStrip(line), KeywordText(keyword))
  }

  predicate MissingColon(line: string) {
    !EndsWith(RStrip(line), ":") && '#' !in line
  }

  /** The first element, in list order, that satisfies `p`. */
  function FirstMatch<T>(xs: seq<T>, p: T -> bool): Option<T>
  {
    if xs == [] then None
    else
      var earlier := FirstMatch(xs[..|xs| - 1], p);
      if earlier.Some? then earlier
      else if p(xs[|xs| - 1]) then Some(xs[|xs| - 1])
      else None
  }

  /** The first keyword, in list order, that the line opens with. */
  function FirstKeyword(line: string, keywords: seq<Keyword>): Option<Keyword>
  {
    FirstMatch(keywords, kw => Opens(line, kw))
  }

  /** The first rule, in table order, whose pattern matches the line. */
  function FirstRule(rules: seq<Rule>, line: string): Option<Rule>
  {
    FirstMatch(rules, rule => RuleMatches(rule, line))
  }

  function SyntaxFinding(file: Path, n: LineNo, line: string, keywords: seq<Keyword>): seq<Finding>
  {
    if !MissingColon(line) then []
    else match FirstKeyword(line, keywords)
      case None => []
      case Some(kw) =>
        [Finding(file, n, Strip(line), Syntax, MissingColonAfter(kw))]
  }

  function IndentationFinding(file: Path, n: LineNo, line: string): seq<Finding>
  {
    if StartsWith(line, "\t")
    then [Finding(file, n, Strip(line), Indentation, TabIndent)]
    else []
  }

  function TableFinding(file: Path, n: LineNo, line: string, category: Category, rules: seq<Rule>): seq<Finding>
  {
    match FirstRule(rules, line)
    case None => []
    case Some(rule) => [Finding(file, n, Strip(line), category, Matched(rule))]
  }

  function TablesFindings(file: Path, n: LineNo, line: string, tables: seq<(Category, seq<Rule>)>): seq<Finding>
  {
    if tables == [] then []
    else
      var (category, rules) := tables[|tables| - 1];
      TablesFindings(file, n, line, tables[..|tables| - 1]) + TableFinding(file, n, line, category, rules)
  }

  /** The findings of line `n`, in the order the scanner appends them. */
  function LineFindings(file: Path, n: LineNo, line: string): seq<Finding>
  {
    if Skipped(line) then []
    else SyntaxFinding(file, n, line, ColonKeywords) + IndentationFinding(file, n, line)
         + TableFinding(file, n, line, Linting, LintingRules)
         + TableFinding(file, n, line, TypeError, TypeErrorRules)
         + TableFinding(file, n, line, Import, ImportRules)
  }

  /** `LineFindings` of `file`, as a function of the line number and the line. */
  function PerLine(file: Path): (LineNo, string) -> seq<Finding>
  {
    (n: LineNo, line: string) => LineFindings(file, n, line)
  }

  /** The findings of the first `k` lines, the findings of each line after those of the lines before it. */
  function Collect(lines: seq<string>, k: nat, per: (LineNo, string) -> seq<Finding>): seq<Finding>
    requires k <= |lines|
  {
    if k == 0 then [] else Collect(lines, k - 1, per) + per(k, lines[k - 1])
  }

  /** What `analyze_file` returns for a file whose `readlines()` are `lines`. */
  function FileFindings(file: Path, lines: seq<string>): seq<Finding>
  {
    Collect(lines, |lines|, PerLine(file))
  }

  /** Some finding of `bugs` is on line `n` in `category`: the source's non-empty `existing` list. */
  predicate HasFor(bugs: seq<Finding>, n: int, category: Category) {
    exists j :: 0 <= j < |bugs| && bugs[j].line == n && bugs[j].category == category
  }

  // ---------------------------------------------------------------------------
  // The scanner as the source runs it.

  /** The `existing` scan: is a finding for this line and category already recorded? */
  method Existing(bugs: seq<Finding>, n: int, category: Category) returns (found: bool)
    ensures found <==> HasFor(bugs, n, category)
  {
    found := false;
    var j := 0;
    while j < |bugs|
      invariant 0 <= j <= |bugs|
      invariant found <==> HasFor(bugs[..j], n, category)
    {
      if bugs[j].line == n && bugs[j].category == category {
        found := true;
      }
      assert forall i :: 0 <= i < j ==> bugs[..j + 1][i] == bugs[..j][i];
      j := j + 1;
    }
    assert bugs[..j] == bugs;
  }

  /** The body of `analyze_file` once the file has been read into `lines`. */
  method AnalyzeLines(file: Path, lines: seq<string>) returns (bugs: seq<Finding>)
    ensures bugs == FileFindings(file, lines)
  {
    bugs := [];
    var i := 0;
    LineFindingsTagged(file);
    while i < |lines|
      invariant 0 <= i <= |lines|
      invariant bugs == Collect(lines, i, PerLine(file))
    {
      forall f | f in bugs ensures f.line < i + 1 {
        CollectLine(lines, i, PerLine(file), f);
      }
      bugs := ScanLine(file, i + 1, lines[i], bugs);
      i := i + 1;
    }
  }

  /** One turn of the line loop: the findings of line `n` appended to those of the lines before it. */
  method ScanLine(file: Path, n: LineNo, line: string, before: seq<Finding>) returns (bugs: seq<Finding>)
    requires forall f :: f in before ==> f.line < n
    ensures bugs == before + LineFindings(file, n, line)
  {
    var stripped := Strip(line);
    if stripped == [] || stripped[0] == '#' {
      assert Skipped(line);
      assert before + LineFindings(file, n, line) == before;
      return before;
    }
    NothingOnLine(before, n);
    ghost var syntax := SyntaxFinding(file, n, line, ColonKeywords);
    ghost var indent := IndentationFinding(file, n, line);
    bugs := MatchKeywords(file, n, line, before);

    // tab indentation
    if StartsWith(line, "\t") {
      var existing := Existing(bugs, n, Indentation);
      HasForAppend(before, syntax, n, Indentation);
      if !existing {
        bugs := bugs + [Finding(file, n, Strip(line), Indentation, TabIndent)];
      }
    }
    assert bugs == before + syntax + indent;
    forall u | 0 <= u < |PatternTables| ensures !HasFor(bugs, n, PatternTables[u].0) {
      HasForAppend(before, syntax, n, PatternTables[u].0);
      HasForAppend(before + syntax, indent, n, PatternTables[u].0);
    }

    bugs := MatchTables(file, n, line, bugs);
    assert !Skipped(line);
    PrependParts(before, syntax, indent, TableFinding(file, n, line, Linting, LintingRules),
      TableFinding(file, n, line, TypeError, TypeErrorRules), TableFinding(file, n, line, Import, ImportRules));
  }

  /** The keyword loop: a SYNTAX finding for the first opener the line starts with, when the line lacks its colon. */
  method MatchKeywords(file: Path, n: LineNo, line: string, before: seq<Finding>) returns (bugs: seq<Finding>)
    requires !HasFor(before, n, Syntax)
    ensures bugs == before + SyntaxFinding(file, n, line, ColonKeywords)
  {
    bugs := before;
    var k := 0;
    while k < |ColonKeywords|
      invariant 0 <= k <= |ColonKeywords|
      invariant bugs == before + SyntaxFinding(file, n, line, ColonKeywords[..k])
    {
      var keyword := ColonKeywords[k];
      SyntaxStep(file, n, line, ColonKeywords, k);
      if StartsWith(line, KeywordText(keyword)) || StartsWith(LStrip(line), KeywordText(keyword)) {
        if !EndsWith(RStrip(line), ":") && '#' !in line {
          var existing := Existing(bugs, n, Syntax);
          HasForAppend(before, SyntaxFinding(file, n, line, ColonKeywords[..k]), n, Syntax);
          SyntaxFindingHasFor(file, n, line, ColonKeywords[..k]);
          if !existing {
            bugs := bugs + [Finding(file, n, Strip(line), Syntax, MissingColonAfter(keyword))];
          }
        }
      }
      k := k + 1;
    }
    assert ColonKeywords[..k] == ColonKeywords;
  }

  /** The generic check over the LINTING, TYPE_ERROR and IMPORT tables, in that order. */
  method MatchTables(file: Path, n: LineNo, line: string, head: seq<Finding>) returns (bugs: seq<Finding>)
    requires forall u :: 0 <= u < |PatternTables| ==> !HasFor(head, n, PatternTables[u].0)
    ensures bugs == head + TableFinding(file, n, line, Linting, LintingRules)
      + TableFinding(file, n, line, TypeError, TypeErrorRules) + TableFinding(file, n, line, Import, ImportRules)
  {
    bugs := head;
    var t := 0;
    while t < |PatternTables|
      invariant 0 <= t <= |PatternTables|
      invariant bugs == head + TablesFindings(file, n, line, PatternTables[..t])
      invariant forall u :: t <= u < |PatternTables| ==> !HasFor(bugs, n, PatternTables[u].0)
    {
      var (category, rules) := PatternTables[t];
      TablesStep(file, n, line, PatternTables, t);
      ghost var mid := bugs;
      bugs := MatchRules(file, n, line, category, rules, bugs);
      forall u | t + 1 <= u < |PatternTables| ensures !HasFor(bugs, n, PatternTables[u].0) {
        HasForAppend(mid, TableFinding(file, n, line, category, rules), n, PatternTables[u].0);
      }
      t := t + 1;
    }
    AllTables(file, n, line, head);
  }

  /** One table of the generic check: the first matching rule is reported, unless this line already has a finding of the table's category. */
  method MatchRules(file: Path, n: LineNo, line: string, category: Category, rules: seq<Rule>,
                    before: seq<Finding>) returns (bugs: seq<Finding>)
    requires !HasFor(before, n, category)
    ensures bugs == before + TableFinding(file, n, line, category, rules)
  {
    bugs := before;
    var p := 0;
    while p < |rules|
      invariant 0 <= p <= |rules|
      invariant bugs == before + TableFinding(file, n, line, category, rules[..p])
    {
      FirstRuleStep(rules, line, p);
      if RuleMatches(rules[p], line) {
        var existing := Existing(bugs, n, category);
        HasForAppend(before, TableFinding(file, n, line, category, rules[..p]), n, category);
        TableFindingHasFor(file, n, line, category, rules[..p]);
        if !existing {
          bugs := bugs + [Finding(file, n, Strip(line), category, Matched(rules[p]))];
        }
      }
      p := p + 1;
    }
    assert rules[..p] == rules;
  }

  // ---------------------------------------------------------------------------
  // Lemmas the scanner's proof uses.

  lemma HasForAppend(a: seq<Finding>, b: seq<Finding>, n: int, c: Category)
    ensures HasFor(a + b, n, c) <==> HasFor(a, n, c) || HasFor(b, n, c)
  {
    if HasFor(a + b, n, c) {
      var j :| 0 <= j < |a + b| && (a + b)[j].line == n && (a + b)[j].category == c;
      if j >= |a| { assert b[j - |a|] == (a + b)[j]; }
    }
    if HasFor(b, n, c) {
      var j :| 0 <= j < |b| && b[j].line == n && b[j].category == c;
      assert (a + b)[|a| + j] == b[j];
    }
    if HasFor(a, n, c) {
      var j :| 0 <= j < |a| && a[j].line == n && a[j].category == c;
      assert (a + b)[j] == a[j];
    }
  }

  /** A table's part of a line's findings holds a finding of the table's category exactly when one of its rules matched. */
  lemma TableFindingHasFor(file: Path, n: LineNo, line: string, category: Category, rules: seq<Rule>)
    ensures HasFor(TableFinding(file, n, line, category, rules), n, category) <==> FirstRule(rules, line).Some?
  {
    var found := TableFinding(file, n, line, category, rules);
    if FirstRule(rules, line).Some? {
      assert found[0].line == n && found[0].category == category;
    }
  }

  /** The syntax part of a line's findings holds a SYNTAX finding exactly when it is not empty. */
  lemma SyntaxFindingHasFor(file: Path, n: LineNo, line: string, keywords: seq<Keyword>)
    ensures HasFor(SyntaxFinding(file, n, line, keywords), n, Syntax) <==> SyntaxFinding(file, n, line, keywords) != []
  {
    var found := SyntaxFinding(file, n, line, keywords);
    if found != [] {
      assert found[0].line == n && found[0].category == Syntax;
    }
  }

  /** Walking one more table appends that table's finding. */
  lemma TablesStep(file: Path, n: LineNo, line: string, tables: seq<(Category, seq<Rule>)>, t: nat)
    requires t < |tables|
    ensures TablesFindings(file, n, line, tables[..t + 1]) ==
      TablesFindings(file, n, line, tables[..t]) + TableFinding(file, n, line, tables[t].0, tables[t].1)
  {
    assert tables[..t + 1][..t] == tables[..t];
  }

  /** Walking all of `PatternTables` appends the LINTING, TYPE_ERROR and IMPORT findings in that order. */
  lemma AllTables(file: Path, n: LineNo, line: string, head: seq<Finding>)
    ensures head + TablesFindings(file, n, line, PatternTables[..|PatternTables|]) ==
      head + TableFinding(file, n, line, Linting, LintingRules)
      + TableFinding(file, n, line, TypeError, TypeErrorRules) + TableFinding(file, n, line, Import, ImportRules)
  {
    assert PatternTables[..|PatternTables|] == PatternTables;
    TablesFindingsOfPatternTables(file, n, line);
  }

  lemma PrependParts(before: seq<Finding>, a: seq<Finding>, b: seq<Finding>, c: seq<Finding>, d: seq<Finding>, e: seq<Finding>)
    ensures before + (a + b + c + d + e) == before + a + b + c + d + e
  {
    calc {
      before + (a + b + c + d + e);
      before + (a + b + c + d) + e;
      before + (a + b + c) + d + e;
      before + (a + b) + c + d + e;
    }
  }

  /** Trying one more keyword: the earlier first match stands, else this keyword if the line opens with it. */
  lemma FirstKeywordStep(line: string, keywords: seq<Keyword>, k: nat)
    requires k < |keywords|
    ensures FirstKeyword(line, keywords[..k + 1]) ==
      if FirstKeyword(line, keywords[..k]).Some? then FirstKeyword(line, keywords[..k])
      else if Opens(line, keywords[k]) then Some(keywords[k]) else None
  {
    assert keywords[..k + 1][..k] == keywords[..k];
  }

  /** One more keyword: an earlier SYNTAX finding stands, else this keyword may produce one. */
  lemma SyntaxStep(file: Path, n: LineNo, line: string, keywords: seq<Keyword>, k: nat)
    requires k < |keywords|
    ensures SyntaxFinding(file, n, line, keywords[..k + 1]) ==
      if SyntaxFinding(file, n, line, keywords[..k]) != [] then SyntaxFinding(file, n, line, keywords[..k])
      else if Opens(line, keywords[k]) && MissingColon(line) then
        [Finding(file, n, Strip(line), Syntax, MissingColonAfter(keywords[k]))]
      else []
  {
    FirstKeywordStep(line, keywords, k);
  }

  /** Trying one more rule: the earlier first match stands, else this rule if it matches. */
  lemma FirstRuleStep(rules: seq<Rule>, line: string, p: nat)
    requires p < |rules|
    ensures FirstRule(rules[..p + 1], line) ==
      if FirstRule(rules[..p], line).Some? then FirstRule(rules[..p], line)
      else if RuleMatches(rules[p], line) then Some(rules[p]) else None
  {
    assert rules[..p + 1][..p] == rules[..p];
  }

  lemma NothingOnLine(before: seq<Finding>, n: int)
    requires forall f :: f in before ==> f.line < n
    ensures forall c :: !HasFor(before, n, c)
  {
    forall j | 0 <= j < |before| ensures before[j].line < n {
      assert before[j] in before;
    }
  }

  /** A finding that records line `n` of `file`, whose text is `line`. */
  predicate Records(f: Finding, file: Path, n: int, line: string) {
    f.file == file && f.line == n && f.content == Strip(line)
  }

  /** One part of a line's findings: at most one finding, recording the line, of category `c`. */
  predicate Part(part: seq<Finding>, file: Path, n: int, line: string, c: Category) {
    |part| <= 1 && forall f :: f in part ==> Records(f, file, n, line) && f.category == c
  }

  lemma SyntaxFindingPart(file: Path, n: LineNo, line: string, keywords: seq<Keyword>)
    ensures Part(SyntaxFinding(file, n, line, keywords), file, n, line, Syntax)
  {
  }

  lemma IndentationFindingPart(file: Path, n: LineNo, line: string)
    ensures Part(IndentationFinding(file, n, line), file, n, line, Indentation)
  {
  }

  lemma TableFindingPart(file: Path, n: LineNo, line: string, category: Category, rules: seq<Rule>)
    ensures Part(TableFinding(file, n, line, category, rules), file, n, line, category)
  {
  }

  /** The five parts of a line that is scanned. */
  lemma LineFindingsParts(file: Path, n: LineNo, line: string)
    ensures Part(SyntaxFinding(file, n, line, ColonKeywords), file, n, line, Syntax)
    ensures Part(IndentationFinding(file, n, line), file, n, line, Indentation)
    ensures Part(TableFinding(file, n, line, Linting, LintingRules), file, n, line, Linting)
    ensures Part(TableFinding(file, n, line, TypeError, TypeErrorRules), file, n, line, TypeError)
    ensures Part(TableFinding(file, n, line, Import, ImportRules), file, n, line, Import)
  {
    SyntaxFindingPart(file, n, line, ColonKeywords);
    IndentationFindingPart(file, n, line);
    TableFindingPart(file, n, line, Linting, LintingRules);
    TableFindingPart(file, n, line, TypeError, TypeErrorRules);
    TableFindingPart(file, n, line, Import, ImportRules);
  }

  /** What every finding of one line says about that line. */
  lemma LineFindingsFacts(file: Path, n: LineNo, line: string, f: Finding)
    requires f in LineFindings(file, n, line)
    ensures Records(f, file, n, line) && !Skipped(line)
  {
    var syntax := SyntaxFinding(file, n, line, ColonKeywords);
    var indent := IndentationFinding(file, n, line);
    var lint := TableFinding(file, n, line, Linting, LintingRules);
    var types := TableFinding(file, n, line, TypeError, TypeErrorRules);
    var imports := TableFinding(file, n, line, Import, ImportRules);
    assert !Skipped(line);
    LineFindingsParts(file, n, line);
    InAppend(syntax + indent + lint + types, imports, f);
    InAppend(syntax + indent + lint, types, f);
    InAppend(syntax + indent, lint, f);
    InAppend(syntax, indent, f);
  }

  /** `FirstMatch` finds the first element that satisfies `p`, and finds nothing only when no element does. */
  lemma {:induction false} FirstMatchSpec<T>(xs: seq<T>, p: T -> bool)
    ensures FirstMatch(xs, p).None? <==> forall i :: 0 <= i < |xs| ==> !p(xs[i])
    ensures FirstMatch(xs, p).Some? ==>
      exists i :: 0 <= i < |xs| && xs[i] == FirstMatch(xs, p).value && p(xs[i])
                  && forall j :: 0 <= j < i ==> !p(xs[j])
  {
    if xs != [] {
      var init := xs[..|xs| - 1];
      FirstMatchSpec(init, p);
      assert forall i :: 0 <= i < |init| ==> xs[i] == init[i];
    }
  }

  /** `per` tags every finding it makes with the line number it was given. */
  ghost predicate Tagged(per: (LineNo, string) -> seq<Finding>) {
    forall n: LineNo, line: string, f :: f in per(n, line) ==> f.line == n
  }

  lemma LineFindingsTagged(file: Path)
    ensures Tagged(PerLine(file))
  {
    forall n: LineNo, line: string, f | f in PerLine(file)(n, line) ensures f.line == n {
      LineFindingsFacts(file, n, line, f);
    }
  }

  lemma InAppend(a: seq<Finding>, b: seq<Finding>, f: Finding)
    ensures f in a + b <==> f in a || f in b
  {
  }

  /** Every finding collected from the first `k` lines is one of the findings of its own line. */
  lemma {:induction false} CollectLine(lines: seq<string>, k: nat, per: (LineNo, string) -> seq<Finding>, f: Finding)
    requires k <= |lines| && Tagged(per)
    requires f in Collect(lines, k, per)
    ensures 1 <= f.line <= k && f in per(f.line, lines[f.line - 1])
  {
    var earlier := Collect(lines, k - 1, per);
    InAppend(earlier, per(k, lines[k - 1]), f);
    if f in earlier {
      CollectLine(lines, k - 1, per, f);
    }
  }

  // ---------------------------------------------------------------------------
  // What a scan promises.

  /** The position of each category in the order the scanner checks a line. */
  function Rank(c: Category): nat
  {
    match c
    case Syntax => 0
    case Indentation => 1
    case Linting => 2
    case TypeError => 3
    case Import => 4
  }

  /** `f` comes before `g`: on an earlier line, or on the same line in a category checked earlier. */
  predicate Precedes(f: Finding, g: Finding) {
    f.line < g.line || (f.line == g.line && Rank(f.category) < Rank(g.category))
  }

  predicate Ordered(bugs: seq<Finding>) {
    forall i, j :: 0 <= i < j < |bugs| ==> Precedes(bugs[i], bugs[j])
  }

  lemma OrderedAppend(a: seq<Finding>, b: seq<Finding>)
    requires Ordered(a) && Ordered(b)
    requires forall x, y :: x in a && y in b ==> Precedes(x, y)
    ensures Ordered(a + b)
  {
    var ab := a + b;
    forall i, j | 0 <= i < j < |ab| ensures Precedes(ab[i], ab[j]) {
      if j < |a| {
        assert ab[i] == a[i] && ab[j] == a[j];
      } else if i >= |a| {
        assert ab[i] == b[i - |a|] && ab[j] == b[j - |a|];
      } else {
        assert ab[i] == a[i] && ab[j] == b[j - |a|];
        assert a[i] in a && b[j - |a|] in b;
      }
    }
  }

  /** The findings on line `n` so far, in check order, all of a category checked no later than `c`. */
  predicate OrderedUpTo(bugs: seq<Finding>, n: int, c: Category) {
    Ordered(bugs) && forall f :: f in bugs ==> f.line == n && Rank(f.category) <= Rank(c)
  }

  /** Appending a part with at most one finding, of a category checked after all before it, keeps check order. */
  lemma AppendPart(acc: seq<Finding>, part: seq<Finding>, file: Path, n: int, line: string, prev: Category, c: Category)
    requires OrderedUpTo(acc, n, prev) && Rank(prev) < Rank(c)
    requires Part(part, file, n, line, c)
    ensures OrderedUpTo(acc + part, n, c)
  {
    forall x, y | x in acc && y in part ensures Precedes(x, y) {
    }
    OrderedAppend(acc, part);
    forall f | f in acc + part ensures f.line == n && Rank(f.category) <= Rank(c) {
      InAppend(acc, part, f);
    }
  }

  /** Five parts, one per category in check order, give findings in check order. */
  lemma PartsOrdered(syntax: seq<Finding>, indent: seq<Finding>, lint: seq<Finding>, types: seq<Finding>,
                     imports: seq<Finding>, file: Path, n: int, line: string)
    requires Part(syntax, file, n, line, Syntax) && Part(indent, file, n, line, Indentation)
    requires Part(lint, file, n, line, Linting) && Part(types, file, n, line, TypeError)
    requires Part(imports, file, n, line, Import)
    ensures Ordered(syntax + indent + lint + types + imports)
  {
    assert OrderedUpTo(syntax, n, Syntax);
    AppendPart(syntax, indent, file, n, line, Syntax, Indentation);
    AppendPart(syntax + indent, lint, file, n, line, Indentation, Linting);
    AppendPart(syntax + indent + lint, types, file, n, line, Linting, TypeError);
    AppendPart(syntax + indent + lint + types, imports, file, n, line, TypeError, Import);
  }

  /** The findings of one line are in check order, one per category at most. */
  lemma LineFindingsOrdered(file: Path, n: LineNo, line: string)
    ensures Ordered(LineFindings(file, n, line))
  {
    if !Skipped(line) {
      LineFindingsParts(file, n, line);
      PartsOrdered(SyntaxFinding(file, n, line, ColonKeywords), IndentationFinding(file, n, line),
        TableFinding(file, n, line, Linting, LintingRules), TableFinding(file, n, line, TypeError, TypeErrorRules),
        TableFinding(file, n, line, Import, ImportRules), file, n, line);
    }
  }

  /** Collecting lines whose findings are each in order gives findings in order. */
  lemma {:induction false} CollectOrdered(lines: seq<string>, k: nat, per: (LineNo, string) -> seq<Finding>)
    requires k <= |lines| && Tagged(per)
    requires forall n: LineNo, line: string :: Ordered(per(n, line))
    ensures Ordered(Collect(lines, k, per))
  {
    if k > 0 {
      var earlier := Collect(lines, k - 1, per);
      var last := per(k, lines[k - 1]);
      CollectOrdered(lines, k - 1, per);
      forall x, y | x in earlier && y in last ensures Precedes(x, y) {
        CollectLine(lines, k - 1, per, x);
      }
      OrderedAppend(earlier, last);
    }
  }

  /**
   * The findings of a file come line by line, and no line has two findings
   * of one category: the `existing` scans never let a second one in.
   */
  lemma FileFindingsOrdered(file: Path, lines: seq<string>)
    ensures Ordered(FileFindings(file, lines))
    ensures forall i, j :: 0 <= i < j < |FileFindings(file, lines)| ==>
      FileFindings(file, lines)[i].line <= FileFindings(file, lines)[j].line
    ensures forall i, j :: 0 <= i < j < |FileFindings(file, lines)| ==>
      FileFindings(file, lines)[i].line != FileFindings(file, lines)[j].line
      || FileFindings(file, lines)[i].category != FileFindings(file, lines)[j].category
  {
    LineFindingsTagged(file);
    forall n: LineNo, line: string ensures Ordered(PerLine(file)(n, line)) {
      LineFindingsOrdered(file, n, line);
    }
    CollectOrdered(lines, |lines|, PerLine(file));
  }

  /** Every finding names its file and a line that exists, is neither blank nor a comment, and whose stripped text it carries. */
  lemma FileFindingsFacts(file: Path, lines: seq<string>, f: Finding)
    requires f in FileFindings(file, lines)
    ensures 1 <= f.line <= |lines| && f.file == file
    ensures f.content == Strip(lines[f.line - 1]) && !Skipped(lines[f.line - 1])
  {
    LineFindingsTagged(file);
    CollectLine(lines, |lines|, PerLine(file), f);
    LineFindingsFacts(file, f.line, lines[f.line - 1], f);
  }

  /** What makes the scanner report category `c` on a line that is neither blank nor a comment. */
  predicate Flags(line: string, c: Category) {
    match c
    case Syntax => MissingColon(line) && exists k :: 0 <= k < |ColonKeywords| && Opens(line, ColonKeywords[k])
    case Indentation => StartsWith(line, "\t")
    case _ => exists k :: 0 <= k < |TableRules(c)| && RuleMatches(TableRules(c)[k], line)
  }

  /** The three tables, one finding list each. */
  lemma TablesFindingsOfPatternTables(file: Path, n: LineNo, line: string)
    ensures TablesFindings(file, n, line, PatternTables) ==
      TableFinding(file, n, line, Linting, LintingRules)
      + TableFinding(file, n, line, TypeError, TypeErrorRules)
      + TableFinding(file, n, line, Import, ImportRules)
  {
    var t2 := PatternTables[..2];
    var t1 := t2[..1];
    assert PatternTables[..|PatternTables| - 1] == t2 && PatternTables[2] == (Import, ImportRules);
    assert t2[..|t2| - 1] == t1 && t2[1] == (TypeError, TypeErrorRules);
    assert t1[..0] == [] && t1[0] == (Linting, LintingRules);
    assert TablesFindings(file, n, line, t1) == TableFinding(file, n, line, Linting, LintingRules);
  }

  /** A part of a line's findings with at most one finding, of category `pc`, has one of category `c` exactly when `c` is `pc` and the part is not empty. */
  lemma PartHasFor(part: seq<Finding>, file: Path, n: int, line: string, pc: Category, c: Category)
    requires Part(part, file, n, line, pc)
    ensures HasFor(part, n, c) <==> c == pc && part != []
  {
    if part != [] {
      assert part[0] in part;
    }
  }

  /** The keyword search finds an opener exactly when the line opens with one of the keywords. */
  lemma FirstKeywordSome(line: string, keywords: seq<Keyword>)
    ensures FirstKeyword(line, keywords).Some? <==> exists k :: 0 <= k < |keywords| && Opens(line, keywords[k])
  {
    var p := kw => Opens(line, kw);
    FirstMatchSpec(keywords, p);
    if FirstKeyword(line, keywords).None? {
      forall k | 0 <= k < |keywords| ensures !Opens(line, keywords[k]) {
        assert !p(keywords[k]);
      }
    } else {
      var k :| 0 <= k < |keywords| && keywords[k] == FirstKeyword(line, keywords).value && p(keywords[k]);
      assert Opens(line, keywords[k]);
    }
  }

  /** The rule search finds a rule exactly when one of the rules matches the line. */
  lemma FirstRuleSome(rules: seq<Rule>, line: string)
    ensures FirstRule(rules, line).Some? <==> exists k :: 0 <= k < |rules| && RuleMatches(rules[k], line)
  {
    var p := rule => RuleMatches(rule, line);
    FirstMatchSpec(rules, p);
    if FirstRule(rules, line).None? {
      forall k | 0 <= k < |rules| ensures !RuleMatches(rules[k], line) {
        assert !p(rules[k]);
      }
    } else {
      var k :| 0 <= k < |rules| && rules[k] == FirstRule(rules, line).value && p(rules[k]);
      assert RuleMatches(rules[k], line);
    }
  }

  lemma HasFor5(a: seq<Finding>, b: seq<Finding>, c: seq<Finding>, d: seq<Finding>, e: seq<Finding>, n: int, cat: Category)
    ensures HasFor(a + b + c + d + e, n, cat) <==>
      HasFor(a, n, cat) || HasFor(b, n, cat) || HasFor(c, n, cat) || HasFor(d, n, cat) || HasFor(e, n, cat)
  {
    HasForAppend(a, b, n, cat);
    HasForAppend(a + b, c, n, cat);
    HasForAppend(a + b + c, d, n, cat);
    HasForAppend(a + b + c + d, e, n, cat);
  }

  /** A line's findings split into five parts, one per category. */
  lemma LineHasFor(file: Path, n: LineNo, line: string, c: Category)
    requires !Skipped(line)
    ensures HasFor(LineFindings(file, n, line), n, c) <==>
      || (c == Syntax && SyntaxFinding(file, n, line, ColonKeywords) != [])
      || (c == Indentation && IndentationFinding(file, n, line) != [])
      || (c == Linting && TableFinding(file, n, line, Linting, LintingRules) != [])
      || (c == TypeError && TableFinding(file, n, line, TypeError, TypeErrorRules) != [])
      || (c == Import && TableFinding(file, n, line, Import, ImportRules) != [])
  {
    var syntax := SyntaxFinding(file, n, line, ColonKeywords);
    var indent := IndentationFinding(file, n, line);
    var lint := TableFinding(file, n, line, Linting, LintingRules);
    var types := TableFinding(file, n, line, TypeError, TypeErrorRules);
    var imports := TableFinding(file, n, line, Import, ImportRules);
    HasFor5(syntax, indent, lint, types, imports, n, c);
    LineFindingsParts(file, n, line);
    PartHasFor(syntax, file, n, line, Syntax, c);
    PartHasFor(indent, file, n, line, Indentation, c);
    PartHasFor(lint, file, n, line, Linting, c);
    PartHasFor(types, file, n, line, TypeError, c);
    PartHasFor(imports, file, n, line, Import, c);
  }

  /** Line `n` gets a finding of category `c` exactly when it is not blank or a comment and `Flags` holds. */
  lemma LineFlags(file: Path, n: LineNo, line: string, c: Category)
    ensures HasFor(LineFindings(file, n, line), n, c) <==> !Skipped(line) && Flags(line, c)
  {
    if !Skipped(line) {
      LineHasFor(file, n, line, c);
      match c
      case Syntax => FirstKeywordSome(line, ColonKeywords);
      case Indentation =>
      case _ => FirstRuleSome(TableRules(c), line);
    }
  }

  /** The collected findings have one on line `n` in category `c` exactly when that line's own findings do. */
  lemma {:induction false} CollectHasFor(lines: seq<string>, k: nat, per: (LineNo, string) -> seq<Finding>, n: int, c: Category)
    requires k <= |lines| && Tagged(per)
    ensures HasFor(Collect(lines, k, per), n, c) <==> 1 <= n <= k && HasFor(per(n, lines[n - 1]), n, c)
  {
    if k > 0 {
      var earlier := Collect(lines, k - 1, per);
      var last := per(k, lines[k - 1]);
      CollectHasFor(lines, k - 1, per, n, c);
      HasForAppend(earlier, last, n, c);
      if n != k {
        forall j | 0 <= j < |last| ensures last[j].line != n {
          assert last[j] in last;
        }
      }
    }
  }

  /**
   * Line `n` of the file gets a finding of category `c` exactly when the line
   * exists, is neither blank nor a comment, and `Flags(line, c)` holds.
   */
  lemma FileFlags(file: Path, lines: seq<string>, n: int, c: Category)
    ensures HasFor(FileFindings(file, lines), n, c) <==>
      1 <= n <= |lines| && !Skipped(lines[n - 1]) && Flags(lines[n - 1], c)
  {
    LineFindingsTagged(file);
    CollectHasFor(lines, |lines|, PerLine(file), n, c);
    if 1 <= n <= |lines| {
      LineFlags(file, n, lines[n - 1], c);
    }
  }

  // ---------------------------------------------------------------------------
  // What a finding's reason says about its line.

  /** `kw` is the first keyword of `keywords`, in list order, that the line opens with. */
  predicate FirstOpener(line: string, keywords: seq<Keyword>, kw: Keyword) {
    exists i :: 0 <= i < |keywords| && keywords[i] == kw && Opens(line, kw)
      && forall j :: 0 <= j < i ==> !Opens(line, keywords[j])
  }

  /** `rule` is the first rule of `rules`, in table order, that matches the line. */
  predicate FirstMatching(line: string, rules: seq<Rule>, rule: Rule) {
    exists i :: 0 <= i < |rules| && rules[i] == rule && RuleMatches(rule, line)
      && forall j :: 0 <= j < i ==> !RuleMatches(rules[j], line)
  }

  /** The reason a finding records is the one the scan of `line` gives for its category. */
  predicate Explains(f: Finding, line: string) {
    match f.reason
    case MissingColonAfter(kw) => f.category == Syntax && MissingColon(line) && FirstOpener(line, ColonKeywords, kw)
    case TabIndent => f.category == Indentation && StartsWith(line, "\t")
    case Matched(rule) =>
      f.category in {Linting, TypeError, Import} && FirstMatching(line, TableRules(f.category), rule)
  }

  lemma FirstKeywordFirst(line: string, keywords: seq<Keyword>)
    requires FirstKeyword(line, keywords).Some?
    ensures FirstOpener(line, keywords, FirstKeyword(line, keywords).value)
  {
    var p := kw => Opens(line, kw);
    FirstMatchSpec(keywords, p);
    var i :| 0 <= i < |keywords| && keywords[i] == FirstMatch(keywords, p).value && p(keywords[i])
      && forall j :: 0 <= j < i ==> !p(keywords[j]);
    assert forall j :: 0 <= j < i ==> !Opens(line, keywords[j]);
  }

  lemma FirstRuleFirst(rules: seq<Rule>, line: string)
    requires FirstRule(rules, line).Some?
    ensures FirstMatching(line, rules, FirstRule(rules, line).value)
  {
    var p := rule => RuleMatches(rule, line);
    FirstMatchSpec(rules, p);
    var i :| 0 <= i < |rules| && rules[i] == FirstMatch(rules, p).value && p(rules[i])
      && forall j :: 0 <= j < i ==> !p(rules[j]);
    assert forall j :: 0 <= j < i ==> !RuleMatches(rules[j], line);
  }

  lemma TableFindingReason(file: Path, n: LineNo, line: string, c: Category, rules: seq<Rule>, f: Finding)
    requires c in {Linting, TypeError, Import} && rules == TableRules(c)
    requires f in TableFinding(file, n, line, c, rules)
    ensures Explains(f, line)
  {
    FirstRuleFirst(rules, line);
  }

  lemma TableRulesOfTables()
    ensures TableRules(Linting) == LintingRules && TableRules(TypeError) == TypeErrorRules
    ensures TableRules(Import) == ImportRules
  {
  }

  lemma SyntaxFindingReason(file: Path, n: LineNo, line: string, f: Finding)
    requires f in SyntaxFinding(file, n, line, ColonKeywords)
    ensures Explains(f, line)
  {
    FirstKeywordFirst(line, ColonKeywords);
  }

  lemma InParts(a: seq<Finding>, b: seq<Finding>, c: seq<Finding>, d: seq<Finding>, e: seq<Finding>, f: Finding)
    requires f in a + b + c + d + e
    ensures f in a || f in b || f in c || f in d || f in e
  {
    InAppend(a + b + c + d, e, f);
    InAppend(a + b + c, d, f);
    InAppend(a + b, c, f);
    InAppend(a, b, f);
  }

  /** Every finding of a line records why the scan made it. */
  lemma LineFindingsReason(file: Path, n: LineNo, line: string, f: Finding)
    requires f in LineFindings(file, n, line)
    ensures Explains(f, line)
  {
    var syntax := SyntaxFinding(file, n, line, ColonKeywords);
    var indent := IndentationFinding(file, n, line);
    var lint := TableFinding(file, n, line, Linting, LintingRules);
    var types := TableFinding(file, n, line, TypeError, TypeErrorRules);
    var imports := TableFinding(file, n, line, Import, ImportRules);
    assert !Skipped(line);
    InParts(syntax, indent, lint, types, imports, f);
    TableRulesOfTables();
    if f in syntax {
      SyntaxFindingReason(file, n, line, f);
    } else if f in indent {
    } else if f in lint {
      TableFindingReason(file, n, line, Linting, LintingRules, f);
    } else if f in types {
      TableFindingReason(file, n, line, TypeError, TypeErrorRules, f);
    } else {
      TableFindingReason(file, n, line, Import, ImportRules, f);
    }
  }

  /**
   * A SYNTAX finding names the first opener, in list order, of a line without
   * its colon; an INDENTATION finding a leading tab; any other finding the
   * first rule of its category's table that matches the line.
   */
  lemma FileFindingsReason(file: Path, lines: seq<string>, f: Finding)
    requires f in FileFindings(file, lines)
    ensures 1 <= f.line <= |lines| && Explains(f, lines[f.line - 1])
  {
    LineFindingsTagged(file);
    CollectLine(lines, |lines|, PerLine(file), f);
    LineFindingsReason(file, f.line, lines[f.line - 1], f);
  }

  // ---------------------------------------------------------------------------
  // Consequences of the rules on particular lines.

  /**
   * `else`, `try` and `finally` are listed with their colon, so a line that is
   * nothing but one of these words, at any indentation, is never reported.
   */
  lemma BareOpenerNotFlagged(file: Path, lines: seq<string>, n: int)
    requires 1 <= n <= |lines|
    requires Strip(lines[n - 1]) == "else" || Strip(lines[n - 1]) == "try" || Strip(lines[n - 1]) == "finally"
    ensures !HasFor(FileFindings(file, lines), n, Syntax)
  {
    FileFlags(file, lines, n, Syntax);
    BareOpenerLine(lines[n - 1]);
  }

  lemma BareOpenerLine(line: string)
    requires Strip(line) == "else" || Strip(line) == "try" || Strip(line) == "finally"
    ensures !Flags(line, Syntax)
  {
    var l := LStrip(line);
    var s := Strip(line);
    LStripSpec(line);
    RStripSpec(l);
    assert line != [] && (IsSpace(line[0]) || l == line);
    forall k | 0 <= k < |ColonKeywords| ensures !Opens(line, ColonKeywords[k]) {
      var t := KeywordText(ColonKeywords[k]);
      var i := PartAt(s, t);
      BareWordParts(s, ColonKeywords[k]);
      PaddedNotPrefix(l, s, t, i);
      if IsSpace(line[0]) {
        DiffersAt(line, t, 0);
      }
    }
  }

  /** Where a bare word and an opener's text part: the first differing position, or the word's end for the word's own opener. */
  function PartAt(s: string, t: string): int
    requires |s| >= 3 && |t| >= 3
  {
    if |t| == |s| + 1 && t[|s|] == ':' then |s| else if t[0] != s[0] then 0 else if t[1] != s[1] then 1 else 2
  }

  /** No opener text is a bare word followed by whitespace. */
  lemma BareWordParts(s: string, k: Keyword)
    requires s == "else" || s == "try" || s == "finally"
    ensures var t := KeywordText(k); var i := PartAt(s, t);
      && 0 <= i < |t| && i <= |s| && !IsSpace(t[0])
      && ((i < |s| && s[i] != t[i]) || (i == |s| && !IsSpace(t[i])))
  {
    if s == "else" { ElseParts(k); }
    else if s == "try" { TryParts(k); }
    else { FinallyParts(k); }
  }

  lemma ElseParts(k: Keyword)
    ensures var t := KeywordText(k); var i := PartAt("else", t);
      && 0 <= i < |t| && i <= 4 && !IsSpace(t[0])
      && ((i < 4 && "else"[i] != t[i]) || (i == 4 && !IsSpace(t[i])))
  {
  }

  lemma TryParts(k: Keyword)
    ensures var t := KeywordText(k); var i := PartAt("try", t);
      && 0 <= i < |t| && i <= 3 && !IsSpace(t[0])
      && ((i < 3 && "try"[i] != t[i]) || (i == 3 && !IsSpace(t[i])))
  {
  }

  lemma FinallyParts(k: Keyword)
    ensures var t := KeywordText(k); var i := PartAt("finally", t);
      && 0 <= i < |t| && i <= 7 && !IsSpace(t[0])
      && ((i < 7 && "finally"[i] != t[i]) || (i == 7 && !IsSpace(t[i])))
  {
  }

  /** A word followed only by whitespace does not start with `t` when they part at `i`, or `t` goes on past the word with a non-space. */
  lemma PaddedNotPrefix(l: string, s: string, t: string, i: int)
    requires |s| <= |l| && s == l[..|s|] && AllSpace(l[|s|..])
    requires 0 <= i < |t| && i <= |s|
    requires (i < |s| && s[i] != t[i]) || (i == |s| && !IsSpace(t[i]))
    ensures !StartsWith(l, t)
  {
    if i < |s| {
      assert l[i] == s[i];
      DiffersAt(l, t, i);
    } else if i < |l| {
      assert l[i] == l[|s|..][0];
      DiffersAt(l, t, i);
    }
  }

  /** A string that differs from `t` at some position shorter than both does not start with `t`. */
  lemma DiffersAt(s: string, t: string, i: int)
    requires 0 <= i < |s| && i < |t| && s[i] != t[i]
    ensures !StartsWith(s, t)
  {
    if |t| <= |s| {
      assert s[..|t|][i] != t[i];
    }
  }

  /** A line that already has its colon followed by a statement is reported as missing one after `else`. */
  lemma ElseWithStatementFlagged(file: Path, lines: seq<string>, n: int)
    requires 1 <= n <= |lines| && lines[n - 1] == "else: x = 1\n"
    ensures HasFor(FileFindings(file, lines), n, Syntax)
  {
    FileFlags(file, lines, n, Syntax);
    ElseWithStatementLine(lines[n - 1]);
  }

  lemma ElseWithStatementLine(line: string)
    requires line == "else: x = 1\n"
    ensures Strip(line) == "else: x = 1" && !Skipped(line)
    ensures MissingColon(line) && Opens(line, ColonKeywords[4])
  {
    assert RStrip(line) == "else: x = 1";
    assert Strip(line) == "else: x = 1";
  }

  /** Without parentheses there is no `print(...)` call. */
  lemma {:induction false} NoParenNoPrint(s: string)
    requires '(' !in s
    ensures !PrintCallIn(s)
  {
    if s != [] {
      assert s[1..] == s[1..];
      assert '(' !in s[1..] by {
        forall c | c in s[1..] ensures c != '(' {
          assert c in s;
        }
      }
      NoParenNoPrint(s[1..]);
      if |s| >= 6 {
        assert s[5] in s;
        DiffersAt(s, "print(", 5);
      }
    }
  }

  /** The LINTING patterns want the module name quoted, so a plain `import os` is not reported. */
  lemma UnquotedImportNotFlagged(file: Path, lines: seq<string>, n: int)
    requires 1 <= n <= |lines| && lines[n - 1] == "import os\n"
    ensures !HasFor(FileFindings(file, lines), n, Linting)
  {
    FileFlags(file, lines, n, Linting);
    UnquotedImportLine();
  }

  lemma UnquotedImportLine()
    ensures !Flags("import os\n", Linting)
  {
    var line := "import os\n";
    NoParenNoPrint(line);
    DiffersAt(line, "from os import", 0);
    LintingShapes(line);
  }

  /** Every LINTING pattern needs a quoted module name, `from os import` or a `print(...)` call. */
  lemma LintingShapes(line: string)
    ensures Flags(line, Linting) ==>
      (|line| > 7 && IsQuote(line[7])) || StartsWith(line, "from os import") || PrintCallIn(line)
  {
    if Flags(line, Linting) {
      assert TableRules(Linting) == LintingRules;
      var k :| 0 <= k < |LintingRules| && RuleMatches(LintingRules[k], line);
      LintingRuleShape(line, LintingRules[k]);
    }
  }

  lemma LintingRuleShape(line: string, rule: Rule)
    requires rule in LintingRules && RuleMatches(rule, line)
    ensures (|line| > 7 && IsQuote(line[7])) || StartsWith(line, "from os import") || PrintCallIn(line)
  {
    match rule
    case ImportOs => UnquotedName(line, "os");
    case ImportSys => UnquotedName(line, "sys");
    case ImportNumpy => UnquotedName(line, "numpy");
    case ImportPandas => UnquotedName(line, "pandas");
    case ImportMath => UnquotedName(line, "math");
    case ImportRandom => UnquotedName(line, "random");
    case FromOsImport =>
    case DebugPrint =>
    case NestedComprehension => assert false;
    case BareImport => assert false;
    case IncompleteFromImport => assert false;
  }

  lemma UnquotedName(line: string, name: string)
    ensures QuotedImport(line, name) ==> |line| > 7 && IsQuote(line[7])
  {
  }

  /** A `#` anywhere in the line, even inside a string, suppresses the missing-colon check. */
  lemma HashSuppressesColonCheck(file: Path, lines: seq<string>, n: int)
    requires 1 <= n <= |lines| && '#' in lines[n - 1]
    ensures !HasFor(FileFindings(file, lines), n, Syntax)
  {
    FileFlags(file, lines, n, Syntax);
  }
}
