/** `EnhancedSummaryGenerator`: entity roles, capability detection, file
    domains, the relation chain and its ASCII drawing, the value score, the
    value title, the role and complexity steps of the summary, the body text
    and the title/body quality check. Glyphs are the code points the source
    file holds (UTF-8 arrows and emoji read back as Mac Roman). */
module EnhancedSummary {
  import opened Wrappers
  import opened Strings
  import opened Seqs
  import opened Patterns
  import opened Ordering
  import opened DeepAnalyzer
  import opened SummaryQuality

  // ------------------------------------------------------------------ roles

  /** One alternative of a role regex: a literal, or `a.*b`. */
  datatype Alt = Word(w: string) | Gap(a: string, b: string)

  function AltPattern(alt: Alt): Pattern {
    match alt
    case Word(w) => Lit(w)
    case Gap(a, b) => Lit(a) + [AnyRun] + Lit(b)
  }

  /** The literal every match of the alternative starts with. */
  function Head(alt: Alt): string {
    match alt
    case Word(w) => w
    case Gap(a, _) => a
  }

  datatype RoleRule = RoleRule(alts: seq<Alt>, role: string)

  const RoleCount: nat := 24

  /** `ROLE_PATTERNS` in insertion order, literals lowered: the patterns are
      searched with IGNORECASE, which the model expresses by lowering both
      sides. */
  function RoleTable(): seq<RoleRule> { seq(RoleCount, RoleRuleAt) }

  /** Entry `k` of `ROLE_PATTERNS`. */
  function RoleRuleAt(k: int): RoleRule
    requires 0 <= k < RoleCount
  {
    if k == 0 then RoleRule([Word("_analyze_python_diff"), Word("_analyze_js_diff"), Word("_analyze_generic_diff")], "language-specific code analyzer")
    else if k == 1 then RoleRule([Word("codechangeanalyzer")], "AST-based change detector")
    else if k == 2 then RoleRule([Word("analyze_file_diff")], "diff analysis engine")
    else if k == 3 then RoleRule([Word("aggregate_changes")], "change aggregator")
    else if k == 4 then RoleRule([Word("detect_relations")], "dependency graph builder")
    else if k == 5 then RoleRule([Word("generate_functional_summary")], "business value summarizer")
    else if k == 6 then RoleRule([Gap("generate", "message")], "commit message generator")
    else if k == 7 then RoleRule([Gap("generate", "summary")], "summary generator")
    else if k == 8 then RoleRule([Word("infer_functional_value")], "value inference engine")
    else if k == 9 then RoleRule([Word("enhancedsummarygenerator")], "enterprise changelog generator")
    else if k == 10 then RoleRule([Word("goalconfig")], "configuration manager")
    else if k == 11 then RoleRule([Word("load_config")], "config loader")
    else if k == 12 then RoleRule([Word("save_config")], "config persistence")
    else if k == 13 then RoleRule([Word("validate")], "validation engine")
    else if k == 14 then RoleRule([Word("@click.command")], "CLI command")
    else if k == 15 then RoleRule([Word("@click.option")], "CLI option")
    else if k == 16 then RoleRule([Word("main")], "entry point")
    else if k == 17 then RoleRule([Word("push")], "push workflow")
    else if k == 18 then RoleRule([Word("commit")], "commit workflow")
    else if k == 19 then RoleRule([Gap("format_", "result")], "output formatter")
    else if k == 20 then RoleRule([Word("markdownformatter")], "markdown renderer")
    else if k == 21 then RoleRule([Word("_calculate_complexity")], "complexity analyzer")
    else if k == 22 then RoleRule([Word("complexity")], "code quality metrics")
    else RoleRule([Word("coverage")], "test coverage analyzer")
  }

  /** The naming-convention suffixes tried after the table, in order. */
  const SuffixRoles: seq<(string, string)> := [
    ("Handler", "request handler"), ("Manager", "resource manager"),
    ("Factory", "object factory"), ("Builder", "builder pattern"),
    ("Validator", "input validator"), ("Parser", "parser"),
    ("Generator", "generator"), ("Analyzer", "analyzer")
  ]

  predicate RuleMatches(rule: RoleRule, s: string) {
    exists j :: 0 <= j < |rule.alts| && Search(AltPattern(rule.alts[j]), s)
  }

  /** The first entry of `table` from `k` on whose pattern is found in `s`
      (the table is `RoleTable()` throughout). */
  function FirstRole(table: seq<RoleRule>, s: string, k: nat): (r: Option<nat>)
    requires k <= |table|
    ensures r.Some? ==> k <= r.value < |table| && RuleMatches(table[r.value], s)
    ensures r.Some? ==> forall j :: k <= j < r.value ==> !RuleMatches(table[j], s)
    ensures r.None? ==> forall j :: k <= j < |table| ==> !RuleMatches(table[j], s)
    decreases |table| - k
  {
    if k == |table| then None
    else if RuleMatches(table[k], s) then Some(k)
    else FirstRole(table, s, k + 1)
  }

  /** The first naming-convention suffix the name ends with. */
  function FirstSuffix(name: string, k: nat): (r: Option<nat>)
    requires k <= |SuffixRoles|
    ensures r.Some? ==> k <= r.value < |SuffixRoles| && EndsWith(name, SuffixRoles[r.value].0)
    ensures r.Some? ==> forall j :: k <= j < r.value ==> !EndsWith(name, SuffixRoles[j].0)
    ensures r.None? ==> forall j :: k <= j < |SuffixRoles| ==> !EndsWith(name, SuffixRoles[j].0)
    decreases |SuffixRoles| - k
  {
    if k == |SuffixRoles| then None
    else if EndsWith(name, SuffixRoles[k].0) then Some(k)
    else FirstSuffix(name, k + 1)
  }

  /** `map_entity_to_role`: the first table entry found in the name wins;
      only then do the naming conventions count. */
  function MapEntityToRole(name: string): (r: string)
    ensures FirstRole(RoleTable(), Lower(name), 0).Some? ==> r == RoleTable()[FirstRole(RoleTable(), Lower(name), 0).value].role
    ensures FirstRole(RoleTable(), Lower(name), 0).None? ==> r == ConventionRole(name)
  {
    match FirstRole(RoleTable(), Lower(name), 0)
    case Some(k) => RoleTable()[k].role
    case None => ConventionRole(name)
  }

  /** The naming conventions `map_entity_to_role` falls back on: the `test_`
      and `_` prefixes, then the first suffix the name ends with; a name
      nothing fits comes back unchanged. */
  function ConventionRole(name: string): (r: string)
    ensures StartsWith(name, "test_") ==> r == "test case"
    ensures !StartsWith(name, "test_") && StartsWith(name, "_") ==> r == "internal helper"
    ensures !StartsWith(name, "test_") && !StartsWith(name, "_")
            ==> forall j :: 0 <= j < |SuffixRoles| && EndsWith(name, SuffixRoles[j].0)
                            && (forall i :: 0 <= i < j ==> !EndsWith(name, SuffixRoles[i].0))
                            ==> r == SuffixRoles[j].1
    ensures !StartsWith(name, "test_") && !StartsWith(name, "_")
            && (forall j :: 0 <= j < |SuffixRoles| ==> !EndsWith(name, SuffixRoles[j].0))
            ==> r == name
  {
    if StartsWith(name, "test_") then "test case"
    else if StartsWith(name, "_") then "internal helper"
    else
      match FirstSuffix(name, 0)
      case Some(j) => SuffixRoles[j].1
      case None => name
  }

  lemma {:induction false} SearchHeadFrom(p: Pattern, w: string, s: string, i: nat)
    requires i <= |s| && |w| <= |p| && p[..|w|] == Lit(w) && SearchFrom(p, s, i)
    ensures Contains(s, w)
    decreases |s| - i
  {
    if MatchAt(p, s, i) {
      MatchHead(p, w, s, i);
      ContainsAt(s, w, i);
    } else {
      SearchHeadFrom(p, w, s, i + 1);
    }
  }

  lemma {:induction false} MatchHead(p: Pattern, w: string, s: string, i: nat)
    requires i <= |s| && |w| <= |p| && p[..|w|] == Lit(w) && MatchAt(p, s, i)
    ensures i + |w| <= |s| && s[i..i + |w|] == w
    decreases |w|
  {
    if w != [] {
      assert p[0] == Ch(w[0]);
      assert p[1..][..|w[1..]|] == Lit(w[1..]);
      MatchHead(p[1..], w[1..], s, i + 1);
      assert s[i..i + |w|] == [s[i]] + s[i + 1..i + 1 + |w[1..]|];
      assert w == [w[0]] + w[1..];
    }
  }

  /** An alternative is only found where its leading literal occurs. */
  lemma AltNeedsHead(alt: Alt, s: string)
    requires Search(AltPattern(alt), s)
    ensures Contains(s, Head(alt))
  {
    var p := AltPattern(alt);
    assert p[..|Head(alt)|] == Lit(Head(alt));
    SearchHeadFrom(p, Head(alt), s, 0);
  }

  /** A character of the leading literal that `s` lacks rules the
      alternative out. */
  lemma AltMissing(alt: Alt, s: string, c: char)
    requires c in Head(alt) && c !in s
    ensures !Search(AltPattern(alt), s)
  {
    if Search(AltPattern(alt), s) {
      AltNeedsHead(alt, s);
      ContainsMembers(s, Head(alt), c);
    }
  }

  lemma RuleMissing(k: nat, s: string, c: char)
    requires k < |RoleTable()| && forall j :: 0 <= j < |RoleTable()[k].alts| ==> c in Head(RoleTable()[k].alts[j])
    requires c !in s
    ensures !RuleMatches(RoleTable()[k], s)
  {
    forall j | 0 <= j < |RoleTable()[k].alts| ensures !Search(AltPattern(RoleTable()[k].alts[j]), s) {
      AltMissing(RoleTable()[k].alts[j], s, c);
    }
  }

  /** No rule from `a` up to `b` is found in `s`. */
  ghost predicate NoRuleIn(s: string, a: nat, b: nat) {
    forall j :: a <= j < b && j < |RoleTable()| ==> !RuleMatches(RoleTable()[j], s)
  }

  /** Rule `k`, which needs `c`, is not found in a name without `c`. */
  lemma RuleMissingNext(a: nat, k: nat, s: string, c: char)
    requires a <= k && NoRuleIn(s, a, k) && RuleNeeds(k, c) && c !in s
    ensures NoRuleIn(s, a, k + 1)
  {
    RuleMissing(k, s, c);
  }

  /** Every alternative of rule `k` starts with a literal holding `c`. */
  ghost predicate RuleNeeds(k: nat, c: char) {
    k < |RoleTable()| && forall j :: 0 <= j < |RoleTable()[k].alts| ==> c in Head(RoleTable()[k].alts[j])
  }

  lemma Needs0() ensures RuleNeeds(0, 'y') { }
  lemma Needs1() ensures RuleNeeds(1, 'y') { }
  lemma Needs2() ensures RuleNeeds(2, 'y') { }
  lemma Needs3() ensures RuleNeeds(3, 'g') { }
  lemma Needs4() ensures RuleNeeds(4, 'd') { }
  lemma Needs5() ensures RuleNeeds(5, 'g') { }
  lemma Needs6() ensures RuleNeeds(6, 'g') { }
  lemma Needs7() ensures RuleNeeds(7, 'g') { }
  lemma Needs8() ensures RuleNeeds(8, 'f') { }
  lemma Needs9() ensures RuleNeeds(9, 'h') { }
  lemma Needs10() ensures RuleNeeds(10, 'g') { }
  lemma Needs11() ensures RuleNeeds(11, 'l') { }
  lemma Needs12() ensures RuleNeeds(12, 'v') { }
  lemma Needs13() ensures RuleNeeds(13, 'v') { }
  lemma Needs14() ensures RuleNeeds(14, '@') { }
  lemma Needs15() ensures RuleNeeds(15, '@') { }
  lemma Needs16() ensures RuleNeeds(16, 'n') { }
  lemma Needs17() ensures RuleNeeds(17, 'u') { }


  lemma NoRuleJoin(s: string, a: nat, b: nat, c: nat)
    requires a <= b <= c && NoRuleIn(s, a, b) && NoRuleIn(s, b, c)
    ensures NoRuleIn(s, a, c)
  {
  }

  lemma NoMatch0To4(s: string)
    requires 'g' !in s && 'y' !in s
    ensures NoRuleIn(s, 0, 4)
  {
    Needs0();
    RuleMissingNext(0, 0, s, 'y');
    Needs1();
    RuleMissingNext(0, 1, s, 'y');
    Needs2();
    RuleMissingNext(0, 2, s, 'y');
    Needs3();
    RuleMissingNext(0, 3, s, 'g');
  }

  lemma NoMatch4To8(s: string)
    requires 'd' !in s && 'g' !in s
    ensures NoRuleIn(s, 4, 8)
  {
    Needs4();
    RuleMissingNext(4, 4, s, 'd');
    Needs5();
    RuleMissingNext(4, 5, s, 'g');
    Needs6();
    RuleMissingNext(4, 6, s, 'g');
    Needs7();
    RuleMissingNext(4, 7, s, 'g');
  }

  lemma NoMatch8To12(s: string)
    requires 'f' !in s && 'g' !in s && 'h' !in s && 'l' !in s
    ensures NoRuleIn(s, 8, 12)
  {
    Needs8();
    RuleMissingNext(8, 8, s, 'f');
    Needs9();
    RuleMissingNext(8, 9, s, 'h');
    Needs10();
    RuleMissingNext(8, 10, s, 'g');
    Needs11();
    RuleMissingNext(8, 11, s, 'l');
  }

  lemma NoMatch12To16(s: string)
    requires '@' !in s && 'v' !in s
    ensures NoRuleIn(s, 12, 16)
  {
    Needs12();
    RuleMissingNext(12, 12, s, 'v');
    Needs13();
    RuleMissingNext(12, 13, s, 'v');
    Needs14();
    RuleMissingNext(12, 14, s, '@');
    Needs15();
    RuleMissingNext(12, 15, s, '@');
  }

  lemma NoMatch16To18(s: string)
    requires 'n' !in s && 'u' !in s
    ensures NoRuleIn(s, 16, 18)
  {
    Needs16();
    RuleMissingNext(16, 16, s, 'n');
    Needs17();
    RuleMissingNext(16, 17, s, 'u');
  }

  /** No rule before 16 is found in a name without any of these characters. */
  lemma NoMatchBefore16(s: string)
    requires '@' !in s && 'd' !in s && 'f' !in s && 'g' !in s && 'h' !in s && 'l' !in s && 'v' !in s && 'y' !in s
    ensures NoRuleIn(s, 0, 16)
  {
    NoMatch0To4(s);
    NoMatch4To8(s);
    NoMatch8To12(s);
    NoMatch12To16(s);
    NoRuleJoin(s, 0, 4, 8);
    NoRuleJoin(s, 0, 8, 12);
    NoRuleJoin(s, 0, 12, 16);
  }

  lemma Rule16Is() ensures RoleTable()[16] == RoleRule([Word("main")], "entry point") { }
  lemma Rule18Is() ensures RoleTable()[18] == RoleRule([Word("commit")], "commit workflow") { }

  /** A rule with the single alternative `w` is found in a name containing `w`. */
  lemma WordRuleFound(rule: RoleRule, w: string, s: string)
    requires rule.alts == [Word(w)] && Contains(s, w)
    ensures RuleMatches(rule, s)
  {
    SearchLit(w, s);
    assert Search(AltPattern(rule.alts[0]), s);
  }

  /** A rule that matches, with no rule before it matching, is the first. */
  lemma FirstRoleAt(table: seq<RoleRule>, s: string, t: nat)
    requires t < |table| && RuleMatches(table[t], s)
    requires forall j :: 0 <= j < t ==> !RuleMatches(table[j], s)
    ensures FirstRole(table, s, 0) == Some(t)
  {
  }

  /** A name that matches rule `t` and none before it gets rule `t`. */
  lemma FirstRoleIs16(s: string)
    requires NoRuleIn(s, 0, 16) && RuleMatches(RoleTable()[16], s)
    ensures FirstRole(RoleTable(), s, 0) == Some(16)
  {
    FirstRoleAt(RoleTable(), s, 16);
  }

  lemma FirstRoleIs18(s: string)
    requires NoRuleIn(s, 0, 18) && RuleMatches(RoleTable()[18], s)
    ensures FirstRole(RoleTable(), s, 0) == Some(18)
  {
    FirstRoleAt(RoleTable(), s, 18);
  }

  /** The table comes before the prefix rules: `test_main` is an entry
      point, not a test case. */
  lemma TestMainIsEntryPoint(name: string)
    requires name == "test_main"
    ensures MapEntityToRole(name) == "entry point"
  {
    LowerTestMain(name);
    TestMainRole(Lower(name));
  }

  lemma LowerTestMain(name: string)
    requires name == "test_main"
    ensures Lower(name) == "test_main"
  {
  }

  lemma TestMainRole(s: string)
    requires s == "test_main"
    ensures FirstRole(RoleTable(), s, 0) == Some(16) && RoleTable()[16].role == "entry point"
  {
    TestMainLetters(s);
    TestMainHasMain(s);
    MainRule(s);
    Rule16Is();
  }

  lemma TestMainHasMain(s: string)
    requires s == "test_main"
    ensures Contains(s, "main")
  {
    assert s[5..9] == "main";
    ContainsAt(s, "main", 5);
  }

  lemma TestMainLetters(s: string)
    requires s == "test_main"
    ensures '@' !in s && 'd' !in s && 'f' !in s && 'g' !in s && 'h' !in s && 'l' !in s && 'v' !in s && 'y' !in s
  {
  }

  lemma MainRule(s: string)
    requires '@' !in s && 'd' !in s && 'f' !in s && 'g' !in s && 'h' !in s && 'l' !in s && 'v' !in s && 'y' !in s
    requires Contains(s, "main")
    ensures FirstRole(RoleTable(), s, 0) == Some(16)
  {
    NoMatchBefore16(s);
    Rule16Is();
    WordRuleFound(RoleTable()[16], "main", s);
    FirstRoleIs16(s);
  }

  /** The table comes before the suffix rules: `CommitParser` is a commit
      workflow, not a parser. */
  lemma CommitParserIsCommitWorkflow(name: string)
    requires name == "CommitParser"
    ensures MapEntityToRole(name) == "commit workflow"
  {
    LowerCommitParser(name);
    CommitParserRole(Lower(name));
  }

  lemma LowerCommitParser(name: string)
    requires name == "CommitParser"
    ensures Lower(name) == "commitparser"
  {
  }

  lemma CommitParserRole(s: string)
    requires s == "commitparser"
    ensures FirstRole(RoleTable(), s, 0) == Some(18) && RoleTable()[18].role == "commit workflow"
  {
    CommitParserLetters(s);
    CommitParserHasCommit(s);
    CommitRule(s);
    Rule18Is();
  }

  lemma CommitParserHasCommit(s: string)
    requires s == "commitparser"
    ensures Contains(s, "commit")
  {
    assert s[..6] == "commit";
    ContainsAt(s, "commit", 0);
  }

  lemma CommitParserLetters(s: string)
    requires s == "commitparser"
    ensures '@' !in s && 'd' !in s && 'f' !in s && 'g' !in s && 'h' !in s && 'l' !in s && 'n' !in s && 'u' !in s && 'v' !in s && 'y' !in s
  {
  }

  lemma NoMatchBefore18(s: string)
    requires '@' !in s && 'd' !in s && 'f' !in s && 'g' !in s && 'h' !in s && 'l' !in s && 'n' !in s && 'u' !in s && 'v' !in s && 'y' !in s
    ensures NoRuleIn(s, 0, 18)
  {
    NoMatchBefore16(s);
    NoMatch16To18(s);
    NoRuleJoin(s, 0, 16, 18);
  }

  /** A lowered name containing `commit` but none of the characters that
      rule out the first eighteen rules is a commit workflow. */
  lemma CommitRule(s: string)
    requires '@' !in s && 'd' !in s && 'f' !in s && 'g' !in s && 'h' !in s && 'l' !in s && 'n' !in s && 'u' !in s && 'v' !in s && 'y' !in s
    requires Contains(s, "commit")
    ensures FirstRole(RoleTable(), s, 0) == Some(18)
  {
    NoMatchBefore18(s);
    Rule18Is();
    WordRuleFound(RoleTable()[18], "commit", s);
    FirstRoleIs18(s);
  }

  // ----------------------------------------------------------- capabilities

  datatype CapabilityRule = CapabilityRule(id: string, signatures: seq<string>, capability: string, impact: string)

  /** `VALUE_PATTERNS` of the generator in insertion order, signatures
      lowered (the code lowers them before comparing). */
  const CapabilityTable: seq<CapabilityRule> := [
    CapabilityRule("ast_analysis", ["ast.parse", "ast.walk", "libcst", "tree-sitter", "ast"],
      "deep code analysis engine", "intelligent change detection"),
    CapabilityRule("dependency_graph", ["networkx", "relations", "dependencies", "graph", "detect_relations"],
      "code relationship mapping", "architecture understanding"),
    CapabilityRule("quality_metrics", ["radon", "cyclomatic", "complexity", "coverage", "metrics"],
      "code quality metrics", "maintainability tracking"),
    CapabilityRule("multi_language", ["_analyze_python", "_analyze_js", "language", "parser"],
      "multi-language support", "universal code analysis"),
    CapabilityRule("config_system", ["yaml", "config", "goalconfig", "settings"],
      "configuration management", "customizable workflows"),
    CapabilityRule("cli_interface", ["click", "command", "option", "argument"],
      "CLI interface", "improved user experience"),
    CapabilityRule("output_formatting", ["markdown", "format", "render", "template"],
      "output formatting", "readable reports"),
    CapabilityRule("changelog", ["changelog", "changelog", "version", "release"],
      "changelog generation", "release documentation")
  ]

  /** The table position of each capability id. */
  const CapabilityIndex: map<string, nat> := map[
    "ast_analysis" := 0, "dependency_graph" := 1, "quality_metrics" := 2, "multi_language" := 3,
    "config_system" := 4, "cli_interface" := 5, "output_formatting" := 6, "changelog" := 7]

  lemma CapabilityIndexOfTable()
    ensures forall k :: 0 <= k < |CapabilityTable| ==>
      CapabilityTable[k].id in CapabilityIndex && CapabilityIndex[CapabilityTable[k].id] == k
  {
  }

  /** The text searched: the diff, a space, then the file names joined by
      spaces, lowered. */
  function CombinedText(files: seq<string>, diff: string): string {
    Lower(diff + " " + Join(" ", files))
  }

  function CapOf(rule: CapabilityRule): Capability {
    Capability(rule.id, rule.capability, rule.impact)
  }

  /** The capabilities of the first `n` table entries whose signatures occur
      in the text, in table order. */
  function CapabilitiesUpTo(text: string, n: nat): (r: seq<Capability>)
    requires n <= |CapabilityTable|
    ensures forall i :: 0 <= i < |r| ==> r[i].id in CapabilityIndex && CapabilityIndex[r[i].id] < n
    ensures forall i :: 0 <= i < |r| ==> r[i] == CapOf(CapabilityTable[CapabilityIndex[r[i].id]])
    ensures forall i :: 0 <= i < |r| ==> ContainsAny(text, CapabilityTable[CapabilityIndex[r[i].id]].signatures)
    ensures forall i, j :: 0 <= i < j < |r| ==> CapabilityIndex[r[i].id] < CapabilityIndex[r[j].id]
    decreases n
  {
    CapabilityIndexOfTable();
    if n == 0 then []
    else
      var rule := CapabilityTable[n - 1];
      CapabilitiesUpTo(text, n - 1) + (if ContainsAny(text, rule.signatures) then [CapOf(rule)] else [])
  }

  function Ids(caps: seq<Capability>): set<string> { set i | 0 <= i < |caps| :: caps[i].id }

  lemma IdsAppend(caps: seq<Capability>, c: Capability)
    ensures Ids(caps + [c]) == Ids(caps) + {c.id}
  {
    var r := caps + [c];
    assert r[|caps|] == c;
    forall x | x in Ids(caps) ensures x in Ids(r) {
      var i :| 0 <= i < |caps| && caps[i].id == x;
      assert r[i] == caps[i];
    }
  }

  /** The inner loop of `detect_capabilities`: the scan of one entry's
      signatures stops at the first one found. The table already holds
      `sig.lower()`. */
  method AnySignature(text: string, signatures: seq<string>) returns (found: bool)
    ensures found == ContainsAny(text, signatures)
  {
    found := false;
    var s := 0;
    while s < |signatures|
      invariant 0 <= s <= |signatures|
      invariant !exists k :: 0 <= k < s && Contains(text, signatures[k])
    {
      if Contains(text, signatures[s]) {
        found := true;
        break;
      }
      s := s + 1;
    }
  }

  /** `detect_capabilities`: an entry with a signature in the text adds its
      capability once (the `seen` set), in table order. */
  method DetectCapabilities(files: seq<string>, diff: string) returns (caps: seq<Capability>)
    ensures caps == CapabilitiesUpTo(CombinedText(files, diff), |CapabilityTable|)
  {
    var text := CombinedText(files, diff);
    CapabilityIndexOfTable();
    caps := [];
    var seen: set<string> := {};
    var c := 0;
    while c < |CapabilityTable|
      invariant 0 <= c <= |CapabilityTable|
      invariant caps == CapabilitiesUpTo(text, c)
      invariant seen == Ids(caps)
    {
      var rule := CapabilityTable[c];
      var found := AnySignature(text, rule.signatures);
      if found && rule.id !in seen {
        IdsAppend(caps, CapOf(rule));
        caps := caps + [CapOf(rule)];
        seen := seen + {rule.id};
      }
      c := c + 1;
    }
  }

  /** The detected capabilities carry distinct ids, follow table order and
      are exactly the entries with a signature in the text. */
  lemma DetectedCapabilitiesFacts(text: string)
    ensures var r := CapabilitiesUpTo(text, |CapabilityTable|);
      (forall i, j :: 0 <= i < j < |r| ==> r[i].id != r[j].id)
      && (forall k :: 0 <= k < |CapabilityTable| ==>
            (CapOf(CapabilityTable[k]) in r <==> ContainsAny(text, CapabilityTable[k].signatures)))
  {
    CapabilityIndexOfTable();
    var r := CapabilitiesUpTo(text, |CapabilityTable|);
    forall k | 0 <= k < |CapabilityTable|
      ensures CapOf(CapabilityTable[k]) in r <==> ContainsAny(text, CapabilityTable[k].signatures)
    {
      HitsAppear(text, |CapabilityTable|, k);
    }
  }

  lemma {:induction false} HitsAppear(text: string, n: nat, k: nat)
    requires k < n <= |CapabilityTable|
    ensures CapOf(CapabilityTable[k]) in CapabilitiesUpTo(text, n) <==> ContainsAny(text, CapabilityTable[k].signatures)
    decreases n
  {
    var r := CapabilitiesUpTo(text, n);
    var rule := CapabilityTable[n - 1];
    var prev := CapabilitiesUpTo(text, n - 1);
    var hit := ContainsAny(text, rule.signatures);
    assert r == prev + (if hit then [CapOf(rule)] else []);
    var cap := CapOf(CapabilityTable[k]);
    if k < n - 1 {
      HitsAppear(text, n - 1, k);
      TableIdsDistinct(k, n - 1);
      assert cap in r <==> cap in prev;
    } else {
      NotInEarlier(text, n);
      assert cap in r <==> hit;
    }
  }

  /** Entry `n - 1` is not among the capabilities of the entries before it. */
  lemma NotInEarlier(text: string, n: nat)
    requires 0 < n <= |CapabilityTable|
    ensures CapOf(CapabilityTable[n - 1]) !in CapabilitiesUpTo(text, n - 1)
  {
    var prev := CapabilitiesUpTo(text, n - 1);
    var id := CapabilityTable[n - 1].id;
    assert CapabilityIndex[id] == n - 1 by { CapabilityIndexOfTable(); }
    forall i | 0 <= i < |prev| ensures prev[i] != CapOf(CapabilityTable[n - 1]) {
      assert CapabilityIndex[prev[i].id] < n - 1;
    }
  }

  lemma TableIdsDistinct(i: nat, j: nat)
    requires i < j < |CapabilityTable|
    ensures CapabilityTable[i].id != CapabilityTable[j].id
  {
    CapabilityIndexOfTable();
  }

  // ---------------------------------------------------------------- domain

  /** `_infer_domain`: the first substring or suffix rule of the lowered
      path, else `'core'`. */
  function InferDomain(path: string): (r: string)
    ensures r in {"test", "docs", "config", "cli", "api", "data", "output", "analysis", "core"}
    ensures Contains(Lower(path), "test") ==> r == "test"
    ensures r == "core" ==> !ContainsAny(Lower(path), ["test", "doc", "config", "cli", "api", "db", "model",
                                                       "format", "render", "analyzer", "parse"])
  {
    var l := Lower(path);
    if Contains(l, "test") then "test"
    else if Contains(l, "doc") || EndsWith(l, ".md") then "docs"
    else if Contains(l, "config") || EndsWith(l, ".yaml") || EndsWith(l, ".toml") || EndsWith(l, ".json") then "config"
    else if Contains(l, "cli") then "cli"
    else if Contains(l, "api") then "api"
    else if Contains(l, "db") || Contains(l, "model") then "data"
    else if Contains(l, "format") || Contains(l, "render") then "output"
    else if Contains(l, "analyzer") || Contains(l, "parse") then "analysis"
    else "core"
  }

  // ------------------------------------------------------- relation chain

  /** `'‚Üí'`: the arrow between chain nodes and in the ASCII drawing. */
  const ChainArrow: string := "\U{201A}\U{00DC}\U{00ED}"

  predicate HasKeys(relations: seq<Relation>) {
    forall k :: 0 <= k < |relations| ==> relations[k].src.Some? && relations[k].dst.Some?
  }

  /** The `(from, to)` pairs of relations that have both keys. */
  function EdgeSet(relations: seq<Relation>): set<(string, string)> {
    set k | 0 <= k < |relations| && relations[k].src.Some? && relations[k].dst.Some?
      :: (relations[k].src.value, relations[k].dst.value)
  }

  function Sources(e: set<(string, string)>): set<string> { set p | p in e :: p.0 }

  function Targets(e: set<(string, string)>): set<string> { set p | p in e :: p.1 }

  function Successors(e: set<(string, string)>, a: string): set<string> { set p | p in e && p.0 == a :: p.1 }

  /** The sources no relation points at, or every source when each is also
      a target. */
  function Roots(e: set<(string, string)>): set<string> {
    if Sources(e) - Targets(e) != {} then Sources(e) - Targets(e) else Sources(e)
  }

  /** A walk along real edges that visits no node twice and stops only when
      every successor of its last node is already on it. */
  predicate IsChain(c: seq<string>, e: set<(string, string)>) {
    |c| > 0
    && Distinct(c)
    && (forall k :: 0 <= k < |c| - 1 ==> (c[k], c[k + 1]) in e)
    && (forall b :: b in Successors(e, c[|c| - 1]) ==> b in c)
  }

  function Heads(chains: seq<seq<string>>): set<string>
    requires forall k :: 0 <= k < |chains| ==> |chains[k]| > 0
  {
    set k | 0 <= k < |chains| :: chains[k][0]
  }

  function ChainTexts(chains: seq<seq<string>>): (r: seq<string>)
    ensures |r| == |chains| && forall k :: 0 <= k < |r| ==> r[k] == Join(ChainArrow, chains[k])
  {
    seq(|chains|, k requires 0 <= k < |chains| => Join(ChainArrow, chains[k]))
  }

  lemma HeadsAppend(chains: seq<seq<string>>, c: seq<string>)
    requires forall k :: 0 <= k < |chains| ==> |chains[k]| > 0
    requires |c| > 0
    ensures Heads(chains + [c]) == Heads(chains) + {c[0]}
  {
    var r := chains + [c];
    assert r[|chains|] == c;
    forall x | x in Heads(chains) ensures x in Heads(r) {
      var k :| 0 <= k < |chains| && chains[k][0] == x;
      assert r[k] == chains[k];
    }
  }

  /** `adj` maps each node to its successors along the edges `e`, and
      leaves out the nodes without any. */
  ghost predicate AdjacencyOf(adj: map<string, set<string>>, e: set<(string, string)>) {
    forall a :: (a in adj ==> adj[a] == Successors(e, a)) && (a !in adj ==> Successors(e, a) == {})
  }

  /** The adjacency map `adj` built from the relations. */
  method Adjacency(relations: seq<Relation>) returns (r: Result<map<string, set<string>>>)
    ensures r.Err? <==> !HasKeys(relations)
    ensures r.Ok? ==> AdjacencyOf(r.value, EdgeSet(relations))
  {
    var adj: map<string, set<string>> := map[];
    var i := 0;
    while i < |relations|
      invariant 0 <= i <= |relations|
      invariant HasKeys(relations[..i])
      invariant AdjacencyOf(adj, EdgeSet(relations[..i]))
    {
      var rel := relations[i];
      if rel.src.None? || rel.dst.None? {
        assert !HasKeys(relations) by { assert relations[i] == rel; }
        return Err("KeyError");
      }
      var a := rel.src.value;
      var b := rel.dst.value;
      var next := adj[a := (if a in adj then adj[a] else {}) + {b}];
      AdjacencyStep(relations, i, adj, next);
      adj := next;
      i := i + 1;
    }
    assert relations[..i] == relations;
    r := Ok(adj);
  }

  lemma AdjacencyStep(relations: seq<Relation>, i: nat, adj: map<string, set<string>>, next: map<string, set<string>>)
    requires i < |relations| && relations[i].src.Some? && relations[i].dst.Some?
    requires HasKeys(relations[..i]) && AdjacencyOf(adj, EdgeSet(relations[..i]))
    requires var a := relations[i].src.value;
      next == adj[a := (if a in adj then adj[a] else {}) + {relations[i].dst.value}]
    ensures HasKeys(relations[..i + 1]) && AdjacencyOf(next, EdgeSet(relations[..i + 1]))
  {
    var rel := relations[i];
    var a, b := rel.src.value, rel.dst.value;
    var e := EdgeSet(relations[..i]);
    assert relations[..i + 1] == relations[..i] + [rel];
    assert EdgeSet(relations[..i + 1]) == e + {(a, b)};
    forall x ensures (x in next ==> next[x] == Successors(e + {(a, b)}, x))
                  && (x !in next ==> Successors(e + {(a, b)}, x) == {})
    {
      assert Successors(e + {(a, b)}, x) == Successors(e, x) + (if x == a then {b} else {});
    }
  }

  /** `_build_relation_chain`: `''` for no relations, a `KeyError` for a
      relation without `from` or `to`; otherwise one chain per root, each
      following successors not yet on it. Python picks roots and successors
      in set order, so each pick is any admissible one. */
  method BuildRelationChain(relations: seq<Relation>) returns (r: Result<string>, chains: seq<seq<string>>)
    ensures relations == [] ==> r == Ok("") && chains == []
    ensures relations != [] ==> (r.Err? <==> !HasKeys(relations))
    ensures relations != [] && r.Ok? ==>
      && (forall k :: 0 <= k < |chains| ==> IsChain(chains[k], EdgeSet(relations)))
      && Heads(chains) == Roots(EdgeSet(relations))
      && (forall i, j :: 0 <= i < j < |chains| ==> chains[i][0] != chains[j][0])
      && r.value == Join(", ", ChainTexts(chains))
  {
    chains := [];
    if relations == [] {
      return Ok(""), [];
    }
    var adjacency := Adjacency(relations);
    if adjacency.Err? {
      return Err("KeyError"), [];
    }
    var adj := adjacency.value;
    chains := WalkAll(adj, EdgeSet(relations), Roots(EdgeSet(relations)));
    r := Ok(Join(", ", ChainTexts(chains)));
  }

  /** One chain from every root, each root once. */
  method WalkAll(adj: map<string, set<string>>, e: set<(string, string)>, roots: set<string>)
    returns (chains: seq<seq<string>>)
    requires forall a :: (a in adj ==> adj[a] == Successors(e, a)) && (a !in adj ==> Successors(e, a) == {})
    ensures forall k :: 0 <= k < |chains| ==> IsChain(chains[k], e) && |chains[k]| > 0
    ensures Heads(chains) == roots
    ensures forall i, j :: 0 <= i < j < |chains| ==> chains[i][0] != chains[j][0]
  {
    chains := [];
    var todo := roots;
    while todo != {}
      invariant todo <= roots
      invariant ChainsSoFar(chains, e) && Heads(chains) == roots - todo
      decreases |todo|
    {
      var root :| root in todo;
      var chain := Walk(adj, e, root);
      WalkAllStep(chains, chain, e, roots, todo, root);
      chains := chains + [chain];
      todo := todo - {root};
    }
  }

  /** Chains along real edges, each from a different head. */
  predicate ChainsSoFar(chains: seq<seq<string>>, e: set<(string, string)>) {
    (forall k :: 0 <= k < |chains| ==> IsChain(chains[k], e) && |chains[k]| > 0)
    && (forall i, j :: 0 <= i < j < |chains| ==> chains[i][0] != chains[j][0])
  }

  lemma WalkAllStep(chains: seq<seq<string>>, chain: seq<string>, e: set<(string, string)>,
                    roots: set<string>, todo: set<string>, root: string)
    requires ChainsSoFar(chains, e) && Heads(chains) == roots - todo
    requires root in todo && todo <= roots && IsChain(chain, e) && chain[0] == root
    ensures ChainsSoFar(chains + [chain], e) && Heads(chains + [chain]) == roots - (todo - {root})
  {
    HeadsAppend(chains, chain);
    var r := chains + [chain];
    forall i, j | 0 <= i < j < |r|
      ensures r[i][0] != r[j][0]
    {
      assert r[i] == chains[i];
      if j < |chains| {
        assert r[j] == chains[j];
      } else {
        assert chains[i][0] in Heads(chains);
      }
    }
    forall k | 0 <= k < |r|
      ensures IsChain(r[k], e) && |r[k]| > 0
    {
      if k < |chains| {
        assert r[k] == chains[k];
      }
    }
  }

  lemma SmallerRemainder(universe: set<string>, visited: set<string>, next: string)
    requires next in universe && next !in visited
    ensures |universe - (visited + {next})| < |universe - visited|
  {
    assert universe - visited == (universe - (visited + {next})) + {next};
  }

  lemma SuccessorEdge(e: set<(string, string)>, a: string, b: string)
    requires b in Successors(e, a)
    ensures (a, b) in e && b in Targets(e)
  {
    var p :| p in e && p.0 == a && p.1 == b;
  }

  /** A walk that stops because its last node has no unvisited successor
      has every successor of that node on it. */
  lemma ClosedWalk(chain: seq<string>, e: set<(string, string)>, visited: set<string>, succ: set<string>)
    requires |chain| > 0 && visited == (set x | x in chain)
    requires succ == Successors(e, chain[|chain| - 1]) && succ - visited == {}
    ensures forall b :: b in Successors(e, chain[|chain| - 1]) ==> b in chain
  {
    forall b | b in succ
      ensures b in chain
    {
      assert b in succ - visited <==> b !in visited;
    }
  }

  lemma ExtendChain(chain: seq<string>, next: string)
    requires Distinct(chain) && next !in chain
    ensures Distinct(chain + [next])
    ensures (set x | x in chain + [next]) == (set x | x in chain) + {next}
  {
  }

  /** The inner loop of `_build_relation_chain` from one root. */
  method Walk(adj: map<string, set<string>>, e: set<(string, string)>, root: string) returns (chain: seq<string>)
    requires forall a :: (a in adj ==> adj[a] == Successors(e, a)) && (a !in adj ==> Successors(e, a) == {})
    ensures IsChain(chain, e) && chain[0] == root
  {
    chain := [root];
    var visited := {root};
    var current := root;
    ghost var universe := Targets(e) + {root};
    while (if current in adj then adj[current] else {}) - visited != {}
      invariant |chain| > 0 && chain[0] == root && current == chain[|chain| - 1]
      invariant WalkSoFar(chain, e, visited, universe)
      decreases |universe - visited|
    {
      var next :| next in adj[current] - visited;
      SuccessorEdge(e, current, next);
      SmallerRemainder(universe, visited, next);
      WalkStep(chain, e, visited, universe, next);
      chain := chain + [next];
      visited := visited + {next};
      current := next;
    }
    ghost var succ := if current in adj then adj[current] else {};
    ClosedWalk(chain, e, visited, succ);
  }

  /** What the walk keeps: no node twice, the visited set is the walk's
      nodes, all inside `universe`, and each step follows an edge. */
  predicate WalkSoFar(chain: seq<string>, e: set<(string, string)>, visited: set<string>, universe: set<string>) {
    Distinct(chain)
    && visited == (set x | x in chain)
    && visited <= universe
    && forall k :: 0 <= k < |chain| - 1 ==> (chain[k], chain[k + 1]) in e
  }

  lemma WalkStep(chain: seq<string>, e: set<(string, string)>, visited: set<string>, universe: set<string>, next: string)
    requires |chain| > 0 && WalkSoFar(chain, e, visited, universe)
    requires (chain[|chain| - 1], next) in e && next !in visited && next in universe
    ensures WalkSoFar(chain + [next], e, visited + {next}, universe)
  {
    ExtendChain(chain, next);
    var c := chain + [next];
    forall k | 0 <= k < |c| - 1
      ensures (c[k], c[k + 1]) in e
    {
      if k < |chain| - 1 {
        assert c[k] == chain[k] && c[k + 1] == chain[k + 1];
      }
    }
  }

  // --------------------------------------------------------- ASCII drawing

  /** `'‚îÄ‚îÄ‚î¨‚îÄ‚îÄ'`, `'‚îú‚îÄ‚îÄ'` and `'‚îî‚îÄ‚îÄ'`: the fork, branch and last-branch
      glyphs. */
  const Fork: string := "\U{201A}\U{00EE}\U{00C4}\U{201A}\U{00EE}\U{00C4}\U{201A}\U{00EE}\U{00A8}\U{201A}\U{00EE}\U{00C4}\U{201A}\U{00EE}\U{00C4}"
  const Tee: string := "\U{201A}\U{00EE}\U{00FA}\U{201A}\U{00EE}\U{00C4}\U{201A}\U{00EE}\U{00C4}"
  const Corner: string := "\U{201A}\U{00EE}\U{00EE}\U{201A}\U{00EE}\U{00C4}\U{201A}\U{00EE}\U{00C4}"

  function Spaces(n: nat): (r: string)
    ensures |r| == n && forall i :: 0 <= i < n ==> r[i] == ' '
  {
    seq(n, i => ' ')
  }

  /** The middle targets of a fork, one branch line each. */
  function BranchLines(pad: string, targets: seq<string>): (r: seq<string>)
    ensures |r| == |targets| && forall k :: 0 <= k < |r| ==> r[k] == pad + Tee + "> " + targets[k] + ".py"
  {
    seq(|targets|, k requires 0 <= k < |targets| => pad + Tee + "> " + targets[k] + ".py")
  }

  /** The lines drawn for one source and its sorted targets. */
  function SourceBlock(source: string, targets: seq<string>): (r: seq<string>)
    requires |targets| > 0
    ensures |r| == |targets|
    ensures r[0] == source + ".py " + (if |targets| == 1 then ChainArrow + " " else Fork + "> ") + targets[0] + ".py"
    ensures forall k :: 0 < k < |r| ==>
      r[k] == Spaces(|source| + 4) + (if k < |r| - 1 then Tee else Corner) + "> " + targets[k] + ".py"
  {
    var pad := Spaces(|source| + 4);
    if |targets| == 1 then [source + ".py " + ChainArrow + " " + targets[0] + ".py"]
    else
      [source + ".py " + Fork + "> " + targets[0] + ".py"]
      + BranchLines(pad, targets[1..|targets| - 1])
      + [pad + Corner + "> " + targets[|targets| - 1] + ".py"]
  }

  function Blocks(e: set<(string, string)>, sources: seq<string>): seq<string>
    requires forall k :: 0 <= k < |sources| ==> Successors(e, sources[k]) != {}
    decreases |sources|
  {
    if sources == [] then []
    else SourceBlock(sources[0], SortedSet(Successors(e, sources[0]))) + Blocks(e, sources[1..])
  }

  /** The lines of `_render_relations_ascii`, sources in sorted order. */
  function AsciiLines(relations: seq<Relation>): seq<string>
    requires HasKeys(relations)
  {
    var e := EdgeSet(relations);
    var sources := SortedSet(Sources(e));
    assert forall k :: 0 <= k < |sources| ==> Successors(e, sources[k]) != {} by {
      forall k | 0 <= k < |sources| ensures Successors(e, sources[k]) != {} {
        assert sources[k] in Sources(e);
        var p :| p in e && p.0 == sources[k];
        assert p.1 in Successors(e, sources[k]);
      }
    }
    Blocks(e, sources)
  }

  /** `_render_relations_ascii`: `''` for no relations, a `KeyError` for a
      relation without a key, else the lines joined by newlines. */
  function RenderRelationsAscii(relations: seq<Relation>): (r: Result<string>)
    ensures relations == [] ==> r == Ok("")
    ensures relations != [] ==> (r.Err? <==> !HasKeys(relations))
    ensures relations != [] && r.Ok? ==> r.value == Join("\n", AsciiLines(relations))
  {
    if relations == [] then Ok("")
    else if !HasKeys(relations) then Err("KeyError")
    else Ok(Join("\n", AsciiLines(relations)))
  }

  /** Each source with a single target is drawn as one arrow line. */
  lemma SingleTargetLine(source: string, target: string)
    ensures SourceBlock(source, [target]) == [source + ".py " + ChainArrow + " " + target + ".py"]
  {
  }

  // ------------------------------------------------------------ the score

  /** The integer value score of `calculate_quality_metrics`. */
  function ValueScore(areas: nat, relations: nat, testImpact: nat, complexityDelta: int): (r: int)
    ensures 50 <= r <= 100
  {
    var v := 50 + Min(30, areas * 10) + Min(10, relations * 5) + Min(10, testImpact)
      + (if complexityDelta < 0 then Min(10, Abs(complexityDelta)) else 0);
    Min(100, v)
  }

  /** More areas, relations, tests or simplification never lower the score. */
  lemma ValueScoreMonotone(a1: nat, a2: nat, r1: nat, r2: nat, t1: nat, t2: nat, c1: int, c2: int)
    requires a1 <= a2 && r1 <= r2 && t1 <= t2 && c2 <= c1 && c2 <= 0
    ensures ValueScore(a1, r1, t1, c1) <= ValueScore(a2, r2, t2, c2)
  {
  }

  /** Three areas, two relations and two tests reach the ceiling alone. */
  lemma ValueScoreCeiling(areas: nat, relations: nat, testImpact: nat, complexityDelta: int)
    requires areas >= 3 && relations >= 2 && testImpact >= 10
    ensures ValueScore(areas, relations, testImpact, complexityDelta) == 100
  {
  }

  datatype QualityMetrics = QualityMetrics(complexityDelta: int, testImpact: nat, valueScore: int)

  /** The integer metrics of `calculate_quality_metrics`. */
  function CalculateQualityMetrics(agg: Aggregated, relationCount: nat): (m: QualityMetrics)
    ensures m.testImpact == 5 * |Filter(agg.added, IsTestEntity)|
    ensures m.complexityDelta == agg.complexityChange
    ensures 50 <= m.valueScore <= 100
    ensures agg.areas == [] && relationCount == 0 && m.testImpact == 0 && agg.complexityChange >= 0
            ==> m.valueScore == 50
  {
    var testImpact := 5 * |Filter(agg.added, IsTestEntity)|;
    QualityMetrics(agg.complexityChange, testImpact,
      ValueScore(|agg.areas|, relationCount, testImpact, agg.complexityChange))
  }

  // ---------------------------------------------------------------- title

  predicate AnyStem(files: seq<string>, w: string) {
    exists k :: 0 <= k < |files| && Contains(Lower(PathStem(files[k])), w)
  }

  predicate SystemTitleApplies(areas: seq<string>, files: seq<string>) {
    AnyStem(files, "analyzer") || AnyStem(files, "analysis") || AnyStem(files, "commit")
    || ("cli" in areas && AnyStem(files, "cli")) || "configuration" in areas
  }

  /** `generate_value_title`. A missing `functional_value` is `None`. */
  function GenerateValueTitle(caps: seq<Capability>, areas: seq<string>, functionalValue: Option<string>,
                              files: seq<string>): (r: string)
    ensures AnyStem(files, "analyzer") || AnyStem(files, "analysis") ==>
      r == (if AnyStem(files, "deep") || AnyStem(files, "smart") then "intelligent code analysis pipeline"
            else "code analysis engine")
    ensures !SystemTitleApplies(areas, files) && caps != [] ==> StartsWith(r, caps[0].capability)
    ensures !SystemTitleApplies(areas, files) && |caps| >= 3 ==>
      r == caps[0].capability + " with " + NatToString(|caps| - 1) + " supporting modules"
    ensures !SystemTitleApplies(areas, files) && caps == [] ==> r == functionalValue.GetOr("code improvements")
  {
    if AnyStem(files, "analyzer") || AnyStem(files, "analysis") then
      if AnyStem(files, "deep") || AnyStem(files, "smart") then "intelligent code analysis pipeline"
      else "code analysis engine"
    else if AnyStem(files, "commit") then
      if AnyStem(files, "smart") then "smart commit generation system" else "commit message generator"
    else if "cli" in areas && AnyStem(files, "cli") then "CLI interface improvements"
    else if "configuration" in areas then "configuration management system"
    else if caps != [] then
      if |caps| >= 3 then caps[0].capability + " with " + NatToString(|caps| - 1) + " supporting modules"
      else caps[0].capability
    else functionalValue.GetOr("code improvements")
  }

  // -------------------------------------------- roles and complexity steps

  datatype RoleEntry = RoleEntry(name: string, role: string, kind: string)

  /** An entity whose role is kept: not noise, and mapped to something
      other than its own name. */
  predicate KeepsRole(e: Entity) {
    var role := MapEntityToRole(e.name);
    !IsNoiseIntended(e.name, role) && role != e.name
  }

  function RoleOf(e: Entity): RoleEntry { RoleEntry(e.name, MapEntityToRole(e.name), e.kind) }

  function RoleEntries(es: seq<Entity>): (r: seq<RoleEntry>)
    ensures |r| <= |es|
    decreases |es|
  {
    if es == [] then []
    else
      var last := es[|es| - 1];
      RoleEntries(es[..|es| - 1]) + (if KeepsRole(last) then [RoleOf(last)] else [])
  }

  /** Every role entry carries the role its name maps to, a role other than
      the name, and is not noise. */
  lemma {:induction false} RoleEntriesMapped(es: seq<Entity>)
    ensures forall i :: 0 <= i < |RoleEntries(es)| ==> MappedRole(RoleEntries(es)[i])
    decreases |es|
  {
    if es != [] {
      var last := es[|es| - 1];
      RoleEntriesMapped(es[..|es| - 1]);
      if KeepsRole(last) {
        assert MappedRole(RoleOf(last));
      }
    }
  }

  /** Conversely, every entity whose role is kept has its entry there. */
  lemma {:induction false} RoleEntriesComplete(es: seq<Entity>, k: nat)
    requires k < |es| && KeepsRole(es[k])
    ensures RoleOf(es[k]) in RoleEntries(es)
    decreases |es|
  {
    var n := |es| - 1;
    if k == n {
      RoleEntriesLast(es);
    } else {
      assert es[..n][k] == es[k];
      RoleEntriesComplete(es[..n], k);
      RoleEntriesGrow(es, RoleOf(es[k]));
    }
  }

  lemma RoleEntriesLast(es: seq<Entity>)
    requires es != [] && KeepsRole(es[|es| - 1])
    ensures RoleOf(es[|es| - 1]) in RoleEntries(es)
  {
  }

  lemma RoleEntriesGrow(es: seq<Entity>, x: RoleEntry)
    requires es != [] && x in RoleEntries(es[..|es| - 1])
    ensures x in RoleEntries(es)
  {
  }

  predicate MappedRole(r: RoleEntry) {
    r.role == MapEntityToRole(r.name) && r.role != r.name && !IsNoiseIntended(r.name, r.role)
  }

  /** The role step of `generate_enhanced_summary`: the first ten added
      entities are mapped, noise and unmapped names skipped, and at most five
      roles kept. */
  method BuildRoles(added: seq<Entity>) returns (roles: seq<RoleEntry>)
    ensures roles == Take(RoleEntries(Take(added, 10)), 5)
    ensures |roles| <= 5
    ensures forall i :: 0 <= i < |roles| ==>
      roles[i].role == MapEntityToRole(roles[i].name) && roles[i].role != roles[i].name
      && !IsNoiseIntended(roles[i].name, roles[i].role)
  {
    var kept := CollectRoles(Take(added, 10));
    RoleEntriesMapped(Take(added, 10));
    roles := Take(kept, 5);
    assert forall i :: 0 <= i < |roles| ==> roles[i] == kept[i];
  }

  /** The loop over the entities: each kept one adds its role entry. */
  method CollectRoles(first: seq<Entity>) returns (roles: seq<RoleEntry>)
    ensures roles == RoleEntries(first)
  {
    roles := [];
    for i := 0 to |first|
      invariant RolesSoFar(first, i, roles)
    {
      var e := first[i];
      ghost var before := roles;
      if KeepsRole(e) {
        roles := roles + [RoleOf(e)];
      }
      RolesStep(first, i, before, roles);
    }
    assert first[..|first|] == first;
  }

  ghost predicate RolesSoFar(first: seq<Entity>, i: nat, roles: seq<RoleEntry>) {
    i <= |first| && roles == RoleEntries(first[..i])
  }

  /** One entity of the loop in `BuildRoles`. */
  lemma RolesStep(first: seq<Entity>, i: nat, before: seq<RoleEntry>, after: seq<RoleEntry>)
    requires i < |first| && RolesSoFar(first, i, before)
    requires after == if KeepsRole(first[i]) then before + [RoleOf(first[i])] else before
    ensures RolesSoFar(first, i + 1, after)
  {
    PrefixSnoc(first, i);
    RoleEntriesSnoc(first[..i], first[i]);
  }

  lemma RoleEntriesSnoc(es: seq<Entity>, e: Entity)
    ensures RoleEntries(es + [e]) == if KeepsRole(e) then RoleEntries(es) + [RoleOf(e)] else RoleEntries(es)
  {
    assert (es + [e])[..|es|] == es;
    assert RoleEntries(es) + [] == RoleEntries(es);
  }

  function ComplexityOf(es: seq<Entity>): int
    decreases |es|
  {
    if es == [] then 0 else es[0].complexity.GetOr(1) + ComplexityOf(es[1..])
  }

  function RawOldComplexity(fs: seq<FileAnalysis>): int
    decreases |fs|
  {
    if fs == [] then 0 else ComplexityOf(fs[0].removed) + ComplexityOf(fs[0].modified) + RawOldComplexity(fs[1..])
  }

  /** `old_complexity`: the complexity of everything removed or modified,
      a missing value counting 1, and 1 when the sum is 0; so the
      percentage printed later never divides by zero. */
  function OldComplexity(fs: seq<FileAnalysis>): (r: int)
    ensures r != 0
    ensures RawOldComplexity(fs) != 0 ==> r == RawOldComplexity(fs)
  {
    var s := RawOldComplexity(fs);
    if s == 0 then 1 else s
  }

  /** With no recorded complexities every removed or modified entity counts
      one. */
  lemma {:induction false} ComplexityOfDefaults(es: seq<Entity>)
    requires forall k :: 0 <= k < |es| ==> es[k].complexity.None?
    ensures ComplexityOf(es) == |es|
    decreases |es|
  {
    if es != [] { ComplexityOfDefaults(es[1..]); }
  }

  // ------------------------------------------------------------------ body

  const CheckMark: string := "\U{201A}\U{00FA}\U{00D6}"
  const TestTube: string := "\U{F8FF}\U{00FC}\U{00DF}\U{2122}"
  const LinkGlyph: string := "\U{F8FF}\U{00FC}\U{00EE}\U{00F3}"
  const StarGlyph: string := "\U{201A}\U{2260}\U{00EA}"

  function CapLine(prefix: string, c: Capability): string {
    prefix + " " + c.capability + ": " + c.impact
  }

  /** The capability tree as written: the last-branch glyph goes to index
      `len(capabilities) - 1`, which is not shown once there are more than
      five. */
  function CapabilityLinesAsWritten(caps: seq<Capability>): (r: seq<string>)
    ensures |r| == Min(|caps|, 5)
  {
    var shown := Take(caps, 5);
    seq(|shown|, i requires 0 <= i < |shown| => CapLine(if i < |caps| - 1 then Tee else Corner, shown[i]))
  }

  /** Six capabilities: every shown line opens a branch and none closes the
      tree. */
  lemma UnclosedCapabilityTree(caps: seq<Capability>)
    requires |caps| == 6
    ensures forall k :: 0 <= k < |CapabilityLinesAsWritten(caps)| ==> StartsWith(CapabilityLinesAsWritten(caps)[k], Tee)
  {
  }

  /** The capability tree closing on the last line shown. */
  function CapabilityLines(caps: seq<Capability>): (r: seq<string>)
    ensures |r| == Min(|caps|, 5)
    ensures forall k :: 0 <= k < |r| - 1 ==> StartsWith(r[k], Tee)
    ensures |r| > 0 ==> StartsWith(r[|r| - 1], Corner)
  {
    var shown := Take(caps, 5);
    seq(|shown|, i requires 0 <= i < |shown| => CapLine(if i < |shown| - 1 then Tee else Corner, shown[i]))
  }

  /** Up to five capabilities, both trees agree. */
  lemma CapabilityLinesAgree(caps: seq<Capability>)
    requires |caps| <= 5
    ensures CapabilityLines(caps) == CapabilityLinesAsWritten(caps)
  {
  }

  function RoleLines(roles: seq<RoleEntry>): (r: seq<string>)
    ensures |r| == Min(|roles|, 5)
  {
    var shown := Take(roles, 5);
    seq(|shown|, i requires 0 <= i < |shown| => CheckMark + " " + shown[i].role + " (" + shown[i].name + ")")
  }

  /** The metrics the body prints. `deltaText` is what
      `format_complexity_delta` printed (its emoji and rounded percentage),
      used only when the two complexities differ. */
  datatype BodyMetrics = BodyMetrics(oldComplexity: int, newComplexity: int, deltaText: string,
                                     testImpact: nat, valueScore: int)

  function ImpactLines(m: BodyMetrics, relationCount: nat): seq<string> {
    ["IMPACT:"]
    + (if m.oldComplexity != m.newComplexity then [m.deltaText] else [])
    + (if m.testImpact > 0 then [TestTube + " Test coverage: +" + NatToString(m.testImpact) + "%"] else [])
    + (if relationCount > 0 then [LinkGlyph + " Relations: " + NatToString(relationCount) + " dependencies detected"] else [])
    + [StarGlyph + " Value score: " + IntToString(m.valueScore) + "/100"]
  }

  function Indent(lines: seq<string>): (r: seq<string>)
    ensures |r| == |lines| && forall k :: 0 <= k < |r| ==> r[k] == "  " + lines[k]
  {
    seq(|lines|, k requires 0 <= k < |lines| => "  " + lines[k])
  }

  /** The dependency-flow section as written: the drawing's first line is
      dropped as if it were a header, but the drawing has none. */
  function FlowLinesAsWritten(chain: string, ascii: string, relationCount: nat): seq<string> {
    ["DEPENDENCY FLOW:"]
    + (if chain != "" then ["  " + chain] else [])
    + (if ascii != "" && relationCount > 1 then [""] + Indent(Split(ascii, '\n')[1..]) else [])
  }

  /** The dependency-flow section showing every line of the drawing. */
  function FlowLines(chain: string, ascii: string, relationCount: nat): seq<string> {
    ["DEPENDENCY FLOW:"]
    + (if chain != "" then ["  " + chain] else [])
    + (if ascii != "" && relationCount > 1 then [""] + Indent(Split(ascii, '\n')) else [])
  }

  /** The two relations `a -> b` and `a -> c`. */
  const ForkExample: seq<Relation> := [Relation(Some("a"), Some("b"), "imports"), Relation(Some("a"), Some("c"), "imports")]

  /** Their drawing is the block of `a` with targets `b` and `c`: a fork
      line for `b.py` and a last-branch line for `c.py`. */
  lemma ForkExampleLines()
    ensures AsciiLines(ForkExample) == SourceBlock("a", ["b", "c"])
  {
    var rels := ForkExample;
    var e := EdgeSet(rels);
    assert e == {("a", "b"), ("a", "c")} by {
      assert ("a", "b") == (rels[0].src.value, rels[0].dst.value);
      assert ("a", "c") == (rels[1].src.value, rels[1].dst.value);
    }
    assert Sources(e) == {"a"};
    assert Successors(e, "a") == {"b", "c"};
    SortedSingleton("a");
    SortedPair("b", "c");
    assert Blocks(e, ["a"]) == SourceBlock("a", ["b", "c"]) + Blocks(e, []);
  }

  /** A two-line drawing: the section as written keeps only the second
      line. */
  lemma FlowTwoLines(l0: string, l1: string)
    requires '\n' !in l0 && '\n' !in l1 && l0 != ""
    ensures FlowLinesAsWritten("", Join("\n", [l0, l1]), 2) == ["DEPENDENCY FLOW:", "", "  " + l1]
    ensures FlowLines("", Join("\n", [l0, l1]), 2) == ["DEPENDENCY FLOW:", "", "  " + l0, "  " + l1]
  {
    var lines := [l0, l1];
    assert Join("\n", lines) == l0 + "\n" + Join("\n", lines[1..]);
    FlowShowsEveryLine("", lines, 2);
    assert Indent(lines[1..]) == ["  " + l1];
    assert Indent(lines) == ["  " + l0, "  " + l1];
  }

  lemma FlowDropsForkLine()
    ensures var block := SourceBlock("a", ["b", "c"]);
      && FlowLinesAsWritten("", Join("\n", block), 2) == ["DEPENDENCY FLOW:", "", "  " + block[1]]
      && FlowLines("", Join("\n", block), 2) == ["DEPENDENCY FLOW:", "", "  " + block[0], "  " + block[1]]
  {
    var lines := SourceBlock("a", ["b", "c"]);
    assert lines[0] == "a" + ".py " + (Fork + "> ") + "b" + ".py";
    assert lines[1] == Spaces(5) + Corner + "> " + "c" + ".py";
    assert '\n' !in lines[0] && '\n' !in lines[1];
    assert lines == [lines[0], lines[1]];
    FlowTwoLines(lines[0], lines[1]);
  }

  /** With the drawing above, the section as written shows only the `c.py`
      line; the fork line naming `b.py` is lost. */
  lemma FlowDropsFirstTarget()
    ensures var block := SourceBlock("a", ["b", "c"]);
      FlowLinesAsWritten("", Join("\n", AsciiLines(ForkExample)), 2) == ["DEPENDENCY FLOW:", "", "  " + block[1]]
    ensures var block := SourceBlock("a", ["b", "c"]);
      FlowLines("", Join("\n", AsciiLines(ForkExample)), 2) == ["DEPENDENCY FLOW:", "", "  " + block[0], "  " + block[1]]
  {
    ForkExampleLines();
    FlowDropsForkLine();
  }

  lemma SortedSingleton(a: string)
    ensures SortedSet({a}) == [a]
  {
    var r := SortedSet({a});
    assert r[0] in {a};
  }

  lemma SortedPair(a: string, b: string)
    requires StrLe(a, b) && a != b
    ensures SortedSet({a, b}) == [a, b]
  {
    var r := SortedSet({a, b});
    assert r[0] in {a, b} && r[1] in {a, b};
    if r[0] == b {
      assert r[1] == a;
      assert StrLe(b, a);
      StrLeAntisym(a, b);
    }
  }

  lemma FlowOfSplit(chain: string, ascii: string, lines: seq<string>, relationCount: nat)
    requires relationCount > 1 && ascii != "" && Split(ascii, '\n') == lines
    ensures FlowLines(chain, ascii, relationCount)
         == ["DEPENDENCY FLOW:"] + (if chain != "" then ["  " + chain] else []) + [""] + Indent(lines)
    ensures FlowLinesAsWritten(chain, ascii, relationCount)
         == ["DEPENDENCY FLOW:"] + (if chain != "" then ["  " + chain] else []) + [""] + Indent(lines[1..])
  {
  }

  /** The corrected section shows the whole drawing after the chain; the
      section as written loses its first line. */
  lemma FlowShowsEveryLine(chain: string, lines: seq<string>, relationCount: nat)
    requires |lines| >= 1 && relationCount > 1 && Join("\n", lines) != ""
    requires forall k :: 0 <= k < |lines| ==> '\n' !in lines[k]
    ensures FlowLines(chain, Join("\n", lines), relationCount)
         == ["DEPENDENCY FLOW:"] + (if chain != "" then ["  " + chain] else []) + [""] + Indent(lines)
    ensures FlowLinesAsWritten(chain, Join("\n", lines), relationCount)
         == ["DEPENDENCY FLOW:"] + (if chain != "" then ["  " + chain] else []) + [""] + Indent(lines[1..])
  {
    NoCharAnywhere(lines, '\n');
    SplitOfJoin(lines, '\n');
    FlowOfSplit(chain, Join("\n", lines), lines, relationCount);
  }

  lemma NoCharAnywhere(lines: seq<string>, c: char)
    requires forall k :: 0 <= k < |lines| ==> c !in lines[k]
    ensures forall k, i :: 0 <= k < |lines| && 0 <= i < |lines[k]| ==> lines[k][i] != c
  {
    forall k, i | 0 <= k < |lines| && 0 <= i < |lines[k]| ensures lines[k][i] != c {
      assert lines[k][i] in lines[k];
    }
  }

  function FileParts(groups: seq<(string, seq<string>)>): (r: seq<string>)
    ensures |r| == |groups|
  {
    seq(|groups|, k requires 0 <= k < |groups| => NatToString(|groups[k].1|) + " " + groups[k].0)
  }

  /** The sections of `_format_enhanced_body`, in order; the impact section
      is always there because the metrics are never empty. */
  function BodySections(caps: seq<Capability>, roles: seq<RoleEntry>, relations: seq<Relation>,
                        chain: string, ascii: string, m: BodyMetrics, files: seq<string>): (r: seq<string>)
    ensures Join("\n", ImpactLines(m, |relations|)) in r
    ensures caps != [] ==> r[0] == Join("\n", ["NEW CAPABILITIES:"] + CapabilityLines(caps))
  {
    var groups := CategorizeFiles(files);
    (if caps != [] then [Join("\n", ["NEW CAPABILITIES:"] + CapabilityLines(caps))] else [])
    + (if roles != [] then [Join("\n", ["FUNCTIONAL COMPONENTS:"] + RoleLines(roles))] else [])
    + [Join("\n", ImpactLines(m, |relations|))]
    + (if relations != [] then [Join("\n", FlowLines(chain, ascii, |relations|))] else [])
    + (if groups != [] then ["Files: " + Join("; ", FileParts(groups))] else [])
  }

  /** `_format_enhanced_body`, with the capability tree closed and the whole
      drawing shown. */
  function FormatEnhancedBody(caps: seq<Capability>, roles: seq<RoleEntry>, relations: seq<Relation>,
                              chain: string, ascii: string, m: BodyMetrics, files: seq<string>): (r: string)
    ensures |r| > 0
  {
    var sections := BodySections(caps, roles, relations, chain, ascii, m, files);
    var impact := Join("\n", ImpactLines(m, |relations|));
    assert |impact| > 0 by {
      JoinNonEmpty("\n", ImpactLines(m, |relations|));
    }
    JoinHasPart("\n\n", sections, impact);
    Join("\n\n", sections)
  }

  lemma {:induction false} JoinNonEmpty(sep: string, parts: seq<string>)
    requires |parts| > 0 && |parts[0]| > 0
    ensures |Join(sep, parts)| > 0
  {
  }

  lemma {:induction false} JoinHasPart(sep: string, parts: seq<string>, p: string)
    requires p in parts && |p| > 0
    ensures |Join(sep, parts)| > 0
    decreases |parts|
  {
    if |parts| > 1 && parts[0] != p {
      JoinHasPart(sep, parts[1..], p);
    }
  }

  // ------------------------------------------------------- quality check

  const GenericTerms: set<string> := {
    "update", "improve", "enhance", "fix", "change", "modify",
    "cleaner", "better", "refactor", "cleanup", "misc"}

  const MetricKeywords: seq<string> := ["complexity", "coverage", "relations", "score", "%"]

  function CountGeneric(words: seq<string>): (n: nat)
    ensures n <= |words|
    decreases |words|
  {
    if words == [] then 0
    else (if words[0] in GenericTerms then 1 else 0) + CountGeneric(words[1..])
  }

  function CountMetrics(body: string, kws: seq<string>): (n: nat)
    ensures n <= |kws|
    decreases |kws|
  {
    if kws == [] then 0
    else (if Contains(body, kws[0]) then 1 else 0) + CountMetrics(body, kws[1..])
  }

  /** The summary-quality settings, defaults 3, 0 and 2. */
  datatype SummaryConfig = SummaryConfig(minValueWords: int, maxGeneric: int, requiredMetrics: int)

  const DefaultSummaryConfig: SummaryConfig := SummaryConfig(3, 0, 2)

  datatype SummaryWarning = TooGeneric(count: nat) | TooShort(words: nat) | FewMetrics(found: nat, need: int)

  datatype SummaryCheck = SummaryCheck(valid: bool, warnings: seq<SummaryWarning>, score: int)

  function TitleWords(title: string): seq<string> { SplitWs(Lower(title)) }

  function MetricCount(body: string): nat { CountMetrics(Lower(body), MetricKeywords) }

  /** The warnings, in the order the checks run. */
  function SummaryWarnings(generic: nat, words: nat, metrics: nat, cfg: SummaryConfig): (w: seq<SummaryWarning>)
    ensures |w| <= 3
    ensures TooGeneric(generic) in w <==> generic > cfg.maxGeneric
    ensures TooShort(words) in w <==> words < cfg.minValueWords
    ensures FewMetrics(metrics, cfg.requiredMetrics) in w <==> metrics < cfg.requiredMetrics
  {
    (if generic > cfg.maxGeneric then [TooGeneric(generic)] else [])
    + (if words < cfg.minValueWords then [TooShort(words)] else [])
    + (if metrics < cfg.requiredMetrics then [FewMetrics(metrics, cfg.requiredMetrics)] else [])
  }

  /** `validate_summary_quality`: it never records an error, so a summary is
      always valid; each warning costs 10 points. */
  function ValidateSummaryQuality(title: string, body: string, cfg: SummaryConfig): (r: SummaryCheck)
    ensures r.valid
    ensures r.score == 100 - 10 * |r.warnings| && 70 <= r.score <= 100
    ensures r.warnings == SummaryWarnings(CountGeneric(TitleWords(title)), |TitleWords(title)|, MetricCount(body), cfg)
  {
    var words := TitleWords(title);
    var warnings := SummaryWarnings(CountGeneric(words), |words|, MetricCount(body), cfg);
    SummaryCheck(true, warnings, Max(0, 100 - 10 * |warnings|))
  }

  /** A title of three or more specific words over a body naming two
      metrics passes with full score under the default settings. */
  lemma FullScore(title: string, body: string)
    requires CountGeneric(TitleWords(title)) == 0 && |TitleWords(title)| >= 3 && MetricCount(body) >= 2
    ensures ValidateSummaryQuality(title, body, DefaultSummaryConfig).score == 100
  {
  }
}
