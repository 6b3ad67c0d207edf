/** The part of `CodeChangeAnalyzer` that does not need Python's `ast`
    module: language detection, the JavaScript and generic diffs, functional
    areas, aggregation across files, value inference, the relation table and
    the one-paragraph summary. */
module DeepAnalyzer {
  import opened Wrappers
  import opened Strings
  import opened Seqs
  import opened Patterns
  import opened Ordering

  /** A code entity record (`name`, `type`, `role`, `complexity`,
      `decorators`); a missing string key reads as `''`, a missing list as
      `[]`. */
  datatype Entity = Entity(name: string, kind: string, role: string, complexity: Option<int>, decorators: seq<string>)

  function Names(entities: seq<Entity>): (r: seq<string>)
    ensures |r| == |entities| && forall i :: 0 <= i < |r| ==> r[i] == entities[i].name
  {
    seq(|entities|, i requires 0 <= i < |entities| => entities[i].name)
  }

  /** The result of `analyze_file_diff` for one file. */
  datatype FileAnalysis = FileAnalysis(
    path: string,
    language: string,
    added: seq<Entity>,
    modified: seq<Entity>,
    removed: seq<Entity>,
    areas: set<string>,
    complexityChange: int,
    indicators: seq<string>)

  /** The result of `aggregate_changes`. */
  datatype Aggregated = Aggregated(
    added: seq<Entity>,
    modified: seq<Entity>,
    removed: seq<Entity>,
    areas: seq<string>,
    complexityChange: int,
    primary: Option<string>,
    counts: map<string, nat>)

  // ------------------------------------------------------------- language

  const LangMap: map<string, string> := map[
    ".py" := "python", ".js" := "javascript", ".ts" := "typescript",
    ".tsx" := "typescript", ".jsx" := "javascript", ".rs" := "rust",
    ".go" := "go", ".rb" := "ruby", ".java" := "java", ".md" := "markdown",
    ".yaml" := "yaml", ".yml" := "yaml", ".json" := "json", ".toml" := "toml"]

  /** `_detect_language`: the lowered suffix of the path looked up in the
      table, `'unknown'` when absent. */
  function DetectLanguage(path: string): (r: string)
    ensures r == "unknown" <==> Lower(PathSuffix(path)) !in LangMap
    ensures r in LangMap.Values || r == "unknown"
  {
    var ext := Lower(PathSuffix(path));
    if ext in LangMap then LangMap[ext] else "unknown"
  }

  /** The files that go through the JavaScript scanner are exactly those
      with one of the four script suffixes, in any letter case. */
  lemma ScriptLanguages(path: string)
    ensures DetectLanguage(path) in {"javascript", "typescript"}
        <==> Lower(PathSuffix(path)) in {".js", ".jsx", ".ts", ".tsx"}
  {
    ScriptKeys();
  }

  /** The table's script entries are the four script suffixes. */
  lemma ScriptKeys()
    ensures forall e :: e in LangMap && LangMap[e] in {"javascript", "typescript"} <==> e in {".js", ".jsx", ".ts", ".tsx"}
  {
    forall e | e in LangMap && LangMap[e] in {"javascript", "typescript"} ensures e in {".js", ".jsx", ".ts", ".tsx"} {
      assert e in {".py", ".js", ".ts", ".tsx", ".jsx", ".rs", ".go", ".rb", ".java", ".md", ".yaml", ".yml", ".json", ".toml"};
    }
  }

  // ------------------------------------------------ JavaScript scanner

  /** The length of the run of `\w` characters starting at `i`. */
  function WordRun(s: string, i: nat): (n: nat)
    requires i <= |s|
    ensures i + n <= |s|
    ensures forall k :: i <= k < i + n ==> IsWordChar(s[k])
    ensures i + n < |s| ==> !IsWordChar(s[i + n])
    decreases |s| - i
  {
    if i < |s| && IsWordChar(s[i]) then 1 + WordRun(s, i + 1) else 0
  }

  /** The length of the run of `\s` characters starting at `i`. */
  function SpaceRun(s: string, i: nat): (n: nat)
    requires i <= |s|
    ensures i + n <= |s|
    ensures forall k :: i <= k < i + n ==> IsSpace(s[k])
    ensures i + n < |s| ==> !IsSpace(s[i + n])
    decreases |s| - i
  {
    if i < |s| && IsSpace(s[i]) then 1 + SpaceRun(s, i + 1) else 0
  }

  /** One regular-expression match: the captured name is `s[start..end]`
      and scanning resumes at `next`. */
  datatype Span = Span(start: nat, end: nat, next: nat)

  predicate IsName(w: string) {
    |w| > 0 && forall k :: 0 <= k < |w| ==> IsWordChar(w[k])
  }

  predicate ValidSpan(s: string, i: nat, m: Span) {
    i <= m.start < m.end <= m.next <= |s| && i < m.next && IsName(s[m.start..m.end])
  }

  /** The length of the keyword of `(?:function|const|let|var)` at `i`, or 0.
      The four keywords begin with different letters, so at most one fits. */
  function KeywordLen(s: string, i: nat): (n: nat)
    requires i <= |s|
    ensures i + n <= |s|
  {
    var rest := s[i..];
    if "function" <= rest then 8
    else if "const" <= rest then 5
    else if "let" <= rest then 3
    else if "var" <= rest then 3
    else 0
  }

  /** The first alternative `(?:function|const|let|var)\s+(\w+)\s*[=(]` at
      `i`. `\w`, `\s` and `[=(]` are pairwise disjoint, so every repetition
      takes its longest run and the regex engine never backtracks into it. */
  function DeclAt(s: string, i: nat): (r: Option<Span>)
    requires i <= |s|
    ensures r.Some? ==> ValidSpan(s, i, r.value)
  {
    var k := KeywordLen(s, i);
    if k == 0 then None
    else
      var sp := SpaceRun(s, i + k);
      if sp == 0 then None
      else
        var start := i + k + sp;
        var w := WordRun(s, start);
        if w == 0 then None
        else
          var t := start + w + SpaceRun(s, start + w);
          if t < |s| && (s[t] == '=' || s[t] == '(') then Some(Span(start, start + w, t + 1))
          else None
  }

  /** The second alternative `(\w+)\s*:\s*(?:async\s+)?function` at `i`. */
  function PropAt(s: string, i: nat): (r: Option<Span>)
    requires i <= |s|
    ensures r.Some? ==> ValidSpan(s, i, r.value)
  {
    var w := WordRun(s, i);
    if w == 0 then None
    else
      var c := i + w + SpaceRun(s, i + w);
      if !(c < |s| && s[c] == ':') then None
      else
        var f := c + 1 + SpaceRun(s, c + 1);
        if "async" <= s[f..] && SpaceRun(s, f + 5) > 0 && "function" <= s[f + 5 + SpaceRun(s, f + 5)..] then
          Some(Span(i, i + w, f + 5 + SpaceRun(s, f + 5) + 8))
        else if "function" <= s[f..] then Some(Span(i, i + w, f + 8))
        else None
  }

  /** The function pattern at `i`: its first alternative, else its second. */
  function FuncAt(s: string, i: nat): (r: Option<Span>)
    requires i <= |s|
    ensures r.Some? ==> ValidSpan(s, i, r.value)
  {
    match DeclAt(s, i)
    case Some(m) => Some(m)
    case None => PropAt(s, i)
  }

  /** The class pattern `class\s+(\w+)` at `i`. */
  function ClassAt(s: string, i: nat): (r: Option<Span>)
    requires i <= |s|
    ensures r.Some? ==> ValidSpan(s, i, r.value)
  {
    if "class" <= s[i..] then
      var sp := SpaceRun(s, i + 5);
      var w := if sp == 0 then 0 else WordRun(s, i + 5 + sp);
      if w == 0 then None else Some(Span(i + 5 + sp, i + 5 + sp + w, i + 5 + sp + w))
    else None
  }

  /** `re.findall` of the function pattern (`classes` false) or of the class
      pattern (`classes` true) from `i`: try at each position, and after a
      match resume where it ended. Both alternatives of the function pattern
      capture a non-empty name, so `f[0] or f[1]` is always the captured name. */
  function FindNames(s: string, i: nat, classes: bool): (r: seq<string>)
    requires i <= |s|
    ensures forall k :: 0 <= k < |r| ==> IsName(r[k]) && Contains(s, r[k])
    decreases |s| - i
  {
    if i == |s| then []
    else
      var m := if classes then ClassAt(s, i) else FuncAt(s, i);
      match m
      case Some(sp) =>
        ContainsAt(s, s[sp.start..sp.end], sp.start);
        [s[sp.start..sp.end]] + FindNames(s, sp.next, classes)
      case None => FindNames(s, i + 1, classes)
  }

  function Functions(s: string): set<string> { set n | n in FindNames(s, 0, false) }

  function Classes(s: string): set<string> { set n | n in FindNames(s, 0, true) }

  /** What `_analyze_js_diff` reports; the added and removed entity lists
      come from iterating sets, so only their contents are modelled. */
  datatype JsChanges = JsChanges(
    addedFunctions: set<string>,
    addedClasses: set<string>,
    removedFunctions: set<string>,
    removedClasses: set<string>)

  /** `_analyze_js_diff`: names present only in the new text are added,
      names present only in the old text removed; nothing is modified. */
  function JsDiff(before: string, after: string): (r: JsChanges)
    ensures r.addedFunctions !! r.removedFunctions && r.addedClasses !! r.removedClasses
    ensures forall n :: n in r.addedFunctions ==> IsName(n) && Contains(after, n) && n !in Functions(before)
    ensures forall n :: n in r.removedFunctions ==> IsName(n) && Contains(before, n) && n !in Functions(after)
    ensures forall n :: n in r.addedClasses ==> IsName(n) && Contains(after, n) && n !in Classes(before)
    ensures forall n :: n in r.removedClasses ==> IsName(n) && Contains(before, n) && n !in Classes(after)
  {
    JsChanges(
      Functions(after) - Functions(before),
      Classes(after) - Classes(before),
      Functions(before) - Functions(after),
      Classes(before) - Classes(after))
  }

  /** Swapping the two versions swaps what is added and what is removed. */
  lemma JsDiffSwap(before: string, after: string)
    ensures JsDiff(after, before).addedFunctions == JsDiff(before, after).removedFunctions
    ensures JsDiff(after, before).addedClasses == JsDiff(before, after).removedClasses
  {
  }

  // ---------------------------------------------------------- generic diff

  function LineSet(s: string): set<string> { set l | l in SplitLines(s) }

  datatype LineCounts = LineCounts(added: nat, removed: nat)

  /** `_analyze_generic_diff`: the number of distinct lines only in the new
      text and only in the old text. */
  function GenericDiff(before: string, after: string): (r: LineCounts)
    ensures r.added <= |LineSet(after)| && r.removed <= |LineSet(before)|
  {
    var b := LineSet(before);
    var a := LineSet(after);
    SubsetCard(a - b, a);
    SubsetCard(b - a, b);
    LineCounts(|a - b|, |b - a|)
  }

  lemma SubsetCard<T>(a: set<T>, b: set<T>)
    requires a <= b
    ensures |a| <= |b|
  {
    assert b == a + (b - a);
  }

  /** Nothing is counted as added iff every new line already was an old line. */
  lemma GenericDiffNoneAdded(before: string, after: string)
    ensures GenericDiff(before, after).added == 0 <==> LineSet(after) <= LineSet(before)
  {
    var d := LineSet(after) - LineSet(before);
    if |d| == 0 {
      forall x | x in LineSet(after) ensures x in LineSet(before) {
        assert x !in d;
      }
    } else {
      var x :| x in d;
    }
  }

  lemma GenericDiffSwap(before: string, after: string)
    ensures GenericDiff(after, before).added == GenericDiff(before, after).removed
  {
  }

  // ------------------------------------------------------ functional areas

  /** One entry of `VALUE_PATTERNS`; every literal in it is lower-case, so
      `.lower()` on them changes nothing. */
  datatype AreaRule = AreaRule(area: string, signatures: seq<string>, keywords: seq<string>, impact: string)

  const ValuePatterns: seq<AreaRule> := [
    AreaRule("configuration", ["config", "yaml", "toml", "settings", "options", "parse_config"],
      ["load_config", "get_config", "save_config", "merge"], "improved configuration management"),
    AreaRule("cli", ["click.", "@click", "argparse", "command", "option"],
      ["add_command", "cli", "parse_args"], "enhanced CLI interface"),
    AreaRule("api", ["endpoint", "route", "request", "response", "api"],
      ["get", "post", "put", "delete", "handler"], "new API capabilities"),
    AreaRule("database", ["db", "sql", "query", "model", "migrate"],
      ["insert", "update", "delete", "select", "connection"], "database improvements"),
    AreaRule("auth", ["auth", "login", "token", "permission", "session"],
      ["authenticate", "authorize", "verify", "jwt"], "security enhancements"),
    AreaRule("testing", ["test_", "assert", "mock", "fixture", "pytest"],
      ["test", "spec", "coverage"], "improved test coverage"),
    AreaRule("logging", ["log", "logger", "logging", "debug", "info"],
      ["error", "warning", "trace"], "better observability"),
    AreaRule("performance", ["cache", "async", "parallel", "optimize"],
      ["speed", "fast", "efficient", "memory"], "performance improvements"),
    AreaRule("formatting", ["format", "render", "template", "markdown", "html"],
      ["output", "display", "style"], "improved output formatting"),
    AreaRule("validation", ["valid", "check", "verify", "ensure", "sanitize"],
      ["schema", "constraint", "rule"], "better input validation")
  ]

  const AreaNames: set<string> := {
    "configuration", "cli", "api", "database", "auth",
    "testing", "logging", "performance", "formatting", "validation"}

  predicate NameHit(rule: AreaRule, e: Entity) {
    ContainsAny(Lower(e.name), rule.signatures)
  }

  /** An area is hit when some entity name holds one of its signatures or
      the content holds one of its keywords, both compared lowered. */
  predicate AreaHit(rule: AreaRule, entities: seq<Entity>, content: string) {
    (exists k :: 0 <= k < |entities| && NameHit(rule, entities[k]))
    || ContainsAny(Lower(content), rule.keywords)
  }

  function AreasUpTo(entities: seq<Entity>, content: string, n: nat): set<string>
    requires n <= |ValuePatterns|
  {
    set k | 0 <= k < n && AreaHit(ValuePatterns[k], entities, content) :: ValuePatterns[k].area
  }

  function AreasOf(entities: seq<Entity>, content: string): set<string> {
    AreasUpTo(entities, content, |ValuePatterns|)
  }

  /** `_detect_functional_areas`. */
  method DetectFunctionalAreas(entities: seq<Entity>, content: string) returns (areas: set<string>)
    ensures areas == AreasOf(entities, content)
  {
    areas := {};
    var lowered := Lower(content);
    var a := 0;
    while a < |ValuePatterns|
      invariant 0 <= a <= |ValuePatterns|
      invariant areas == AreasUpTo(entities, content, a)
    {
      var rule := ValuePatterns[a];
      var named := false;
      var e := 0;
      while e < |entities| && !named
        invariant 0 <= e <= |entities|
        invariant named ==> exists k :: 0 <= k < e && NameHit(rule, entities[k])
        invariant !named ==> forall k :: 0 <= k < e ==> !NameHit(rule, entities[k])
      {
        if ContainsAny(Lower(entities[e].name), rule.signatures) {
          named := true;
        }
        e := e + 1;
      }
      var hit := named || ContainsAny(lowered, rule.keywords);
      assert hit == AreaHit(rule, entities, content);
      if hit {
        areas := areas + {rule.area};
      }
      AreasUpToStep(entities, content, a);
      a := a + 1;
    }
  }

  lemma AreasUpToStep(entities: seq<Entity>, content: string, a: nat)
    requires a < |ValuePatterns|
    ensures var rule := ValuePatterns[a];
      AreasUpTo(entities, content, a + 1)
      == AreasUpTo(entities, content, a) + (if AreaHit(rule, entities, content) then {rule.area} else {})
  {
  }

  /** Every reported area is a key of `VALUE_PATTERNS`. */
  lemma AreasAreKeys(entities: seq<Entity>, content: string)
    ensures AreasOf(entities, content) <= AreaNames
  {
  }

  /** An area is reported iff its rule is hit. */
  lemma AreasOfHit(entities: seq<Entity>, content: string, k: nat)
    requires k < |ValuePatterns|
    ensures ValuePatterns[k].area in AreasOf(entities, content) <==> AreaHit(ValuePatterns[k], entities, content)
  {
    if ValuePatterns[k].area in AreasOf(entities, content) {
      var j :| 0 <= j < |ValuePatterns| && AreaHit(ValuePatterns[j], entities, content)
        && ValuePatterns[j].area == ValuePatterns[k].area;
      assert j == k;
    }
  }

  // ------------------------------------------------------------ aggregate

  function AddedOf(a: FileAnalysis): seq<Entity> { a.added }
  function ModifiedOf(a: FileAnalysis): seq<Entity> { a.modified }
  function RemovedOf(a: FileAnalysis): seq<Entity> { a.removed }
  function IndicatorsOf(a: FileAnalysis): seq<string> { a.indicators }

  /** The concatenation of `f` over the analyses, in file order. */
  function ConcatOf<T>(fs: seq<FileAnalysis>, f: FileAnalysis -> seq<T>): seq<T>
    decreases |fs|
  {
    if fs == [] then [] else ConcatOf(fs[..|fs| - 1], f) + f(fs[|fs| - 1])
  }

  function TotalComplexity(fs: seq<FileAnalysis>): int
    decreases |fs|
  {
    if fs == [] then 0 else TotalComplexity(fs[..|fs| - 1]) + fs[|fs| - 1].complexityChange
  }

  function AllAreas(fs: seq<FileAnalysis>): set<string>
    decreases |fs|
  {
    if fs == [] then {} else AllAreas(fs[..|fs| - 1]) + fs[|fs| - 1].areas
  }

  function Count(xs: seq<string>, x: string): nat { multiset(xs)[x] }

  function FirstIndex(xs: seq<string>, x: string): (i: nat)
    requires x in xs
    ensures i < |xs| && xs[i] == x && forall j :: 0 <= j < i ==> xs[j] != x
  {
    if xs[0] == x then 0 else 1 + FirstIndex(xs[1..], x)
  }

  /** `Counter(xs)` as a map. */
  function Counts(xs: seq<string>): (m: map<string, nat>)
    ensures m.Keys == set x | x in xs
    ensures forall x :: x in m ==> m[x] == Count(xs, x) && m[x] > 0
  {
    map x | x in xs :: Count(xs, x)
  }

  /** The most frequent of `xs[i..]` and `best`, the earlier one winning
      ties: `max` over the counter's items in first-seen order. */
  function MaxFrom(xs: seq<string>, i: nat, best: string): (r: string)
    requires i <= |xs| && best in xs[..i]
    requires forall j :: 0 <= j < i ==> Count(xs, xs[j]) <= Count(xs, best)
    requires forall j :: 0 <= j < FirstIndex(xs, best) ==> Count(xs, xs[j]) < Count(xs, best)
    ensures r in xs
    ensures forall j :: 0 <= j < |xs| ==> Count(xs, xs[j]) <= Count(xs, r)
    ensures forall j :: 0 <= j < FirstIndex(xs, r) ==> Count(xs, xs[j]) < Count(xs, r)
    decreases |xs| - i
  {
    if i == |xs| then (assert xs[..i] == xs; best)
    else
      var x := xs[i];
      assert xs[..i + 1] == xs[..i] + [x];
      if Count(xs, x) > Count(xs, best) then
        forall j | 0 <= j < i ensures xs[j] != x {
          assert Count(xs, xs[j]) <= Count(xs, best);
        }
        MaxFrom(xs, i + 1, x)
      else
        MaxFrom(xs, i + 1, best)
  }

  /** `Counter(xs).most_common(1)[0][0]`, or None for no indicators: a value
      of highest count, the first seen among equals. */
  function PrimaryIndicator(xs: seq<string>): (r: Option<string>)
    ensures r.None? <==> xs == []
    ensures r.Some? ==> r.value in xs && forall j :: 0 <= j < |xs| ==> Count(xs, xs[j]) <= Count(xs, r.value)
    ensures r.Some? ==> forall j :: 0 <= j < FirstIndex(xs, r.value) ==> Count(xs, xs[j]) < Count(xs, r.value)
  {
    if xs == [] then None
    else
      assert xs[..1] == [xs[0]];
      Some(MaxFrom(xs, 1, xs[0]))
  }

  /** `aggregate_changes`. The area list is `list(set)`, whose order Python
      does not fix: any duplicate-free listing of the union may come out. */
  method AggregateChanges(fs: seq<FileAnalysis>) returns (r: Aggregated)
    ensures r.added == ConcatOf(fs, AddedOf)
    ensures r.modified == ConcatOf(fs, ModifiedOf)
    ensures r.removed == ConcatOf(fs, RemovedOf)
    ensures Distinct(r.areas) && forall a :: a in r.areas <==> a in AllAreas(fs)
    ensures r.complexityChange == TotalComplexity(fs)
    ensures r.primary == PrimaryIndicator(ConcatOf(fs, IndicatorsOf))
    ensures r.counts == Counts(ConcatOf(fs, IndicatorsOf))
  {
    var added: seq<Entity> := [];
    var modified: seq<Entity> := [];
    var removed: seq<Entity> := [];
    var areas: set<string> := {};
    var total := 0;
    var indicators: seq<string> := [];
    var i := 0;
    while i < |fs|
      invariant 0 <= i <= |fs|
      invariant added == ConcatOf(fs[..i], AddedOf)
      invariant modified == ConcatOf(fs[..i], ModifiedOf)
      invariant removed == ConcatOf(fs[..i], RemovedOf)
      invariant areas == AllAreas(fs[..i])
      invariant total == TotalComplexity(fs[..i])
      invariant indicators == ConcatOf(fs[..i], IndicatorsOf)
    {
      assert fs[..i + 1][..i] == fs[..i];
      added := added + fs[i].added;
      modified := modified + fs[i].modified;
      removed := removed + fs[i].removed;
      areas := areas + fs[i].areas;
      total := total + fs[i].complexityChange;
      indicators := indicators + fs[i].indicators;
      i := i + 1;
    }
    assert fs[..i] == fs;
    var sorted := SortedSet(areas);
    assert Distinct(sorted);
    var listing :| Distinct(listing) && (set a | a in listing) == areas;
    r := Aggregated(added, modified, removed, listing, total, PrimaryIndicator(indicators), Counts(indicators));
  }

  /** Aggregating loses no entity: the added list of the whole run is the
      added lists of the files, one after another. */
  lemma {:induction false} ConcatOfAppend<T>(fs: seq<FileAnalysis>, gs: seq<FileAnalysis>, f: FileAnalysis -> seq<T>)
    ensures ConcatOf(fs + gs, f) == ConcatOf(fs, f) + ConcatOf(gs, f)
    decreases |gs|
  {
    if gs == [] {
      assert fs + gs == fs;
    } else {
      var last := gs[|gs| - 1];
      assert (fs + gs)[..|fs + gs| - 1] == fs + gs[..|gs| - 1];
      ConcatOfAppend(fs, gs[..|gs| - 1], f);
    }
  }

  // ------------------------------------------------------- value inference

  predicate AnyFileHas(files: seq<string>, w: string) {
    exists k :: 0 <= k < |files| && Contains(Lower(files[k]), w)
  }

  /** `'click'` or `'command'` inside `str(e['decorators'])`. Neither word
      holds a quote, comma, bracket or space, so it occurs in the printed
      list iff it occurs in one of the decorator names. */
  predicate IsCliEntity(e: Entity) {
    exists k :: 0 <= k < |e.decorators| && (Contains(e.decorators[k], "click") || Contains(e.decorators[k], "command"))
  }

  predicate IsConfigEntity(e: Entity) { Contains(Lower(e.name), "config") }

  predicate IsTestEntity(e: Entity) { StartsWith(e.name, "test_") }

  predicate IsAnalyzerEntity(e: Entity) { Contains(Lower(e.name), "analyzer") }

  /** Whether one of the rules before the complexity rules applies. */
  predicate AreaRuleFires(agg: Aggregated, files: seq<string>) {
    AnyFileHas(files, "analyzer") || AnyFileHas(files, "deep")
    || ("cli" in agg.areas && |Filter(agg.added, IsCliEntity)| > 0)
    || ("configuration" in agg.areas && |Filter(agg.added, IsConfigEntity)| > 0)
    || "api" in agg.areas || "auth" in agg.areas || "testing" in agg.areas || "formatting" in agg.areas
  }

  /** `infer_functional_value`: the first rule of the priority chain that
      applies. */
  function InferFunctionalValue(agg: Aggregated, files: seq<string>): (r: string)
    ensures |r| > 0
    ensures AnyFileHas(files, "analyzer") || AnyFileHas(files, "deep") ==>
      r == (if |agg.added| > 0 then "enhanced code analysis capabilities" else "improved code analysis")
  {
    var added := agg.added;
    var modified := agg.modified;
    if AnyFileHas(files, "analyzer") || AnyFileHas(files, "deep") then
      if |added| > 0 then "enhanced code analysis capabilities" else "improved code analysis"
    else if "cli" in agg.areas && |Filter(added, IsCliEntity)| > 0 then
      "new CLI commands: " + Join(", ", Names(Take(Filter(added, IsCliEntity), 3)))
    else if "configuration" in agg.areas && |Filter(added, IsConfigEntity)| > 0 then
      "improved configuration management"
    else if "api" in agg.areas then "new API capabilities"
    else if "auth" in agg.areas then "security enhancements"
    else if "testing" in agg.areas then
      var n := |Filter(added, IsTestEntity)|;
      if n > 0 then "added " + NatToString(n) + " tests for better coverage" else "improved test coverage"
    else if "formatting" in agg.areas then "improved output formatting"
    else if agg.complexityChange < -5 then "simplified code structure"
    else if agg.complexityChange > 10 then "new functionality"
    else if |added| >= 2 && |Filter(added, IsAnalyzerEntity)| > 0 then "enhanced architecture with deep analysis"
    else if |added| >= 3 then "added " + Join(", ", Names(added[..3]))
    else if |modified| >= 2 then "enhanced " + Join(", ", Names(modified[..2]))
    else if |added| > 0 then "added " + added[0].name
    else if |modified| > 0 then "updated " + modified[0].name
    else "code improvements"
  }

  /** The generic fallback is returned exactly when no rule applies: no
      file or area rule, a complexity change within [-5, 10] and no added or
      modified entity. */
  lemma {:induction false} FallbackValue(agg: Aggregated, files: seq<string>)
    ensures InferFunctionalValue(agg, files) == "code improvements"
        <==> !AreaRuleFires(agg, files) && -5 <= agg.complexityChange <= 10
             && agg.added == [] && agg.modified == []
  {
    var r := InferFunctionalValue(agg, files);
    var target := "code improvements";
    if AreaRuleFires(agg, files) || agg.complexityChange < -5 || agg.complexityChange > 10
       || agg.added != [] || agg.modified != [] {
      // Every other outcome differs from the fallback in its first characters.
      if !(AnyFileHas(files, "analyzer") || AnyFileHas(files, "deep"))
         && !("cli" in agg.areas && |Filter(agg.added, IsCliEntity)| > 0)
         && !("configuration" in agg.areas && |Filter(agg.added, IsConfigEntity)| > 0)
         && !("api" in agg.areas) && !("auth" in agg.areas) && "testing" in agg.areas {
        var n := |Filter(agg.added, IsTestEntity)|;
        if n > 0 {
          assert r == "added " + NatToString(n) + " tests for better coverage";
          assert r[0] != target[0];
        }
      } else if !AreaRuleFires(agg, files) && -5 <= agg.complexityChange <= 10 {
        if |agg.added| >= 2 && |Filter(agg.added, IsAnalyzerEntity)| > 0 {
        } else if |agg.added| >= 3 {
          assert r == "added " + Join(", ", Names(agg.added[..3]));
          assert r[0] != target[0];
        } else if |agg.modified| >= 2 {
          assert r == "enhanced " + Join(", ", Names(agg.modified[..2]));
          assert r[0] != target[0];
        } else if |agg.added| > 0 {
          assert r == "added " + agg.added[0].name;
          assert r[0] != target[0];
        } else {
          assert r == "updated " + agg.modified[0].name;
          assert r[0] != target[0];
        }
      } else if AnyFileHas(files, "analyzer") || AnyFileHas(files, "deep") {
      } else if "cli" in agg.areas && |Filter(agg.added, IsCliEntity)| > 0 {
        assert r == "new CLI commands: " + Join(", ", Names(Take(Filter(agg.added, IsCliEntity), 3)));
        assert r[0] != target[0];
      }
    }
  }

  // ------------------------------------------------------------ relations

  /** `RELATION_PATTERNS` in its insertion order. */
  const RelationPatterns: seq<(string, string, string)> := [
    ("config", "cli", "configuration-driven CLI"),
    ("config", "core", "configurable core logic"),
    ("test", "core", "better test coverage"),
    ("docs", "core", "improved documentation"),
    ("api", "db", "data-driven API"),
    ("auth", "api", "secure API endpoints")
  ]

  function PairIn(domains: set<string>): ((string, string, string)) -> bool {
    (t: (string, string, string)) => t.0 in domains && t.1 in domains
  }

  /** `detect_relations`: the table entries whose two domains are both among
      the areas of the analysed files, in table order. */
  method DetectRelations(fs: seq<FileAnalysis>) returns (rels: seq<(string, string, string)>)
    ensures rels == Filter(RelationPatterns, PairIn(AllAreas(fs)))
  {
    var domains: set<string> := {};
    var i := 0;
    while i < |fs|
      invariant 0 <= i <= |fs|
      invariant domains == AllAreas(fs[..i])
    {
      assert fs[..i + 1][..i] == fs[..i];
      domains := domains + fs[i].areas;
      i := i + 1;
    }
    assert fs[..i] == fs;
    rels := [];
    var k := 0;
    while k < |RelationPatterns|
      invariant 0 <= k <= |RelationPatterns|
      invariant rels == Filter(RelationPatterns[..k], PairIn(domains))
    {
      var entry := RelationPatterns[k];
      assert RelationPatterns[..k + 1] == RelationPatterns[..k] + [entry];
      FilterAppend(RelationPatterns[..k], [entry], PairIn(domains));
      if entry.0 in domains && entry.1 in domains {
        rels := rels + [entry];
      }
      k := k + 1;
    }
    assert RelationPatterns[..k] == RelationPatterns;
  }

  /** Areas are keys of `VALUE_PATTERNS`, and the only table entry whose two
      domains are both such keys is `('auth', 'api')`. */
  lemma OnlyAuthApi(domains: set<string>)
    requires domains <= AreaNames
    ensures Filter(RelationPatterns, PairIn(domains)) == []
         || Filter(RelationPatterns, PairIn(domains)) == [("auth", "api", "secure API endpoints")]
  {
    var p := PairIn(domains);
    assert !p(RelationPatterns[0]) && !p(RelationPatterns[1]) && !p(RelationPatterns[2]);
    assert !p(RelationPatterns[3]) && !p(RelationPatterns[4]);
    assert RelationPatterns[1..][1..][1..][1..][1..] == [RelationPatterns[5]];
  }

  // -------------------------------------------------------------- summary

  function IsFunction(e: Entity): bool { e.kind == "function" }
  function IsClass(e: Entity): bool { e.kind == "class" }

  const Arrow: string := "\U{00E2}\U{2020}\U{2019}"

  function RelationText(r: (string, string, string)): string { r.0 + Arrow + r.1 + ": " + r.2 }

  function RelationTexts(rels: seq<(string, string, string)>): (r: seq<string>)
    ensures |r| == |rels| && forall i :: 0 <= i < |r| ==> r[i] == RelationText(rels[i])
  {
    seq(|rels|, i requires 0 <= i < |rels| => RelationText(rels[i]))
  }

  function ComplexityPart(c: int): string {
    "Complexity: " + (if c > 0 then "+" else "") + IntToString(c)
  }

  function ClassesLine(agg: Aggregated): seq<string> {
    var classes := Take(Names(Filter(agg.added, IsClass)), 2);
    if classes != [] then ["New classes: " + Join(", ", classes)] else []
  }

  function FunctionsLine(agg: Aggregated): seq<string> {
    var funcs := Take(Names(Filter(agg.added, IsFunction)), 4);
    if funcs != [] then ["New functions: " + Join(", ", funcs)] else []
  }

  function ModifiedLine(agg: Aggregated): seq<string> {
    if agg.modified != [] then ["Modified: " + Join(", ", Names(Take(agg.modified, 3)))] else []
  }

  function RelationsLine(rels: seq<(string, string, string)>): seq<string> {
    if rels != [] then ["Relations: " + Join("; ", RelationTexts(rels))] else []
  }

  function ComplexityLine(agg: Aggregated): seq<string> {
    if agg.complexityChange != 0 then [ComplexityPart(agg.complexityChange)] else []
  }

  function AreasLine(agg: Aggregated): seq<string> {
    if agg.areas != [] then ["Areas: " + Join(", ", agg.areas)] else []
  }

  /** The lines `_build_summary` collects, in order. */
  function SummaryParts(agg: Aggregated, rels: seq<(string, string, string)>): seq<string> {
    ClassesLine(agg) + FunctionsLine(agg) + ModifiedLine(agg)
    + RelationsLine(rels) + ComplexityLine(agg) + AreasLine(agg)
  }

  /** `_build_summary`: the parts are appended one by one; classes and
      functions are only looked at when something was added. */
  method BuildSummary(agg: Aggregated, value: string, rels: seq<(string, string, string)>) returns (r: string)
    ensures SummaryParts(agg, rels) == [] ==> r == value
    ensures SummaryParts(agg, rels) != [] ==> r == Join("\n", SummaryParts(agg, rels))
  {
    var parts: seq<string> := [];
    if agg.added != [] {
      parts := parts + ClassesLine(agg);
      parts := parts + FunctionsLine(agg);
    } else {
      assert ClassesLine(agg) == [] && FunctionsLine(agg) == [];
    }
    assert parts == ClassesLine(agg) + FunctionsLine(agg);
    parts := parts + ModifiedLine(agg);
    parts := parts + RelationsLine(rels);
    parts := parts + ComplexityLine(agg);
    parts := parts + AreasLine(agg);
    assert parts == SummaryParts(agg, rels);
    r := if parts != [] then Join("\n", parts) else value;
  }

  /** The summary falls back to the value sentence iff there is no added
      function or class, nothing modified, no relation, no complexity change
      and no area. */
  lemma SummaryPartsEmpty(agg: Aggregated, rels: seq<(string, string, string)>)
    ensures SummaryParts(agg, rels) == []
        <==> Filter(agg.added, IsClass) == [] && Filter(agg.added, IsFunction) == []
             && agg.modified == [] && rels == [] && agg.complexityChange == 0 && agg.areas == []
  {
  }

  /** A positive complexity change is printed with an explicit `+`. */
  lemma ComplexitySign(c: int)
    ensures c > 0 ==> ComplexityPart(c) == "Complexity: +" + NatToString(c)
    ensures c <= 0 ==> ComplexityPart(c) == "Complexity: " + IntToString(c)
  {
  }
}
