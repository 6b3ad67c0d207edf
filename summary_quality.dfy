/** The quality gates of the enhanced commit summary: the noise, banned-word,
    intent and dedupe rules of `SummaryQualityFilter`, and the
    `QualityValidator` that scores a summary and repairs it. */
module SummaryQuality {
  import opened Wrappers
  import opened Strings
  import opened Seqs
  import opened Patterns
  import opened DeepAnalyzer

  /** A dependency edge; a missing `from` or `to` key reads as `''`. */
  datatype Relation = Relation(src: Option<string>, dst: Option<string>, kind: string) {
    function Edge(): (string, string) { (src.GetOr(""), dst.GetOr("")) }
  }

  datatype Capability = Capability(id: string, capability: string, impact: string)

  // ---------------------------------------------------------------- noise

  const NoiseRoles: seq<string> := ["internal helper", "private method"]

  /** `^_`, `_helper$`, `_internal$`, `^_get_.*_name$`, `^_[a-z]+_[a-z]+$`,
      all compiled with IGNORECASE; literals are lower-case and the name is
      lowered before matching. */
  const NoisePatterns: seq<Pattern> := [
    [Ch('_')],
    Lit("_helper") + [End],
    Lit("_internal") + [End],
    Lit("_get_") + [AnyRun] + Lit("_name") + [End],
    [Ch('_'), Letters, Ch('_'), Letters, End]
  ]

  /** `is_noise` as written: every pattern is tried with `re.match`, which
      anchors it at the start of the name. */
  predicate IsNoise(name: string, role: string) {
    role in NoiseRoles
    || exists k :: 0 <= k < |NoisePatterns| && MatchStart(NoisePatterns[k], Lower(name))
  }

  /** Because `re.match` anchors every pattern at position 0 and every
      pattern begins with `_`, the rule reduces to a leading underscore. */
  lemma IsNoiseIsLeadingUnderscore(name: string, role: string)
    ensures IsNoise(name, role) <==> role in NoiseRoles || (|name| > 0 && name[0] == '_')
  {
    var l := Lower(name);
    if |name| > 0 && name[0] == '_' {
      assert MatchAt(NoisePatterns[0], l, 0);
    }
    forall k | 0 <= k < |NoisePatterns| && MatchStart(NoisePatterns[k], l)
      ensures |name| > 0 && name[0] == '_'
    {
      assert NoisePatterns[k][0] == Ch('_');
    }
  }

  /** The noise rule with the suffix patterns searched rather than anchored,
      as their own comments ("helper suffix", "internal suffix") intend. */
  predicate IsNoiseIntended(name: string, role: string) {
    var l := Lower(name);
    role in NoiseRoles
    || MatchStart(NoisePatterns[0], l)
    || Search(NoisePatterns[1], l)
    || Search(NoisePatterns[2], l)
    || MatchStart(NoisePatterns[3], l)
    || MatchStart(NoisePatterns[4], l)
  }

  lemma {:induction false} MatchSuffixEnd(w: string, s: string)
    requires EndsWith(s, w)
    ensures SearchFrom(Lit(w) + [End], s, 0)
  {
    var i := |s| - |w|;
    var p := Lit(w) + [End];
    MatchLitThenAt(w, [End], s, i);
    SearchReaches(p, s, 0, i);
  }

  lemma {:induction false} SearchReaches(p: Pattern, s: string, i: nat, j: nat)
    requires i <= j <= |s| && MatchAt(p, s, j)
    ensures SearchFrom(p, s, i)
    decreases j - i
  {
    if i < j { SearchReaches(p, s, i + 1, j); }
  }

  /** The intended rule catches `_helper` and `_internal` suffixes anywhere in
      the name, and still everything the written rule catches. */
  lemma IsNoiseIntendedSuffixes(name: string, role: string)
    ensures EndsWith(Lower(name), "_helper") || EndsWith(Lower(name), "_internal")
            ==> IsNoiseIntended(name, role)
    ensures IsNoise(name, role) ==> IsNoiseIntended(name, role)
  {
    if EndsWith(Lower(name), "_helper") { MatchSuffixEnd("_helper", Lower(name)); }
    if EndsWith(Lower(name), "_internal") { MatchSuffixEnd("_internal", Lower(name)); }
    IsNoiseIsLeadingUnderscore(name, role);
    if |name| > 0 && name[0] == '_' { assert MatchAt(NoisePatterns[0], Lower(name), 0); }
  }

  /** `parse_helper` shows the difference: the written rule keeps it. */
  lemma NoiseSuffixCounterexample()
    ensures !IsNoise("parse_helper", "")
    ensures IsNoiseIntended("parse_helper", "")
  {
    IsNoiseIsLeadingUnderscore("parse_helper", "");
    assert Lower("parse_helper") == "parse_helper";
    IsNoiseIntendedSuffixes("parse_helper", "");
  }

  /** `filter_entities`, with the intended noise rule. */
  function FilterEntities(entities: seq<Entity>): (r: seq<Entity>)
    ensures forall e :: e in r <==> e in entities && !IsNoiseIntended(e.name, e.role)
    ensures IsSubseq(r, entities)
  {
    var keep := (e: Entity) => !IsNoiseIntended(e.name, e.role);
    FilterMembers(entities, keep);
    FilterIsSubseq(entities, keep);
    Filter(entities, keep)
  }

  // --------------------------------------------------------- banned words

  const BannedTitleWords: set<string> :=
    {"add", "logging", "testing", "performance", "update", "improve", "fix", "misc", "various", "some", "stuff"}

  /** `has_banned_words`: the banned words that are whole whitespace tokens of
      the lowered title. Python returns them in set order, so this is a set.
      A word is reported exactly when it stands between blanks or the ends
      of the lowered title. */
  function BannedIn(title: string): (r: set<string>)
    ensures r <= BannedTitleWords
    ensures forall w :: w in r <==> w in BannedTitleWords && StandsAlone(Lower(title), w)
  {
    BannedTokensAlone(Lower(title));
    set w | w in BannedTitleWords && w in SplitWs(Lower(title))
  }

  /** A banned word is a token of a text exactly when it stands alone there. */
  lemma BannedTokensAlone(s: string)
    ensures forall w :: w in BannedTitleWords ==> (w in SplitWs(s) <==> StandsAlone(s, w))
  {
    forall w | w in BannedTitleWords ensures w in SplitWs(s) <==> StandsAlone(s, w) {
      BannedWordsShape(w);
      InSplitWs(s, w);
    }
  }

  // --------------------------------------------------------------- intent

  const RefactorPatterns: seq<string> :=
    ["analyzer", "deep_", "enhanced_", "ast", "refactor", "restructure", "reorganize", "simplif", "clean"]
  const FeatPatterns: seq<string> := ["new_", "initial", "support", "implement", "create"]
  const FixPatterns: seq<string> := ["fix", "bug", "issue", "error", "patch", "hotfix"]

  /** How many of the patterns occur in `s` (each counted once). */
  function PatternScore(pats: seq<string>, s: string): (n: nat)
    ensures n <= |pats|
    ensures n == 0 <==> forall k :: 0 <= k < |pats| ==> !Contains(s, pats[k])
    decreases |pats|
  {
    if pats == [] then 0
    else (if Contains(s, pats[0]) then 1 else 0) + PatternScore(pats[1..], s)
  }

  predicate IsDocFile(f: string) { EndsWith(f, ".md") || Contains(Lower(f), "doc") }

  predicate IsConfigFile(f: string) {
    EndsWith(f, ".yaml") || EndsWith(f, ".toml") || EndsWith(f, ".json") || EndsWith(f, ".ini")
  }

  /** `classify_intent`. */
  function ClassifyIntent(files: seq<string>, entities: seq<Entity>): (r: string)
    ensures r == "docs" <==> forall i :: 0 <= i < |files| ==> IsDocFile(files[i])
    ensures files == [] ==> r == "docs"
    ensures r == "chore" <==> (exists i :: 0 <= i < |files| && !IsDocFile(files[i]))
                              && (forall i :: 0 <= i < |files| ==> IsConfigFile(files[i]))
    ensures r in {"docs", "chore", "refactor", "feat", "fix"}
    ensures var s := IntentScores(files, entities);
            (r == "feat" ==> s.1 > s.0 && s.1 >= s.2)
            && (r == "fix" ==> s.2 > s.0 && s.2 > s.1)
            && (r == "refactor" ==> s.0 >= s.1 && s.0 >= s.2)
  {
    var s := IntentScores(files, entities);
    if forall i :: 0 <= i < |files| ==> IsDocFile(files[i]) then "docs"
    else if forall i :: 0 <= i < |files| ==> IsConfigFile(files[i]) then "chore"
    else if s.0 == 0 && s.1 == 0 && s.2 == 0 then "refactor"
    else if s.0 >= s.1 && s.0 >= s.2 then "refactor"
    else if s.1 >= s.2 then "feat"
    else "fix"
  }

  /** The refactor, feat and fix scores over the joined file and entity names
      (searched case-insensitively). */
  function IntentScores(files: seq<string>, entities: seq<Entity>): (nat, nat, nat) {
    var combined := Lower(Join(" ", files) + " " + Join(" ", Names(entities)));
    (PatternScore(RefactorPatterns, combined), PatternScore(FeatPatterns, combined), PatternScore(FixPatterns, combined))
  }

  // --------------------------------------------------------- capabilities

  const CapabilityPriority: map<string, int> := map[
    "ast_analysis" := 10, "deep_analyzer" := 10, "enhanced_summary" := 9, "quality_metrics" := 8,
    "multi_language" := 7, "dependency_graph" := 6, "cli_interface" := 5, "output_formatting" := 4,
    "config_system" := 3, "changelog" := 2
  ]

  function Priority(c: Capability): int {
    if c.id in CapabilityPriority then CapabilityPriority[c.id] else 0
  }

  /** `prioritize_capabilities`: a stable sort by priority, highest first. */
  function PrioritizeCapabilities(caps: seq<Capability>): (r: seq<Capability>)
    ensures multiset(r) == multiset(caps)
    ensures forall i, j :: 0 <= i < j < |r| ==> Priority(r[i]) >= Priority(r[j])
    ensures forall p :: Filter(r, KeyIs(Priority, p)) == Filter(caps, KeyIs(Priority, p))
  {
    SortDescFacts(caps, Priority);
    forall p ensures Filter(SortDesc(caps, Priority), KeyIs(Priority, p)) == Filter(caps, KeyIs(Priority, p)) {
      SortDescStable(caps, Priority, p);
    }
    SortDesc(caps, Priority)
  }

  // ----------------------------------------------------- complexity delta

  datatype DeltaKind = NewModule | StructuralChange | RefactorWin | Monitor | NewFeatures | Stable

  /** `delta / old * 100 > c`, decided exactly by cross-multiplication. */
  predicate PctAbove(delta: int, base: int, c: int)
    requires base != 0
  {
    if base > 0 then delta * 100 > c * base else delta * 100 < c * base
  }

  predicate PctBelow(delta: int, base: int, c: int)
    requires base != 0
  {
    if base > 0 then delta * 100 < c * base else delta * 100 > c * base
  }

  /** The branch `format_complexity_delta` takes; the emoji and the rounded
      percentage it prints are not modelled. */
  function ComplexityDeltaKind(oldC: int, newC: int, maxPct: int): (k: DeltaKind)
    ensures k == NewModule <==> oldC == 0
    ensures k == Stable ==> oldC != 0 && !PctAbove(newC - oldC, oldC, 10) && !PctBelow(newC - oldC, oldC, -10)
    ensures k == StructuralChange <==> oldC != 0 && Abs(newC - oldC) * 100 > maxPct * Abs(oldC)
  {
    if oldC == 0 then NewModule
    else
      var delta := newC - oldC;
      if Abs(delta) * 100 > maxPct * Abs(oldC) then StructuralChange
      else if PctBelow(delta, oldC, -10) then RefactorWin
      else if PctAbove(delta, oldC, 50) then Monitor
      else if PctAbove(delta, oldC, 10) then NewFeatures
      else Stable
  }

  function Abs(x: int): nat { if x < 0 then -x else x }

  // -------------------------------------------------------------- dedupe

  predicate NotSelfLoop(r: Relation) { r.Edge().0 != r.Edge().1 }

  function EdgeOf(r: Relation): (string, string) { r.Edge() }

  /** What `dedupe_relations` returns: the first relation per edge, skipping
      self-loops, at most ten. */
  function UniqueEdges(relations: seq<Relation>): seq<Relation> {
    Take(DedupeBy(Filter(relations, NotSelfLoop), EdgeOf, {}), 10)
  }

  method DedupeRelations(relations: seq<Relation>) returns (unique10: seq<Relation>)
    ensures unique10 == UniqueEdges(relations)
  {
    var seen: set<(string, string)> := {};
    var unique: seq<Relation> := [];
    var i := 0;
    while i < |relations|
      invariant 0 <= i <= |relations|
      invariant unique + DedupeBy(Filter(relations[i..], NotSelfLoop), EdgeOf, seen)
                == DedupeBy(Filter(relations, NotSelfLoop), EdgeOf, {})
    {
      var r := relations[i];
      var edge := r.Edge();
      assert relations[i..][1..] == relations[i + 1..];
      if edge !in seen && edge.0 != edge.1 {
        seen := seen + {edge};
        unique := unique + [r];
      }
      i := i + 1;
    }
    assert relations[..] == relations;
    unique10 := Take(unique, 10);
  }

  lemma UniqueEdgesFacts(relations: seq<Relation>)
    ensures var r := UniqueEdges(relations);
            IsSubseq(r, relations) && |r| <= 10
            && DistinctKeys(r, EdgeOf)
            && (forall i :: 0 <= i < |r| ==> NotSelfLoop(r[i]))
  {
    var f := Filter(relations, NotSelfLoop);
    var d := DedupeBy(f, EdgeOf, {});
    var r := Take(d, 10);
    FilterIsSubseq(relations, NotSelfLoop);
    DedupeBySubseq(f, EdgeOf, {});
    PrefixIsSubseq(r, d);
    IsSubseqTrans(r, d, f);
    IsSubseqTrans(r, f, relations);
    DedupeByKeys(f, EdgeOf, {});
    IsSubseqMembers(r, f);
    forall i | 0 <= i < |r| ensures NotSelfLoop(r[i]) {
      assert r[i] in f;
      FilterMembers(relations, NotSelfLoop);
    }
  }

  /** Deduping twice gives the same list. */
  lemma UniqueEdgesIdempotent(relations: seq<Relation>)
    ensures UniqueEdges(UniqueEdges(relations)) == UniqueEdges(relations)
  {
    var r := UniqueEdges(relations);
    UniqueEdgesFacts(relations);
    FilterAll(r, NotSelfLoop);
    DedupeByNoop(r, EdgeOf, {});
  }

  /** Self-loops are always counted as duplicates by `validate`. */
  lemma DuplicatesCoverSelfLoops(relations: seq<Relation>)
    ensures |relations| - |UniqueEdges(relations)| >= |relations| - |Filter(relations, NotSelfLoop)|
    ensures |relations| - |UniqueEdges(relations)| >= |relations| - 10
  {
    DedupeBySubseq(Filter(relations, NotSelfLoop), EdgeOf, {});
  }

  method DedupeFiles(files: seq<string>) returns (unique: seq<string>)
    ensures unique == DedupeBy(files, PathName, {})
  {
    var seen: set<string> := {};
    unique := [];
    var i := 0;
    while i < |files|
      invariant 0 <= i <= |files|
      invariant unique + DedupeBy(files[i..], PathName, seen) == DedupeBy(files, PathName, {})
    {
      var name := PathName(files[i]);
      assert files[i..][1..] == files[i + 1..];
      if name !in seen {
        seen := seen + {name};
        unique := unique + [files[i]];
      }
      i := i + 1;
    }
    assert files[..] == files;
  }

  /** `dedupe_files` keeps the first path per file name, in order, never
      grows the list, and is idempotent. */
  lemma DedupeFilesFacts(files: seq<string>)
    ensures var r := DedupeBy(files, PathName, {});
            IsSubseq(r, files) && |r| <= |files|
            && DistinctKeys(r, PathName)
            && Keys(r, PathName) == Keys(files, PathName)
            && DedupeBy(r, PathName, {}) == r
  {
    DedupeBySubseq(files, PathName, {});
    DedupeByKeys(files, PathName, {});
    DedupeByIdempotent(files, PathName);
  }

  // --------------------------------------------------------- categories

  const CategoryOrder: seq<string> := ["core", "docs", "config", "test"]

  /** The category `categorize_files` gives one path. */
  function Category(f: string): (c: string)
    ensures c in CategoryOrder
    ensures c == "docs" <==> var l := Lower(f); EndsWith(l, ".md") || Contains(l, "doc") || Contains(l, "readme")
  {
    var l := Lower(f);
    if EndsWith(l, ".md") || Contains(l, "doc") || Contains(l, "readme") then "docs"
    else if EndsWith(l, ".yaml") || EndsWith(l, ".yml") || EndsWith(l, ".toml") || EndsWith(l, ".json") || EndsWith(l, ".ini") then "config"
    else if Contains(l, "test") then "test"
    else "core"
  }

  function InCategory(c: string): string -> bool { ValueIs(Category, c) }

  /** `categorize_files`: the non-empty categories, in the order core, docs,
      config, test, each with its files in input order. */
  function CategorizeFiles(files: seq<string>): (r: seq<(string, seq<string>)>)
    ensures forall k :: 0 <= k < |r| ==> r[k].1 != [] && r[k].1 == Filter(files, InCategory(r[k].0))
    ensures forall k :: 0 <= k < |r| ==> r[k].0 in CategoryOrder
    ensures forall k, l :: 0 <= k < l < |r| ==> CategoryRank(r[k].0) < CategoryRank(r[l].0)
    ensures forall i :: 0 <= i < |files| ==> exists k :: 0 <= k < |r| && r[k].0 == Category(files[i])
    ensures multiset(Flatten(Values(r))) == multiset(files)
  {
    var groups := CategoryGroups(files);
    var r := Filter(groups, (g: (string, seq<string>)) => g.1 != []);
    CategoriesCover(files, groups, r);
    CategoriesOrdered(files, groups);
    CategoriesPartition(files, groups, r);
    r
  }

  /** The position of a category in `CategoryOrder`. */
  function CategoryRank(c: string): (k: int)
    ensures c in CategoryOrder ==> 0 <= k < 4 && CategoryOrder[k] == c
  {
    if c == "core" then 0 else if c == "docs" then 1 else if c == "config" then 2 else 3
  }

  /** Dropping the empty groups keeps the categories in their fixed order. */
  lemma CategoriesOrdered(files: seq<string>, groups: seq<(string, seq<string>)>)
    requires groups == CategoryGroups(files)
    ensures var r := Filter(groups, (g: (string, seq<string>)) => g.1 != []);
            forall k, l :: 0 <= k < l < |r| ==> CategoryRank(r[k].0) < CategoryRank(r[l].0)
  {
    var rank := (g: (string, seq<string>)) => CategoryRank(g.0);
    forall k | 0 <= k < 4 ensures rank(groups[k]) == k {
      assert groups[k].0 == CategoryOrder[k];
    }
    FilterIncreasing(groups, (g: (string, seq<string>)) => g.1 != [], rank);
  }

  /** The four categories, in order, each with its files (possibly none). */
  function CategoryGroups(files: seq<string>): (groups: seq<(string, seq<string>)>)
    ensures |groups| == 4
    ensures forall k :: 0 <= k < 4 ==> groups[k] == (CategoryOrder[k], Filter(files, InCategory(CategoryOrder[k])))
  {
    seq(4, k requires 0 <= k < 4 => (CategoryOrder[k], Filter(files, InCategory(CategoryOrder[k]))))
  }

  lemma CategoriesCover(files: seq<string>, groups: seq<(string, seq<string>)>, r: seq<(string, seq<string>)>)
    requires groups == CategoryGroups(files)
    requires r == Filter(groups, (g: (string, seq<string>)) => g.1 != [])
    ensures forall k :: 0 <= k < |r| ==> r[k].1 != [] && r[k].1 == Filter(files, InCategory(r[k].0))
    ensures forall k :: 0 <= k < |r| ==> r[k].0 in CategoryOrder
    ensures forall i :: 0 <= i < |files| ==> exists k :: 0 <= k < |r| && r[k].0 == Category(files[i])
  {
    FilterMembers(groups, (g: (string, seq<string>)) => g.1 != []);
    forall k | 0 <= k < |r| ensures r[k].1 == Filter(files, InCategory(r[k].0)) && r[k].0 in CategoryOrder {
      assert r[k] in groups;
    }
    forall i | 0 <= i < |files| ensures exists k :: 0 <= k < |r| && r[k].0 == Category(files[i]) {
      var c := Category(files[i]);
      var j :| 0 <= j < 4 && CategoryOrder[j] == c;
      FilterMembers(files, InCategory(c));
      assert files[i] in groups[j].1;
      assert groups[j] in r;
    }
  }

  lemma CategoriesPartition(files: seq<string>, groups: seq<(string, seq<string>)>, r: seq<(string, seq<string>)>)
    requires groups == CategoryGroups(files)
    requires r == Filter(groups, (g: (string, seq<string>)) => g.1 != [])
    ensures multiset(Flatten(Values(r))) == multiset(files)
  {
    PartitionByCategory(files);
    FlattenFour(Filter(files, InCategory("core")), Filter(files, InCategory("docs")),
                Filter(files, InCategory("config")), Filter(files, InCategory("test")));
    FlattenDropEmpty(groups);
    assert Values(groups) == [Filter(files, InCategory("core")), Filter(files, InCategory("docs")),
                              Filter(files, InCategory("config")), Filter(files, InCategory("test"))];
  }

  function Values(groups: seq<(string, seq<string>)>): (vs: seq<seq<string>>)
    ensures |vs| == |groups| && forall k :: 0 <= k < |groups| ==> vs[k] == groups[k].1
  {
    seq(|groups|, k requires 0 <= k < |groups| => groups[k].1)
  }

  lemma {:induction false} FlattenDropEmpty(groups: seq<(string, seq<string>)>)
    ensures Flatten(Values(Filter(groups, (g: (string, seq<string>)) => g.1 != []))) == Flatten(Values(groups))
    decreases |groups|
  {
    if groups != [] {
      FlattenDropEmpty(groups[1..]);
      assert Values(groups)[1..] == Values(groups[1..]);
      var p := (g: (string, seq<string>)) => g.1 != [];
      if groups[0].1 != [] {
        assert Values([groups[0]] + Filter(groups[1..], p)) == [groups[0].1] + Values(Filter(groups[1..], p));
      }
    }
  }

  /** Every path lands in exactly one of the four categories. */
  lemma PartitionByCategory(files: seq<string>)
    ensures multiset(Filter(files, InCategory("core"))) + multiset(Filter(files, InCategory("docs")))
          + multiset(Filter(files, InCategory("config"))) + multiset(Filter(files, InCategory("test")))
         == multiset(files)
  {
    PartitionFour(files, Category, "core", "docs", "config", "test");
  }

  lemma FlattenFour<T>(a: seq<T>, b: seq<T>, c: seq<T>, d: seq<T>)
    ensures Flatten([a, b, c, d]) == a + b + c + d
  {
    assert [a, b, c, d][1..] == [b, c, d];
    assert [b, c, d][1..] == [c, d];
    assert [c, d][1..] == [d];
    assert [d][1..] == [];
    assert Flatten([d]) == d + Flatten([]) == d;
    assert Flatten([c, d]) == c + d;
    assert Flatten([b, c, d]) == b + (c + d);
    assert Flatten([a, b, c, d]) == a + (b + (c + d));
  }

  // ----------------------------------------------------------- validate

  /** The gate thresholds; `min_unique_files_ratio` is the fraction
      `minUniqueNum / minUniqueDen`. */
  datatype Gates = Gates(maxComplexityPercent: int, maxDuplicateRelations: int,
                         minUniqueNum: int, minUniqueDen: int, minCapabilities: int, maxBannedWords: int)

  /** 200 %, 0 duplicates, a 0.8 unique-file ratio, 1 capability, 0 banned words. */
  const DefaultGates: Gates := Gates(200, 0, 4, 5, 1, 0)

  datatype Issue =
    | BannedWordsInTitle(words: set<string>)
    | ComplexityOver(oldC: int, newC: int)
    | DuplicateRelations(count: int)
    | DuplicateFiles(count: int)
    | FewCapabilities(found: nat)

  datatype Fix =
    | RemoveBannedWords(words: set<string>)
    | NormalizeComplexity
    | DedupeRelationsFix(count: int)
    | DedupeFilesFix(count: int)

  datatype Validation = Validation(valid: bool, errors: seq<Issue>, warnings: seq<Issue>, fixes: seq<Fix>, score: int)

  datatype Metrics = Metrics(oldComplexity: Option<int>, newComplexity: Option<int>)

  function Clamp100(x: int): (r: int)
    ensures 0 <= r <= 100
    ensures 0 <= x <= 100 ==> r == x
  {
    if x < 0 then 0 else if x > 100 then 100 else x
  }

  /** The complexity gate: only a positive baseline is compared; a missing
      old value reads as 1 and a missing new value as the old one. */
  predicate ComplexityWarns(m: Metrics, gates: Gates) {
    var oldC := m.oldComplexity.GetOr(1);
    var newC := m.newComplexity.GetOr(oldC);
    oldC > 0 && Abs(newC - oldC) * 100 > gates.maxComplexityPercent * oldC
  }

  /** `len(unique) / len(files) < min_unique_files_ratio`, cross-multiplied. */
  predicate FilesTooRepetitive(files: seq<string>, gates: Gates) {
    |files| > 0 && |DedupeBy(files, PathName, {})| * gates.minUniqueDen < gates.minUniqueNum * |files|
  }

  function RelationDuplicates(rels: seq<Relation>): int { |rels| - |UniqueEdges(rels)| }

  function FileDuplicates(files: seq<string>): int { |files| - |DedupeBy(files, PathName, {})| }

  /** The errors `validate` reports: banned words, duplicate relations,
      repetitive files, in that order. */
  function Errors(title: string, rels: seq<Relation>, files: seq<string>, gates: Gates): (es: seq<Issue>)
    ensures |es| <= 3
    ensures BannedWordsInTitle(BannedIn(title)) in es <==> BannedIn(title) != {}
    ensures DuplicateRelations(RelationDuplicates(rels)) in es <==> RelationDuplicates(rels) > gates.maxDuplicateRelations
    ensures DuplicateFiles(FileDuplicates(files)) in es <==> FilesTooRepetitive(files, gates)
    ensures es == [] <==> BannedIn(title) == {} && RelationDuplicates(rels) <= gates.maxDuplicateRelations
                          && !FilesTooRepetitive(files, gates)
  {
    var banned := BannedIn(title);
    var dups := RelationDuplicates(rels);
    (if banned != {} then [BannedWordsInTitle(banned)] else [])
    + (if dups > gates.maxDuplicateRelations then [DuplicateRelations(dups)] else [])
    + (if FilesTooRepetitive(files, gates) then [DuplicateFiles(FileDuplicates(files))] else [])
  }

  /** The warnings `validate` reports: complexity growth, then too few
      capabilities. */
  function Warnings(m: Metrics, caps: seq<Capability>, gates: Gates): (ws: seq<Issue>)
    ensures |ws| <= 2
    ensures ComplexityOver(m.oldComplexity.GetOr(1), m.newComplexity.GetOr(m.oldComplexity.GetOr(1))) in ws
            <==> ComplexityWarns(m, gates)
    ensures FewCapabilities(|caps|) in ws <==> |caps| < gates.minCapabilities
  {
    var oldC := m.oldComplexity.GetOr(1);
    (if ComplexityWarns(m, gates) then [ComplexityOver(oldC, m.newComplexity.GetOr(oldC))] else [])
    + (if |caps| < gates.minCapabilities then [FewCapabilities(|caps|)] else [])
  }

  /** The fixes `validate` proposes, one per error and one for the complexity
      warning. */
  function Fixes(title: string, m: Metrics, rels: seq<Relation>, files: seq<string>, gates: Gates): (fs: seq<Fix>)
    ensures |fs| == |Errors(title, rels, files, gates)| + (if ComplexityWarns(m, gates) then 1 else 0)
  {
    var banned := BannedIn(title);
    var dups := RelationDuplicates(rels);
    (if banned != {} then [RemoveBannedWords(banned)] else [])
    + (if ComplexityWarns(m, gates) then [NormalizeComplexity] else [])
    + (if dups > gates.maxDuplicateRelations then [DedupeRelationsFix(dups)] else [])
    + (if FilesTooRepetitive(files, gates) then [DedupeFilesFix(FileDuplicates(files))] else [])
  }

  /** `QualityValidator.validate`: the summary's title, metrics, relations
      and capabilities, and the changed files, checked against the gates.
      Errors cost 20 points and warnings 5. */
  function Validate(title: string, m: Metrics, rels: seq<Relation>, caps: seq<Capability>,
                    files: seq<string>, gates: Gates): (v: Validation)
    ensures 0 <= v.score <= 100
    ensures v.valid <==> v.errors == []
    ensures v.errors == Errors(title, rels, files, gates) && v.warnings == Warnings(m, caps, gates)
    ensures v.score == 100 - 20 * |v.errors| - 5 * |v.warnings|
    ensures v.score >= 30
  {
    var errors := Errors(title, rels, files, gates);
    var warnings := Warnings(m, caps, gates);
    Validation(errors == [], errors, warnings, Fixes(title, m, rels, files, gates),
               Clamp100(100 - 20 * |errors| - 5 * |warnings|))
  }

  /** With the metrics absent, the complexity gate never warns. */
  lemma AbsentMetricsNeverWarn(gates: Gates)
    requires gates.maxComplexityPercent >= 0
    ensures !ComplexityWarns(Metrics(None, None), gates)
  {
  }

  /** The duplicate-file error never fires for an empty file list; with the
      default ratio 0.8 it fires exactly when fewer than four fifths of the
      paths have distinct names. */
  lemma FileGate(files: seq<string>, gates: Gates)
    ensures files == [] ==> !FilesTooRepetitive(files, gates)
    ensures FilesTooRepetitive(files, DefaultGates)
            <==> |files| > 0 && 5 * |DedupeBy(files, PathName, {})| < 4 * |files|
  {
  }

  /** The relation count is never below the count of unique edges, and under
      the default gate (no duplicates allowed) a relation list passes exactly
      when it has at most ten relations, no self-loop and no repeated edge. */
  lemma RelationGate(rels: seq<Relation>)
    ensures RelationDuplicates(rels) >= 0
    ensures RelationDuplicates(rels) <= DefaultGates.maxDuplicateRelations
            <==> |rels| <= 10 && DistinctKeys(rels, EdgeOf) && (forall i :: 0 <= i < |rels| ==> NotSelfLoop(rels[i]))
  {
    var u := UniqueEdges(rels);
    UniqueEdgesFacts(rels);
    IsSubseqLength(u, rels);
    if RelationDuplicates(rels) <= 0 {
      IsSubseqSameLength(u, rels);
    }
    if |rels| <= 10 && DistinctKeys(rels, EdgeOf) && (forall i :: 0 <= i < |rels| ==> NotSelfLoop(rels[i])) {
      FilterAll(rels, NotSelfLoop);
      DedupeByNoop(rels, EdgeOf, {});
    }
  }

  /** Relations already deduped pass the relation gate: the repair that
      `auto_fix` applies is the one `validate` asks for. */
  lemma DedupedRelationsPass(rels: seq<Relation>)
    ensures RelationDuplicates(UniqueEdges(rels)) == 0
  {
    UniqueEdgesIdempotent(rels);
  }

  /** The complexity gate of `validate` and the "structural change" branch of
      `format_complexity_delta` agree for a positive baseline. */
  lemma ComplexityGateMatchesFormat(oldC: int, newC: int, gates: Gates)
    requires oldC > 0
    ensures ComplexityWarns(Metrics(Some(oldC), Some(newC)), gates)
            <==> ComplexityDeltaKind(oldC, newC, gates.maxComplexityPercent) == StructuralChange
  {
  }

  // ------------------------------------------------------------ auto_fix

  /** The length of the run of `\w` characters at the start of `s`. */
  function WordRunLen(s: string): (n: nat)
    ensures n <= |s|
    ensures forall i :: 0 <= i < n ==> IsWordChar(s[i])
    ensures n < |s| ==> !IsWordChar(s[n])
    decreases |s|
  {
    if |s| == 0 || !IsWordChar(s[0]) then 0 else 1 + WordRunLen(s[1..])
  }

  /** `re.sub(rf'\b{w}\b', '', s, flags=re.IGNORECASE)` for every `w` in
      `words` (lower-case letters): the maximal runs of `\w` characters whose
      lowered text is one of the words are deleted. */
  function RemoveWords(s: string, words: set<string>): (r: string)
    ensures |r| <= |s|
    decreases |s|
  {
    if s == "" then ""
    else if IsWordChar(s[0]) then
      var n := WordRunLen(s);
      (if Lower(s[..n]) in words then "" else s[..n]) + RemoveWords(s[n..], words)
    else [s[0]] + RemoveWords(s[1..], words)
  }

  lemma {:induction false} RemoveNothing(s: string)
    ensures RemoveWords(s, {}) == s
    decreases |s|
  {
    if s != "" {
      if IsWordChar(s[0]) {
        RemoveNothing(s[WordRunLen(s)..]);
        assert s == s[..WordRunLen(s)] + s[WordRunLen(s)..];
      } else {
        RemoveNothing(s[1..]);
        assert s == [s[0]] + s[1..];
      }
    }
  }

  lemma {:induction false} WordRunOfConcat(w: string, x: string)
    requires w != "" && forall i :: 0 <= i < |w| ==> IsWordChar(w[i])
    requires x == "" || !IsWordChar(x[0])
    ensures WordRunLen(w + x) == |w|
    decreases |w|
  {
    if |w| > 1 {
      assert (w + x)[1..] == w[1..] + x;
      WordRunOfConcat(w[1..], x);
    } else {
      assert (w + x)[1..] == x;
    }
  }

  /** A kept word run followed by text that does not start with a word
      character is removed or kept as a whole. */
  lemma RemoveWordsKeptRun(w: string, x: string, b: set<string>)
    requires w != "" && forall i :: 0 <= i < |w| ==> IsWordChar(w[i])
    requires x == "" || !IsWordChar(x[0])
    ensures RemoveWords(w + x, b) == (if Lower(w) in b then "" else w) + RemoveWords(x, b)
  {
    WordRunOfConcat(w, x);
    assert (w + x)[..|w|] == w && (w + x)[|w|..] == x;
  }

  /** Removing words in two rounds is removing them all at once; so the order
      in which Python's set hands the banned words to `re.sub` does not
      matter. */
  lemma {:induction false} RemoveWordsTwice(s: string, a: set<string>, b: set<string>)
    ensures RemoveWords(RemoveWords(s, a), b) == RemoveWords(s, a + b)
    decreases |s|
  {
    if s != "" {
      if IsWordChar(s[0]) {
        var n := WordRunLen(s);
        var w, rest := s[..n], s[n..];
        RemoveWordsTwice(rest, a, b);
        var x := RemoveWords(rest, a);
        if Lower(w) !in a {
          assert RemoveWords(s, a) == w + x;
          if rest != "" {
            assert !IsWordChar(rest[0]);
            assert x == [rest[0]] + RemoveWords(rest[1..], a);
          }
          RemoveWordsKeptRun(w, x, b);
        } else {
          assert RemoveWords(s, a) == x;
        }
      } else {
        RemoveWordsTwice(s[1..], a, b);
        var x := RemoveWords(s[1..], a);
        assert ([s[0]] + x)[1..] == x;
      }
    }
  }

  /** `w` is a run of `\w` characters. */
  predicate Wordy(w: string) { w != "" && forall k :: 0 <= k < |w| ==> IsWordChar(w[k]) }

  /** `w` occurs in `r` at `i` with no word character on either side. */
  predicate Fenced(r: string, w: string, i: int) {
    0 <= i && i + |w| <= |r| && r[i..i + |w|] == w
    && (i == 0 || !IsWordChar(r[i - 1])) && (i + |w| == |r| || !IsWordChar(r[i + |w|]))
  }

  /** The occurrence of `w` at `j` in `s` has the same neighbours as the one
      at `i` in `r`. */
  predicate Mirrors(s: string, r: string, w: string, i: int, j: int) {
    0 <= i && i + |w| <= |r| && 0 <= j && j + |w| <= |s| && s[j..j + |w|] == w
    && (i == 0 <==> j == 0) && (i > 0 && j > 0 ==> s[j - 1] == r[i - 1])
    && (i + |w| == |r| <==> j + |w| == |s|)
    && (i + |w| < |r| && j + |w| < |s| ==> s[j + |w|] == r[i + |w|])
  }

  lemma RemoveWordsNonWord(x: string, b: set<string>)
    requires x != "" && !IsWordChar(x[0])
    ensures RemoveWords(x, b) == [x[0]] + RemoveWords(x[1..], b)
  {
  }

  /** A fenced run of word characters left by `RemoveWords` is a kept run of
      the input, with the same neighbours there. */
  lemma {:induction false} RemoveWordsFenced(s: string, b: set<string>, w: string, i: int)
    requires Wordy(w) && Fenced(RemoveWords(s, b), w, i)
    ensures Lower(w) !in b && exists j :: Mirrors(s, RemoveWords(s, b), w, i, j)
    decreases |s|, 1
  {
    if s == "" {
      assert false;
    } else if !IsWordChar(s[0]) {
      FencedAfterNonWord(s, b, w, i);
    } else if Lower(s[..WordRunLen(s)]) in b {
      FencedAfterRemovedRun(s, b, w, i);
    } else {
      FencedAfterKeptRun(s, b, w, i);
    }
  }

  lemma {:induction false} FencedAfterNonWord(s: string, b: set<string>, w: string, i: int)
    requires s != "" && !IsWordChar(s[0])
    requires Wordy(w) && Fenced(RemoveWords(s, b), w, i)
    ensures Lower(w) !in b && exists j :: Mirrors(s, RemoveWords(s, b), w, i, j)
    decreases |s|, 0
  {
    var rest := s[1..];
    var r := RemoveWords(s, b);
    var r' := RemoveWords(rest, b);
    RemoveWordsNonWord(s, b);
    NotFencedAtStart(r, w);
    assert i != 0 && r[0] == s[0] && r[1..] == r';
    FencedShift(r, r', w, i, 1);
    RemoveWordsFenced(rest, b, w, i - 1);
    var j' :| Mirrors(rest, r', w, i - 1, j');
    MirrorsShift(s, rest, r, r', w, i, j', 1, 1);
  }

  lemma {:induction false} FencedAfterRemovedRun(s: string, b: set<string>, w: string, i: int)
    requires s != "" && IsWordChar(s[0]) && Lower(s[..WordRunLen(s)]) in b
    requires Wordy(w) && Fenced(RemoveWords(s, b), w, i)
    ensures Lower(w) !in b && exists j :: Mirrors(s, RemoveWords(s, b), w, i, j)
    decreases |s|, 0
  {
    var n := WordRunLen(s);
    var rest := s[n..];
    var r := RemoveWords(s, b);
    assert r == RemoveWords(rest, b);
    RunEndsFence(rest, b);
    NotFencedAtStart(r, w);
    assert i != 0;
    RemoveWordsFenced(rest, b, w, i);
    var j' :| Mirrors(rest, r, w, i, j');
    MirrorsSkip(s, rest, r, w, i, j', n);
  }

  lemma {:induction false} FencedAfterKeptRun(s: string, b: set<string>, w: string, i: int)
    requires s != "" && IsWordChar(s[0]) && Lower(s[..WordRunLen(s)]) !in b
    requires Wordy(w) && Fenced(RemoveWords(s, b), w, i)
    ensures Lower(w) !in b && exists j :: Mirrors(s, RemoveWords(s, b), w, i, j)
    decreases |s|, 0
  {
    var n := WordRunLen(s);
    var rest := s[n..];
    var r := RemoveWords(s, b);
    var r' := RemoveWords(rest, b);
    assert r == s[..n] + r';
    if i == 0 {
      RunEndsFence(rest, b);
      KeptRunFenced(s, w, n, r');
      assert Mirrors(s, r, w, 0, 0);
    } else {
      assert forall k :: 0 <= k < n ==> r[k] == s[k];
      FencedPastRun(r, w, i, n);
      assert r[n..] == r';
      FencedShift(r, r', w, i, n);
      RemoveWordsFenced(rest, b, w, i - n);
      var j' :| Mirrors(rest, r', w, i - n, j');
      MirrorsShift(s, rest, r, r', w, i, j', n, n);
    }
  }

  /** A run of word characters is not fenced at a non-word start. */
  lemma NotFencedAtStart(r: string, w: string)
    requires Wordy(w) && r != "" && !IsWordChar(r[0])
    ensures !Fenced(r, w, 0)
  {
    assert |w| <= |r| ==> r[0..|w|][0] == r[0];
  }

  /** A fenced occurrence past the start lies beyond a leading run of word
      characters. */
  lemma FencedPastRun(r: string, w: string, i: int, n: nat)
    requires 0 < i && Fenced(r, w, i) && n <= |r|
    requires forall k :: 0 <= k < n ==> IsWordChar(r[k])
    ensures n < i
  {
  }

  /** What follows a word run starts the output with the same non-word
      character, or leaves it empty. */
  lemma RunEndsFence(rest: string, b: set<string>)
    requires rest == "" || !IsWordChar(rest[0])
    ensures rest == "" <==> RemoveWords(rest, b) == ""
    ensures rest != "" ==> RemoveWords(rest, b)[0] == rest[0]
  {
    if rest != "" {
      RemoveWordsNonWord(rest, b);
    }
  }

  /** A fenced occurrence past the first `m` characters is fenced in the
      suffix. */
  lemma FencedShift(r: string, r': string, w: string, i: int, m: nat)
    requires m <= i && m <= |r| && r' == r[m..] && Fenced(r, w, i)
    ensures Fenced(r', w, i - m)
  {
    assert r'[i - m..i - m + |w|] == r[i..i + |w|];
  }

  /** Shifting both texts keeps two occurrences mirrored. */
  lemma MirrorsShift(s: string, rest: string, r: string, r': string, w: string, i: int, j: int, n: nat, m: nat)
    requires n <= |s| && m <= i && m <= |r| && rest == s[n..] && r' == r[m..]
    requires m == i ==> n == m && (m > 0 ==> s[m - 1] == r[m - 1])
    requires Mirrors(rest, r', w, i - m, j)
    ensures Mirrors(s, r, w, i, n + j)
  {
    assert rest[j..j + |w|] == s[n + j..n + j + |w|];
    if m < i {
      assert r'[i - m - 1] == r[i - 1];
    }
  }

  /** Skipping a prefix of `s` that left nothing in `r`. */
  lemma MirrorsSkip(s: string, rest: string, r: string, w: string, i: int, j: int, n: nat)
    requires n <= |s| && rest == s[n..] && i != 0 && Mirrors(rest, r, w, i, j)
    ensures Mirrors(s, r, w, i, n + j)
  {
    assert rest[j..j + |w|] == s[n + j..n + j + |w|];
  }

  /** A kept first run of `s` fenced at the start of the output is `w`
      itself, with the same right neighbour. */
  lemma KeptRunFenced(s: string, w: string, n: nat, r': string)
    requires Wordy(w) && s != "" && IsWordChar(s[0]) && n == WordRunLen(s)
    requires s[n..] == "" <==> r' == ""
    requires s[n..] != "" ==> r'[0] == s[n]
    requires Fenced(s[..n] + r', w, 0)
    ensures w == s[..n] && Mirrors(s, s[..n] + r', w, 0, 0)
  {
    var r := s[..n] + r';
    WordRunOfConcat(s[..n], r');
    assert r == w + r[|w|..];
    WordRunOfConcat(w, r[|w|..]);
    assert w == r[..n] == s[..n];
  }

  /** A banned word counts whatever its letter case in the title. */
  lemma BannedInLower(title: string)
    ensures BannedIn(Lower(title)) == BannedIn(title)
  {
    LowerTwice(title);
  }

  /** Every banned word is a short lower-case run of letters. */
  lemma BannedWordsShape(w: string)
    requires w in BannedTitleWords
    ensures Wordy(w) && IsToken(w) && Lower(w) == w && |w| <= 11
  {
  }

  /** A word standing alone in `RemoveWords(s, b)` stood alone in `s` and was
      not one of the removed words. */
  lemma RemovedStaysAway(s: string, b: set<string>, u: string, i: int)
    requires Wordy(u) && AloneAt(RemoveWords(s, b), u, i)
    ensures Lower(u) !in b && StandsAlone(s, u)
  {
    var r := RemoveWords(s, b);
    AloneFenced(r, u, i);
    RemoveWordsFenced(s, b, u, i);
    var j :| Mirrors(s, r, u, i, j);
    MirrorsAlone(s, r, u, i, j);
  }

  lemma AloneFenced(r: string, u: string, i: int)
    requires Wordy(u) && AloneAt(r, u, i)
    ensures Fenced(r, u, i)
  {
  }

  lemma MirrorsAlone(s: string, r: string, u: string, i: int, j: int)
    requires Mirrors(s, r, u, i, j) && AloneAt(r, u, i)
    ensures AloneAt(s, u, j) && 0 <= j <= |s|
  {
  }

  /** Lowered, a word standing alone after the removal stood alone before
      it and was not removed. */
  lemma AloneAfterRemove(s: string, b: set<string>, w: string)
    requires Wordy(w) && StandsAlone(Lower(RemoveWords(s, b)), w)
    ensures w !in b && StandsAlone(Lower(s), w)
  {
    var r := RemoveWords(s, b);
    var i :| 0 <= i <= |Lower(r)| && AloneAt(Lower(r), w, i);
    AloneUnlower(r, w, i);
    var u := r[i..i + |w|];
    forall k | 0 <= k < |u| ensures IsWordChar(u[k]) {
      LowerCharKinds(u[k]);
      assert Lower(u)[k] == w[k];
    }
    RemovedStaysAway(s, b, u, i);
    var j :| 0 <= j <= |s| && AloneAt(s, u, j);
    AloneLower(s, u, j);
  }

  /** No banned word is left once the found ones are removed: the words
      `auto_fix` strips are exactly the ones `has_banned_words` reported,
      and stripping them cannot make another banned word stand alone. */
  lemma StrippedTitleClean(title: string)
    ensures BannedIn(CollapseSpaces(RemoveWords(title, BannedIn(title)))) == {}
  {
    forall w | w in BannedTitleWords ensures w !in BannedIn(CollapseSpaces(RemoveWords(title, BannedIn(title)))) {
      StrippedWordAbsent(title, w);
    }
  }

  lemma StrippedWordAbsent(title: string, w: string)
    requires w in BannedTitleWords
    ensures w !in BannedIn(CollapseSpaces(RemoveWords(title, BannedIn(title))))
  {
    var b := BannedIn(title);
    var r := RemoveWords(title, b);
    var t := CollapseSpaces(r);
    BannedWordsShape(w);
    if StandsAlone(Lower(t), w) {
      SameTokensLower(t, r, w);
      AloneAfterRemove(title, b, w);
    }
  }

  /** The fallback title holds no banned word. */
  lemma FallbackClean()
    ensures BannedIn(FallbackTitle) == {}
  {
    FallbackBlanks();
    OneBlankClean(FallbackTitle);
  }

  /** A title of 29 characters whose only blank follows the sixteenth has
      no banned word: neither of its two words is as short as a banned one. */
  lemma OneBlankClean(t: string)
    requires |Lower(t)| == 29
    requires forall k :: 0 <= k < 29 ==> (IsSpace(Lower(t)[k]) <==> k == 16)
    ensures BannedIn(t) == {}
  {
    forall w | w in BannedTitleWords ensures w !in BannedIn(t) {
      BannedWordsShape(w);
    }
  }

  /** The lowered fallback title has a single blank, after its first
      sixteen characters. */
  lemma FallbackBlanks()
    ensures |Lower(FallbackTitle)| == 29
    ensures forall k :: 0 <= k < 29 ==> (IsSpace(Lower(FallbackTitle)[k]) <==> k == 16)
  {
    var l := Lower(FallbackTitle);
    forall k | 0 <= k < 29 ensures IsSpace(l[k]) <==> k == 16 {
      LowerCharKinds(FallbackTitle[k]);
    }
  }

  /** Collapse whitespace as `' '.join(title.split())` does: the same words,
      with no blank at either end and single spaces between them. */
  function CollapseSpaces(s: string): (r: string)
    ensures SplitWs(r) == SplitWs(s)
    ensures Collapsed(r)
  {
    SplitWsJoin(SplitWs(s));
    JoinCollapsed(SplitWs(s));
    Join(" ", SplitWs(s))
  }

  const FallbackTitle: string := "production-grade improvements"

  /** The title `auto_fix` writes back: unchanged without banned words,
      otherwise the words removed, whitespace collapsed, and the fallback
      when fewer than five characters remain. */
  function CleanTitle(title: string): (r: string)
    ensures BannedIn(title) == {} ==> r == title
    ensures BannedIn(title) != {} ==> |r| >= 5
    ensures BannedIn(title) != {} && |CollapseSpaces(RemoveWords(title, BannedIn(title)))| >= 5
            ==> r == CollapseSpaces(RemoveWords(title, BannedIn(title)))
    ensures BannedIn(r) == {}
  {
    StrippedTitleClean(title);
    FallbackClean();
    var banned := BannedIn(title);
    if banned == {} then title
    else
      var t := CollapseSpaces(RemoveWords(title, banned));
      if |t| < 5 then FallbackTitle else t
  }

  /** The loop of `auto_fix` that substitutes each banned word away, in
      whatever order the set yields them. */
  method StripWords(title: string, banned: set<string>) returns (t: string)
    ensures t == RemoveWords(title, banned)
  {
    t := title;
    var todo := banned;
    RemoveNothing(title);
    assert banned - todo == {};
    while todo != {}
      invariant todo <= banned
      invariant t == RemoveWords(title, banned - todo)
      decreases |todo|
    {
      var w :| w in todo;
      RemoveWordsTwice(title, banned - todo, {w});
      assert (banned - todo) + {w} == banned - (todo - {w});
      t := RemoveWords(t, {w});
      todo := todo - {w};
    }
    assert banned - todo == banned;
  }

  /** The title step of `auto_fix`. */
  method FixTitle(title: string) returns (r: string, banned: set<string>)
    ensures r == CleanTitle(title) && banned == BannedIn(title)
  {
    banned := BannedIn(title);
    r := title;
    if banned != {} {
      r := StripWords(title, banned);
      r := CollapseSpaces(r);
      if r == "" || |r| < 5 {
        r := FallbackTitle;
      }
    }
  }

  class RelationsBlock {
    /** The `relations` list inside the summary's `relations` dict, if present. */
    var relations: Option<seq<Relation>>

    constructor (rels: Option<seq<Relation>>)
      ensures relations == rels
    {
      relations := rels;
    }

    /** The relations step of `auto_fix`: the list, when present, is
        replaced in place by its deduped version; the two counts are
        returned so the caller can record the fix. */
    method Dedupe() returns (before: nat, after: nat)
      modifies this
      ensures relations == (if old(relations).Some? then Some(UniqueEdges(old(relations).value)) else None)
      ensures old(relations).Some? ==> before == |old(relations).value| && after == |UniqueEdges(old(relations).value)|
      ensures old(relations).None? ==> before == after
    {
      before, after := 0, 0;
      if relations.Some? {
        before := |relations.value|;
        var deduped := DedupeRelations(relations.value);
        relations := Some(deduped);
        after := |deduped|;
      }
    }
  }

  datatype AppliedFix =
    | RemovedBannedWords(words: set<string>)
    | DedupedRelations(before: nat, after: nat)
    | DedupedFiles(before: nat, after: nat)
    | ReorderedCapabilities
    | VerifiedIntent(intent: string)

  /** The summary dict the validator reads and `auto_fix` rewrites. The
      nested `relations` dict is an object: a shallow copy of the summary
      still shares it. */
  datatype Summary = Summary(
    title: Option<string>,
    metrics: Metrics,
    relations: Option<RelationsBlock>,
    capabilities: Option<seq<Capability>>,
    addedEntities: seq<Entity>,
    intent: Option<string>,
    appliedFixes: Option<seq<AppliedFix>>)

  function Blocks(s: Summary): set<RelationsBlock> {
    if s.relations.Some? then {s.relations.value} else {}
  }

  function RelationsOf(s: Summary): seq<Relation>
    reads Blocks(s)
  {
    if s.relations.Some? then s.relations.value.relations.GetOr([]) else []
  }

  /** `validate` on a summary dict. */
  function ValidateSummary(s: Summary, files: seq<string>, gates: Gates): Validation
    reads Blocks(s)
  {
    Validate(s.title.GetOr(""), s.metrics, RelationsOf(s), s.capabilities.GetOr([]), files, gates)
  }

  function PrioritizedOrNone(caps: Option<seq<Capability>>): Option<seq<Capability>> {
    if caps.Some? then Some(PrioritizeCapabilities(caps.value)) else None
  }

  function TitleNote(banned: set<string>): seq<AppliedFix> {
    if banned != {} then [RemovedBannedWords(banned)] else []
  }

  function RelationsNote(before: Option<seq<Relation>>): seq<AppliedFix> {
    if before.Some? && |before.value| != |UniqueEdges(before.value)|
    then [DedupedRelations(|before.value|, |UniqueEdges(before.value)|)] else []
  }

  function FilesNote(files: seq<string>): seq<AppliedFix> {
    var u := |DedupeBy(files, PathName, {})|;
    if |files| != u then [DedupedFiles(|files|, u)] else []
  }

  function CapsNote(caps: Option<seq<Capability>>): seq<AppliedFix> {
    if caps.Some? then [ReorderedCapabilities] else []
  }

  /** The notes `auto_fix` records, in order. */
  function AutoFixNotes(banned: set<string>, relsBefore: Option<seq<Relation>>, files: seq<string>,
                        caps: Option<seq<Capability>>, intent: string): seq<AppliedFix>
  {
    TitleNote(banned) + RelationsNote(relsBefore) + FilesNote(files) + CapsNote(caps) + [VerifiedIntent(intent)]
  }

  function BlockRelations(s: Summary): Option<seq<Relation>>
    reads Blocks(s)
  {
    if s.relations.Some? then s.relations.value.relations else None
  }

  /** The relations step of `auto_fix` on the summary's nested dict. */
  method FixRelations(summary: Summary) returns (note: seq<AppliedFix>)
    modifies Blocks(summary)
    ensures BlockRelations(summary)
            == (var before := old(BlockRelations(summary)); if before.Some? then Some(UniqueEdges(before.value)) else None)
    ensures note == RelationsNote(old(BlockRelations(summary)))
  {
    note := [];
    if summary.relations.Some? {
      var before, after := summary.relations.value.Dedupe();
      if before != after {
        note := [DedupedRelations(before, after)];
      }
    }
  }

  /** The file step of `auto_fix`: the files are only counted. */
  method FixFiles(files: seq<string>) returns (note: seq<AppliedFix>)
    ensures note == FilesNote(files)
  {
    note := [];
    var uniqueFiles := DedupeFiles(files);
    if |files| != |uniqueFiles| {
      note := [DedupedFiles(|files|, |uniqueFiles|)];
    }
  }

  /** `QualityValidator.auto_fix`. It returns a shallow copy of the summary;
      the nested relations dict is shared, so the caller's summary sees the
      deduped relations too. */
  method AutoFix(summary: Summary, files: seq<string>) returns (fixed: Summary)
    modifies Blocks(summary)
    ensures fixed.relations == summary.relations
    ensures BlockRelations(summary)
            == (var before := old(BlockRelations(summary)); if before.Some? then Some(UniqueEdges(before.value)) else None)
    ensures fixed.title == (if BannedIn(summary.title.GetOr("")) != {}
                            then Some(CleanTitle(summary.title.GetOr(""))) else summary.title)
    ensures BannedIn(fixed.title.GetOr("")) == {}
    ensures fixed.capabilities == PrioritizedOrNone(summary.capabilities)
    ensures fixed.intent == Some(ClassifyIntent(files, summary.addedEntities))
    ensures fixed.appliedFixes == Some(AutoFixNotes(BannedIn(summary.title.GetOr("")), old(BlockRelations(summary)),
                                                    files, summary.capabilities, ClassifyIntent(files, summary.addedEntities)))
    ensures fixed.metrics == summary.metrics && fixed.addedEntities == summary.addedEntities
  {
    fixed := summary;

    var title, banned := FixTitle(summary.title.GetOr(""));
    var titleNote: seq<AppliedFix> := [];
    if banned != {} {
      fixed := fixed.(title := Some(title));
      titleNote := [RemovedBannedWords(banned)];
    }
    assert BannedIn(fixed.title.GetOr("")) == {};

    var relationsNote := FixRelations(summary);
    var filesNote := FixFiles(files);

    var capsNote: seq<AppliedFix> := [];
    if summary.capabilities.Some? {
      fixed := fixed.(capabilities := PrioritizedOrNone(summary.capabilities));
      capsNote := [ReorderedCapabilities];
    }

    var intent := ClassifyIntent(files, summary.addedEntities);
    var applied := titleNote + relationsNote + filesNote + capsNote + [VerifiedIntent(intent)];
    fixed := fixed.(intent := Some(intent), appliedFixes := Some(applied));
  }

  /** After `auto_fix`, the summary's relations pass the relation gate. */
  lemma AutoFixedRelationsPass(rels: seq<Relation>)
    ensures Validate("", Metrics(None, None), UniqueEdges(rels), [], [], DefaultGates).errors == []
  {
    DedupedRelationsPass(rels);
  }
}
