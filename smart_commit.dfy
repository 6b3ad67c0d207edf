/** The abstraction-based commit message generator of `goal/smart_commit.py`:
    `CodeAbstraction` (domains, languages, entities, topics, features,
    benefits, abstraction level, verbs) and the message, body and changelog
    builders of `SmartCommitGenerator`. The configuration is the part of
    `goal.yaml` these classes read, already extracted into a record. */
module SmartCommit {
  import opened Wrappers
  import opened Strings
  import opened Seqs
  import opened Patterns

  // ------------------------------------------------------------ configuration

  /** One `code_parsers` entry; missing keys read as empty. */
  datatype Parser = Parser(extract: seq<string>, ignore: seq<string>, entityPattern: string)

  const NoParser := Parser([], [], "")

  /** The `git.commit` settings and `code_parsers` that `CodeAbstraction`
      reads. `domainMapping` keeps the mapping's insertion order. */
  datatype AbstractionConfig = AbstractionConfig(
    domainMapping: seq<(string, string)>,
    codeParsers: map<string, Parser>,
    benefitKeywords: map<string, string>,
    abstractionLevel: string)

  // ------------------------------------------------------------------ domains

  // A `domain_mapping` pattern covers a path: by `fnmatch`, as a `dir/*`
  // prefix, or as a `dir/*.py` prefix with a `.py` ending.
  predicate MappingCovers(pattern: string, path: string) {
    Glob(pattern, path)
    || (EndsWith(pattern, "/*") && StartsWith(path, pattern[..|pattern| - 2]))
    || (EndsWith(pattern, "/*.py") && StartsWith(path, pattern[..|pattern| - 4]) && EndsWith(path, ".py"))
  }

  /** The index of the first mapping entry from `k` on that covers `path`. */
  function FirstMapping(mapping: seq<(string, string)>, path: string, k: nat): (r: Option<nat>)
    requires k <= |mapping|
    ensures r.Some? ==> k <= r.value < |mapping| && MappingCovers(mapping[r.value].0, path)
    ensures r.Some? ==> forall j :: k <= j < r.value ==> !MappingCovers(mapping[j].0, path)
    ensures r.None? ==> forall j :: k <= j < |mapping| ==> !MappingCovers(mapping[j].0, path)
    decreases |mapping| - k
  {
    if k == |mapping| then None
    else if MappingCovers(mapping[k].0, path) then Some(k)
    else FirstMapping(mapping, path, k + 1)
  }

  /** The domain of a path no mapping entry covers. */
  function FallbackDomain(path: string): (d: string)
    ensures d in {"docs", "core", "test", "other"}
    ensures d == "docs" <==> PathSuffix(path) in {".md", ".rst", ".txt"}
    ensures d == "core" <==> PathSuffix(path) in {".py", ".js", ".ts", ".rs", ".go"}
    ensures d == "test" <==> PathSuffix(path) !in {".md", ".rst", ".txt", ".py", ".js", ".ts", ".rs", ".go"}
                             && (StartsWith(path, "test") || StartsWith(path, "spec"))
  {
    var ext := PathSuffix(path);
    if ext in {".md", ".rst", ".txt"} then "docs"
    else if ext in {".py", ".js", ".ts", ".rs", ".go"} then "core"
    else if StartsWith(path, "test") || StartsWith(path, "spec") then "test"
    else "other"
  }

  /** `get_domain`: the first covering mapping entry wins; otherwise the
      extension and the path prefix decide. */
  function GetDomain(cfg: AbstractionConfig, path: string): (d: string)
    ensures (exists j :: 0 <= j < |cfg.domainMapping| && MappingCovers(cfg.domainMapping[j].0, path)) ==>
      exists j :: 0 <= j < |cfg.domainMapping| && MappingCovers(cfg.domainMapping[j].0, path)
        && d == cfg.domainMapping[j].1
        && forall i :: 0 <= i < j ==> !MappingCovers(cfg.domainMapping[i].0, path)
    ensures (forall j :: 0 <= j < |cfg.domainMapping| ==> !MappingCovers(cfg.domainMapping[j].0, path))
            ==> d == FallbackDomain(path)
  {
    match FirstMapping(cfg.domainMapping, path, 0)
    case Some(j) => cfg.domainMapping[j].1
    case None => FallbackDomain(path)
  }

  /** The extension rule comes before the `test` prefix rule: a Python file
      under `tests/` that no mapping entry covers is `core`. */
  lemma UnmappedTestFileIsCore(cfg: AbstractionConfig)
    requires forall j :: 0 <= j < |cfg.domainMapping| ==> !MappingCovers(cfg.domainMapping[j].0, "tests/x.py")
    ensures GetDomain(cfg, "tests/x.py") == "core"
  {
    TestsXSuffix();
  }

  lemma TestsXSuffix()
    ensures PathSuffix("tests/x.py") == ".py"
  {
    assert Split("tests/x.py", '/') == ["tests", "x.py"] by {
      SplitOfJoin(["tests", "x.py"], '/');
      assert Join(['/'], ["tests", "x.py"]) == "tests/x.py";
    }
    assert PathName("tests/x.py") == "x.py";
    XSuffix("x.py");
  }

  lemma XSuffix(name: string)
    requires name == "x.py"
    ensures RFind(name, '.') == Some(1)
  {
    assert name[3] != '.' && name[2] != '.' && name[1] == '.';
  }

  // ---------------------------------------------------------------- languages

  /** `EXTENSION_TO_LANGUAGE`. */
  const ExtensionToLanguage: map<string, string> := map[
    ".py" := "python", ".js" := "javascript", ".jsx" := "javascript",
    ".ts" := "typescript", ".tsx" := "typescript", ".rs" := "rust",
    ".go" := "go", ".md" := "markdown", ".rst" := "markdown"]

  /** `get_language`: the lowered suffix looked up in the table. */
  function GetLanguage(path: string): (lang: string)
    ensures lang in {"python", "javascript", "typescript", "rust", "go", "markdown", "unknown"}
    ensures lang == "unknown" <==> Lower(PathSuffix(path)) !in ExtensionToLanguage
    ensures lang == "python" <==> Lower(PathSuffix(path)) == ".py"
    ensures lang == "markdown" <==> Lower(PathSuffix(path)) in {".md", ".rst"}
  {
    var ext := Lower(PathSuffix(path));
    if ext in ExtensionToLanguage then ExtensionToLanguage[ext] else "unknown"
  }

  /** The parser configured for a path's language, or the empty one. */
  function ParserFor(cfg: AbstractionConfig, path: string): Parser {
    var lang := GetLanguage(path);
    if lang in cfg.codeParsers then cfg.codeParsers[lang] else NoParser
  }

  // ----------------------------------------------------------------- entities

  /** A diff line that `+`-prefixes new content (and is not a file header). */
  predicate IsAddedLine(line: string) { StartsWith(line, "+") && !StartsWith(line, "+++") }

  predicate IsRemovedLine(line: string) { StartsWith(line, "-") && !StartsWith(line, "---") }

  lemma AddedNotRemoved(line: string)
    ensures !(IsAddedLine(line) && IsRemovedLine(line))
  {
    if IsAddedLine(line) { assert line[0] == '+'; }
  }

  /** `str.isidentifier()` over ASCII. */
  predicate IsIdentifier(w: string) {
    |w| > 0 && !IsDigit(w[0]) && forall i :: 0 <= i < |w| ==> IsWordChar(w[i])
  }

  /** The index of the first extract pattern contained in `line`. */
  function FirstExtract(patterns: seq<string>, line: string, k: nat): (r: Option<nat>)
    requires k <= |patterns|
    ensures r.Some? ==> k <= r.value < |patterns| && Contains(line, patterns[r.value])
    ensures r.Some? ==> forall j :: k <= j < r.value ==> !Contains(line, patterns[j])
    ensures r.None? ==> forall j :: k <= j < |patterns| ==> !Contains(line, patterns[j])
    decreases |patterns| - k
  {
    if k == |patterns| then None
    else if Contains(line, patterns[k]) then Some(k)
    else FirstExtract(patterns, line, k + 1)
  }

  /** `line.split(pattern)[1]`: the text between the first and the second
      occurrence of `pattern`, or to the end of the line. */
  function SecondPiece(line: string, pattern: string): (r: string)
    requires |pattern| > 0 && Contains(line, pattern)
    ensures !Contains(r, pattern)
  {
    var i := Find(line, pattern).value;
    var rest := line[i + |pattern|..];
    match Find(rest, pattern)
    case None => rest
    case Some(j) =>
      PrefixBeforeFirst(rest, pattern, j);
      rest[..j]
  }

  lemma PrefixBeforeFirst(s: string, p: string, j: nat)
    requires |p| > 0 && j <= |s| && forall i :: 0 <= i < j ==> !(p <= s[i..])
    ensures !Contains(s[..j], p)
  {
    var t := s[..j];
    forall i | 0 <= i < |t| ensures !(p <= t[i..]) {
      assert t[i..] <= s[i..];
    }
    NoOccurrence(t, p);
  }

  lemma {:induction false} NoOccurrence(t: string, p: string)
    requires |p| > 0 && forall i :: 0 <= i < |t| ==> !(p <= t[i..])
    ensures !Contains(t, p)
    decreases |t|
  {
    if |t| > 0 {
      assert t[0..] == t;
      forall i | 0 <= i < |t[1..]| ensures !(p <= t[1..][i..]) {
        assert t[1..][i..] == t[i + 1..];
      }
      NoOccurrence(t[1..], p);
    }
  }

  /** The word after the pattern when no `entity_pattern` is configured:
      `parts[1].split('(')[0].split(':')[0].split()[0]`, which raises
      `IndexError` when nothing but whitespace is left. */
  function WordAfter(line: string, pattern: string): (r: Result<string>)
    requires Contains(line, pattern)
    ensures r.Ok? ==> r.value == "" || IsToken(r.value)
  {
    if pattern == "" then Err("ValueError: empty separator")
    else
      var piece := SecondPiece(line, pattern);
      if piece == "" then Ok("")
      else
        var words := SplitWs(SplitFirst(SplitFirst(piece, '(').0, ':').0);
        if words == [] then Err("IndexError: list index out of range") else Ok(words[0])
  }

  /** The entity one diff line contributes. `group1` is what the configured
      `entity_pattern` regular expression captures in its first group. */
  function LineEntity(p: Parser, group1: string -> Option<string>, raw: string): (r: Result<Option<string>>)
    ensures r.Ok? && r.value.Some? ==> |r.value.value| > 1 && IsAddedLine(raw)
    ensures r.Ok? && r.value.Some? ==> !ContainsAny(Strip(raw[1..]), p.ignore)
    ensures !IsAddedLine(raw) || p.extract == [] ==> r == Ok(None)
  {
    if !IsAddedLine(raw) then Ok(None)
    else
      var line := Strip(raw[1..]);
      if ContainsAny(line, p.ignore) then Ok(None)
      else
        match FirstExtract(p.extract, line, 0)
        case None => Ok(None)
        case Some(k) =>
          if p.entityPattern != "" then
            match group1(line)
            case Some(name) => if |name| > 1 then Ok(Some(name)) else Ok(None)
            case None => Ok(None)
          else
            match WordAfter(line, p.extract[k])
            case Err(e) => Err(e)
            case Ok(w) => if |w| > 1 && IsIdentifier(w) then Ok(Some(w)) else Ok(None)
  }

  /** The entities of a run of diff lines, in line order, before dedupe. */
  function RawEntities(p: Parser, group1: string -> Option<string>, lines: seq<string>): (r: Result<seq<string>>)
    ensures r.Ok? ==> |r.value| <= |lines|
    ensures r.Ok? ==> forall e :: e in r.value ==> |e| > 1
    decreases |lines|
  {
    if lines == [] then Ok([])
    else
      match RawEntities(p, group1, lines[..|lines| - 1])
      case Err(e) => Err(e)
      case Ok(xs) =>
        match LineEntity(p, group1, lines[|lines| - 1])
        case Err(e) => Err(e)
        case Ok(None) => Ok(xs)
        case Ok(Some(x)) => Ok(xs + [x])
  }

  /** The loop over the diff lines of `extract_entities`, stopping at the
      first exception. */
  method CollectEntities(p: Parser, group1: string -> Option<string>, lines: seq<string>)
    returns (r: Result<seq<string>>)
    ensures r == RawEntities(p, group1, lines)
  {
    var entities: seq<string> := [];
    var i := 0;
    while i < |lines|
      invariant 0 <= i <= |lines|
      invariant RawEntities(p, group1, lines[..i]) == Ok(entities)
    {
      assert lines[..i + 1][..i] == lines[..i];
      var e := LineEntity(p, group1, lines[i]);
      if e.Err? {
        assert RawEntities(p, group1, lines) == Err(e.error) by {
          RawEntitiesErrKept(p, group1, lines, i + 1);
        }
        return Err(e.error);
      }
      if e.value.Some? {
        entities := entities + [e.value.value];
      }
      i := i + 1;
    }
    assert lines[..|lines|] == lines;
    r := Ok(entities);
  }

  /** The seen-set loop: the first occurrence of each entity, in order. */
  method Unique(xs: seq<string>) returns (unique: seq<string>)
    ensures unique == DedupeBy(xs, Same, {})
  {
    var seen: set<string> := {};
    unique := [];
    var j := 0;
    while j < |xs|
      invariant 0 <= j <= |xs|
      invariant unique + DedupeBy(xs[j..], Same, seen) == DedupeBy(xs, Same, {})
    {
      assert xs[j..][1..] == xs[j + 1..];
      if xs[j] !in seen {
        seen := seen + {xs[j]};
        unique := unique + [xs[j]];
      }
      j := j + 1;
    }
  }

  /** `extract_entities`: the entities of the added lines, duplicates dropped
      keeping the first, at most ten. An error is a Python exception raised
      by the fallback word extraction. */
  method ExtractEntities(cfg: AbstractionConfig, path: string, diff: string, group1: string -> Option<string>)
    returns (r: Result<seq<string>>)
    ensures RawEntities(ParserFor(cfg, path), group1, Split(diff, '\n')).Err? ==> r.Err?
    ensures RawEntities(ParserFor(cfg, path), group1, Split(diff, '\n')).Ok? ==>
      r == Ok(Take(DedupeBy(RawEntities(ParserFor(cfg, path), group1, Split(diff, '\n')).value, Same, {}), 10))
  {
    var raw := CollectEntities(ParserFor(cfg, path), group1, Split(diff, '\n'));
    if raw.Err? {
      return Err(raw.error);
    }
    var unique := Unique(raw.value);
    r := Ok(Take(unique, 10));
  }

  /** An exception on a line ends the whole extraction with that exception. */
  lemma {:induction false} RawEntitiesErrKept(p: Parser, group1: string -> Option<string>, lines: seq<string>, n: nat)
    requires n <= |lines| && RawEntities(p, group1, lines[..n]).Err?
    ensures RawEntities(p, group1, lines) == RawEntities(p, group1, lines[..n])
    decreases |lines| - n
  {
    if n < |lines| {
      assert lines[..n + 1][..n] == lines[..n];
      RawEntitiesErrKept(p, group1, lines, n + 1);
    } else {
      assert lines[..n] == lines;
    }
  }

  /** With no extract patterns (no parser for the language) every line
      contributes nothing. */
  lemma {:induction false} NoPatternsNoEntities(p: Parser, group1: string -> Option<string>, lines: seq<string>)
    requires p.extract == []
    ensures RawEntities(p, group1, lines) == Ok([])
    decreases |lines|
  {
    if lines != [] {
      NoPatternsNoEntities(p, group1, lines[..|lines| - 1]);
    }
  }

  /** Some line of `lines` contributes the entity `e`. */
  predicate EntityOf(p: Parser, group1: string -> Option<string>, lines: seq<string>, e: string) {
    exists i :: 0 <= i < |lines| && LineEntity(p, group1, lines[i]) == Ok(Some(e))
  }

  /** Every entity comes from a line of the diff. */
  lemma {:induction false} RawEntitiesFromLines(p: Parser, group1: string -> Option<string>, lines: seq<string>)
    requires RawEntities(p, group1, lines).Ok?
    ensures forall e :: e in RawEntities(p, group1, lines).value ==> EntityOf(p, group1, lines, e)
    decreases |lines|
  {
    if lines != [] {
      var init := lines[..|lines| - 1];
      RawEntitiesFromLines(p, group1, init);
      forall e | e in RawEntities(p, group1, lines).value
        ensures EntityOf(p, group1, lines, e)
      {
        EntityOfLast(p, group1, lines, e);
        if e in RawEntities(p, group1, init).value {
          EntityOfPrefix(p, group1, init, lines, e);
        }
      }
    }
  }

  /** An entity of `lines` is one of all but the last line, or the last
      line's own. */
  lemma EntityOfLast(p: Parser, group1: string -> Option<string>, lines: seq<string>, e: string)
    requires lines != [] && RawEntities(p, group1, lines).Ok? && e in RawEntities(p, group1, lines).value
    ensures var init := lines[..|lines| - 1];
      (RawEntities(p, group1, init).Ok? && e in RawEntities(p, group1, init).value)
      || (LineEntity(p, group1, lines[|lines| - 1]) == Ok(Some(e)) && EntityOf(p, group1, lines, e))
  {
  }

  lemma EntityOfPrefix(p: Parser, group1: string -> Option<string>, init: seq<string>, lines: seq<string>, e: string)
    requires EntityOf(p, group1, init, e) && init <= lines
    ensures EntityOf(p, group1, lines, e)
  {
    var i :| 0 <= i < |init| && LineEntity(p, group1, init[i]) == Ok(Some(e));
    assert lines[i] == init[i];
  }

  /** The line an entity comes from is an added line. */
  lemma EntityOfAdded(p: Parser, group1: string -> Option<string>, lines: seq<string>, e: string)
    requires EntityOf(p, group1, lines, e)
    ensures exists i :: 0 <= i < |lines| && IsAddedLine(lines[i]) && LineEntity(p, group1, lines[i]) == Ok(Some(e))
  {
    var i :| 0 <= i < |lines| && LineEntity(p, group1, lines[i]) == Ok(Some(e));
    assert IsAddedLine(lines[i]);
  }

  /** `extract_entities` gives at most ten distinct entities, each longer
      than one character and each taken from an added, non-ignored line;
      a language without a parser gives none. */
  lemma ExtractEntitiesFacts(cfg: AbstractionConfig, path: string, diff: string, group1: string -> Option<string>)
    ensures var lines := Split(diff, '\n');
      RawEntities(ParserFor(cfg, path), group1, lines).Ok? ==>
        var r := Take(DedupeBy(RawEntities(ParserFor(cfg, path), group1, lines).value, Same, {}), 10);
        |r| <= 10 && Distinct(r)
        && (forall e :: e in r ==>
              |e| > 1 && (exists i :: 0 <= i < |lines| && IsAddedLine(lines[i]) && LineEntity(ParserFor(cfg, path), group1, lines[i]) == Ok(Some(e))))
    ensures ParserFor(cfg, path).extract == [] ==> RawEntities(ParserFor(cfg, path), group1, Split(diff, '\n')) == Ok([])
  {
    var p := ParserFor(cfg, path);
    var lines := Split(diff, '\n');
    if p.extract == [] { NoPatternsNoEntities(p, group1, lines); }
    if RawEntities(p, group1, lines).Ok? {
      var xs := RawEntities(p, group1, lines).value;
      var r := Take(DedupeBy(xs, Same, {}), 10);
      DedupedTen(xs);
      RawEntitiesFromLines(p, group1, lines);
      forall e | e in r
        ensures |e| > 1 && (exists i :: 0 <= i < |lines| && IsAddedLine(lines[i]) && LineEntity(p, group1, lines[i]) == Ok(Some(e)))
      {
        EntityOfAdded(p, group1, lines, e);
      }
    }
  }

  /** The first ten of the deduplicated entities: distinct, and each one of
      the entities. */
  lemma DedupedTen(xs: seq<string>)
    ensures var r := Take(DedupeBy(xs, Same, {}), 10);
      |r| <= 10 && Distinct(r) && forall e :: e in r ==> e in xs
  {
    var d := DedupeBy(xs, Same, {});
    DedupeByKeys(xs, Same, {});
    DedupeBySubseq(xs, Same, {});
    IsSubseqMembers(d, xs);
    var r := Take(d, 10);
    forall i, j | 0 <= i < j < |r| ensures r[i] != r[j] {
      assert Same(d[i]) != Same(d[j]);
    }
  }

  // ---------------------------------------------------------- markdown topics

  /** The noise patterns of `extract_markdown_topics`, one entry per
      alternative, lowered because they are applied with IGNORECASE:
      bracketed versions, dates, changelog section names, changelog titles,
      the unreleased section, bare versions, a table of contents and empty
      headings. */
  function TopicNoise(): seq<Pattern> {
    [ [Ch('['), AnyRun, Digit, DigitRun, Ch('.'), Digit, DigitRun, AnyRun, Ch(']')],
      [Digit, Digit, Digit, Digit, Ch('-'), Digit, Digit, Ch('-'), Digit, Digit],
      Lit("added") + [End], Lit("changed") + [End], Lit("deprecated") + [End],
      Lit("removed") + [End], Lit("fixed") + [End], Lit("security") + [End],
      Lit("changelog"), Lit("change") + [SpaceRun] + Lit("log"),
      Lit("unreleased"), Lit("[unreleased]"),
      [Opt('v'), Digit, DigitRun, Ch('.'), Digit, DigitRun],
      Lit("table of contents"),
      [Ch('#'), Star('#'), End] ]
  }

  /** Some noise pattern from the `k`-th on matches at the start of `l`. */
  predicate NoiseFrom(l: string, k: nat)
    decreases |TopicNoise()| - k
  {
    k < |TopicNoise()| && (MatchStart(TopicNoise()[k], l) || NoiseFrom(l, k + 1))
  }

  /** `re.match(p, topic, re.IGNORECASE)` for some noise pattern `p`. */
  predicate IsTopicNoise(topic: string) { NoiseFrom(Lower(topic), 0) }

  /** The topic a diff line contributes: the text of an added heading with
      its leading `#`s and whitespace removed, if longer than two characters
      and not noise. */
  function HeadingTopic(raw: string): (r: Option<string>)
    ensures r.Some? ==> IsAddedLine(raw) && StartsWith(Strip(raw[1..]), "#")
    ensures r.Some? ==> |r.value| > 2 && !IsTopicNoise(r.value)
  {
    if !IsAddedLine(raw) then None
    else
      var line := Strip(raw[1..]);
      if !StartsWith(line, "#") then None
      else
        var topic := Strip(LStrip(LStripChar(line, '#')));
        if |topic| > 2 && !IsTopicNoise(topic) then Some(topic) else None
  }

  /** The topics of a run of diff lines, in line order. */
  function Topics(lines: seq<string>): (r: seq<string>)
    ensures |r| <= |lines|
    decreases |lines|
  {
    if lines == [] then []
    else
      var init := Topics(lines[..|lines| - 1]);
      match HeadingTopic(lines[|lines| - 1])
      case Some(t) => init + [t]
      case None => init
  }

  /** The loop of `extract_markdown_topics` over the diff lines. */
  method CollectTopics(lines: seq<string>) returns (all: seq<string>)
    ensures all == Topics(lines)
  {
    all := [];
    var i := 0;
    while i < |lines|
      invariant 0 <= i <= |lines|
      invariant all == Topics(lines[..i])
    {
      assert lines[..i + 1][..i] == lines[..i];
      var t := HeadingTopic(lines[i]);
      if t.Some? {
        all := all + [t.value];
      }
      i := i + 1;
    }
    assert lines[..|lines|] == lines;
  }

  /** `extract_markdown_topics`: the heading topics of the added lines, at
      most five, in order. */
  method ExtractMarkdownTopics(diff: string) returns (topics: seq<string>)
    ensures topics == Take(Topics(Split(diff, '\n')), 5)
  {
    var all := CollectTopics(Split(diff, '\n'));
    topics := Take(all, 5);
  }

  /** Some line of `lines` is a heading whose topic is `t`. */
  predicate HeadingOf(lines: seq<string>, t: string) {
    exists i :: 0 <= i < |lines| && HeadingTopic(lines[i]) == Some(t)
  }

  lemma HeadingOfPrefix(init: seq<string>, lines: seq<string>, t: string)
    requires HeadingOf(init, t) && init <= lines
    ensures HeadingOf(lines, t)
  {
    var i :| 0 <= i < |init| && HeadingTopic(init[i]) == Some(t);
    assert lines[i] == init[i];
  }

  /** Each topic is the text of an added heading line of the diff, longer
      than two characters and not noise. */
  lemma {:induction false} TopicsFromHeadings(lines: seq<string>)
    ensures forall t :: t in Topics(lines) ==> |t| > 2 && !IsTopicNoise(t) && HeadingOf(lines, t)
    decreases |lines|
  {
    if lines != [] {
      var init := lines[..|lines| - 1];
      TopicsFromHeadings(init);
      forall t | t in Topics(lines)
        ensures |t| > 2 && !IsTopicNoise(t) && HeadingOf(lines, t)
      {
        TopicOfLast(lines, t);
        if t in Topics(init) {
          HeadingOfPrefix(init, lines, t);
        }
      }
    }
  }

  /** A topic of `lines` is a topic of all but the last line, or the last
      line's own. */
  lemma TopicOfLast(lines: seq<string>, t: string)
    requires lines != [] && t in Topics(lines)
    ensures t in Topics(lines[..|lines| - 1]) || (HeadingTopic(lines[|lines| - 1]) == Some(t) && HeadingOf(lines, t))
  {
  }

  /** A changelog section heading is noise, whatever its case. */
  lemma SectionHeadingIsNoise(raw: string)
    requires raw == "+### Added"
    ensures HeadingTopic(raw) == None
  {
    AddedHeadingShape(raw);
    StripUnpadded(raw[1..]);
    HeadingText(raw[1..], 3, "Added");
    AddedIsNoise("Added");
  }

  lemma AddedHeadingShape(raw: string)
    requires raw == "+### Added"
    ensures IsAddedLine(raw) && |raw| == 10 && raw[1..] == "###" + " " + "Added"
    ensures !IsSpace(raw[1]) && !IsSpace(raw[9])
  {
    assert raw[1..] == "### Added";
    assert "###" + " " + "Added" == "### Added";
    assert raw[..1] == "+";
    assert raw[..3] != "+++" by { assert raw[2] == '#'; }
  }

  /** The topic of `#`×n, a space and an unpadded text is that text. */
  lemma HeadingText(line: string, n: nat, text: string)
    requires 0 < n && |text| > 0 && !IsSpace(text[0]) && !IsSpace(text[|text| - 1])
    requires |line| == n + 1 + |text| && line[n] == ' ' && line[n + 1..] == text
    requires forall i :: 0 <= i < n ==> line[i] == '#'
    ensures Strip(LStrip(LStripChar(line, '#'))) == text
  {
    LStripCharRun(line, '#', n);
    var t := line[n..];
    assert t[0] == ' ' && t[1..] == text;
    assert LStrip(t) == text;
    StripUnpadded(text);
  }

  lemma {:induction false} LStripCharRun(s: string, c: char, n: nat)
    requires n < |s| && s[n] != c && forall i :: 0 <= i < n ==> s[i] == c
    ensures LStripChar(s, c) == s[n..]
    decreases n
  {
    if n > 0 {
      LStripCharRun(s[1..], c, n - 1);
      assert s[1..][n - 1..] == s[n..];
    }
  }

  lemma AddedIsNoise(topic: string)
    requires topic == "Added"
    ensures IsTopicNoise(topic)
  {
    var l := Lower(topic);
    assert l == "added";
    MatchLitThenAt("added", [End], l, 0);
    assert MatchStart(TopicNoise()[2], l);
    assert NoiseFrom(l, 2);
    assert NoiseFrom(l, 0);
  }

  // ----------------------------------------------------------------- features

  datatype FeatureRule = FeatureRule(alts: seq<Pattern>, feature: string)

  /** `stem\.ya?ml`. */
  function Yaml(stem: string): Pattern { Lit(stem + ".y") + [Opt('a')] + Lit("ml") }

  /** The technology patterns of `detect_features`, one alternative per
      entry, in table order. */
  function FeatureTable(): seq<FeatureRule> {
    [ FeatureRule([Lit("kubernetes"), Lit("k8s"), Yaml("deployment"), Lit("pod"), Yaml("service")], "Kubernetes"),
      FeatureRule([Lit("terraform"), Lit(".tf") + [End], Lit("provider"), Lit("resource") + [Space]], "Terraform"),
      FeatureRule([Lit("docker") + [AnyChar] + Lit("compose"), Yaml("compose")], "Docker Compose"),
      FeatureRule([Lit("dockerfile")], "Docker"),
      FeatureRule([Lit("ansible"), Yaml("playbook")], "Ansible"),
      FeatureRule([Lit("gitlab") + [AnyChar] + Lit("ci"), Lit(".gitlab-ci")], "GitLab CI"),
      FeatureRule([Lit("github") + [AnyChar] + Lit("actions"), Lit(".github/workflows")], "GitHub Actions"),
      FeatureRule([Lit("jenkins"), Lit("jenkinsfile")], "Jenkins"),
      FeatureRule([Lit("helm"), Yaml("chart"), Yaml("values")], "Helm"),
      FeatureRule([Lit("nginx"), Lit("nginx.conf")], "Nginx"),
      FeatureRule([Lit("apache"), Lit("httpd.conf")], "Apache"),
      FeatureRule([Lit("systemd"), Lit(".service") + [End]], "systemd"),
      FeatureRule([Lit("makefile")], "Make") ]
  }

  /** The file suffixes that the `\.tf$` and `\.service$` alternatives are
      evidently meant to recognise, by table index. */
  function AnchoredSuffix(k: nat): Option<string> {
    if k == 1 then Some(".tf") else if k == 11 then Some(".service") else None
  }

  /** The text the patterns are searched in: the lowered file names, a
      space, and the lowered entity names. IGNORECASE adds nothing once
      both sides are lower case. */
  function Combined(files: seq<string>, entities: seq<string>): string {
    Lower(Join(" ", files)) + " " + Lower(Join(" ", entities))
  }

  /** Rule `k` fires on the combined text, as written. */
  predicate RuleFires(k: nat, combined: string)
    requires k < |FeatureTable()|
  {
    SearchAny(FeatureTable()[k].alts, combined)
  }

  /** Rule `k` fires as intended: as written, or a file name ends in the
      suffix its end-anchored alternative names. */
  predicate RuleFiresIntended(k: nat, files: seq<string>, entities: seq<string>)
    requires k < |FeatureTable()|
  {
    RuleFires(k, Combined(files, entities))
    || (AnchoredSuffix(k).Some? && exists f :: f in files && EndsWith(Lower(f), AnchoredSuffix(k).value))
  }

  /** The table features found by the first `n` rules, as written. */
  function TableFeaturesAsWritten(combined: string, n: nat): (r: seq<string>)
    requires n <= |FeatureTable()|
    ensures forall f :: f in r ==> exists k :: 0 <= k < n && FeatureTable()[k].feature == f && RuleFires(k, combined)
    ensures Distinct(r)
  {
    if n == 0 then []
    else
      var acc := TableFeaturesAsWritten(combined, n - 1);
      var f := FeatureTable()[n - 1].feature;
      if RuleFires(n - 1, combined) && f !in acc then acc + [f] else acc
  }

  /** The table features found by the first `n` rules, as intended. */
  function TableFeatures(files: seq<string>, entities: seq<string>, n: nat): (r: seq<string>)
    requires n <= |FeatureTable()|
    ensures forall f :: f in r ==> exists k :: 0 <= k < n && FeatureTable()[k].feature == f && RuleFiresIntended(k, files, entities)
    ensures Distinct(r) && |r| <= n
  {
    if n == 0 then []
    else
      var acc := TableFeatures(files, entities, n - 1);
      var f := FeatureTable()[n - 1].feature;
      if RuleFiresIntended(n - 1, files, entities) && f !in acc then acc + [f] else acc
  }

  /** The maximal run of word characters of `s` from `i`. */
  function WordRun(s: string, i: nat): (r: string)
    requires i <= |s|
    ensures |r| <= |s| - i && r == s[i..i + |r|]
    ensures forall j :: 0 <= j < |r| ==> IsWordChar(r[j])
    ensures i + |r| == |s| || !IsWordChar(s[i + |r|])
    decreases |s| - i
  {
    if i < |s| && IsWordChar(s[i]) then [s[i]] + WordRun(s, i + 1) else ""
  }

  predicate IsPathSep(c: char) { c == '/' || c == '\\' }

  /** A match of `analyzers?[/\\](\w+)` at `i`: the captured name. The `s?`
      never has to backtrack, because `s` is not a separator. */
  function AnalyzerAt(s: string, i: nat): (r: Option<string>)
    requires i <= |s|
    ensures r.Some? ==> |r.value| > 0 && forall j :: 0 <= j < |r.value| ==> IsWordChar(r.value[j])
  {
    if !(i + 8 <= |s| && s[i..i + 8] == "analyzer") then None
    else
      var j := if i + 8 < |s| && s[i + 8] == 's' then i + 9 else i + 8;
      if j + 1 < |s| && IsPathSep(s[j]) && IsWordChar(s[j + 1]) then Some(WordRun(s, j + 1)) else None
  }

  /** `re.findall(r'analyzers?[/\\](\w+)', s[i:])`: leftmost matches, each
      search resuming where the previous match ended. */
  function AnalyzerNames(s: string, i: nat): (r: seq<string>)
    requires i <= |s|
    ensures forall k :: 0 <= k < |r| ==> |r[k]| > 0
    decreases |s| - i
  {
    if i == |s| then []
    else
      match AnalyzerAt(s, i)
      case Some(name) =>
        var j := if i + 8 < |s| && s[i + 8] == 's' then i + 10 else i + 9;
        [name] + AnalyzerNames(s, j + |name|)
      case None => AnalyzerNames(s, i + 1)
  }

  /** The display name of an analyzer module: underscores become spaces,
      then title case. */
  function AnalyzerTitle(name: string): string { Title(Replace(name, "_", " ")) }

  /** The analyzer step of `detect_features` over the first `n` names: a
      name is added as `"<Name> analyzer"` unless the bare name is already a
      feature or it is `init`, `base` or `generic`. */
  function AnalyzerFeatures(features: seq<string>, names: seq<string>, n: nat): (r: seq<string>)
    requires n <= |names|
    ensures features <= r && |r| <= |features| + n
  {
    if n == 0 then features
    else
      var acc := AnalyzerFeatures(features, names, n - 1);
      var t := AnalyzerTitle(names[n - 1]);
      if t !in acc && Lower(t) !in ["init", "base", "generic"] then acc + [t + " analyzer"] else acc
  }

  /** `detect_features` as written. */
  function DetectedFeaturesAsWritten(files: seq<string>, entities: seq<string>): seq<string> {
    var table := TableFeaturesAsWritten(Combined(files, entities), |FeatureTable()|);
    var names := AnalyzerNames(Lower(Join(" ", files)), 0);
    Take(AnalyzerFeatures(table, names, |names|), 5)
  }

  /** `detect_features` with the end-anchored alternatives applied to the
      file names they are meant for. */
  function DetectedFeatures(files: seq<string>, entities: seq<string>): seq<string> {
    var table := TableFeatures(files, entities, |FeatureTable()|);
    var names := AnalyzerNames(Lower(Join(" ", files)), 0);
    Take(AnalyzerFeatures(table, names, |names|), 5)
  }

  /** The table loop of `detect_features`. */
  method TableLoop(files: seq<string>, entities: seq<string>) returns (features: seq<string>)
    ensures features == TableFeatures(files, entities, |FeatureTable()|)
  {
    var table := FeatureTable();
    features := [];
    var k := 0;
    while k < |table|
      invariant 0 <= k <= |table|
      invariant features == TableFeatures(files, entities, k)
    {
      var f := table[k].feature;
      if RuleFiresIntended(k, files, entities) && f !in features {
        features := features + [f];
      }
      k := k + 1;
    }
  }

  /** `detect_features`: the technology features in table order, then one
      entry per analyzer module, at most five. */
  method DetectFeatures(files: seq<string>, entities: seq<string>) returns (features: seq<string>)
    ensures features == DetectedFeatures(files, entities)
    ensures |features| <= 5
  {
    var all := TableLoop(files, entities);
    ghost var table := all;
    var names := AnalyzerNames(Lower(Join(" ", files)), 0);
    var i := 0;
    while i < |names|
      invariant 0 <= i <= |names|
      invariant all == AnalyzerFeatures(table, names, i)
    {
      ghost var before := all;
      var t := AnalyzerTitle(names[i]);
      if t !in all && Lower(t) !in ["init", "base", "generic"] {
        all := all + [t + " analyzer"];
      }
      AnalyzerStep(table, names, i, before, all);
      i := i + 1;
    }
    features := Take(all, 5);
  }

  /** One turn of the analyzer loop. */
  lemma AnalyzerStep(table: seq<string>, names: seq<string>, i: nat, before: seq<string>, after: seq<string>)
    requires i < |names| && before == AnalyzerFeatures(table, names, i)
    requires var t := AnalyzerTitle(names[i]);
      after == if t !in before && Lower(t) !in ["init", "base", "generic"] then before + [t + " analyzer"] else before
    ensures after == AnalyzerFeatures(table, names, i + 1)
  {
  }

  /** A rule among the first five that fires is always reported. */
  lemma EarlyRuleReported(files: seq<string>, entities: seq<string>, k: nat)
    requires k < 5 && RuleFiresIntended(k, files, entities)
    ensures FeatureTable()[k].feature in DetectedFeatures(files, entities)
  {
    var f := FeatureTable()[k].feature;
    var p := TableFeatures(files, entities, k + 1);
    TableFeaturesHas(files, entities, k, k + 1);
    var j :| 0 <= j < |p| && p[j] == f;
    TableFeaturesPrefix(files, entities, k + 1, |FeatureTable()|);
    var table := TableFeatures(files, entities, |FeatureTable()|);
    var names := AnalyzerNames(Lower(Join(" ", files)), 0);
    var all := AnalyzerFeatures(table, names, |names|);
    assert all[j] == table[j] == p[j];
    assert Take(all, 5)[j] == f;
  }

  /** A firing rule's feature is among the table features. */
  lemma {:induction false} TableFeaturesHas(files: seq<string>, entities: seq<string>, k: nat, n: nat)
    requires k < n <= |FeatureTable()| && RuleFiresIntended(k, files, entities)
    ensures FeatureTable()[k].feature in TableFeatures(files, entities, n)
    decreases n
  {
    if k < n - 1 {
      TableFeaturesHas(files, entities, k, n - 1);
    }
  }

  /** Later rules only append. */
  lemma {:induction false} TableFeaturesPrefix(files: seq<string>, entities: seq<string>, m: nat, n: nat)
    requires m <= n <= |FeatureTable()|
    ensures TableFeatures(files, entities, m) <= TableFeatures(files, entities, n)
    decreases n - m
  {
    if m < n {
      TableFeaturesPrefix(files, entities, m, n - 1);
    }
  }

  /** As written, an end-anchored alternative can only see the end of the
      entity names: with no entities the combined text ends in a space, so
      `\.tf$` and `\.service$` never match, whatever the files are. */
  lemma AnchoredAlternativesBlind(files: seq<string>, w: string)
    requires |w| > 0 && w[|w| - 1] != ' '
    ensures !Search(Lit(w) + [End], Combined(files, []))
  {
    var c := Combined(files, []);
    assert c[|c| - 1] == ' ';
    EndAnchoredLastChar(w, c, 0);
  }

  /** A lone Terraform file is not reported as written... */
  lemma TerraformFileMissedAsWritten()
    ensures "Terraform" !in DetectedFeaturesAsWritten(["main.tf"], [])
  {
    var c := Combined(["main.tf"], []);
    TerraformRuleSilent(c);
    var table := TableFeaturesAsWritten(c, |FeatureTable()|);
    forall k | 0 <= k < |FeatureTable()| && k != 1
      ensures FeatureTable()[k].feature != "Terraform"
    {
      TerraformOnlyRule(k);
    }
    assert "Terraform" !in table;
    var names := AnalyzerNames(Lower(Join(" ", ["main.tf"])), 0);
    AnalyzerFeaturesAdds(table, names, |names|);
  }

  /** No alternative of the Terraform rule finds `main.tf` alone, as written. */
  lemma TerraformRuleSilent(c: string)
    requires c == Combined(["main.tf"], [])
    ensures !RuleFires(1, c)
  {
    MainTfCombined(c);
    var alts := FeatureTable()[1].alts;
    LitMissingChar("terraform", [], c, 'r');
    assert Lit("terraform") + [] == Lit("terraform");
    LitMissingChar("provider", [], c, 'p');
    assert Lit("provider") + [] == Lit("provider");
    LitMissingChar("resource", [Space], c, 'r');
    AnchoredAlternativesBlind(["main.tf"], ".tf");
    assert alts == [Lit("terraform"), Lit(".tf") + [End], Lit("provider"), Lit("resource") + [Space]];
  }

  /** Only the second rule of the table reports Terraform. */
  lemma TerraformOnlyRule(k: nat)
    requires k < |FeatureTable()| && k != 1
    ensures FeatureTable()[k].feature != "Terraform"
  {
  }

  lemma MainTfCombined(c: string)
    requires c == Combined(["main.tf"], [])
    ensures c == "main.tf " && 'r' !in c && 'p' !in c
  {
    assert Join(" ", ["main.tf"]) == "main.tf";
    assert Join(" ", []) == "";
  }

  /** ... but it is once the anchored alternative looks at the file names. */
  lemma TerraformFileFound()
    ensures "Terraform" in DetectedFeatures(["main.tf"], [])
  {
    var f := "main.tf";
    assert Lower(f)[4..] == ".tf";
    TerraformFilesFound(["main.tf"], [], f);
  }

  /** Any `.tf` file is reported as Terraform. */
  lemma TerraformFilesFound(files: seq<string>, entities: seq<string>, f: string)
    requires f in files && EndsWith(Lower(f), ".tf")
    ensures "Terraform" in DetectedFeatures(files, entities)
  {
    assert AnchoredSuffix(1) == Some(".tf");
    assert RuleFiresIntended(1, files, entities);
    EarlyRuleReported(files, entities, 1);
  }

  /** The analyzer step only appends names ending in ` analyzer`. */
  lemma {:induction false} AnalyzerFeaturesAdds(features: seq<string>, names: seq<string>, n: nat)
    requires n <= |names|
    ensures forall x :: x in AnalyzerFeatures(features, names, n) ==> x in features || EndsWith(x, " analyzer")
    decreases n
  {
    if n > 0 { AnalyzerFeaturesAdds(features, names, n - 1); }
  }

  // ------------------------------------------------------------------ benefit

  /** The benefit patterns of `infer_benefit`. Each is an alternation of
      plain words, so a regular-expression search is a substring test
      (`Patterns.SearchLits`). */
  const BenefitRules: seq<(seq<string>, string)> := [
    (["kubernetes", "k8s", "deployment", "pod", "service"], "Kubernetes support"),
    (["terraform", "tf", "provider", "resource"], "Terraform support"),
    (["docker", "container", "compose"], "Docker support"),
    (["ansible", "playbook", "task"], "Ansible support"),
    (["gitlab", "github", "ci", "cd", "pipeline"], "CI/CD support"),
    (["analyzer", "parser", "detect"], "analysis capabilities"),
    (["config", "settings", "yaml", "json"], "configuration management"),
    (["cli", "command", "option", "arg"], "CLI experience"),
    (["api", "endpoint", "route", "handler"], "API functionality"),
    (["test", "spec", "assert"], "test coverage"),
    (["doc", "readme", "guide", "tutorial", "example"], "documentation"),
    (["auth", "login", "token", "session"], "security"),
    (["cache", "perf", "optim", "speed"], "performance"),
    (["refactor", "clean", "extract", "split"], "code architecture"),
    (["fix", "bug", "issue", "error"], "bug fixes")]

  /** The first benefit rule from `k` on whose pattern occurs in `s`. */
  function FirstBenefit(s: string, k: nat): (r: Option<nat>)
    requires k <= |BenefitRules|
    ensures r.Some? ==> k <= r.value < |BenefitRules| && ContainsAny(s, BenefitRules[r.value].0)
    ensures r.Some? ==> forall j :: k <= j < r.value ==> !ContainsAny(s, BenefitRules[j].0)
    ensures r.None? ==> forall j :: k <= j < |BenefitRules| ==> !ContainsAny(s, BenefitRules[j].0)
    decreases |BenefitRules| - k
  {
    if k == |BenefitRules| then None
    else if ContainsAny(s, BenefitRules[k].0) then Some(k)
    else FirstBenefit(s, k + 1)
  }

  /** The benefit phrase for detected features. */
  function FeaturePhrase(features: seq<string>): (r: string)
    requires |features| > 0
    ensures |features| <= 3 ==> EndsWith(r, features[|features| - 1] + " support")
    ensures |features| > 3 ==> EndsWith(r, " more features")
    ensures StartsWith(r, features[0])
  {
    if |features| == 1 then features[0] + " support"
    else if |features| <= 3 then
      JoinEnds(", ", features[..|features| - 1]);
      Join(", ", features[..|features| - 1]) + " and " + features[|features| - 1] + " support"
    else features[0] + ", " + features[1] + " and " + NatToString(|features| - 2) + " more features"
  }

  /** `infer_benefit`: features first, then the first benefit rule over the
      entity names, then over the file names, then the configured keyword
      for the domain, then for the commit type. */
  function InferBenefit(cfg: AbstractionConfig, entities: seq<string>, domain: string, commitType: string,
                        files: seq<string>, features: seq<string>): (r: string)
    ensures features != [] ==> r == FeaturePhrase(features)
    ensures features == [] && FirstBenefit(Lower(Join(" ", entities)), 0).Some? ==>
      r == BenefitRules[FirstBenefit(Lower(Join(" ", entities)), 0).value].1
    ensures features == [] && FirstBenefit(Lower(Join(" ", entities)), 0).None?
            && FirstBenefit(Lower(Join(" ", files)), 0).Some? ==>
      r == BenefitRules[FirstBenefit(Lower(Join(" ", files)), 0).value].1
    ensures features == [] && FirstBenefit(Lower(Join(" ", entities)), 0).None?
            && FirstBenefit(Lower(Join(" ", files)), 0).None? ==>
      r == if domain in cfg.benefitKeywords then cfg.benefitKeywords[domain]
           else if commitType in cfg.benefitKeywords then cfg.benefitKeywords[commitType]
           else "improved functionality"
  {
    if features != [] then FeaturePhrase(features)
    else
      match FirstBenefit(Lower(Join(" ", entities)), 0)
      case Some(k) => BenefitRules[k].1
      case None =>
        match FirstBenefit(Lower(Join(" ", files)), 0)
        case Some(k) => BenefitRules[k].1
        case None =>
          if domain in cfg.benefitKeywords then cfg.benefitKeywords[domain]
          else if commitType in cfg.benefitKeywords then cfg.benefitKeywords[commitType]
          else "improved functionality"
  }

  /** Entity names outrank file names: once a rule fires on the entities,
      the files do not matter. */
  lemma EntitiesOutrankFiles(cfg: AbstractionConfig, entities: seq<string>, domain: string, commitType: string,
                             files1: seq<string>, files2: seq<string>)
    requires FirstBenefit(Lower(Join(" ", entities)), 0).Some?
    ensures InferBenefit(cfg, entities, domain, commitType, files1, []) == InferBenefit(cfg, entities, domain, commitType, files2, [])
  {
  }

  // -------------------------------------------------------- abstraction level

  /** `determine_abstraction_level`. */
  function DetermineAbstractionLevel(configured: string, fileCount: nat, entityCount: nat): (level: string)
    ensures configured != "auto" ==> level == configured
    ensures configured == "auto" ==> level in {"high", "medium", "low"}
    ensures configured == "auto" ==> (level == "high" <==> fileCount <= 3 && entityCount <= 5)
    ensures configured == "auto" ==> (level == "low" <==> !(fileCount <= 3 && entityCount <= 5) && entityCount < 2 && fileCount > 10)
  {
    if configured != "auto" then configured
    else if fileCount <= 3 && entityCount <= 5 then "high"
    else if entityCount >= 2 then "medium"
    else if fileCount > 10 then "low"
    else "medium"
  }

  // -------------------------------------------------------------------- verbs

  const Verbs: map<string, string> := map[
    "feat" := "add", "fix" := "fix", "docs" := "document", "refactor" := "refactor",
    "test" := "test", "build" := "configure", "chore" := "update", "style" := "format",
    "perf" := "optimize"]

  /** `get_action_verb`: the verb for a Conventional Commits type, `update`
      for an unknown type. */
  function GetActionVerb(commitType: string): (verb: string)
    ensures verb == "update" <==> commitType !in Verbs || commitType == "chore"
    ensures commitType in Verbs ==> verb == Verbs[commitType]
  {
    if commitType in Verbs then Verbs[commitType] else "update"
  }

  // -------------------------------------------------------------- commit type

  const DomainTypeMap: map<string, string> := map[
    "docs" := "docs", "test" := "test", "ci" := "build", "build" := "build", "config" := "chore"]

  /** `_infer_commit_type`: the domain map, then keywords in the lowered
      entity names, then the ratio of added to deleted lines. */
  function InferCommitType(domain: string, entities: seq<string>, added: nat, deleted: nat): (t: string)
    ensures t in {"docs", "test", "build", "chore", "fix", "refactor", "feat"}
    ensures domain in DomainTypeMap ==> t == DomainTypeMap[domain]
  {
    if domain in DomainTypeMap then DomainTypeMap[domain]
    else
      var es := Lower(Join(" ", entities));
      if Contains(es, "fix") || Contains(es, "bug") then "fix"
      else if Contains(es, "refactor") || Contains(es, "extract") then "refactor"
      else if Contains(es, "test") then "test"
      else if deleted > added * 2 then "refactor"
      else if added > 0 && deleted == 0 then "feat"
      else if deleted > added then "fix"
      else "feat"
  }

  /** In an unmapped domain, keywords in the entity names come next, and
      the line counts do not matter: `fix` or `bug` before `refactor` or
      `extract`, before `test`. */
  lemma CommitTypeByKeyword(domain: string, entities: seq<string>, added: nat, deleted: nat, added2: nat, deleted2: nat)
    requires domain !in DomainTypeMap
    ensures var es := Lower(Join(" ", entities));
      Contains(es, "fix") || Contains(es, "bug") ==> InferCommitType(domain, entities, added, deleted) == "fix"
    ensures var es := Lower(Join(" ", entities));
      !Contains(es, "fix") && !Contains(es, "bug") && (Contains(es, "refactor") || Contains(es, "extract")) ==>
        InferCommitType(domain, entities, added, deleted) == "refactor"
    ensures var es := Lower(Join(" ", entities));
      !Contains(es, "fix") && !Contains(es, "bug") && !Contains(es, "refactor") && !Contains(es, "extract") && Contains(es, "test") ==>
        InferCommitType(domain, entities, added, deleted) == "test"
    ensures var es := Lower(Join(" ", entities));
      Contains(es, "fix") || Contains(es, "bug") || Contains(es, "refactor") || Contains(es, "extract") || Contains(es, "test") ==>
        InferCommitType(domain, entities, added, deleted) == InferCommitType(domain, entities, added2, deleted2)
  {
  }

  /** Without keyword hints in an unmapped domain, the line counts decide:
      more than twice as many deletions as additions is a refactor, one
      that only adds is a feature, one that deletes more than it adds but
      at most twice as much is a fix, and the rest are features. */
  lemma CommitTypeByRatio(domain: string, entities: seq<string>, added: nat, deleted: nat)
    requires domain !in DomainTypeMap
    requires var es := Lower(Join(" ", entities));
      !Contains(es, "fix") && !Contains(es, "bug") && !Contains(es, "refactor") && !Contains(es, "extract") && !Contains(es, "test")
    ensures deleted > 2 * added ==> InferCommitType(domain, entities, added, deleted) == "refactor"
    ensures added == 0 && deleted > 0 ==> InferCommitType(domain, entities, added, deleted) == "refactor"
    ensures added > 0 && deleted == 0 ==> InferCommitType(domain, entities, added, deleted) == "feat"
    ensures added < deleted <= 2 * added ==> InferCommitType(domain, entities, added, deleted) == "fix"
    ensures deleted <= added ==> InferCommitType(domain, entities, added, deleted) == "feat"
  {
  }

  // ----------------------------------------------------------------- analysis

  /** The result of `analyze_changes`. `domains` lists each domain with its
      files, in the order the domains were first seen. */
  datatype Analysis = Analysis(
    files: seq<string>, fileCount: nat, domains: seq<(string, seq<string>)>,
    entities: seq<string>, features: seq<string>, added: nat, deleted: nat,
    primaryDomain: string, commitType: string, benefit: string, summary: string)

  /** The lines of a diff that add and that remove content. */
  function AddedCount(lines: seq<string>): nat { |Filter(lines, IsAddedLine)| }
  function DeletedCount(lines: seq<string>): nat { |Filter(lines, IsRemovedLine)| }

  /** The `+`/`-` counters of `analyze_changes` for one file's diff. */
  method CountChanges(diff: string) returns (added: nat, deleted: nat)
    ensures added == AddedCount(Split(diff, '\n')) && deleted == DeletedCount(Split(diff, '\n'))
  {
    var lines := Split(diff, '\n');
    added, deleted := 0, 0;
    var i := 0;
    while i < |lines|
      invariant 0 <= i <= |lines|
      invariant added == |Filter(lines[..i], IsAddedLine)| && deleted == |Filter(lines[..i], IsRemovedLine)|
    {
      assert lines[..i + 1] == lines[..i] + [lines[i]];
      FilterAppend(lines[..i], [lines[i]], IsAddedLine);
      FilterAppend(lines[..i], [lines[i]], IsRemovedLine);
      AddedNotRemoved(lines[i]);
      if IsAddedLine(lines[i]) {
        added := added + 1;
      } else if IsRemovedLine(lines[i]) {
        deleted := deleted + 1;
      }
      i := i + 1;
    }
    assert lines[..|lines|] == lines;
  }

  /** No line is counted twice: together the counters never exceed the
      number of lines. */
  lemma {:induction false} CountsBounded(lines: seq<string>)
    ensures AddedCount(lines) + DeletedCount(lines) <= |lines|
    decreases |lines|
  {
    if lines != [] {
      AddedNotRemoved(lines[0]);
      CountsBounded(lines[1..]);
    }
  }

  // ---------------------------------------------------------- summary line

  predicate IsDocFile(f: string) { EndsWith(f, ".md") || EndsWith(f, ".rst") || EndsWith(f, ".txt") }

  predicate HasTest(f: string) { Contains(Lower(f), "test") }

  predicate IsMeaningfulName(e: string) { |e| > 2 && !StartsWith(e, "test_") }

  function StemUpper(f: string): string { Upper(PathStem(f)) }

  function MapStemUpper(fs: seq<string>): (r: seq<string>)
    ensures |r| == |fs|
  {
    if fs == [] then [] else [StemUpper(fs[0])] + MapStemUpper(fs[1..])
  }

  /** The feature- or entity-based opening of the summary, if any. */
  function SummaryHead(features: seq<string>, entities: seq<string>): (head: seq<string>)
    ensures |head| <= 1 && (head != [] ==> |head[0]| > 0)
    ensures features != [] ==> |head| == 1 && StartsWith(head[0], "Added ")
  {
    if features != [] then
      if |features| == 1 then ["Added " + features[0] + " support"]
      else if |features| == 2 then ["Added " + features[0] + " and " + features[1] + " support"]
      else ["Added " + features[0] + ", " + features[1] + ", and " + NatToString(|features| - 2) + " more features"]
    else if entities != [] then
      var meaningful := Filter(entities, IsMeaningfulName);
      if meaningful == [] then []
      else if |meaningful| <= 3 then ["Implemented " + Join(", ", meaningful)]
      else ["Implemented " + meaningful[0] + ", " + meaningful[1] + ", and " + NatToString(|meaningful| - 2) + " more functions"]
    else []
  }

  /** The documentation and test parts that follow the opening. */
  function SummaryMiddle(head: seq<string>, files: seq<string>): (parts: seq<string>)
    ensures head <= parts
    ensures head == [] ==> |parts| <= 1
    ensures forall k :: 0 <= k < |parts| && k >= |head| ==> |parts[k]| > 0
  {
    var docs := Filter(files, IsDocFile);
    var withDocs :=
      if docs != [] && |docs| > |files| / 2 then head + ["Updated documentation (" + Join(", ", MapStemUpper(Take(docs, 3))) + ")"]
      else head;
    var tests := Filter(files, HasTest);
    if tests != [] && withDocs == [] then ["Added/updated " + NatToString(|tests|) + " test files"] else withDocs
  }

  /** The parts of `_generate_functional_summary`; there is always one. */
  function SummaryParts(a: Analysis): (parts: seq<string>)
    ensures |parts| > 0 && |parts[0]| > 0
    ensures a.features != [] ==> StartsWith(parts[0], "Added ")
  {
    var head := SummaryHead(a.features, a.entities);
    var middle := SummaryMiddle(head, a.files);
    if middle != [] then middle
    else if a.added > a.deleted * 2 then ["Added new functionality (" + NatToString(a.added) + " lines)"]
    else if a.deleted > a.added then ["Refactored code (" + NatToString(a.deleted) + " lines removed)"]
    else ["Updated " + NatToString(|a.files|) + " files"]
  }

  /** `_generate_functional_summary`: never empty, and led by the features
      when there are any. */
  function GenerateFunctionalSummary(a: Analysis): (r: string)
    ensures |r| > 0
    ensures a.features != [] ==> StartsWith(r, "Added ")
  {
    var parts := SummaryParts(a);
    JoinEnds("; ", parts);
    Join("; ", parts)
  }

  // ------------------------------------------------------------------ message

  /** `'{type}({domain}): '`, the head of every title. */
  function TitlePrefix(a: Analysis): string { a.commitType + "(" + a.primaryDomain + "): " }

  predicate AnyFileContains(files: seq<string>, w: string) {
    exists f :: f in files && Contains(Lower(f), w)
  }

  /** Every file is documentation: a `.md`/`.rst`/`.txt` name in any case, a
      README, or a path under `docs/`. */
  predicate IsDocsOnly(files: seq<string>) {
    files != [] && forall f :: f in files ==>
      IsDocFile(Lower(f)) || Contains(Lower(f), "readme") || StartsWith(f, "docs/")
  }

  /** The description of a docs-only change of type `docs`. */
  function DocsDescription(a: Analysis): string
    requires a.files != []
  {
    if AnyFileContains(a.files, "readme") then
      (if a.added > 100 then "expand README with detailed examples" else "update README")
    else if AnyFileContains(a.files, "changelog") then "update changelog"
    else if a.fileCount == 1 then "update " + Lower(PathStem(a.files[0])) + " documentation"
    else "update documentation"
  }

  /** Not a version in brackets and not starting with a digit. */
  predicate IsTitleEntity(e: string) {
    |e| > 2 && !StartsWith(e, "test_")
    && !MatchStart([Ch('['), AnyRun, Ch(']'), End], e)
    && !(|e| > 0 && IsDigit(e[0]))
  }

  predicate Longer2(e: string) { |e| > 2 }

  /** The description after the prefix at abstraction level `level`. `verb`
      is what the verb lookup yields: the code as written looks up a method
      that does not exist, which raises. */
  function Description(a: Analysis, level: string, verb: Result<string>): Result<string> {
    if IsDocsOnly(a.files) && a.commitType == "docs" then Ok(DocsDescription(a))
    else if level == "high" && a.features != [] then
      if |a.features| == 1 then Ok("add " + a.features[0] + " support")
      else if |a.features| == 2 then Ok("add " + a.features[0] + " and " + a.features[1] + " support")
      else Ok("add " + a.features[0] + ", " + a.features[1] + " and more")
    else if level == "high" then Ok(a.benefit)
    else if level == "medium" then
      if a.features != [] then Ok("add " + Join(", ", Take(a.features, 3)))
      else
        var meaningful := Take(Filter(a.entities, IsTitleEntity), 3);
        if a.entities != [] && meaningful != [] then Ok("add " + Join(", ", meaningful))
        else Ok(a.benefit)
    else LowDescription(a, verb)
  }

  /** The low-abstraction branch of `generate_message`. */
  function LowDescription(a: Analysis, verb: Result<string>): Result<string> {
    var meaningful := Take(Filter(a.entities, Longer2), 2);
    if a.benefit != "" && a.benefit != "improved functionality" then Ok(a.benefit)
    else if a.entities != [] && meaningful != [] then
      match verb
      case Err(e) => Err(e)
      case Ok(v) => Ok(v + " " + Join(", ", meaningful))
    else if a.files != [] && AnyFileContains(a.files, "cli") then Ok("improve CLI functionality")
    else if a.files != [] && AnyFileContains(a.files, "config") then Ok("update configuration handling")
    else if a.files != [] && AnyFileContains(a.files, "test") then Ok("improve test coverage")
    else if a.files != [] && exists f :: f in a.files && EndsWith(f, ".md") then Ok("update documentation")
    else
      match verb
      case Err(e) => Err(e)
      case Ok(v) =>
        if a.added > a.deleted * 2 then Ok(v + " new functionality")
        else if a.deleted > a.added then Ok("refactor and simplify code")
        else Ok(v + " code structure")
  }

  /** The level `generate_message` works at: the given one, or the one
      `determine_abstraction_level` picks. */
  function LevelFor(cfg: AbstractionConfig, a: Analysis, level: Option<string>): string {
    match level
    case Some(l) => l
    case None => DetermineAbstractionLevel(cfg.abstractionLevel, a.fileCount, |a.entities|)
  }

  /** `generate_message` as written: the verb-based returns call the
      undefined `_get_verb_for_commit_type` and raise `AttributeError`. */
  function GenerateMessageAsWritten(cfg: AbstractionConfig, a: Analysis, level: Option<string>): (r: Result<string>)
    ensures r.Err? ==> r.error == "AttributeError: _get_verb_for_commit_type"
    ensures r.Ok? ==> StartsWith(r.value, TitlePrefix(a))
  {
    match Description(a, LevelFor(cfg, a, level), Err("AttributeError: _get_verb_for_commit_type"))
    case Err(e) => Err(e)
    case Ok(d) => Ok(TitlePrefix(a) + d)
  }

  /** `generate_message` with the verb taken from `get_action_verb`. */
  function GenerateMessage(cfg: AbstractionConfig, a: Analysis, level: Option<string>): (r: string)
    ensures StartsWith(r, TitlePrefix(a))
    ensures IsDocsOnly(a.files) && a.commitType == "docs" && AnyFileContains(a.files, "readme") && a.added > 100 ==>
      r == "docs(" + a.primaryDomain + "): expand README with detailed examples"
  {
    var d := Description(a, LevelFor(cfg, a, level), Ok(GetActionVerb(a.commitType)));
    DescriptionWithVerb(a, LevelFor(cfg, a, level), GetActionVerb(a.commitType));
    if IsDocsOnly(a.files) && a.commitType == "docs" && AnyFileContains(a.files, "readme") && a.added > 100 then
      DocsReadmeTitle(a, d.value);
      TitlePrefix(a) + d.value
    else TitlePrefix(a) + d.value
  }

  lemma DocsReadmeTitle(a: Analysis, d: string)
    requires a.commitType == "docs" && d == "expand README with detailed examples"
    ensures TitlePrefix(a) + d == "docs(" + a.primaryDomain + "): expand README with detailed examples"
  {
  }

  /** With a verb at hand every branch of the description succeeds. */
  lemma DescriptionWithVerb(a: Analysis, level: string, verb: string)
    ensures Description(a, level, Ok(verb)).Ok?
    ensures IsDocsOnly(a.files) && a.commitType == "docs" ==>
      Description(a, level, Ok(verb)) == Ok(DocsDescription(a))
  {
  }

  /** The branches of `generate_message` that need a verb: the low level
      with no specific benefit, and either meaningful entities or no file
      hint. */
  predicate NeedsVerb(a: Analysis, level: string) {
    !(IsDocsOnly(a.files) && a.commitType == "docs")
    && level != "high" && level != "medium"
    && (a.benefit == "" || a.benefit == "improved functionality")
    && ((a.entities != [] && Take(Filter(a.entities, Longer2), 2) != [])
        || !(a.files != [] && (AnyFileContains(a.files, "cli") || AnyFileContains(a.files, "config")
                               || AnyFileContains(a.files, "test") || exists f :: f in a.files && EndsWith(f, ".md"))))
  }

  /** As written, `generate_message` raises exactly on the verb branches and
      agrees with the corrected message everywhere else. */
  lemma MessageAsWrittenRaises(cfg: AbstractionConfig, a: Analysis, level: Option<string>)
    ensures GenerateMessageAsWritten(cfg, a, level).Err? <==> NeedsVerb(a, LevelFor(cfg, a, level))
    ensures GenerateMessageAsWritten(cfg, a, level).Ok? ==>
      GenerateMessageAsWritten(cfg, a, level).value == GenerateMessage(cfg, a, level)
  {
  }

  /** A low-level message for a small Python change raises as written. */
  lemma LowLevelEntityRaises()
    ensures GenerateMessageAsWritten(
      AbstractionConfig([], map[], map[], "auto"),
      Analysis(["goal/parser.py"], 1, [("core", ["goal/parser.py"])], ["parse_config"], [], 12, 0,
               "core", "feat", "improved functionality", ""),
      Some("low")).Err?
  {
    var a := Analysis(["goal/parser.py"], 1, [("core", ["goal/parser.py"])], ["parse_config"], [], 12, 0,
                      "core", "feat", "improved functionality", "");
    assert Filter(a.entities, Longer2) == ["parse_config"];
    ParserFileNotDocs(a.files);
    MessageAsWrittenRaises(AbstractionConfig([], map[], map[], "auto"), a, Some("low"));
  }

  lemma ParserFileNotDocs(files: seq<string>)
    requires files == ["goal/parser.py"]
    ensures !IsDocsOnly(files)
  {
    var f := files[0];
    ParserPathFacts(f);
    assert f[0] != 'd';
  }

  lemma ParserPathFacts(f: string)
    requires f == "goal/parser.py"
    ensures !IsDocFile(Lower(f)) && !Contains(Lower(f), "readme")
  {
    LowerParserPath(f);
    var l := Lower(f);
    assert l[13] == 'y' && l[12] == 'p';
    assert 'm' !in l;
    if Contains(l, "readme") { ContainsMembers(l, "readme", 'm'); }
  }

  lemma LowerParserPath(f: string)
    requires f == "goal/parser.py"
    ensures Lower(f) == f
  {
  }

  // --------------------------------------------------------------------- body

  function Bullets(xs: seq<string>): (r: seq<string>)
    ensures |r| == |xs| && forall k :: 0 <= k < |xs| ==> r[k] == "- " + xs[k]
  {
    seq(|xs|, k requires 0 <= k < |xs| => "- " + xs[k])
  }

  function CodeBullets(xs: seq<string>): (r: seq<string>)
    ensures |r| == |xs| && forall k :: 0 <= k < |xs| ==> r[k] == "- `" + xs[k] + "`"
  {
    seq(|xs|, k requires 0 <= k < |xs| => "- `" + xs[k] + "`")
  }

  /** One `- **Domain**: n files` line per domain with files, in order. */
  function AreaLines(domains: seq<(string, seq<string>)>): (r: seq<string>)
    ensures |r| == |Filter(domains, HasFiles)|
    ensures forall k :: 0 <= k < |r| ==> r[k] == AreaLine(Filter(domains, HasFiles)[k])
    decreases |domains|
  {
    if domains == [] then []
    else
      var rest := AreaLines(domains[1..]);
      if domains[0].1 != [] then ["- **" + Title(domains[0].0) + "**: " + NatToString(|domains[0].1|) + " files"] + rest
      else rest
  }

  predicate HasFiles(d: (string, seq<string>)) { d.1 != [] }

  /** The area line of one domain: its title-cased name and its file count. */
  function AreaLine(d: (string, seq<string>)): string {
    "- **" + Title(d.0) + "**: " + NatToString(|d.1|) + " files"
  }

  /** The closing statistics of the body. */
  function Statistics(a: Analysis): seq<string> {
    ["## Statistics", "- Files: " + NatToString(|a.files|),
     "- Lines: +" + NatToString(a.added) + "/-" + NatToString(a.deleted)]
  }

  function FeatureSection(features: seq<string>): seq<string> {
    if features != [] then ["## Features Added"] + Bullets(features) + [""] else []
  }

  /** The lines of `generate_functional_body`. */
  function BodyLines(a: Analysis): (r: seq<string>)
    ensures |r| >= 3 && r[|r| - 3..] == Statistics(a)
    ensures a.features != [] ==> "## Features Added" in r && forall f :: f in a.features ==> "- " + f in r
  {
    var summary := if a.summary != "" then ["## Summary\n" + a.summary + "\n"] else [];
    var meaningful := Take(Filter(a.entities, Longer2), 8);
    var keys := if a.entities != [] && meaningful != [] then ["## Key Changes"] + CodeBullets(meaningful) + [""] else [];
    var areas := if a.domains != [] then ["## Changes by Area"] + AreaLines(a.domains) + [""] else [];
    var r := summary + FeatureSection(a.features) + keys + areas + Statistics(a);
    assert r[|r| - 3..] == Statistics(a);
    if a.features != [] then FeaturesListed(summary, a.features, keys + areas + Statistics(a)); r else r
  }

  lemma FeaturesListed(pre: seq<string>, features: seq<string>, post: seq<string>)
    requires features != []
    ensures var r := pre + FeatureSection(features) + post;
      "## Features Added" in r && forall f :: f in features ==> "- " + f in r
  {
    var r := pre + FeatureSection(features) + post;
    assert r[|pre|] == "## Features Added";
    forall f | f in features ensures "- " + f in r {
      var k :| 0 <= k < |features| && features[k] == f;
      assert r[|pre| + 1 + k] == "- " + f;
    }
  }

  /** `generate_functional_body`: the sections joined by newlines, always
      ending with the file and line statistics. */
  function GenerateFunctionalBody(a: Analysis): (r: string)
    ensures EndsWith(r, "## Statistics\n- Files: " + NatToString(|a.files|)
                        + "\n- Lines: +" + NatToString(a.added) + "/-" + NatToString(a.deleted))
  {
    var lines := BodyLines(a);
    var n := |lines|;
    assert lines[n - 3] == Statistics(a)[0] && lines[n - 2] == Statistics(a)[1] && lines[n - 1] == Statistics(a)[2];
    JoinEndsWithLast3("\n", lines);
    StatisticsText(a);
    Join("\n", lines)
  }

  lemma StatisticsText(a: Analysis)
    ensures var st := Statistics(a);
      st[0] + "\n" + st[1] + "\n" + st[2]
      == "## Statistics\n- Files: " + NatToString(|a.files|)
         + "\n- Lines: +" + NatToString(a.added) + "/-" + NatToString(a.deleted)
  {
  }

  /** Joining lines ends with the join of the last three. */
  lemma JoinEndsWithLast3(sep: string, lines: seq<string>)
    requires |lines| >= 3
    ensures EndsWith(Join(sep, lines), lines[|lines| - 3] + sep + lines[|lines| - 2] + sep + lines[|lines| - 1])
  {
    var n := |lines|;
    var last := lines[n - 3..];
    assert Join(sep, last) == lines[n - 3] + sep + lines[n - 2] + sep + lines[n - 1] by {
      assert last[1..][1..] == [lines[n - 1]];
    }
    if n > 3 {
      assert lines == lines[..n - 3] + last;
      JoinAppend(sep, lines[..n - 3], last);
    } else {
      assert lines == last;
    }
  }

  // ---------------------------------------------------------------- changelog

  /** `type_to_section`: Keep a Changelog 1.0.0 section names. */
  function SectionFor(commitType: string): (section: string)
    ensures section in {"Added", "Fixed", "Changed"}
    ensures section == "Added" <==> commitType == "feat"
    ensures section == "Fixed" <==> commitType == "fix"
  {
    var m := map["feat" := "Added", "fix" := "Fixed", "docs" := "Changed", "refactor" := "Changed",
                 "perf" := "Changed", "test" := "Changed", "build" := "Changed", "chore" := "Changed",
                 "style" := "Changed"];
    if commitType in m then m[commitType] else "Changed"
  }

  /** The `git.changelog` settings; the defaults are `true` and 5. */
  datatype ChangelogConfig = ChangelogConfig(includeEntities: bool, maxEntities: int)

  datatype ChangelogEntry = ChangelogEntry(
    section: string, domain: string, commitType: string, message: string,
    entities: seq<string>, commitHash: Option<string>, entityDetails: Option<seq<string>>)

  /** `generate_changelog_entry`. */
  function GenerateChangelogEntry(a: Analysis, commitHash: Option<string>, cc: ChangelogConfig): (e: ChangelogEntry)
    ensures e.section == SectionFor(a.commitType)
    ensures e.message == TitlePrefix(a) + a.benefit
    ensures |e.entities| == Min(5, |a.entities|) && e.entities <= a.entities
    ensures e.entityDetails.Some? <==> cc.includeEntities && a.entities != []
    ensures e.entityDetails.Some? ==> e.entityDetails.value <= a.entities
    ensures e.entityDetails.Some? && cc.maxEntities >= 0 ==> |e.entityDetails.value| == Min(cc.maxEntities, |a.entities|)
    ensures e.entityDetails.Some? && cc.maxEntities < 0 ==> |e.entityDetails.value| == Max(0, |a.entities| + cc.maxEntities)
  {
    ChangelogEntry(SectionFor(a.commitType), a.primaryDomain, a.commitType, TitlePrefix(a) + a.benefit,
                   Take(a.entities, 5), commitHash,
                   if cc.includeEntities && a.entities != [] then Some(PySliceTo(a.entities, cc.maxEntities)) else None)
  }

  function Backticked(xs: seq<string>): (r: seq<string>)
    ensures |r| == |xs| && forall k :: 0 <= k < |xs| ==> r[k] == "`" + xs[k] + "`"
  {
    seq(|xs|, k requires 0 <= k < |xs| => "`" + xs[k] + "`")
  }

  /** The commit link after an entry's message: the first seven characters of
      the hash as the label, the whole hash in the target. */
  function LinkSuffix(h: string): (r: string)
    ensures EndsWith(r, "))")
  {
    LinkLabel(h) + "/" + h + "))"
  }

  /** The link up to the `/` before the hash. */
  function LinkLabel(h: string): string {
    " ([" + Take(h, 7) + "](commit"
  }

  /** The hash an entry links to: only a non-empty one is written. */
  function LinkedHash(e: ChangelogEntry): Option<string> {
    if e.commitHash.Some? && e.commitHash.value != "" then e.commitHash else None
  }

  /** The entity names an entry lists on its `Added:` line. */
  function ListedDetails(e: ChangelogEntry): seq<string> {
    if e.entityDetails.Some? then e.entityDetails.value else []
  }

  /** The first line of a formatted entry: the message, and a link labelled
      with the first seven characters of the hash when there is one. */
  function EntryLine(e: ChangelogEntry): (line: string)
    ensures StartsWith(line, "- " + e.message)
    ensures line == "- " + e.message + (if LinkedHash(e).Some? then LinkSuffix(LinkedHash(e).value) else "")
  {
    match e.commitHash
    case Some(h) =>
      if h != "" then "- " + e.message + LinkSuffix(h) else "- " + e.message
    case None => "- " + e.message
  }

  /** `format_changelog_entry`. */
  function FormatChangelogEntry(e: ChangelogEntry): (r: string)
    ensures StartsWith(r, EntryLine(e))
    ensures ListedDetails(e) == [] ==> r == EntryLine(e)
    ensures ListedDetails(e) != [] ==>
      r == EntryLine(e) + "\n" + AddedLine(ListedDetails(e))
  {
    if e.entityDetails.Some? && e.entityDetails.value != [] then
      EntryLine(e) + "\n" + AddedLine(e.entityDetails.value)
    else EntryLine(e)
  }

  /** The second line of an entry with entity details. */
  function AddedLine(ds: seq<string>): string {
    "  - Added: " + Join(", ", Backticked(ds))
  }

  // ------------------------------------------------- reading an entry back

  /** Reads the backticked, comma-separated names of an `Added:` line. */
  function ReadTicked(t: string): Option<seq<string>>
    decreases |t|
  {
    if t == "" || t[0] != '`' then None
    else
      var split := SplitFirst(t[1..], '`');
      if split.1.None? then None
      else
        var after := split.1.value;
        if after == "" then Some([split.0])
        else if StartsWith(after, ", ") then
          match ReadTicked(after[2..])
          case Some(names) => Some([split.0] + names)
          case None => None
        else None
  }

  /** Reads the message and the linked hash back from an entry's first line:
      a link is taken off the end when the text after its last `/` is a
      hash whose link ends the line. */
  function ReadEntryLine(line: string): Option<(string, Option<string>)> {
    if !StartsWith(line, "- ") then None
    else
      var body := line[2..];
      if !EndsWith(body, "))") then Some((body, None))
      else
        var h := LastAfter(body[..|body| - 2], '/');
        var link := LinkSuffix(h);
        if h != "" && EndsWith(body, link) then Some((body[..|body| - |link|], Some(h)))
        else Some((body, None))
  }

  /** Reads a whole formatted entry back: its message, linked hash and
      listed entity names. */
  function ReadChangelogEntry(r: string): Option<(string, Option<string>, seq<string>)> {
    var split := SplitFirst(r, '\n');
    match ReadEntryLine(split.0)
    case None => None
    case Some(first) =>
      if split.1.None? then Some((first.0, first.1, []))
      else if StartsWith(split.1.value, "  - Added: ") then
        match ReadTicked(split.1.value[11..])
        case Some(ds) => Some((first.0, first.1, ds))
        case None => None
      else None
  }

  /** The names of an `Added:` line read back, when none holds a backtick. */
  lemma {:induction false} ReadTickedJoin(ds: seq<string>)
    requires ds != [] && forall k :: 0 <= k < |ds| ==> '`' !in ds[k]
    ensures ReadTicked(Join(", ", Backticked(ds))) == Some(ds)
    decreases |ds|
  {
    var t := Join(", ", Backticked(ds));
    var d := ds[0];
    if |ds| == 1 {
      assert t == "`" + d + "`";
      assert t[1..] == d + ['`'] + "";
      SplitFirstAt(d, "", '`');
      assert t[0] == '`' && SplitFirst(t[1..], '`') == (d, Some(""));
      assert ds == [d];
    } else {
      var rest := Join(", ", Backticked(ds[1..]));
      assert Backticked(ds)[1..] == Backticked(ds[1..]);
      assert t == "`" + d + "`" + ", " + rest;
      assert t[1..] == d + ['`'] + (", " + rest);
      SplitFirstAt(d, ", " + rest, '`');
      assert (", " + rest)[2..] == rest;
      ReadTickedJoin(ds[1..]);
      assert [d] + ds[1..] == ds;
    }
  }

  /** The first line gives back the message and the linked hash, when the
      message does not end in `)` and the hash holds no `/`. */
  lemma EntryLineReadBack(e: ChangelogEntry)
    requires e.message == "" || e.message[|e.message| - 1] != ')'
    requires e.commitHash.Some? ==> '/' !in e.commitHash.value
    ensures ReadEntryLine(EntryLine(e)) == Some((e.message, LinkedHash(e)))
  {
    if LinkedHash(e).Some? {
      ReadLinkedLine(e.message, LinkedHash(e).value);
    } else {
      ReadPlainLine(e.message);
    }
  }

  lemma ReadLinkedLine(m: string, h: string)
    requires h != "" && '/' !in h
    ensures ReadEntryLine("- " + m + LinkSuffix(h)) == Some((m, Some(h)))
  {
    var link := LinkSuffix(h);
    var line := "- " + m + link;
    assert StartsWith(line, "- ") && line[2..] == m + link;
    BodyEnds(m, link);
    BodyHash(m, h);
  }

  lemma BodyEnds(m: string, link: string)
    requires EndsWith(link, "))")
    ensures var body := m + link;
      EndsWith(body, "))") && EndsWith(body, link) && body[..|body| - |link|] == m
  {
    var body := m + link;
    assert body[|body| - 2..] == link[|link| - 2..];
  }

  lemma BodyHash(m: string, h: string)
    requires '/' !in h
    ensures var body := m + LinkSuffix(h); LastAfter(body[..|body| - 2], '/') == h
  {
    var body := m + LinkSuffix(h);
    var front := m + LinkLabel(h);
    var x := front + ['/'] + h;
    assert body == x + "))";
    assert body[..|body| - 2] == x;
    LastAfterOf(front, h, '/');
  }

  lemma ReadPlainLine(m: string)
    requires m == "" || m[|m| - 1] != ')'
    ensures ReadEntryLine("- " + m) == Some((m, None))
  {
    var line := "- " + m;
    assert line[2..] == m;
    assert !EndsWith(m, "))") by {
      if |m| >= 2 { assert m[|m| - 2..][1] == m[|m| - 1]; }
    }
  }

  /** A formatted entry reads back as its message, its linked hash (labelled
      with its first seven characters) and its listed entity names: the
      message holds no line break and does not end in `)`, the hash holds
      no `/` or line break, and no entity name holds a backtick. */
  lemma ChangelogEntryReadBack(e: ChangelogEntry)
    requires '\n' !in e.message && (e.message == "" || e.message[|e.message| - 1] != ')')
    requires e.commitHash.Some? ==> '/' !in e.commitHash.value && '\n' !in e.commitHash.value
    requires forall k :: 0 <= k < |ListedDetails(e)| ==> '`' !in ListedDetails(e)[k]
    ensures ReadChangelogEntry(FormatChangelogEntry(e)) == Some((e.message, LinkedHash(e), ListedDetails(e)))
  {
    var line := EntryLine(e);
    EntryLineReadBack(e);
    LineHasNoBreak(e);
    var ds := ListedDetails(e);
    if ds == [] {
      SplitFirstNone(line, '\n');
    } else {
      var added := AddedLine(ds);
      SplitFirstAt(line, added, '\n');
      assert added[11..] == Join(", ", Backticked(ds));
      ReadTickedJoin(ds);
    }
  }

  lemma LineHasNoBreak(e: ChangelogEntry)
    requires '\n' !in e.message
    requires e.commitHash.Some? ==> '\n' !in e.commitHash.value
    ensures '\n' !in EntryLine(e)
  {
    var head := "- " + e.message;
    NoBreakAppend("- ", e.message);
    if LinkedHash(e).Some? {
      var h := LinkedHash(e).value;
      var t := Take(h, 7);
      assert '\n' !in t by {
        assert forall k :: 0 <= k < |t| ==> t[k] == h[k];
      }
      NoBreakAppend(" ([", t);
      NoBreakAppend(" ([" + t, "](commit");
      NoBreakAppend(LinkLabel(h), "/");
      NoBreakAppend(LinkLabel(h) + "/", h);
      NoBreakAppend(LinkLabel(h) + "/" + h, "))");
      NoBreakAppend(head, LinkSuffix(h));
    }
  }

  lemma NoBreakAppend(a: string, b: string)
    requires '\n' !in a && '\n' !in b
    ensures '\n' !in a + b
  {
    assert multiset(a + b) == multiset(a) + multiset(b);
  }

  /** A generated entry formats to a line that leads with the conventional
      title and links a hash label of at most seven characters. */
  lemma ChangelogLine(a: Analysis, h: string, cc: ChangelogConfig)
    requires h != ""
    ensures var r := FormatChangelogEntry(GenerateChangelogEntry(a, Some(h), cc));
      StartsWith(r, "- " + TitlePrefix(a) + a.benefit + LinkSuffix(h))
      && |Take(h, 7)| <= 7 && Take(h, 7) <= h
  {
    var e := GenerateChangelogEntry(a, Some(h), cc);
    assert LinkedHash(e) == Some(h);
    assert EntryLine(e) == "- " + (TitlePrefix(a) + a.benefit) + LinkSuffix(h);
  }

  /** The entry generated for a commit reads back as its conventional title,
      the commit's hash and the first `max_entities_per_entry` entities (none
      when entities are switched off). */
  lemma GeneratedEntryReadBack(a: Analysis, h: string, cc: ChangelogConfig)
    requires var m := TitlePrefix(a) + a.benefit; '\n' !in m && (m == "" || m[|m| - 1] != ')')
    requires h != "" && '/' !in h && '\n' !in h
    requires forall k :: 0 <= k < |a.entities| ==> '`' !in a.entities[k]
    ensures ReadChangelogEntry(FormatChangelogEntry(GenerateChangelogEntry(a, Some(h), cc)))
      == Some((TitlePrefix(a) + a.benefit, Some(h),
               if cc.includeEntities then PySliceTo(a.entities, cc.maxEntities) else []))
  {
    var e := GenerateChangelogEntry(a, Some(h), cc);
    var ds := ListedDetails(e);
    assert forall k :: 0 <= k < |ds| ==> ds[k] == a.entities[k];
    ChangelogEntryReadBack(e);
  }
}
