/** The project doctor: per-ecosystem diagnostics over a project's manifest
    files, the `pyproject.toml` rewrites it applies when auto-fixing, the
    report it returns, and the TODO.md ticket list it maintains.

    The file system is a parameter: a map from file name (relative to the
    project directory) to its text, plus the directory listing order that
    globbing sees. The JSON parser is a parameter too. Every regular
    expression the diagnostics use is written out as a recogniser over the
    text that follows the position where the expression is tried. */
module ProjectDoctor {
  import opened Wrappers
  import opened Strings
  import opened Seqs
  import opened Patterns
  import opened Scanning
  import Config

  type Json = Config.Value

  // ------------------------------------------------------------- report model

  /** One diagnosed problem. `fixed` and `fixDescription` are set once the
      doctor has repaired it. */
  datatype Issue = Issue(severity: string, code: string, title: string, detail: string,
                         file: Option<string>, fixed: bool, fixDescription: string)

  /** A freshly diagnosed, not yet fixed issue. */
  function Found(severity: string, code: string, title: string, detail: string, file: Option<string>): (i: Issue)
    ensures !i.fixed && i.severity == severity && i.code == code
  {
    Issue(severity, code, title, detail, file, false, "")
  }

  /** The issue marked as repaired, with the repair described. */
  function Repaired(i: Issue, description: string): (r: Issue)
    ensures r.fixed && r.code == i.code && r.severity == i.severity
  {
    i.(fixed := true, fixDescription := description)
  }

  datatype DoctorReport = DoctorReport(projectDir: string, projectType: string, issues: seq<Issue>)

  function IsError(i: Issue): bool { i.severity == "error" }
  function IsWarning(i: Issue): bool { i.severity == "warning" }
  function IsFixed(i: Issue): bool { i.fixed }

  /** `DoctorReport.errors`: the issues of severity `error`, in report order. */
  function Errors(report: DoctorReport): (r: seq<Issue>)
    ensures IsSubseq(r, report.issues)
    ensures forall i :: i in r <==> i in report.issues && i.severity == "error"
  {
    FilterIsSubseq(report.issues, IsError);
    FilterMembers(report.issues, IsError);
    Filter(report.issues, IsError)
  }

  /** `DoctorReport.warnings`: the issues of severity `warning`, in report order. */
  function Warnings(report: DoctorReport): (r: seq<Issue>)
    ensures IsSubseq(r, report.issues)
    ensures forall i :: i in r <==> i in report.issues && i.severity == "warning"
  {
    FilterIsSubseq(report.issues, IsWarning);
    FilterMembers(report.issues, IsWarning);
    Filter(report.issues, IsWarning)
  }

  /** `DoctorReport.fixed`: the repaired issues, in report order. */
  function FixedIssues(report: DoctorReport): (r: seq<Issue>)
    ensures IsSubseq(r, report.issues)
    ensures forall i :: i in r <==> i in report.issues && i.fixed
  {
    FilterIsSubseq(report.issues, IsFixed);
    FilterMembers(report.issues, IsFixed);
    Filter(report.issues, IsFixed)
  }

  /** `DoctorReport.has_problems`: some issue is an error or a warning. */
  predicate HasProblems(report: DoctorReport) {
    exists k :: 0 <= k < |report.issues| && report.issues[k].severity in ["error", "warning"]
  }

  /** A report has problems exactly when its error or warning list is non-empty. */
  lemma HasProblemsIffListed(report: DoctorReport)
    ensures HasProblems(report) <==> Errors(report) != [] || Warnings(report) != []
  {
    var es, ws := Errors(report), Warnings(report);
    if HasProblems(report) {
      var k :| 0 <= k < |report.issues| && report.issues[k].severity in ["error", "warning"];
      var i := report.issues[k];
      assert i in es || i in ws;
    }
    if es != [] {
      assert es[0] in report.issues;
      var k :| 0 <= k < |report.issues| && report.issues[k] == es[0];
      assert report.issues[k].severity in ["error", "warning"];
    } else if ws != [] {
      assert ws[0] in report.issues;
      var k :| 0 <= k < |report.issues| && report.issues[k] == ws[0];
      assert report.issues[k].severity in ["error", "warning"];
    }
  }

  // ------------------------------------------------------- text recognisers

  /** The length of the whitespace run that opens `t` (regular-expression `\s*`). */
  function SpaceLen(t: string): (n: nat)
    ensures n <= |t| && (n < |t| ==> !IsSpace(t[n]))
    ensures forall k :: 0 <= k < n ==> IsSpace(t[k])
    decreases |t|
  {
    if t != "" && IsSpace(t[0]) then 1 + SpaceLen(t[1..]) else 0
  }

  /** The whitespace run before a literal that does not begin with
      whitespace: `\s*w` then matches where `w` follows the run. */
  function AfterSpace(t: string): (u: string)
    ensures |u| <= |t| && u == t[|t| - |u|..]
  {
    t[SpaceLen(t)..]
  }

  // ------------------------------------------------------------------- PY001

  /** The Python project files the diagnostics look at. */
  datatype PythonFiles = PythonFiles(pyproject: Option<string>, setupPy: bool, setupCfg: bool, requirements: bool)

  const MissingPyproject: Issue := Found("warning", "PY001",
    "No pyproject.toml / setup.py / setup.cfg found",
    "Only requirements.txt exists. Consider adding pyproject.toml for proper packaging.", None)

  /** One diagnostic step over the pyproject text: the issues it reports and
      the text after its repair. */
  datatype Step = Step(issues: seq<Issue>, content: string)

  // ------------------------------------------------------------------- PY002

  const BuildSystemHeader := "[build-system]"
  const BuildSystemBlock := BuildSystemHeader + "\nrequires = [\"setuptools>=61.0\", \"wheel\"]\nbuild-backend = \"setuptools.build_meta\"\n\n"

  const MissingBuildSystem: Issue := Found("error", "PY002", "Missing [build-system] in pyproject.toml",
    "pyproject.toml has no [build-system] section.\npip and build tools need this to know how to build your package.\nAdding a default setuptools build-system.",
    Some("pyproject.toml"))

  const BuildSystemFix := "Added [build-system] section with setuptools backend"

  /** PY002: a pyproject without `[build-system]` is one error; the repair
      prepends a setuptools build-system table. */
  function CheckBuildSystem(content: string, autoFix: bool): (r: Step)
    ensures |r.issues| == if Contains(content, BuildSystemHeader) then 0 else 1
    ensures forall i :: i in r.issues ==> i.severity == "error" && i.code == "PY002" && i.fixed == autoFix
    ensures !autoFix ==> r.content == content
    ensures autoFix ==> Contains(r.content, BuildSystemHeader)
    ensures r.content == if autoFix && !Contains(content, BuildSystemHeader) then BuildSystemBlock + content else content
  {
    if Contains(content, BuildSystemHeader) then Step([], content)
    else
      if autoFix then
        BlockHasHeader(content);
        Step([Repaired(MissingBuildSystem, BuildSystemFix)], BuildSystemBlock + content)
      else Step([MissingBuildSystem], content)
  }

  lemma BlockHasHeader(content: string)
    ensures Contains(BuildSystemBlock + content, BuildSystemHeader)
  {
    var tail := BuildSystemBlock[|BuildSystemHeader|..] + content;
    var s := BuildSystemHeader + tail;
    assert s == BuildSystemBlock + content;
    assert s[0..|BuildSystemHeader|] == BuildSystemHeader;
    ContainsAt(s, BuildSystemHeader, 0);
  }

  // ------------------------------------------------------------------- PY003

  /** `\s*w1\s*w2...` at the start of `t`, for words that do not begin with
      whitespace: where the match ends. Each `\s*` stops at the first
      character that is not whitespace, so the match, when there is one, is
      unique. */
  function SpacedWords(t: string, words: seq<string>): (r: Option<nat>)
    ensures r.Some? ==> r.value <= |t|
    decreases |words|
  {
    if words == [] then Some(0)
    else
      var a := SpaceLen(t);
      if !(words[0] <= t[a..]) then None
      else match SpacedWords(t[a + |words[0]|..], words[1..])
        case None => None
        case Some(n) => Some(a + |words[0]| + n)
  }

  const LicenseWords := ["\"License", "::", "OSI Approved", "::"]

  /** `\s*"License\s*::\s*OSI Approved\s*::\s*[^"]*"` tried at the start of
      `t`: the length of the match, which ends at the first quote after the
      last `::`. */
  function LicenseClassifierLen(t: string): (r: Option<nat>)
    ensures r.Some? ==> 0 < r.value <= |t| && t[r.value - 1] == '"'
  {
    match SpacedWords(t, LicenseWords)
    case None => None
    case Some(d) =>
      var q := d + CharPos(t[d..], '"');
      if q == |t| then None else Some(q + 1)
  }

  /** `LICENSE_CLASSIFIERS_RE.findall(content)`. */
  function LicenseClassifiers(content: string): seq<string> {
    assert Advances(LicenseClassifierLen);
    FindAllLines(content, 0, LicenseClassifierLen)
  }

  /** `c.strip().strip('"').strip(',')`, as the PY003 detail lists a classifier. */
  function ClassifierName(c: string): string {
    StripChar(StripChar(Strip(c), '"'), ',')
  }

  function ClassifierNames(cs: seq<string>): (r: seq<string>)
    ensures |r| == |cs|
  {
    seq(|cs|, k requires 0 <= k < |cs| => ClassifierName(cs[k]))
  }

  /** The line PY003's repair drops: once stripped of whitespace and commas it
      starts with a quoted `License :: OSI Approved` classifier. */
  predicate IsLicenseLine(line: string) {
    var stripped := Strip(StripChar(Strip(line), ','));
    "\"License :: OSI Approved" <= stripped || "'License :: OSI Approved" <= stripped
  }

  function KeepLine(line: string): bool { !IsLicenseLine(line) }

  /** The index just past the first line break of `s` (a `\r\n` pair counts
      as one), or `|s|` when there is none. */
  function LineEnd(s: string): (n: nat)
    requires s != ""
    ensures 0 < n <= |s|
  {
    var k := LineLength(s);
    if k == |s| then |s|
    else if s[k] == '\r' && k + 1 < |s| && s[k + 1] == '\n' then k + 2
    else k + 1
  }

  /** `s.splitlines(keepends=True)`: the lines with their breaks, which put
      back together give `s` again. */
  function LinesWithEnds(s: string): (r: seq<string>)
    ensures Flatten(r) == s
    ensures forall k :: 0 <= k < |r| ==> r[k] != ""
    decreases |s|
  {
    if s == "" then []
    else
      var n := LineEnd(s);
      var rest := LinesWithEnds(s[n..]);
      assert ([s[..n]] + rest)[1..] == rest;
      assert s[..n] + s[n..] == s;
      [s[..n]] + rest
  }

  /** PY003's repair: every line that is not a licence-classifier line, in order. */
  function DropLicenseLines(content: string): string {
    Flatten(Filter(LinesWithEnds(content), KeepLine))
  }

  /** The repair keeps exactly the lines that are not licence-classifier
      lines, in their order, and leaves a text without such lines alone. */
  lemma DropLicenseLinesFacts(content: string)
    ensures var lines := LinesWithEnds(content);
      var kept := Filter(lines, KeepLine);
      DropLicenseLines(content) == Flatten(kept)
      && IsSubseq(kept, lines)
      && (forall l :: l in kept <==> l in lines && !IsLicenseLine(l))
      && ((forall k :: 0 <= k < |lines| ==> !IsLicenseLine(lines[k])) ==> DropLicenseLines(content) == content)
  {
    var lines := LinesWithEnds(content);
    FilterIsSubseq(lines, KeepLine);
    FilterMembers(lines, KeepLine);
    if forall k :: 0 <= k < |lines| ==> !IsLicenseLine(lines[k]) {
      FilterAll(lines, KeepLine);
    }
  }

  const LicenseDetailHead := "PEP 639 (adopted in newer setuptools) supersedes license classifiers\nwith the license field. Newer setuptools will REFUSE to build if both\na license expression and a License :: classifier are present.\nFound: "

  function LicenseClassifierIssue(found: seq<string>): (i: Issue)
    ensures i.severity == "error" && i.code == "PY003" && !i.fixed
  {
    Found("error", "PY003", "Deprecated license classifier in pyproject.toml",
      LicenseDetailHead + Join(", ", ClassifierNames(found)), Some("pyproject.toml"))
  }

  const LicenseClassifierFix := "Removed deprecated License :: classifier(s) from classifiers list"

  /** PY003: deprecated licence classifiers are one error; the repair drops
      the classifier lines. */
  function CheckLicenseClassifiers(content: string, autoFix: bool): (r: Step)
    ensures |r.issues| == if LicenseClassifiers(content) == [] then 0 else 1
    ensures forall i :: i in r.issues ==> i.severity == "error" && i.code == "PY003" && i.fixed == autoFix
    ensures r.content == if autoFix && r.issues != [] then DropLicenseLines(content) else content
  {
    var found := LicenseClassifiers(content);
    if found == [] then Step([], content)
    else
      var issue := LicenseClassifierIssue(found);
      if autoFix then Step([Repaired(issue, LicenseClassifierFix)], DropLicenseLines(content))
      else Step([issue], content)
  }

  // ------------------------------------------------------------------- PY004

  const DeprecatedBackends: seq<string> := ["setuptools.backends._legacy"]
  const StandardBackend := "setuptools.build_meta"

  function BrokenBackendIssue(backend: string): (i: Issue)
    ensures i.severity == "error" && i.code == "PY004" && !i.fixed
  {
    Found("error", "PY004", "Broken build backend: " + backend,
      "Build backend \"" + backend + "\" is not supported by current pip/setuptools.\nReplacing with the standard \"setuptools.build_meta\".",
      Some("pyproject.toml"))
  }

  function BrokenBackendFix(backend: string): string {
    "Replaced \"" + backend + "\" with \"setuptools.build_meta\""
  }

  /** PY004 for one backend name: its presence is one error; the repair
      replaces every occurrence with the standard backend. */
  function CheckBackend(content: string, backend: string, autoFix: bool): (r: Step)
    requires backend != ""
    ensures |r.issues| == if Contains(content, backend) then 1 else 0
    ensures forall i :: i in r.issues ==> i.severity == "error" && i.code == "PY004" && i.fixed == autoFix
    ensures r.content == if autoFix then Replace(content, backend, StandardBackend) else content
  {
    if !Contains(content, backend) then Step([], content)
    else
      var issue := BrokenBackendIssue(backend);
      if autoFix then Step([Repaired(issue, BrokenBackendFix(backend))], Replace(content, backend, StandardBackend))
      else Step([issue], content)
  }

  /** `s.split(pat)`: the pieces between the leftmost non-overlapping
      occurrences of `pat`. */
  function SplitOn(s: string, pat: string): (r: seq<string>)
    requires pat != ""
    ensures |r| > 0
    decreases |s|
  {
    if s == "" then [""]
    else if pat <= s then [""] + SplitOn(s[|pat|..], pat)
    else
      var rest := SplitOn(s[1..], pat);
      [[s[0]] + rest[0]] + rest[1..]
  }

  /** Putting a character in front of the first part puts it in front of the join. */
  lemma JoinConsFirst(sep: string, c: char, parts: seq<string>)
    requires |parts| > 0
    ensures Join(sep, [[c] + parts[0]] + parts[1..]) == [c] + Join(sep, parts)
  {
    var q := [[c] + parts[0]] + parts[1..];
    assert q[1..] == parts[1..];
  }

  /** Joining the pieces with the pattern gives the text back. */
  lemma {:induction false} SplitOnJoin(s: string, pat: string)
    requires pat != ""
    ensures Join(pat, SplitOn(s, pat)) == s
    decreases |s|
  {
    if s != "" {
      if pat <= s {
        SplitOnJoin(s[|pat|..], pat);
        SplitOnJoinAtPattern(s, pat);
      } else {
        SplitOnJoin(s[1..], pat);
        SplitOnJoinAtChar(s, pat);
      }
    }
  }

  lemma SplitOnJoinAtPattern(s: string, pat: string)
    requires pat != "" && s != "" && pat <= s
    requires Join(pat, SplitOn(s[|pat|..], pat)) == s[|pat|..]
    ensures Join(pat, SplitOn(s, pat)) == s
  {
    var rest := s[|pat|..];
    assert SplitOn(s, pat) == [""] + SplitOn(rest, pat);
    JoinConsEmpty(pat, SplitOn(rest, pat));
    assert s == pat + rest;
  }

  lemma SplitOnJoinAtChar(s: string, pat: string)
    requires pat != "" && s != "" && !(pat <= s)
    requires Join(pat, SplitOn(s[1..], pat)) == s[1..]
    ensures Join(pat, SplitOn(s, pat)) == s
  {
    var parts := SplitOn(s[1..], pat);
    assert SplitOn(s, pat) == [[s[0]] + parts[0]] + parts[1..];
    JoinConsFirst(pat, s[0], parts);
    assert s == [s[0]] + s[1..];
  }

  /** An empty first part puts the separator in front of the join. */
  lemma JoinConsEmpty(sep: string, parts: seq<string>)
    requires |parts| > 0
    ensures Join(sep, [""] + parts) == sep + Join(sep, parts)
  {
    var q := [""] + parts;
    assert q[1..] == parts;
  }

  /** `s.replace(pat, repl)` is `repl.join(s.split(pat))`: every occurrence
      is replaced and the text between occurrences is kept. */
  lemma {:induction false} ReplaceSplitOn(s: string, pat: string, repl: string)
    requires pat != ""
    ensures Replace(s, pat, repl) == Join(repl, SplitOn(s, pat))
    decreases |s|
  {
    if s != "" {
      if pat <= s {
        ReplaceSplitOn(s[|pat|..], pat, repl);
        var q := [""] + SplitOn(s[|pat|..], pat);
        assert q[1..] == SplitOn(s[|pat|..], pat);
      } else {
        ReplaceSplitOn(s[1..], pat, repl);
        JoinConsFirst(repl, s[0], SplitOn(s[1..], pat));
      }
    }
  }

  /** No piece holds the pattern. */
  lemma {:induction false} SplitOnClean(s: string, pat: string)
    requires pat != ""
    ensures forall k :: 0 <= k < |SplitOn(s, pat)| ==> !Contains(SplitOn(s, pat)[k], pat)
    decreases |s|
  {
    var r := SplitOn(s, pat);
    if s == "" {
      assert !Contains("", pat) by { if pat <= "" {} }
    } else if pat <= s {
      SplitOnClean(s[|pat|..], pat);
      assert r[1..] == SplitOn(s[|pat|..], pat);
      assert !Contains("", pat) by { if pat <= "" {} }
      forall k | 1 <= k < |r| ensures !Contains(r[k], pat) { assert r[k] == r[1..][k - 1]; }
    } else {
      var rest := SplitOn(s[1..], pat);
      SplitOnClean(s[1..], pat);
      SplitOnJoin(s[1..], pat);
      JoinFirst(pat, rest);
      assert rest[0] <= s[1..];
      PrefixPieceClean(s, pat, rest[0]);
      forall k | 1 <= k < |r| ensures !Contains(r[k], pat) { assert r[k] == rest[k]; }
    }
  }

  /** A join is its first part followed by the rest. */
  lemma JoinFirst(sep: string, parts: seq<string>)
    requires |parts| > 0
    ensures Join(sep, parts) == parts[0] + (if |parts| == 1 then "" else sep + Join(sep, parts[1..]))
  {
  }

  /** A piece that is the first character of `s` followed by a prefix of
      `s[1..]` without the pattern has no occurrence either, when `s` does
      not start with the pattern. */
  lemma PrefixPieceClean(s: string, pat: string, w: string)
    requires s != "" && pat != "" && !(pat <= s) && w <= s[1..] && !Contains(w, pat)
    ensures !Contains([s[0]] + w, pat)
  {
    var x := [s[0]] + w;
    assert x[1..] == w;
    assert x <= s by {
      forall k | 0 <= k < |x| ensures x[k] == s[k] {
        if k > 0 { assert x[k] == w[k - 1]; }
      }
    }
    if pat <= x {
      assert false;
    }
  }

  // ------------------------------------------------------------------- PY005

  /** `license\s*=\s*` at the start of `t`: the length it covers. */
  function LicenseKeyLen(t: string): (r: Option<nat>)
    ensures r.Some? ==> 7 < r.value <= |t|
  {
    if !("license" <= t) then None
    else
      var a := 7 + SpaceLen(t[7..]);
      if a == |t| || t[a] != '=' then None
      else Some(a + 1 + SpaceLen(t[a + 1..]))
  }

  /** `"([^"]+)"` at the start of `t`: the end of the value (the index of its
      closing quote), when the value is non-empty. */
  function QuotedEnd(t: string): (r: Option<nat>)
    ensures r.Some? ==> 1 < r.value < |t| && t[r.value] == '"' && t[0] == '"'
    ensures r.Some? ==> forall k :: 1 <= k < r.value ==> t[k] != '"'
  {
    if t == "" || t[0] != '"' then None
    else
      var v := 1 + CharPos(t[1..], '"');
      if v == |t| || v == 1 then None else Some(v)
  }

  /** `"[^"]*"` at the start of `t`: the index of the closing quote; the
      value may be empty. */
  function QuotedAny(t: string): (r: Option<nat>)
    ensures r.Some? ==> 1 <= r.value < |t| && t[r.value] == '"' && t[0] == '"'
    ensures r.Some? ==> forall k :: 1 <= k < r.value ==> t[k] != '"'
  {
    if t == "" || t[0] != '"' then None
    else
      var v := 1 + CharPos(t[1..], '"');
      if v == |t| then None else Some(v)
  }

  /** `"[^"]*"` when `empty` holds, else `"[^"]+"`. */
  function Quoted(t: string, empty: bool): (r: Option<nat>)
    ensures r.Some? ==> 1 <= r.value < |t| && t[r.value] == '"' && t[0] == '"'
    ensures r.Some? && !empty ==> 1 < r.value
    ensures r.Some? ==> forall k :: 1 <= k < r.value ==> t[k] != '"'
  {
    if empty then QuotedAny(t) else QuotedEnd(t)
  }

  /** Every match of `"[^"]+"` is a match of `"[^"]*"`, of the same length. */
  lemma QuotedWidens(t: string)
    ensures Quoted(t, false).Some? ==> Quoted(t, true) == Quoted(t, false)
  {
  }

  /** `^license\s*=\s*\{`: the length of the match at the start of `t`. */
  function LicenseTableOpenLen(t: string): (r: Option<nat>)
    ensures r.Some? ==> 0 < r.value <= |t|
  {
    match LicenseKeyLen(t)
    case None => None
    case Some(k) => if k < |t| && t[k] == '{' then Some(k + 1) else None
  }

  /** `^license\s*=\s*"([^"]+)"`: the length of the match at the start of `t`. */
  function LicenseStringLen(t: string): (r: Option<nat>)
    ensures r.Some? ==> 0 < r.value <= |t|
  {
    match LicenseKeyLen(t)
    case None => None
    case Some(k) =>
      match QuotedEnd(t[k..])
      case None => None
      case Some(v) => Some(k + v + 1)
  }

  /** A match of the table expression, relative to where it starts: the
      value's bounds and the length of the whole match. */
  datatype TableMatch = TableMatch(valueStart: nat, valueEnd: nat, len: nat)

  /** `text\s*=\s*"([^"]+)"[^}]*\}` at the start of `t`, or with `[^"]*`
      when `empty` holds. */
  function TextEntry(t: string, empty: bool): (r: Option<TableMatch>)
    ensures r.Some? ==> 0 < r.value.valueStart <= r.value.valueEnd < r.value.len <= |t|
    ensures r.Some? && !empty ==> r.value.valueStart < r.value.valueEnd
  {
    match TextValueAt(t)
    case None => None
    case Some(u) => TextEntryFrom(t, u, Quoted(t[u..], empty))
  }

  /** `text\s*=\s*` at the start of `t`: where the quoted value starts. */
  function TextValueAt(t: string): (r: Option<nat>)
    ensures r.Some? ==> 4 < r.value <= |t|
  {
    if !("text" <= t) then None
    else
      var a := 4 + SpaceLen(t[4..]);
      if a == |t| || t[a] != '=' then None
      else Some(a + 1 + SpaceLen(t[a + 1..]))
  }

  /** The rest of a text entry once the quoted value at `u` ends at `u + v`:
      `[^}]*\}`. */
  function TextEntryFrom(t: string, u: nat, q: Option<nat>): (r: Option<TableMatch>)
    requires u <= |t| && (q.Some? ==> 1 <= q.value < |t| - u)
    ensures r.Some? ==> (q.Some? && r.value.valueStart == u + 1
      && r.value.valueEnd == u + q.value && r.value.valueEnd < r.value.len <= |t|)
  {
    match q
    case None => None
    case Some(v) =>
      var e := u + v + 1 + CharPos(t[u + v + 1..], '}');
      if e == |t| then None else Some(TableMatch(u + 1, u + v, e + 1))
  }

  /** The greedy `[^}]*` before `text`: the last position in `lo..t` where
      the rest of the expression matches, tried from `t` downwards. */
  function LastTextEntry(s: string, lo: nat, t: nat, empty: bool): (r: Option<TableMatch>)
    requires lo <= t <= |s|
    ensures r.Some? ==> lo < r.value.valueStart <= r.value.valueEnd < r.value.len <= |s|
    ensures r.Some? && !empty ==> r.value.valueStart < r.value.valueEnd
    decreases t - lo
  {
    match TextEntry(s[t..], empty)
    case Some(m) => Some(TableMatch(t + m.valueStart, t + m.valueEnd, t + m.len))
    case None => if t == lo then None else LastTextEntry(s, lo, t - 1, empty)
  }

  /** The first `}` at or after `j`, or the end of the text. */
  function TableClose(t: string, j: nat): (e: nat)
    requires j <= |t|
    ensures j <= e <= |t|
  {
    j + CharPos(t[j..], '}')
  }

  /** `^license\s*=\s*\{[^}]*text\s*=\s*"([^"]+)"[^}]*\}` at the start of
      `t` (with `"[^"]*"` when `empty` holds): the captured value's bounds
      and the length of the match. */
  function LicenseTableAt(t: string, empty: bool): (r: Option<TableMatch>)
    ensures r.Some? ==> 0 < r.value.valueStart <= r.value.valueEnd < r.value.len <= |t|
    ensures r.Some? && !empty ==> r.value.valueStart < r.value.valueEnd
  {
    match LicenseTableOpenLen(t)
    case None => None
    case Some(j) => LastTextEntry(t, j, TableClose(t, j), empty)
  }

  /** The table expression the check searches for, `"([^"]+)"` inside. */
  function LicenseTableLen(t: string): (r: Option<nat>)
    ensures r.Some? ==> 0 < r.value <= |t|
  {
    match LicenseTableAt(t, false)
    case None => None
    case Some(m) => Some(m.len)
  }

  /** The table expression the repair substitutes, `"[^"]*"` inside. */
  function RepairTableLen(t: string): (r: Option<nat>)
    ensures r.Some? ==> 0 < r.value <= |t|
  {
    match LicenseTableAt(t, true)
    case None => None
    case Some(m) => Some(m.len)
  }

  /** Wherever the check's table expression matches, the repair's does. */
  lemma RepairTableWidens(t: string)
    ensures LicenseTableLen(t).Some? ==> RepairTableLen(t).Some?
  {
    if LicenseTableLen(t).Some? {
      var j := LicenseTableOpenLen(t).value;
      LastTextWidens(t, j, TableClose(t, j));
    }
  }

  lemma {:induction false} LastTextWidens(s: string, lo: nat, t: nat)
    requires lo <= t <= |s|
    ensures LastTextEntry(s, lo, t, false).Some? ==> LastTextEntry(s, lo, t, true).Some?
    decreases t - lo
  {
    TextEntryWidens(s[t..]);
    if TextEntry(s[t..], true).None? && t > lo {
      LastTextWidens(s, lo, t - 1);
    }
  }

  lemma TextEntryWidens(t: string)
    ensures TextEntry(t, false).Some? ==> TextEntry(t, true) == TextEntry(t, false)
  {
    if TextEntry(t, false).Some? {
      var u := TextValueAt(t).value;
      QuotedWidens(t[u..]);
    }
  }


  predicate HasLicenseTable(content: string) {
    assert Advances(LicenseTableOpenLen);
    FirstLineMatch(content, 0, LicenseTableOpenLen).Some?
  }

  predicate HasLicenseString(content: string) {
    assert Advances(LicenseStringLen);
    FirstLineMatch(content, 0, LicenseStringLen).Some?
  }

  /** The value of `text` in the first licence table that has one. */
  function LicenseTableValue(content: string): (r: Option<string>)
    ensures r.Some? ==> r.value != "" && forall k :: 0 <= k < |r.value| ==> r.value[k] != '"'
  {
    match FirstLineMatch(content, 0, LicenseTableLen)
    case None => None
    case Some(p) =>
      var t := content[p..];
      var m := LicenseTableAt(t, false).value;
      LicenseTableQuoteFree(t);
      assert forall k :: 0 <= k < m.valueEnd - m.valueStart ==> t[m.valueStart..m.valueEnd][k] == t[m.valueStart + k];
      Some(t[m.valueStart..m.valueEnd])
  }

  function LicenseString(id: string): string { "license = \"" + id + "\"" }

  function LicenseTableIssue(id: string): (i: Issue)
    ensures i.severity == "warning" && i.code == "PY005" && !i.fixed
  {
    Found("warning", "PY005", "License field uses deprecated table format",
      "license = {text = \"" + id + "\"} is the old table format.\nPEP 639 requires license = \"" + id
      + "\" (string expression).\nNewer setuptools may reject the table format.",
      Some("pyproject.toml"))
  }

  function LicenseTableFix(id: string): string {
    "Converted license to string expression: license = \"" + id + "\""
  }

  /** PY005: a licence table without a licence string is one warning when
      its `text` entry can be read; the repair rewrites every such table as
      a string expression. */
  function CheckLicenseTable(content: string, autoFix: bool): (r: Step)
    ensures |r.issues| <= 1
    ensures |r.issues| == 1 <==>
      HasLicenseTable(content) && !HasLicenseString(content) && LicenseTableValue(content).Some?
    ensures forall i :: i in r.issues ==> i.severity == "warning" && i.code == "PY005" && i.fixed == autoFix
    ensures r.content == if autoFix && r.issues != [] then FixLicenseTables(content) else content
  {
    if !HasLicenseTable(content) || HasLicenseString(content) then Step([], content)
    else match LicenseTableValue(content)
      case None => Step([], content)
      case Some(id) =>
        var issue := LicenseTableIssue(id);
        if autoFix then Step([Repaired(issue, LicenseTableFix(id))], FixLicenseTables(content))
        else Step([issue], content)
  }

  /** The PY005 repair: every licence table, including one whose `text` is
      empty, replaced by the string form of the first readable table's value. */
  function FixLicenseTables(content: string): (r: string)
    ensures LicenseTableValue(content).None? ==> r == content
  {
    match LicenseTableValue(content)
    case None => content
    case Some(id) =>
      assert Advances(RepairTableLen);
      SubAllLines(content, 0, RepairTableLen, Always(LicenseString(id)))
  }

  /** An entry `text = ""` is never read by the check's `[^"]+`, yet the
      repair's `[^"]*` matches it, with an empty value, whenever the table
      closes. */
  lemma EmptyTextEntry(t: string, u: nat)
    requires TextValueAt(t) == Some(u) && u + 1 < |t| && t[u] == '"' && t[u + 1] == '"'
    ensures TextEntry(t, false).None?
    ensures TextEntry(t, true).Some? <==> u + 2 + CharPos(t[u + 2..], '}') < |t|
    ensures TextEntry(t, true).Some? ==>
      TextEntry(t, true).value.valueStart == TextEntry(t, true).value.valueEnd
  {
    var q := t[u..];
    assert q[1..][0] == '"';
    assert QuotedAny(q) == Some(1);
    assert t[u + 2..] == t[u + 1 + 1..];
  }

  /** After the PY005 repair the first table has become a licence string
      at the same place, so the check no longer fires on the repaired text. */
  lemma {:induction false} LicenseTableRepaired(content: string)
    requires LicenseTableValue(content).Some?
    ensures HasLicenseString(FixLicenseTables(content))
  {
    var p, id, rest := RepairedLayout(content);
    var fixed := FixLicenseTables(content);
    LicenseStringReads(id, rest);
    assert LineMatch(fixed, p, LicenseStringLen).Some?;
    assert Advances(LicenseStringLen);
  }

  /** Where the first table stood, the repaired text starts a line with the
      string form of a quote-free value. */
  lemma {:induction false} RepairedLayout(content: string) returns (p: nat, id: string, rest: string)
    requires LicenseTableValue(content).Some?
    ensures id == LicenseTableValue(content).value
    ensures p <= |FixLicenseTables(content)| && AtLineStart(FixLicenseTables(content), p)
    ensures FixLicenseTables(content)[p..] == LicenseString(id) + rest
    ensures forall k :: 0 <= k < |id| ==> id[k] != '"'
  {
    assert Advances(LicenseTableLen) && Advances(RepairTableLen);
    id := LicenseTableValue(content).value;
    var q := FirstLineMatch(content, 0, LicenseTableLen).value;
    RepairTableWidens(content[q..]);
    assert LineMatch(content, q, RepairTableLen).Some?;
    var x;
    p, x, rest := FirstReplacedAtLine(content, RepairTableLen, Always(LicenseString(id)));
  }

  /** The value a table match captures holds no quote. */
  lemma LicenseTableQuoteFree(t: string)
    ensures var r := LicenseTableAt(t, false);
      r.Some? ==> forall k :: r.value.valueStart <= k < r.value.valueEnd ==> t[k] != '"'
  {
    match LicenseTableOpenLen(t)
    case None =>
    case Some(j) => LastTextQuoteFree(t, j, TableClose(t, j));
  }

  lemma {:induction false} LastTextQuoteFree(s: string, lo: nat, t: nat)
    requires lo <= t <= |s|
    ensures var r := LastTextEntry(s, lo, t, false);
      r.Some? ==> forall k :: r.value.valueStart <= k < r.value.valueEnd ==> s[k] != '"'
    decreases t - lo
  {
    match TextEntry(s[t..], false)
    case Some(m) => TextEntryQuoteFree(s[t..]);
      forall k | t + m.valueStart <= k < t + m.valueEnd ensures s[k] != '"' {
        assert s[t..][k - t] == s[k];
      }
    case None => if t > lo { LastTextQuoteFree(s, lo, t - 1); }
  }

  lemma TextEntryQuoteFree(t: string)
    ensures var r := TextEntry(t, false);
      r.Some? ==> forall k :: r.value.valueStart <= k < r.value.valueEnd ==> t[k] != '"'
  {
    if TextEntry(t, false).Some? {
      var u := TextValueAt(t).value;
      var v := Quoted(t[u..], false).value;
      forall k | u + 1 <= k < u + v ensures t[k] != '"' {
        assert t[u..][k - u] == t[k];
      }
    }
  }


  /** `license = "id"` followed by anything reads as a licence string. */
  lemma LicenseStringReads(id: string, rest: string)
    requires id != "" && forall k :: 0 <= k < |id| ==> id[k] != '"'
    ensures LicenseStringLen(LicenseString(id) + rest).Some?
  {
    LicenseKeyReads(id, rest);
    QuotedValueReads(id, rest);
  }

  /** The key and the `=` of `license = "id"` take its first ten characters. */
  lemma LicenseKeyReads(id: string, rest: string)
    ensures var t := LicenseString(id) + rest;
      LicenseKeyLen(t) == Some(10) && t[10..] == "\"" + id + "\"" + rest
  {
    var t := LicenseString(id) + rest;
    assert t == "license" + (" = \"" + id + "\"" + rest);
    assert t[7..] == " = \"" + id + "\"" + rest;
    assert SpaceLen(t[7..]) == 1 by {
      assert t[7] == ' ' && t[8] == '=';
      assert t[7..][1..][0] == '=';
    }
    assert t[8..] == "= \"" + id + "\"" + rest;
    assert SpaceLen(t[9..]) == 1 by {
      assert t[9] == ' ' && t[10] == '"';
      assert t[9..][1..][0] == '"';
    }
  }

  /** A non-empty quote-free value between quotes is read up to its closing quote. */
  lemma QuotedValueReads(id: string, rest: string)
    requires id != "" && forall k :: 0 <= k < |id| ==> id[k] != '"'
    ensures QuotedEnd("\"" + id + "\"" + rest) == Some(|id| + 1)
  {
    var u := "\"" + id + "\"" + rest;
    assert u[1..] == id + ("\"" + rest);
    CharPosAfter(id, "\"" + rest, '"');
  }

  /** `[^c]*` stops right after a run without `c` that is followed by `c`. */
  lemma {:induction false} CharPosAfter(w: string, rest: string, c: char)
    requires forall k :: 0 <= k < |w| ==> w[k] != c
    requires rest != "" && rest[0] == c
    ensures CharPos(w + rest, c) == |w|
    decreases |w|
  {
    if w != "" {
      assert (w + rest)[1..] == w[1..] + rest;
      CharPosAfter(w[1..], rest, c);
    } else {
      assert w + rest == rest;
    }
  }

  // ------------------------------------------------------------------- PY006

  /** `authors\s*=\s*\[(.*?)\]` with DOTALL at the start of `t`: where the
      group starts and where its closing bracket is (the first `]` after
      the opening one, the lazy `.*?` stopping there). */
  function AuthorsAt(t: string): (r: Option<(nat, nat)>)
    ensures r.Some? ==> 0 < r.value.0 <= r.value.1 < |t| && t[r.value.1] == ']'
    ensures r.Some? ==> forall k :: r.value.0 <= k < r.value.1 ==> t[k] != ']'
  {
    if !("authors" <= t) then None
    else
      var a := 7 + SpaceLen(t[7..]);
      if a == |t| || t[a] != '=' then None
      else
        var u := a + 1 + SpaceLen(t[a + 1..]);
        if u == |t| || t[u] != '[' then None
        else
          var k := u + 1 + CharPos(t[u + 1..], ']');
          if k == |t| then None else Some((u + 1, k))
  }

  /** The length of the `authors` match at the start of `t`. */
  function AuthorsLen(t: string): (r: Option<nat>)
    ensures r.Some? ==> 0 < r.value <= |t|
  {
    match AuthorsAt(t)
    case None => None
    case Some((_, k)) => Some(k + 1)
  }

  /** The group of the first `authors` list: the text between its brackets. */
  function AuthorsGroup(content: string): Option<string> {
    match FirstMatch(content, AuthorsLen)
    case None => None
    case Some(p) =>
      var (g, k) := AuthorsAt(content[p..]).value;
      Some(content[p..][g..k])
  }

  /** `l.strip().rstrip(',')` for each non-blank, non-comment line of the
      stripped group. */
  function AuthorLines(lines: seq<string>): (r: seq<string>)
    ensures |r| <= |lines|
    decreases |lines|
  {
    if lines == [] then []
    else
      var l := Strip(lines[0]);
      if l == "" || "#" <= l then AuthorLines(lines[1..])
      else [RStripChar(l, ',')] + AuthorLines(lines[1..])
  }

  function AuthorEntries(group: string): seq<string> {
    AuthorLines(SplitLines(Strip(group)))
  }

  /** The elements of a sequence, as Python's `set(xs)` sees them. */
  function Elements(xs: seq<string>): set<string> {
    set k | 0 <= k < |xs| :: xs[k]
  }

  lemma ElementsCons(xs: seq<string>)
    requires xs != []
    ensures Elements(xs) == {xs[0]} + Elements(xs[1..])
  {
    var t := xs[1..];
    forall y | y in Elements(xs) ensures y in {xs[0]} + Elements(t) {
      var k :| 0 <= k < |xs| && xs[k] == y;
      if k > 0 { assert t[k - 1] == y; }
    }
    forall y | y in Elements(t) ensures y in Elements(xs) {
      var k :| 0 <= k < |t| && t[k] == y;
      assert xs[k + 1] == y;
    }
    assert xs[0] in Elements(xs);
  }

  /** `len(xs) != len(set(xs))` says exactly that some entry repeats. */
  lemma {:induction false} DuplicateIffShort(xs: seq<string>)
    ensures |Elements(xs)| <= |xs|
    ensures |Elements(xs)| == |xs| <==> Distinct(xs)
    decreases |xs|
  {
    if xs == [] {
      assert Elements(xs) == {};
    } else {
      var t := xs[1..];
      DuplicateIffShort(t);
      ElementsCons(xs);
      if xs[0] in Elements(t) {
        assert Elements(xs) == Elements(t);
        var k :| 0 <= k < |t| && t[k] == xs[0];
        assert xs[0] == xs[k + 1];
      } else {
        assert |Elements(xs)| == |Elements(t)| + 1;
        if Distinct(xs) {
          forall i, j | 0 <= i < j < |t| ensures t[i] != t[j] { assert xs[i + 1] != xs[j + 1]; }
        }
        if Distinct(t) {
          forall i, j | 0 <= i < j < |xs| ensures xs[i] != xs[j] {
            if i == 0 { assert xs[j] == t[j - 1] && t[j - 1] in Elements(t); }
            else { assert xs[i] == t[i - 1] && xs[j] == t[j - 1]; }
          }
        }
      }
    }
  }

  /** The list the repair writes: one indented entry per line. */
  function AuthorsBlock(unique: seq<string>): string
    decreases |unique|
  {
    "authors = [\n" + AuthorsBody(unique) + "]"
  }

  function AuthorsBody(unique: seq<string>): string
    decreases |unique|
  {
    if unique == [] then "" else "    " + unique[0] + ",\n" + AuthorsBody(unique[1..])
  }

  const DuplicateAuthors: Issue := Found("warning", "PY006", "Duplicate authors in pyproject.toml",
    "Duplicate author entries found in pyproject.toml authors list.", Some("pyproject.toml"))

  function DuplicateAuthorsFix(kept: nat): string {
    "Removed duplicate authors (kept " + NatToString(kept) + " unique)"
  }

  /** PY006: a repeated author entry is one warning; the repair keeps the
      first copy of each entry, in order, and rewrites the authors lists. */
  function CheckAuthors(content: string, autoFix: bool): (r: Step)
    ensures |r.issues| <= 1
    ensures r.issues != [] <==> AuthorsGroup(content).Some? && !Distinct(AuthorEntries(AuthorsGroup(content).value))
    ensures forall i :: i in r.issues ==> i.severity == "warning" && i.code == "PY006" && i.fixed == autoFix
    ensures r.content == if autoFix && r.issues != [] then FixAuthors(content) else content
  {
    match AuthorsGroup(content)
    case None => Step([], content)
    case Some(group) =>
      var entries := AuthorEntries(group);
      DuplicateIffShort(entries);
      if |entries| == |Elements(entries)| then Step([], content)
      else if autoFix then
        Step([Repaired(DuplicateAuthors, DuplicateAuthorsFix(|DedupeBy(entries, Same, {})|))], FixAuthors(content))
      else Step([DuplicateAuthors], content)
  }

  /** The PY006 repair: every authors list replaced by the first list's
      entries without repeats. */
  function FixAuthors(content: string): string {
    match AuthorsGroup(content)
    case None => content
    case Some(group) =>
      assert Advances(AuthorsLen);
      SubAll(content, AuthorsLen, Always(AuthorsBlock(DedupeBy(AuthorEntries(group), Same, {}))))
  }

  /** The entries the PY006 repair writes: no repeats, the first copy of each
      entry in input order, and every entry kept. */
  lemma UniqueAuthors(entries: seq<string>)
    ensures var unique := DedupeBy(entries, Same, {});
      Distinct(unique) && IsSubseq(unique, entries) && Elements(unique) == Elements(entries)
      && (Distinct(entries) ==> unique == entries)
  {
    var unique := DedupeBy(entries, Same, {});
    DedupeBySubseq(entries, Same, {});
    DedupeByKeys(entries, Same, {});
    assert Keys(unique, Same) == Elements(unique) by {
      forall y ensures y in Keys(unique, Same) <==> y in Elements(unique) {
        if y in Elements(unique) {
          var k :| 0 <= k < |unique| && unique[k] == y;
          assert Same(unique[k]) == y;
        }
      }
    }
    assert Keys(entries, Same) == Elements(entries) by {
      forall y ensures y in Keys(entries, Same) <==> y in Elements(entries) {
        if y in Elements(entries) {
          var k :| 0 <= k < |entries| && entries[k] == y;
          assert Same(entries[k]) == y;
        }
      }
    }
    forall i, j | 0 <= i < j < |unique| ensures unique[i] != unique[j] {
      assert Same(unique[i]) != Same(unique[j]);
    }
    if Distinct(entries) {
      forall i, j | 0 <= i < j < |entries| ensures Same(entries[i]) != Same(entries[j]) {}
      DedupeByNoop(entries, Same, {});
    }
  }

  // ------------------------------------------------------------------- PY007

  const RequiresPythonLine := "requires-python = \">=3.8\"\n"

  /** The PY007 repair as the source writes it: `requires-python` goes in
      after the first `[project]` followed by a newline, and nowhere when no
      such line ending follows. */
  function InsertRequiresPythonAsWritten(content: string): string {
    match Find(content, "[project]" + "\n")
    case None => content
    case Some(i) => content[..i + 10] + RequiresPythonLine + content[i + 10..]
  }

  /** Where the line of the first `[project]` header ends: just past its
      line break (a `\r\n` pair counts as one), or at the end of the text
      when no break follows. */
  function ProjectLineEnd(content: string): (e: nat)
    requires Contains(content, "[project]")
    ensures Find(content, "[project]").Some?
    ensures Find(content, "[project]").value + 9 <= e <= |content|
    ensures e < |content| ==> ProjectLineBroken(content, e)
    ensures forall k :: Find(content, "[project]").value + 9 <= k < e - 2 ==> !IsLineBreak(content[k])
  {
    var h := Find(content, "[project]").value + 9;
    if h == |content| then h else h + LineEnd(content[h..])
  }

  /** The header's line ends with a line break just before `e`. */
  predicate ProjectLineBroken(content: string, e: nat)
    requires e <= |content|
  {
    0 < e && IsLineBreak(content[e - 1])
  }

  /** The PY007 repair as intended: `requires-python` goes in on the line
      after the first `[project]` header, whatever break ends that line;
      when the header's line runs to the end of the text, a newline and the
      line are appended. The rest of the text is kept as it was. */
  function InsertRequiresPython(content: string): (r: string)
    requires Contains(content, "[project]")
    ensures var e := ProjectLineEnd(content);
      r == if ProjectLineBroken(content, e) then content[..e] + RequiresPythonLine + content[e..]
           else content + "\n" + RequiresPythonLine
    ensures Contains(r, "requires-python")
  {
    var e := ProjectLineEnd(content);
    if ProjectLineBroken(content, e) then
      RequiresLineHasKey(content[..e], content[e..]);
      content[..e] + RequiresPythonLine + content[e..]
    else
      ContainsSuffixOf(content + "\n", RequiresPythonLine, "requires-python");
      content + "\n" + RequiresPythonLine
  }

  lemma RequiresLineHasKey(before: string, after: string)
    ensures Contains(before + RequiresPythonLine + after, "requires-python")
  {
    assert "requires-python" <= RequiresPythonLine;
    assert Contains(RequiresPythonLine, "requires-python");
    ContainsPrefixOf(RequiresPythonLine, after, "requires-python");
    ContainsSuffixOf(before, RequiresPythonLine + after, "requires-python");
    assert before + RequiresPythonLine + after == before + (RequiresPythonLine + after);
  }

  /** As written, a `[project]` header without a newline after it (the last
      line of the file, or a `\r\n` line ending) is reported as fixed while
      the text stays without `requires-python`. */
  lemma RequiresPythonNotInsertedAsWritten()
    ensures Contains("[project]", "[project]") && !Contains("[project]", "requires-python")
    ensures InsertRequiresPythonAsWritten("[project]") == "[project]"
    ensures CheckRequiresPython("[project]", true).issues != []
    ensures CheckRequiresPython("[project]", true).issues[0].fixed
  {
    assert "[project]" <= "[project]";
    if Contains("[project]", "requires-python") { ContainsLength("[project]", "requires-python"); }
    if Contains("[project]", "[project]" + "\n") { ContainsLength("[project]", "[project]" + "\n"); }
  }

  /** Where the first `[project]` header is followed by `\n`, the corrected
      repair and the repair as written insert the line at the same place. */
  lemma InsertAgreesAfterNewline(content: string, i: nat)
    requires Find(content, "[project]") == Some(i) && i + 9 < |content| && content[i + 9] == '\n'
    ensures InsertRequiresPython(content) == InsertRequiresPythonAsWritten(content)
  {
    CorrectedAfterNewline(content, i);
    AsWrittenAfterNewline(content, i);
  }

  /** The corrected repair there inserts just past that `\n`. */
  lemma CorrectedAfterNewline(content: string, i: nat)
    requires Find(content, "[project]") == Some(i) && i + 9 < |content| && content[i + 9] == '\n'
    ensures InsertRequiresPython(content) == content[..i + 10] + RequiresPythonLine + content[i + 10..]
  {
    FoundContains(content, "[project]");
    HeaderNewlineLineEnd(content, i);
  }

  /** So does the repair as written, since its search finds the same header. */
  lemma AsWrittenAfterNewline(content: string, i: nat)
    requires Find(content, "[project]") == Some(i) && i + 9 < |content| && content[i + 9] == '\n'
    ensures InsertRequiresPythonAsWritten(content) == content[..i + 10] + RequiresPythonLine + content[i + 10..]
  {
    FindExtended(content, "[project]", "\n", i);
    AsWrittenAt(content, i);
  }

  /** The repair as written once `[project]\n` is found at `i`. */
  lemma AsWrittenAt(content: string, i: nat)
    requires Find(content, "[project]" + "\n") == Some(i)
    ensures InsertRequiresPythonAsWritten(content) == content[..i + 10] + RequiresPythonLine + content[i + 10..]
  {
  }

  /** The header's line then ends just past that `\n`. */
  lemma HeaderNewlineLineEnd(content: string, i: nat)
    requires Contains(content, "[project]")
    requires Find(content, "[project]") == Some(i) && i + 9 < |content| && content[i + 9] == '\n'
    ensures ProjectLineEnd(content) == i + 10 && ProjectLineBroken(content, i + 10)
  {
    var rest := content[i + 9..];
    assert rest[0] == '\n';
    assert LineLength(rest) == 0;
    assert LineEnd(rest) == 1;
  }

  const MissingRequiresPython: Issue := Found("warning", "PY007", "Missing requires-python in pyproject.toml",
    "No requires-python specified. This helps pip and build tools\nknow which Python versions your package supports.",
    Some("pyproject.toml"))

  const RequiresPythonFix := "Added requires-python = \">=3.8\""

  /** PY007: a `[project]` table without `requires-python` is one warning;
      the repair adds `requires-python = ">=3.8"` under the header. */
  function CheckRequiresPython(content: string, autoFix: bool): (r: Step)
    ensures |r.issues| == if !Contains(content, "requires-python") && Contains(content, "[project]") then 1 else 0
    ensures forall i :: i in r.issues ==> i.severity == "warning" && i.code == "PY007" && i.fixed == autoFix
    ensures !autoFix ==> r.content == content
    ensures autoFix && r.issues != [] ==> Contains(r.content, "requires-python")
    ensures r.content == if autoFix && !Contains(content, "requires-python") && Contains(content, "[project]")
      then InsertRequiresPython(content) else content
  {
    if Contains(content, "requires-python") || !Contains(content, "[project]") then Step([], content)
    else
      if autoFix then Step([Repaired(MissingRequiresPython, RequiresPythonFix)], InsertRequiresPython(content))
      else Step([MissingRequiresPython], content)
  }

  // ------------------------------------------------------------------- PY008

  const EmptyClassifiers: Pattern :=
    Lit("classifiers") + [SpaceRun] + Lit("=") + [SpaceRun] + Lit("[") + [SpaceRun] + Lit("]")

  const EmptyClassifiersIssue: Issue := Found("info", "PY008", "Empty classifiers list",
    "Consider adding PyPI classifiers for better discoverability.", Some("pyproject.toml"))

  /** PY008: an empty classifiers list is one piece of information, never fixed. */
  function CheckClassifiers(content: string): (r: seq<Issue>)
    ensures |r| == if Search(EmptyClassifiers, content) then 1 else 0
    ensures forall i :: i in r ==> i.severity == "info" && i.code == "PY008" && !i.fixed
  {
    if Search(EmptyClassifiers, content) then
      [EmptyClassifiersIssue]
    else []
  }

  // --------------------------------------------------------- _diagnose_python

  datatype PythonDiagnosis = PythonDiagnosis(issues: seq<Issue>, written: Option<string>)

  /** One step after another: the issues of both, the text of the second. */
  function Then(first: Step, second: Step): (r: Step)
    ensures r.issues == first.issues + second.issues && r.content == second.content
  {
    Step(first.issues + second.issues, second.content)
  }

  /** A check over the pyproject text, with repairs on or off. */
  type Check = (string, bool) -> Step

  /** The checks in order, each over the text the previous ones left. */
  function RunChecks(checks: seq<Check>, s: Step, autoFix: bool): Step
    decreases |checks|
  {
    if checks == [] then s
    else RunChecks(checks[1..], Then(s, checks[0](s.content, autoFix)), autoFix)
  }

  lemma RunChecksStep(checks: seq<Check>, i: nat, s: Step, autoFix: bool)
    requires i < |checks|
    ensures RunChecks(checks[i..], s, autoFix) == RunChecks(checks[i + 1..], Then(s, checks[i](s.content, autoFix)), autoFix)
  {
    assert checks[i..][0] == checks[i];
    assert checks[i..][1..] == checks[i + 1..];
  }

  /** No issue in the list is marked fixed. */
  predicate Unrepaired(issues: seq<Issue>) {
    forall i :: i in issues ==> !i.fixed
  }

  /** Some issue in the list carries the code. */
  predicate Raised(issues: seq<Issue>, code: string) {
    exists i :: i in issues && i.code == code
  }

  /** Every issue in the list carries one of the codes. */
  predicate CodedFrom(issues: seq<Issue>, codes: seq<string>) {
    forall i :: i in issues ==> i.code in codes
  }

  /** Without repairs the check leaves the text alone and fixes nothing. */
  ghost predicate ReadOnlyCheck(c: Check) {
    forall t :: c(t, false).content == t && Unrepaired(c(t, false).issues)
  }

  /** The check reports only issues with one of the codes. */
  ghost predicate CodedCheck(c: Check, autoFix: bool, codes: seq<string>) {
    forall t :: CodedFrom(c(t, autoFix).issues, codes)
  }

  ghost predicate ReadOnlyChecks(checks: seq<Check>) {
    forall k :: 0 <= k < |checks| ==> ReadOnlyCheck(checks[k])
  }

  ghost predicate ChecksCoded(checks: seq<Check>, autoFix: bool, codes: seq<string>) {
    forall k :: 0 <= k < |checks| ==> CodedCheck(checks[k], autoFix, codes)
  }

  lemma {:induction false} RunChecksReadOnly(checks: seq<Check>, s: Step)
    requires ReadOnlyChecks(checks) && Unrepaired(s.issues)
    ensures RunChecks(checks, s, false).content == s.content && Unrepaired(RunChecks(checks, s, false).issues)
    decreases |checks|
  {
    if checks != [] {
      var next := Then(s, checks[0](s.content, false));
      assert forall k :: 0 <= k < |checks[1..]| ==> checks[1..][k] == checks[k + 1];
      RunChecksReadOnly(checks[1..], next);
    }
  }

  lemma {:induction false} RunChecksExtend(checks: seq<Check>, s: Step, autoFix: bool, codes: seq<string>)
    requires ChecksCoded(checks, autoFix, codes)
    ensures var r := RunChecks(checks, s, autoFix);
      s.issues <= r.issues && CodedFrom(r.issues[|s.issues|..], codes)
    decreases |checks|
  {
    var r := RunChecks(checks, s, autoFix);
    if checks == [] {
      assert r.issues[|s.issues|..] == [];
    } else {
      var step := checks[0](s.content, autoFix);
      var next := Then(s, step);
      assert forall k :: 0 <= k < |checks[1..]| ==> checks[1..][k] == checks[k + 1];
      RunChecksExtend(checks[1..], next, autoFix, codes);
      assert r.issues[|s.issues|..] == step.issues + r.issues[|next.issues|..];
    }
  }

  function BackendCheck(backend: string): Check
    requires backend != ""
  {
    (t, f) => CheckBackend(t, backend, f)
  }

  /** One PY004 check per deprecated backend, in the order they are listed. */
  function BackendChecks(backends: seq<string>): (r: seq<Check>)
    requires forall k :: 0 <= k < |backends| ==> backends[k] != ""
    ensures |r| == |backends| && forall k :: 0 <= k < |r| ==> r[k] == BackendCheck(backends[k])
  {
    if backends == [] then [] else [BackendCheck(backends[0])] + BackendChecks(backends[1..])
  }

  /** PY008 as a step: it reports, and never repairs. */
  function ClassifiersCheck(content: string, autoFix: bool): Step {
    Step(CheckClassifiers(content), content)
  }

  /** PY004 for each deprecated backend in turn. */
  function BackendsCheck(content: string, autoFix: bool): Step {
    RunChecks(BackendChecks(DeprecatedBackends), Step([], content), autoFix)
  }

  /** The checks after PY002, in `_diagnose_python`'s order. */
  function LaterChecks(): seq<Check> {
    [CheckLicenseClassifiers, BackendsCheck, CheckLicenseTable, CheckAuthors, CheckRequiresPython, ClassifiersCheck]
  }

  const PythonCodes := ["PY001", "PY002", "PY003", "PY004", "PY005", "PY006", "PY007", "PY008"]
  const LaterCodes := ["PY003", "PY004", "PY005", "PY006", "PY007", "PY008"]

  lemma BackendsCheckFacts(autoFix: bool)
    ensures ReadOnlyCheck(BackendsCheck) && CodedCheck(BackendsCheck, autoFix, LaterCodes)
  {
    var checks := BackendChecks(DeprecatedBackends);
    forall k | 0 <= k < |checks|
      ensures ReadOnlyCheck(checks[k]) && CodedCheck(checks[k], autoFix, LaterCodes)
    {
      assert checks[k] == BackendCheck(DeprecatedBackends[k]);
    }
    forall t ensures BackendsCheck(t, false).content == t && Unrepaired(BackendsCheck(t, false).issues) {
      RunChecksReadOnly(checks, Step([], t));
    }
    forall t ensures CodedFrom(BackendsCheck(t, autoFix).issues, LaterCodes) {
      RunChecksExtend(checks, Step([], t), autoFix, LaterCodes);
      assert BackendsCheck(t, autoFix).issues[0..] == BackendsCheck(t, autoFix).issues;
    }
  }

  lemma ClassifierChecksFacts(autoFix: bool)
    ensures ReadOnlyCheck(CheckLicenseClassifiers) && CodedCheck(CheckLicenseClassifiers, autoFix, LaterCodes)
    ensures ReadOnlyCheck(ClassifiersCheck) && CodedCheck(ClassifiersCheck, autoFix, LaterCodes)
  {
  }

  lemma TableChecksFacts(autoFix: bool)
    ensures ReadOnlyCheck(CheckLicenseTable) && CodedCheck(CheckLicenseTable, autoFix, LaterCodes)
    ensures ReadOnlyCheck(CheckAuthors) && CodedCheck(CheckAuthors, autoFix, LaterCodes)
    ensures ReadOnlyCheck(CheckRequiresPython) && CodedCheck(CheckRequiresPython, autoFix, LaterCodes)
  {
  }

  lemma LaterChecksFacts(autoFix: bool)
    ensures ReadOnlyChecks(LaterChecks()) && ChecksCoded(LaterChecks(), autoFix, LaterCodes)
  {
    BackendsCheckFacts(autoFix);
    ClassifierChecksFacts(autoFix);
    TableChecksFacts(autoFix);
  }

  /** `_diagnose_python` over an existing pyproject text: PY002, then the
      later checks over the text it leaves. The first issue is PY002 exactly
      when the build-system table is missing, no later issue is PY002, and
      every issue carries a Python code; without repairs the text is left
      alone and nothing is fixed. */
  function PythonPipeline(original: string, autoFix: bool): (r: Step)
    ensures (|r.issues| > 0 && r.issues[0].code == "PY002") <==> !Contains(original, BuildSystemHeader)
    ensures forall k :: 0 < k < |r.issues| ==> r.issues[k].code != "PY002"
    ensures CodedFrom(r.issues, PythonCodes)
    ensures !autoFix ==> r.content == original && Unrepaired(r.issues)
  {
    var first := CheckBuildSystem(original, autoFix);
    LaterChecksFacts(autoFix);
    FirstThenLater(first, LaterChecks(), autoFix);
    if autoFix then RunChecks(LaterChecks(), first, autoFix)
    else
      RunChecksReadOnly(LaterChecks(), first);
      RunChecks(LaterChecks(), first, autoFix)
  }

  /** A first step reporting at most one PY002, then checks that report
      only later codes: PY002 can only come first. */
  lemma {:induction false} FirstThenLater(first: Step, checks: seq<Check>, autoFix: bool)
    requires ChecksCoded(checks, autoFix, LaterCodes)
    requires |first.issues| <= 1 && forall i :: i in first.issues ==> i.code == "PY002"
    ensures var issues := RunChecks(checks, first, autoFix).issues;
      ((|issues| > 0 && issues[0].code == "PY002") <==> |first.issues| == 1)
      && (forall k :: 0 < k < |issues| ==> issues[k].code != "PY002")
      && CodedFrom(issues, PythonCodes)
  {
    RunChecksExtend(checks, first, autoFix, LaterCodes);
    var issues := RunChecks(checks, first, autoFix).issues;
    var later := issues[|first.issues|..];
    assert issues == first.issues + later;
    forall k | 0 <= k < |later| ensures later[k].code in LaterCodes && later[k].code != "PY002" {
      assert later[k] in later;
    }
    forall i | i in issues ensures i.code in PythonCodes {
      if i !in first.issues { assert i in later; }
    }
    forall k | 0 < k < |issues| ensures issues[k].code != "PY002" {
      assert issues[k] == later[k - |first.issues|];
    }
    if |issues| > 0 && |first.issues| == 0 {
      assert issues[0] == later[0];
    }
  }

  /** Runs the checks one after another, each over the text the previous
      ones left, collecting their issues. */
  method RunInOrder(checks: seq<Check>, start: Step, autoFix: bool) returns (step: Step)
    ensures step == RunChecks(checks, start, autoFix)
  {
    step := start;
    var i := 0;
    while i < |checks|
      invariant 0 <= i <= |checks|
      invariant RunChecks(checks[i..], step, autoFix) == RunChecks(checks, start, autoFix)
    {
      RunChecksStep(checks, i, step, autoFix);
      step := Then(step, checks[i](step.content, autoFix));
      i := i + 1;
    }
    assert checks[i..] == [];
  }

  /** PY002, then the later checks run in order over the text it leaves. */
  method RunPipeline(original: string, autoFix: bool) returns (step: Step)
    ensures step == PythonPipeline(original, autoFix)
  {
    step := CheckBuildSystem(original, autoFix);
    step := RunInOrder(LaterChecks(), step, autoFix);
  }

  /** `_diagnose_python`: the checks run in order over one pyproject text,
      each seeing the text the previous repairs left; the file is written
      only when repairs are on and the text changed. */
  method DiagnosePython(files: PythonFiles, autoFix: bool) returns (d: PythonDiagnosis)
    ensures files.pyproject.None? ==>
      d.written.None? && d.issues == (if !files.setupPy && !files.setupCfg && files.requirements then [MissingPyproject] else [])
    ensures files.pyproject.Some? ==>
      var r := PythonPipeline(files.pyproject.value, autoFix);
      d.issues == r.issues
      && d.written == (if r.content != files.pyproject.value && autoFix then Some(r.content) else None)
  {
    if files.pyproject.None? {
      var issues := if !files.setupPy && !files.setupCfg && files.requirements then [MissingPyproject] else [];
      return PythonDiagnosis(issues, None);
    }
    var original := files.pyproject.value;
    var step := RunPipeline(original, autoFix);
    var written := if step.content != original && autoFix then Some(step.content) else None;
    d := PythonDiagnosis(step.issues, written);
  }

  // ------------------------------------------------ the other ecosystems

  /** A project directory: the text of each file by its relative name, and
      the directory listing in the order globbing returns it. */
  datatype ProjectFiles = ProjectFiles(texts: map<string, string>, listing: seq<string>)

  function Text(files: ProjectFiles, name: string): Option<string> {
    if name in files.texts then Some(files.texts[name]) else None
  }

  predicate Exists(files: ProjectFiles, name: string) { name in files.texts }

  /** Python's `data.get(key)` taken as a truth value. */
  predicate GetTruthy(data: map<string, Json>, key: string) {
    key in data && Config.Truthy(data[key])
  }

  datatype NodeDiagnosis = NodeDiagnosis(issues: seq<Issue>, written: Option<map<string, Json>>)

  /** `'no test specified' in scripts.get('test', '')` for the value found
      under `test`; an error where Python's `in` raises. */
  function NoTestSpecified(v: Json): Result<bool> {
    match v
    case Str(s) => Ok(Contains(s, "no test specified"))
    case List(items) => Ok(Config.Str("no test specified") in items)
    case Dict(m) => Ok("no test specified" in m)
    case _ => Err("TypeError")
  }

  /** JS004's condition, `'test' not in scripts or 'no test specified' in
      scripts.get('test', '')`, for whatever value `scripts` holds; an error
      where Python raises. */
  function MissingTestScript(data: map<string, Json>): (r: Result<bool>)
    ensures "scripts" !in data ==> r == Ok(true)
  {
    var scripts := if "scripts" in data then data["scripts"] else Config.Dict(map[]);
    match scripts
    case Dict(m) => if "test" !in m then Ok(true) else NoTestSpecified(m["test"])
    case Str(s) => if !Contains(s, "test") then Ok(true) else Err("AttributeError")
    case List(items) => if Config.Str("test") !in items then Ok(true) else Err("AttributeError")
    case _ => Err("TypeError")
  }

  function InvalidPackageJson(message: string): (i: Issue)
    ensures i.code == "JS001" && i.severity == "error"
  {
    Found("error", "JS001", "Invalid package.json", "JSON parse error: " + message, Some("package.json"))
  }

  const VersionFix := "Added version = \"0.1.0\""
  const MissingName: Issue := Found(
    "error", "JS002", "Missing \"name\" in package.json", "Every npm package needs a name field.", Some("package.json"))
  const MissingVersion: Issue := Found(
    "warning", "JS003", "Missing \"version\" in package.json", "No \"version\" field in package.json. Adding \"0.1.0\".", Some("package.json"))
  const NoTestScript: Issue := Found(
    "warning", "JS004", "No test script configured", "package.json has no usable \"test\" script. Consider adding jest or mocha.", Some("package.json"))
  const NoEntryPoint: Issue := Found(
    "info", "JS005", "No entry point (main/module/exports)", "Consider adding a \"main\" or \"exports\" field for proper module resolution.", Some("package.json"))

  /** `_diagnose_nodejs`: JS001 to JS005 over package.json; the only repair
      adds a version, and the file is written when that happened. */
  function DiagnoseNodejs(packageJson: Option<string>, parse: string -> Result<Json>, autoFix: bool): (r: Result<NodeDiagnosis>)
    ensures packageJson.None? ==> r == Ok(NodeDiagnosis([], None))
    ensures packageJson.Some? && parse(packageJson.value).Err? ==>
      r.Ok? && |r.value.issues| == 1 && r.value.issues[0].code == "JS001" && r.value.issues[0].severity == "error"
      && r.value.written.None?
    ensures packageJson.Some? && parse(packageJson.value).Ok? && !parse(packageJson.value).value.Dict? ==> r.Err?
    ensures packageJson.Some? && parse(packageJson.value).Ok? && parse(packageJson.value).value.Dict? ==>
      var data := parse(packageJson.value).value.entries;
      (r.Ok? <==> MissingTestScript(data).Ok?)
      && (r.Ok? ==>
        && (Raised(r.value.issues, "JS002") <==> !GetTruthy(data, "name"))
        && (Raised(r.value.issues, "JS003") <==> !GetTruthy(data, "version"))
        && (Raised(r.value.issues, "JS004") <==> MissingTestScript(data).value)
        && (Raised(r.value.issues, "JS005") <==> NoEntry(data))
        && !Raised(r.value.issues, "JS001")
        && (forall i :: i in r.value.issues && i.code == "JS003" ==> i.fixed == autoFix)
        && (r.value.written.Some? <==> autoFix && !GetTruthy(data, "version")))
    ensures r.Ok? && r.value.written.Some? ==>
      autoFix && packageJson.Some? && parse(packageJson.value).Ok?
      && parse(packageJson.value).value.Dict?
      && !GetTruthy(parse(packageJson.value).value.entries, "version")
      && r.value.written.value == parse(packageJson.value).value.entries["version" := Config.Str("0.1.0")]
  {
    match packageJson
    case None => Ok(NodeDiagnosis([], None))
    case Some(text) =>
      match parse(text)
      case Err(e) =>
        Ok(NodeDiagnosis([InvalidPackageJson(e)], None))
      case Ok(value) =>
        if !value.Dict? then Err("AttributeError")
        else
          var data := value.entries;
          var newData := if autoFix && !GetTruthy(data, "version") then data["version" := Config.Str("0.1.0")] else data;
          VersionFixKeeps(data);
          match MissingTestScript(newData)
          case Err(e) => Err(e)
          case Ok(noTest) =>
            NodeIssuesRaise(data, autoFix, noTest, NoEntry(newData));
            NodeIssuesFixed(data, autoFix, noTest, NoEntry(newData));
            Ok(NodeDiagnosis(NodeIssues(data, autoFix, noTest, NoEntry(newData)),
                             if newData != data then Some(newData) else None))
  }

  /** JS002 to JS005 in order: the name and version checks read the data as
      loaded, the test-script and entry-point checks the data after the
      version repair. */
  function NodeIssues(data: map<string, Json>, autoFix: bool, noTest: bool, noEntry: bool): seq<Issue> {
    Flag(!GetTruthy(data, "name"), MissingName) + Flag(!GetTruthy(data, "version"), VersionIssue(autoFix))
    + Flag(noTest, NoTestScript) + Flag(noEntry, NoEntryPoint)
  }

  /** JS003, marked repaired when the repair runs. */
  function VersionIssue(autoFix: bool): (i: Issue)
    ensures i.code == "JS003" && i.fixed == autoFix
  {
    if autoFix then Repaired(MissingVersion, VersionFix) else MissingVersion
  }

  /** Which Node codes the list raises. */
  lemma NodeIssuesRaise(data: map<string, Json>, autoFix: bool, noTest: bool, noEntry: bool)
    ensures var r := NodeIssues(data, autoFix, noTest, noEntry);
      && (Raised(r, "JS002") <==> !GetTruthy(data, "name"))
      && (Raised(r, "JS003") <==> !GetTruthy(data, "version"))
      && (Raised(r, "JS004") <==> noTest)
      && (Raised(r, "JS005") <==> noEntry)
      && !Raised(r, "JS001")
  {
    NodeCodes();
    RaisedFlags(!GetTruthy(data, "name"), MissingName, !GetTruthy(data, "version"), VersionIssue(autoFix),
                noTest, NoTestScript, noEntry, NoEntryPoint);
  }

  /** Only the version issue carries JS003, and it is marked fixed exactly
      when the repair runs. */
  lemma NodeIssuesFixed(data: map<string, Json>, autoFix: bool, noTest: bool, noEntry: bool)
    ensures forall i :: i in NodeIssues(data, autoFix, noTest, noEntry) && i.code == "JS003" ==> i.fixed == autoFix
  {
    NodeCodes();
    RaisedFlags(!GetTruthy(data, "name"), MissingName, !GetTruthy(data, "version"), VersionIssue(autoFix),
                noTest, NoTestScript, noEntry, NoEntryPoint);
  }

  /** The codes of the Node issues. */
  lemma NodeCodes()
    ensures MissingName.code == "JS002" && NoTestScript.code == "JS004" && NoEntryPoint.code == "JS005"
    ensures "JS001" != "JS002" && "JS001" != "JS003" && "JS001" != "JS004" && "JS001" != "JS005"
    ensures "JS002" != "JS003" && "JS002" != "JS004" && "JS002" != "JS005"
    ensures "JS003" != "JS004" && "JS003" != "JS005" && "JS004" != "JS005"
  {
    assert "JS001"[4] != "JS002"[4];
  }

  /** Which codes four flagged issues in a row raise. */
  lemma RaisedFlags(ca: bool, a: Issue, cb: bool, b: Issue, cc: bool, c: Issue, cd: bool, d: Issue)
    ensures forall code :: Raised(Flag(ca, a) + Flag(cb, b) + Flag(cc, c) + Flag(cd, d), code) <==>
      (ca && a.code == code) || (cb && b.code == code) || (cc && c.code == code) || (cd && d.code == code)
    ensures forall j :: j in Flag(ca, a) + Flag(cb, b) + Flag(cc, c) + Flag(cd, d) ==> j == a || j == b || j == c || j == d
  {
    RaisedAppend(Flag(ca, a), Flag(cb, b));
    RaisedAppend(Flag(ca, a) + Flag(cb, b), Flag(cc, c));
    RaisedAppend(Flag(ca, a) + Flag(cb, b) + Flag(cc, c), Flag(cd, d));
  }

  /** The issue when the condition holds, nothing otherwise. */
  function Flag(condition: bool, i: Issue): (r: seq<Issue>)
    ensures forall code :: Raised(r, code) <==> condition && i.code == code
    ensures forall j :: j in r ==> j == i
  {
    if condition then [i] else []
  }

  /** A code is raised in two lists together when it is raised in either. */
  lemma RaisedAppend(a: seq<Issue>, b: seq<Issue>)
    ensures forall code :: Raised(a + b, code) <==> Raised(a, code) || Raised(b, code)
  {
    forall code ensures Raised(a + b, code) <==> Raised(a, code) || Raised(b, code) {
      if Raised(a + b, code) {
        var i :| i in a + b && i.code == code;
        assert i in a || i in b;
      }
      if Raised(a, code) {
        var i :| i in a && i.code == code;
        assert i in a + b;
      }
      if Raised(b, code) {
        var i :| i in b && i.code == code;
        assert i in a + b;
      }
    }
  }

  /** JS005's condition: none of `main`, `module` and `exports` is set. */
  predicate NoEntry(data: map<string, Json>) {
    !GetTruthy(data, "main") && !GetTruthy(data, "module") && !GetTruthy(data, "exports")
  }

  /** Adding the version leaves every other condition of the diagnosis as it
      was, and sets a version. */
  lemma VersionFixKeeps(data: map<string, Json>)
    ensures var fixed := data["version" := Config.Str("0.1.0")];
      && GetTruthy(fixed, "version")
      && GetTruthy(fixed, "name") == GetTruthy(data, "name")
      && NoEntry(fixed) == NoEntry(data)
      && MissingTestScript(fixed) == MissingTestScript(data)
  {
    var fixed := data["version" := Config.Str("0.1.0")];
    assert fixed["version"] == Config.Str("0.1.0");
    assert "scripts" != "version" && "name" != "version";
    assert "main" != "version" && "module" != "version" && "exports" != "version";
  }

  const MissingPackage: Issue := Found(
    "error", "RS001", "Missing [package] section in Cargo.toml", "Cargo.toml needs a [package] section with name and version.", Some("Cargo.toml"))
  const MissingEdition: Issue := Found(
    "warning", "RS002", "No edition specified in Cargo.toml", "Consider adding edition = \"2021\" to [package] for modern Rust features.", Some("Cargo.toml"))

  /** `^\[package\]` under MULTILINE: some line starts with `[package]`. */
  predicate PackageLine(content: string) {
    exists i :: 0 <= i <= |content| && AtLineStart(content, i) && "[package]" <= content[i..]
  }

  /** `_diagnose_rust`: RS001 when no line starts with `[package]`, RS002
      when `edition` is absent. */
  function DiagnoseRust(cargo: Option<string>): (r: seq<Issue>)
    ensures cargo.None? ==> r == []
    ensures cargo.Some? ==> |r| == (if PackageLine(cargo.value) then 0 else 1)
                                  + (if Contains(cargo.value, "edition") then 0 else 1)
    ensures cargo.Some? ==>
      && (Raised(r, "RS001") <==> !PackageLine(cargo.value))
      && (Raised(r, "RS002") <==> !Contains(cargo.value, "edition"))
    ensures forall i :: i in r ==>
      || (i.code == "RS001" && i.severity == "error")
      || (i.code == "RS002" && i.severity == "warning")
  {
    match cargo
    case None => []
    case Some(content) =>
      (if PackageLine(content) then []
       else [MissingPackage])
      + (if Contains(content, "edition") then []
         else [MissingEdition])
  }

  const MissingModule: Issue := Found(
    "error", "GO001", "Invalid go.mod \U{2014} missing module declaration", "go.mod must start with \"module <path>\".", Some("go.mod"))
  const MissingGoSum: Issue := Found(
    "warning", "GO002", "Missing go.sum", "go.sum is missing but go.mod has dependencies. Run \"go mod tidy\".", Some("go.sum"))

  /** `_diagnose_go`: GO001 when the stripped go.mod does not start with
      `module `, GO002 when go.sum is missing but go.mod requires something. */
  function DiagnoseGo(gomod: Option<string>, gosumExists: bool): (r: seq<Issue>)
    ensures gomod.None? ==> r == []
    ensures gomod.Some? ==> |r| == (if "module " <= Strip(gomod.value) then 0 else 1)
                                 + (if !gosumExists && Contains(gomod.value, "require") then 1 else 0)
    ensures gomod.Some? ==>
      && (Raised(r, "GO001") <==> !("module " <= Strip(gomod.value)))
      && (Raised(r, "GO002") <==> !gosumExists && Contains(gomod.value, "require"))
    ensures forall i :: i in r ==>
      || (i.code == "GO001" && i.severity == "error")
      || (i.code == "GO002" && i.severity == "warning")
  {
    match gomod
    case None => []
    case Some(content) =>
      (if "module " <= Strip(content) then []
       else [MissingModule])
      + (if !gosumExists && Contains(content, "require") then
          [MissingGoSum]
         else [])
  }

  const MissingGemLock: Issue := Found(
    "warning", "RB001", "Missing Gemfile.lock", "Run \"bundle install\" to generate Gemfile.lock for reproducible builds.", Some("Gemfile.lock"))

  /** `_diagnose_ruby`: RB001 when a Gemfile has no Gemfile.lock. */
  function DiagnoseRuby(gemfile: bool, lock: bool): (r: seq<Issue>)
    ensures |r| == if gemfile && !lock then 1 else 0
    ensures Raised(r, "RB001") <==> gemfile && !lock
    ensures forall i :: i in r ==> i.code == "RB001" && i.severity == "warning"
  {
    if gemfile && !lock then
      [MissingGemLock]
    else []
  }

  const InvalidComposer: Issue := Found(
    "error", "PHP001", "Invalid composer.json", "JSON parse error in composer.json.", Some("composer.json"))
  const NoAutoload: Issue := Found(
    "warning", "PHP002", "No autoload configuration", "Consider adding PSR-4 autoload config to composer.json.", Some("composer.json"))
  const MissingComposerLock: Issue := Found(
    "warning", "PHP003", "Missing composer.lock", "Run \"composer install\" to generate composer.lock.", Some("composer.lock"))

  /** `_diagnose_php`: PHP001 for unparsable composer.json, PHP002 without
      autoload configuration, PHP003 when dependencies lack a lock file. */
  function DiagnosePhp(composer: Option<string>, parse: string -> Result<Json>, lock: bool): (r: Result<seq<Issue>>)
    ensures composer.None? ==> r == Ok([])
    ensures composer.Some? && parse(composer.value).Err? ==>
      r.Ok? && |r.value| == 1 && r.value[0].code == "PHP001" && r.value[0].severity == "error"
    ensures composer.Some? && parse(composer.value).Ok? && !parse(composer.value).value.Dict? ==> r.Err?
    ensures composer.Some? && parse(composer.value).Ok? && parse(composer.value).value.Dict? ==>
      var data := parse(composer.value).value.entries;
      r.Ok? && |r.value| == (if GetTruthy(data, "autoload") || GetTruthy(data, "autoload-dev") then 0 else 1)
                          + (if !lock && GetTruthy(data, "require") then 1 else 0)
      && (Raised(r.value, "PHP002") <==> !GetTruthy(data, "autoload") && !GetTruthy(data, "autoload-dev"))
      && (Raised(r.value, "PHP003") <==> !lock && GetTruthy(data, "require"))
      && (forall i :: i in r.value ==> i.code != "PHP001" && i.severity == "warning")
  {
    match composer
    case None => Ok([])
    case Some(text) =>
      match parse(text)
      case Err(_) => Ok([InvalidComposer])
      case Ok(value) =>
        if !value.Dict? then Err("AttributeError")
        else
          var data := value.entries;
          Ok((if !GetTruthy(data, "autoload") && !GetTruthy(data, "autoload-dev") then
               [NoAutoload]
              else [])
             + (if !lock && GetTruthy(data, "require") then
                 [MissingComposerLock]
                else []))
  }

  function NoTargetFramework(name: string): (i: Issue)
    ensures i.code == "NET001" && i.severity == "warning"
  {
    Found("warning", "NET001", "No TargetFramework in " + name,
      "Consider specifying <TargetFramework>net8.0</TargetFramework>.", Some(name))
  }

  /** `_diagnose_dotnet`: one NET001 per project file, in glob order, that
      does not mention `<TargetFramework`. */
  function DiagnoseDotnet(projects: seq<(string, string)>): (r: seq<Issue>)
    ensures |r| <= |projects|
    ensures forall i :: i in r ==> i.code == "NET001" && i.severity == "warning"
    ensures (forall k :: 0 <= k < |projects| ==> Contains(projects[k].1, "<TargetFramework")) ==> r == []
    decreases |projects|
  {
    if projects == [] then []
    else
      var (name, content) := projects[0];
      (if Contains(content, "<TargetFramework") then []
       else [NoTargetFramework(name)])
      + DiagnoseDotnet(projects[1..])
  }

  const MissingModelVersion: Issue := Found(
    "warning", "JV001", "Missing <modelVersion> in pom.xml", "pom.xml should have <modelVersion>4.0.0</modelVersion>.", Some("pom.xml"))
  const NoBuildFile: Issue := Found(
    "info", "JV002", "No build file found", "No pom.xml or build.gradle found.", None)

  /** A project file lacking `<TargetFramework` gets its NET001. */
  lemma {:induction false} DotnetFlagsEveryMissing(projects: seq<(string, string)>)
    ensures forall k :: 0 <= k < |projects| && !Contains(projects[k].1, "<TargetFramework") ==>
      NoTargetFramework(projects[k].0) in DiagnoseDotnet(projects)
    decreases |projects|
  {
    if projects != [] {
      var rest := projects[1..];
      DotnetFlagsEveryMissing(rest);
      DotnetStep(projects);
      forall k | 1 <= k < |projects| && !Contains(projects[k].1, "<TargetFramework")
        ensures NoTargetFramework(projects[k].0) in DiagnoseDotnet(projects)
      {
        assert projects[k] == rest[k - 1];
      }
    }
  }

  /** Every NET001 names a project file lacking `<TargetFramework`. */
  lemma {:induction false} DotnetFlagsOnlyMissing(projects: seq<(string, string)>)
    ensures forall i :: i in DiagnoseDotnet(projects) ==>
      exists k :: 0 <= k < |projects| && !Contains(projects[k].1, "<TargetFramework") && i == NoTargetFramework(projects[k].0)
    decreases |projects|
  {
    if projects != [] {
      var rest := projects[1..];
      DotnetFlagsOnlyMissing(rest);
      DotnetStep(projects);
      forall i | i in DiagnoseDotnet(rest)
        ensures exists k :: 0 <= k < |projects| && !Contains(projects[k].1, "<TargetFramework") && i == NoTargetFramework(projects[k].0)
      {
        var k :| 0 <= k < |rest| && !Contains(rest[k].1, "<TargetFramework") && i == NoTargetFramework(rest[k].0);
        assert projects[k + 1] == rest[k];
      }
    }
  }

  /** One step of the scan: the first file's finding, then the rest's. */
  lemma DotnetStep(projects: seq<(string, string)>)
    requires projects != []
    ensures DiagnoseDotnet(projects)
      == (if Contains(projects[0].1, "<TargetFramework") then [] else [NoTargetFramework(projects[0].0)])
         + DiagnoseDotnet(projects[1..])
  {
  }

  /** `_diagnose_java`: JV001 for a pom.xml without `<modelVersion>`, JV002
      when there is no build file at all. */
  function DiagnoseJava(pom: Option<string>, gradle: bool, gradleKts: bool): (r: seq<Issue>)
    ensures |r| <= 1
    ensures r != [] && r[0].code == "JV002" <==> pom.None? && !gradle && !gradleKts
    ensures Raised(r, "JV001") <==> pom.Some? && !Contains(pom.value, "<modelVersion>")
    ensures Raised(r, "JV002") <==> pom.None? && !gradle && !gradleKts
    ensures forall i :: i in r ==>
      || (i.code == "JV001" && i.severity == "warning")
      || (i.code == "JV002" && i.severity == "info")
  {
    (if pom.Some? && !Contains(pom.value, "<modelVersion>") then
      [MissingModelVersion]
     else [])
    + (if pom.None? && !gradle && !gradleKts then
        [NoBuildFile]
       else [])
  }

  /** The project files `Path.glob('*.csproj')` then `Path.glob('*.fsproj')`
      return, with their text. */
  function DotnetProjects(files: ProjectFiles): (r: seq<(string, string)>)
    ensures forall k :: 0 <= k < |r| ==> Glob("*.csproj", r[k].0) || Glob("*.fsproj", r[k].0)
  {
    var names := Filter(files.listing, n => Glob("*.csproj", n)) + Filter(files.listing, n => Glob("*.fsproj", n));
    seq(|names|, k requires 0 <= k < |names| =>
      (names[k], if names[k] in files.texts then files.texts[names[k]] else ""))
  }

  /** What a run writes back: the repaired pyproject text and the repaired
      package.json data. */
  datatype Writes = Writes(pyproject: Option<string>, packageJson: Option<map<string, Json>>)

  /** The Python entry of the dispatch table: `_diagnose_python` over the
      files it looks for in the directory. */
  method PythonEntry(files: ProjectFiles, autoFix: bool) returns (issues: seq<Issue>, written: Option<string>)
    ensures !autoFix ==> written.None?
  {
    var d := DiagnosePython(PythonFiles(Text(files, "pyproject.toml"), Exists(files, "setup.py"),
                                        Exists(files, "setup.cfg"), Exists(files, "requirements.txt")), autoFix);
    return d.issues, d.written;
  }

  const ProjectTypes := ["python", "nodejs", "rust", "go", "ruby", "php", "dotnet", "java"]

  /** `diagnose_project`: the diagnostics registered for the project type
      (none for an unknown type) in a report for the resolved directory; an
      error where a diagnostic raises. */
  method DiagnoseProject(resolvedDir: string, projectType: string, autoFix: bool,
                         files: ProjectFiles, parse: string -> Result<Json>)
    returns (r: Result<(DoctorReport, Writes)>)
    ensures projectType !in ProjectTypes ==> r == Ok((DoctorReport(resolvedDir, projectType, []), Writes(None, None)))
    ensures r.Ok? ==> r.value.0.projectDir == resolvedDir && r.value.0.projectType == projectType
    ensures !autoFix && r.Ok? ==> r.value.1 == Writes(None, None)
  {
    var none := Writes(None, None);
    if projectType == "python" {
      var issues, written := PythonEntry(files, autoFix);
      return Ok((DoctorReport(resolvedDir, projectType, issues), Writes(written, None)));
    } else if projectType == "nodejs" {
      var d := DiagnoseNodejs(Text(files, "package.json"), parse, autoFix);
      if d.Err? {
        return Err(d.error);
      }
      return Ok((DoctorReport(resolvedDir, projectType, d.value.issues), Writes(None, d.value.written)));
    } else if projectType == "rust" {
      return Ok((DoctorReport(resolvedDir, projectType, DiagnoseRust(Text(files, "Cargo.toml"))), none));
    } else if projectType == "go" {
      var issues := if Exists(files, "go.mod") then DiagnoseGo(Text(files, "go.mod"), Exists(files, "go.sum")) else [];
      return Ok((DoctorReport(resolvedDir, projectType, issues), none));
    } else if projectType == "ruby" {
      var issues := DiagnoseRuby(Exists(files, "Gemfile"), Exists(files, "Gemfile.lock"));
      return Ok((DoctorReport(resolvedDir, projectType, issues), none));
    } else if projectType == "php" {
      var d := DiagnosePhp(Text(files, "composer.json"), parse, Exists(files, "composer.lock"));
      if d.Err? {
        return Err(d.error);
      }
      return Ok((DoctorReport(resolvedDir, projectType, d.value), none));
    } else if projectType == "dotnet" {
      return Ok((DoctorReport(resolvedDir, projectType, DiagnoseDotnet(DotnetProjects(files))), none));
    } else if projectType == "java" {
      var issues := DiagnoseJava(Text(files, "pom.xml"), Exists(files, "build.gradle"), Exists(files, "build.gradle.kts"));
      return Ok((DoctorReport(resolvedDir, projectType, issues), none));
    }
    r := Ok((DoctorReport(resolvedDir, projectType, []), none));
  }

  // ------------------------------------------------------------- TODO.md

  /** `re.sub(r'[^a-zA-Z0-9]', '', s)`: the ASCII letters and digits of `s`. */
  function AlnumOnly(s: string): (r: string)
    ensures |r| <= |s| && forall k :: 0 <= k < |r| ==> IsAlnum(r[k])
    decreases |s|
  {
    if s == "" then "" else (if IsAlnum(s[0]) then [s[0]] else "") + AlnumOnly(s[1..])
  }

  /** `_generate_ticket_id`: the code, a dash, and the first 50 letters and
      digits of the lower-cased title. */
  function TicketId(issue: Issue): (id: string)
    ensures id == issue.code + "-" + Take(AlnumOnly(Lower(issue.title)), 50)
    ensures |id| <= |issue.code| + 51
  {
    issue.code + "-" + Take(AlnumOnly(Lower(issue.title)), 50)
  }

  /** The length of the run of characters at the start of `t` that satisfy `p`. */
  function RunOf(t: string, p: char -> bool): (n: nat)
    ensures n <= |t| && (n < |t| ==> !p(t[n]))
    ensures forall k :: 0 <= k < n ==> p(t[k])
    decreases |t|
  {
    if t != "" && p(t[0]) then 1 + RunOf(t[1..], p) else 0
  }

  function IsUpperFn(c: char): bool { IsUpper(c) }
  function IsDigitFn(c: char): bool { IsDigit(c) }
  function IsAlnumFn(c: char): bool { IsAlnum(c) }

  /** `[A-Z]+\d+`: an issue code the ticket reader recognises. */
  predicate IsTicketCode(code: string) {
    var a := RunOf(code, IsUpperFn);
    a > 0 && var d := RunOf(code[a..], IsDigitFn); d > 0 && a + d == |code|
  }

  /** `[A-Z]+\d+-[a-zA-Z0-9]+`: a ticket id the reader recognises. Each run
      ends where the next character class begins, so the match is unique. */
  predicate IsTicketId(g: string) {
    var a := RunOf(g, IsUpperFn);
    a > 0 &&
    var d := RunOf(g[a..], IsDigitFn);
    d > 0 && a + d < |g| && g[a + d] == '-'
    && var rest := g[a + d + 1..];
    rest != "" && RunOf(rest, IsAlnumFn) == |rest|
  }

  /** `re.match(r'^-\s*\[([A-Z]+\d+-[a-zA-Z0-9]+)\]', line)`: the ticket id
      a TODO line opens with. */
  function TicketOnLine(line: string): (r: Option<string>)
    ensures r.Some? ==> IsTicketId(r.value)
  {
    if line == "" || line[0] != '-' then None
    else
      var j := 1 + SpaceLen(line[1..]);
      if j == |line| || line[j] != '[' then None
      else
        var k := j + 1 + CharPos(line[j + 1..], ']');
        if k == |line| || !IsTicketId(line[j + 1..k]) then None
        else Some(line[j + 1..k])
  }

  /** `_read_existing_tickets`: the ticket ids the lines of TODO.md open
      with; none when the file does not exist. */
  function ExistingTickets(todo: Option<string>): set<string> {
    match todo
    case None => {}
    case Some(content) =>
      var lines := SplitLines(content);
      set k | 0 <= k < |lines| && TicketOnLine(lines[k]).Some? :: TicketOnLine(lines[k]).value
  }

  function SeverityIcon(severity: string): string {
    if severity == "error" then "\U{1F534}"
    else if severity == "warning" then "\U{1F7E1}"
    else if severity == "info" then "\U{1F535}"
    else "\U{26AA}"
  }

  /** `_format_todo_entry`: the ticket line, the detail, and the repair when
      there was one. */
  function TodoEntry(issue: Issue): (e: string)
    ensures "- [" + TicketId(issue) + "] " <= e
  {
    var head := "- [" + TicketId(issue) + "] ";
    var entry := head + SeverityIcon(issue.severity) + " **" + issue.title + "**"
      + (if issue.file.Some? && issue.file.value != "" then " (`" + issue.file.value + "`)" else "")
      + "\n  - " + issue.detail
      + (if issue.fixed then "\n  - \U{2705} **Fixed**: " + issue.fixDescription else "");
    assert entry == head + entry[|head|..];
    entry
  }

  /** A code of the form `[A-Z]+\d+` and a title with at least one letter or
      digit give a ticket id the reader recognises. */
  lemma TicketIdWellFormed(issue: Issue)
    requires IsTicketCode(issue.code) && AlnumOnly(Lower(issue.title)) != ""
    ensures IsTicketId(TicketId(issue))
  {
    var code, n := issue.code, Take(AlnumOnly(Lower(issue.title)), 50);
    var g := TicketId(issue);
    assert g == code + "-" + n;
    var a := RunOf(code, IsUpperFn);
    var d := RunOf(code[a..], IsDigitFn);
    assert IsDigit(code[a]);
    RunOfStops(g, IsUpperFn, a);
    assert g[a..] == code[a..] + "-" + n;
    RunOfStops(g[a..], IsDigitFn, d);
    assert g[a + d] == '-';
    assert g[a + d + 1..] == n;
  }

  /** A run that holds up to `n` and fails at `n` has length `n`. */
  lemma RunOfStops(t: string, p: char -> bool, n: nat)
    requires n < |t| && !p(t[n]) && forall k :: 0 <= k < n ==> p(t[k])
    ensures RunOf(t, p) == n
  {
  }

  /** The first `c` of a text that has none before `n` and one at `n` is at `n`. */
  lemma CharPosAt(t: string, c: char, n: nat)
    requires n < |t| && t[n] == c && forall k :: 0 <= k < n ==> t[k] != c
    ensures CharPos(t, c) == n
  {
  }

  /** A line opening with `- [<id>]` for a recognised id yields that id. */
  lemma TicketOnHead(g: string, rest: string)
    requires IsTicketId(g)
    ensures TicketOnLine("- [" + g + "]" + rest) == Some(g)
  {
    var line := "- [" + g + "]" + rest;
    assert line[1..] == " [" + g + "]" + rest;
    assert SpaceLen(line[1..]) == 1;
    var a := RunOf(g, IsUpperFn);
    var d := RunOf(g[a..], IsDigitFn);
    var tail := g[a + d + 1..];
    forall k | 0 <= k < |g| ensures g[k] != ']' {
      if k < a {
      } else if k < a + d {
        assert g[a..][k - a] == g[k];
      } else if k > a + d {
        assert tail[k - a - d - 1] == g[k];
      }
    }
    var t := line[3..];
    assert t == g + "]" + rest;
    forall k | 0 <= k < |g| ensures t[k] != ']' {
      assert t[k] == g[k];
    }
    CharPosAt(t, ']', |g|);
    assert line[3..3 + |g|] == g;
  }

  /** `_read_existing_tickets` reads back the id of an entry that
      `_format_todo_entry` wrote, when the issue code has the form
      `[A-Z]+\d+` and the title holds a letter or a digit. */
  lemma TodoEntryReadBack(issue: Issue)
    requires IsTicketCode(issue.code) && AlnumOnly(Lower(issue.title)) != ""
    ensures TicketOnLine(TodoEntry(issue)) == Some(TicketId(issue))
    ensures TicketId(issue) in ExistingTickets(Some(TodoEntry(issue)))
  {
    var g := TicketId(issue);
    var e := TodoEntry(issue);
    TicketIdWellFormed(issue);
    var head := "- [" + g + "]";
    assert e == head + e[|head|..];
    TicketOnHead(g, e[|head|..]);
    FirstLineRead(e, g);
  }

  /** The first line of a text that opens with `- [<id>]` opens with it too. */
  lemma FirstLineRead(e: string, g: string)
    requires IsTicketId(g) && "- [" + g + "]" <= e
    ensures g in ExistingTickets(Some(e))
  {
    var head := "- [" + g + "]";
    HeadNoBreak(g);
    var n := LineLength(e);
    assert e[..|head|] == head;
    assert n >= |head|;
    var first := e[..n];
    assert first == head + first[|head|..];
    TicketOnHead(g, first[|head|..]);
    SplitLinesFirst(e);
    assert TicketOnLine(SplitLines(e)[0]) == Some(g);
  }

  lemma HeadNoBreak(g: string)
    requires IsTicketId(g)
    ensures forall k :: 0 <= k < |"- [" + g + "]"| ==> !IsLineBreak(("- [" + g + "]")[k])
  {
    var head := "- [" + g + "]";
    forall k | 0 <= k < |head| ensures !IsLineBreak(head[k]) {
      if 3 <= k < 3 + |g| { assert head[k] == g[k - 3]; IdCharShape(g, k - 3); }
    }
  }

  /** Every character of a recognised id is a letter, a digit or `-`. */
  lemma IdCharShape(g: string, k: nat)
    requires IsTicketId(g) && k < |g|
    ensures IsAlnum(g[k]) || g[k] == '-'
  {
    var a := RunOf(g, IsUpperFn);
    var d := RunOf(g[a..], IsDigitFn);
    if a <= k < a + d {
      assert g[a..][k - a] == g[k];
    } else if k > a + d {
      assert g[a + d + 1..][k - a - d - 1] == g[k];
    }
  }

  /** The ids of the unfixed issues `add_issues_to_todo` adds, given the ids
      already present: first occurrence only, in issue order. */
  function NewTickets(issues: seq<Issue>, existing: set<string>): (r: seq<Issue>)
    decreases |issues|
  {
    if issues == [] then []
    else if issues[0].fixed || TicketId(issues[0]) in existing then NewTickets(issues[1..], existing)
    else [issues[0]] + NewTickets(issues[1..], existing + {TicketId(issues[0])})
  }

  lemma NewTicketsStep(issues: seq<Issue>, k: nat, existing: set<string>)
    requires k < |issues|
    ensures NewTickets(issues[k..], existing) ==
      if issues[k].fixed || TicketId(issues[k]) in existing then NewTickets(issues[k + 1..], existing)
      else [issues[k]] + NewTickets(issues[k + 1..], existing + {TicketId(issues[k])})
  {
    assert issues[k..][0] == issues[k] && issues[k..][1..] == issues[k + 1..];
  }

  function TicketIds(issues: seq<Issue>): (r: seq<string>)
    ensures |r| == |issues|
  {
    seq(|issues|, k requires 0 <= k < |issues| => TicketId(issues[k]))
  }

  /** The issues added are unfixed issues of the input, in order, with ids
      that are new and pairwise distinct; every unfixed issue is added or
      has its id already present. */
  lemma {:induction false} NewTicketsFacts(issues: seq<Issue>, existing: set<string>)
    ensures var added := NewTickets(issues, existing);
      IsSubseq(added, issues)
      && (forall k :: 0 <= k < |added| ==> !added[k].fixed && TicketId(added[k]) !in existing)
      && Distinct(TicketIds(added))
      && (forall i :: i in issues && !i.fixed ==> TicketId(i) in existing || TicketId(i) in Elements(TicketIds(added)))
    decreases |issues|
  {
    var added := NewTickets(issues, existing);
    if issues != [] {
      var i0 := issues[0];
      if i0.fixed || TicketId(i0) in existing {
        NewTicketsFacts(issues[1..], existing);
        IsSubseqCons(added, i0, issues[1..]);
        assert [i0] + issues[1..] == issues;
        forall i | i in issues && !i.fixed ensures TicketId(i) in existing || TicketId(i) in Elements(TicketIds(added)) {
          if i != i0 { assert i in issues[1..]; }
        }
      } else {
        var e2 := existing + {TicketId(i0)};
        var rest := NewTickets(issues[1..], e2);
        NewTicketsFacts(issues[1..], e2);
        assert added == [i0] + rest;
        assert added[1..] == rest;
        assert issues[1..] == issues[1..];
        var ids := TicketIds(added);
        assert ids[0] == TicketId(i0);
        forall k | 1 <= k < |ids| ensures ids[k] == TicketIds(rest)[k - 1] {}
        forall a, b | 0 <= a < b < |ids| ensures ids[a] != ids[b] {
          if a > 0 { assert TicketIds(rest)[a - 1] != TicketIds(rest)[b - 1]; }
          else { assert TicketId(rest[b - 1]) !in e2; }
        }
        forall i | i in issues && !i.fixed ensures TicketId(i) in existing || TicketId(i) in Elements(ids) {
          if i == i0 {
            assert ids[0] == TicketId(i);
          } else {
            assert i in issues[1..];
            if TicketId(i) in Elements(TicketIds(rest)) {
              var k :| 0 <= k < |TicketIds(rest)| && TicketIds(rest)[k] == TicketId(i);
              assert ids[k + 1] == TicketId(i);
            } else if TicketId(i) == TicketId(i0) {
              assert ids[0] == TicketId(i);
            }
          }
        }
      }
    }
  }

  /** What `add_issues_to_todo` appends: a dated header and the entries. */
  function TodoSection(entries: seq<string>, timestamp: string): string {
    "\n## Issues Found - " + timestamp + "\n\n" + Join("\n\n", entries) + "\n"
  }

  /** The new TODO.md text for a non-empty section. */
  function TodoText(todo: Option<string>, section: string): string {
    if todo.Some? && Strip(todo.value) != "" then RStrip(todo.value) + section
    else "# TODO\n\n" + section
  }

  /** `add_issues_to_todo`: appends one entry per unfixed issue whose ticket
      id is neither in TODO.md nor added earlier in the same call; the
      count added, and the new file text when something was added. */
  method AddIssuesToTodo(issues: seq<Issue>, todo: Option<string>, timestamp: string)
    returns (count: nat, written: Option<string>)
    ensures var added := NewTickets(issues, ExistingTickets(todo));
      count == |added|
      && (count == 0 <==> written.None?)
      && (written.Some? ==> written.value == TodoText(todo, TodoSection(Entries(added), timestamp)))
  {
    if issues == [] {
      return 0, None;
    }
    var existing := ExistingTickets(todo);
    ghost var start := existing;
    var entries: seq<string> := [];
    var added: seq<Issue> := [];
    count := 0;
    var k := 0;
    while k < |issues|
      invariant TodoSoFar(issues, k, start, added, existing, entries, count)
    {
      ghost var added0, existing0, entries0, count0 := added, existing, entries, count;
      var issue := issues[k];
      if !issue.fixed {
        var id := TicketId(issue);
        if id !in existing {
          entries := entries + [TodoEntry(issue)];
          added := added + [issue];
          existing := existing + {id};
          count := count + 1;
        }
      }
      TodoStep(issues, k, start, added0, existing0, entries0, count0, added, existing, entries, count);
      k := k + 1;
    }
    TodoDone(issues, start, added, existing, entries, count);
    if entries == [] {
      return 0, None;
    }
    written := Some(TodoText(todo, TodoSection(entries, timestamp)));
  }

  /** The state of `add_issues_to_todo`'s loop after `k` issues. */
  ghost predicate TodoSoFar(issues: seq<Issue>, k: nat, start: set<string>, added: seq<Issue>,
                            existing: set<string>, entries: seq<string>, count: nat) {
    k <= |issues|
    && added + NewTickets(issues[k..], existing) == NewTickets(issues, start)
    && existing == start + Elements(TicketIds(added))
    && entries == Entries(added) && count == |added|
  }

  /** After the last issue, the loop state is what `NewTickets` describes. */
  lemma TodoDone(issues: seq<Issue>, start: set<string>, added: seq<Issue>,
                 existing: set<string>, entries: seq<string>, count: nat)
    requires TodoSoFar(issues, |issues|, start, added, existing, entries, count)
    ensures added == NewTickets(issues, start) && count == |added|
    ensures entries == Entries(added) && (entries == [] <==> count == 0)
  {
    assert issues[|issues|..] == [];
  }

  lemma TodoStep(issues: seq<Issue>, k: nat, start: set<string>,
                 added: seq<Issue>, existing: set<string>, entries: seq<string>, count: nat,
                 added': seq<Issue>, existing': set<string>, entries': seq<string>, count': nat)
    requires k < |issues| && TodoSoFar(issues, k, start, added, existing, entries, count)
    requires var i := issues[k];
      if i.fixed || TicketId(i) in existing
      then added' == added && existing' == existing && entries' == entries && count' == count
      else (added' == added + [i] && existing' == existing + {TicketId(i)}
            && entries' == entries + [TodoEntry(i)] && count' == count + 1)
    ensures TodoSoFar(issues, k + 1, start, added', existing', entries', count')
  {
    TodoLoopStep(issues, k, added, existing, start);
  }

  /** One turn of `add_issues_to_todo`'s loop: an issue is added exactly
      when `NewTickets` takes it, and the known ids grow by its id. */
  lemma {:induction false} TodoLoopStep(issues: seq<Issue>, k: nat, added: seq<Issue>, existing: set<string>, start: set<string>)
    requires k < |issues|
    requires added + NewTickets(issues[k..], existing) == NewTickets(issues, start)
    requires existing == start + Elements(TicketIds(added))
    ensures var i := issues[k];
      if i.fixed || TicketId(i) in existing then
        added + NewTickets(issues[k + 1..], existing) == NewTickets(issues, start)
      else
        (added + [i]) + NewTickets(issues[k + 1..], existing + {TicketId(i)}) == NewTickets(issues, start)
        && existing + {TicketId(i)} == start + Elements(TicketIds(added + [i]))
        && Entries(added + [i]) == Entries(added) + [TodoEntry(i)]
  {
    var i := issues[k];
    NewTicketsStep(issues, k, existing);
    if !(i.fixed || TicketId(i) in existing) {
      var id := TicketId(i);
      var later := NewTickets(issues[k + 1..], existing + {id});
      assert (added + [i]) + later == added + ([i] + later);
      EntriesAppend(added, i);
      ElementsAppend(TicketIds(added), id);
      assert TicketIds(added + [i]) == TicketIds(added) + [id];
    }
  }

  function Entries(issues: seq<Issue>): (r: seq<string>)
    ensures |r| == |issues|
  {
    seq(|issues|, k requires 0 <= k < |issues| => TodoEntry(issues[k]))
  }

  lemma {:induction false} EntriesAppend(issues: seq<Issue>, i: Issue)
    ensures Entries(issues + [i]) == Entries(issues) + [TodoEntry(i)]
  {
  }

  lemma {:induction false} ElementsAppend(xs: seq<string>, x: string)
    ensures Elements(xs + [x]) == Elements(xs) + {x}
  {
    var ys := xs + [x];
    forall y | y in Elements(ys) ensures y in Elements(xs) + {x} {
      var k :| 0 <= k < |ys| && ys[k] == y;
      if k < |xs| { assert xs[k] == y; }
    }
    forall y | y in Elements(xs) ensures y in Elements(ys) {
      var k :| 0 <= k < |xs| && xs[k] == y;
      assert ys[k] == y;
    }
    assert ys[|xs|] == x;
  }
}
