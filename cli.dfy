/** The pure helpers of the goal command line: ANSI stripping, the TICKET
    file, path grouping, chunked staging, numstat parsing, file
    descriptions, version bumping and the CHANGELOG entry. */
module Cli {
  import opened Wrappers
  import opened Strings
  import opened Seqs
  import opened Patterns
  import CommitGenerator

  // ------------------------------------------------------------ strip_ansi

  const ESC: char := '\U{001B}'

  /** `[0-9;]`, the parameter bytes the pattern accepts. */
  predicate IsParamChar(c: char) { ('0' <= c <= '9') || c == ';' }

  /** `[A-Za-z]`, the final bytes the pattern accepts. */
  predicate IsAsciiLetter(c: char) { ('A' <= c <= 'Z') || ('a' <= c <= 'z') }

  /** The end of the run of parameter characters starting at `i`. */
  function ParamRun(s: string, i: nat): (j: nat)
    requires i <= |s|
    ensures i <= j <= |s| && (j == |s| || !IsParamChar(s[j]))
    ensures forall k :: i <= k < j ==> IsParamChar(s[k])
    decreases |s| - i
  {
    if i < |s| && IsParamChar(s[i]) then ParamRun(s, i + 1) else i
  }

  /** The length of the control sequence `ESC [ params letter` that starts at
      `i`, if one does: the part of ECMA-48 (section 5.4) control sequences
      that `\x1b\[[0-9;]*[A-Za-z]` recognises. */
  function EscapeAt(s: string, i: nat): (r: Option<nat>)
    requires i <= |s|
    ensures r.Some? ==> 3 <= r.value && i + r.value <= |s| && s[i] == ESC
  {
    if i + 1 < |s| && s[i] == ESC && s[i + 1] == '[' then
      var j := ParamRun(s, i + 2);
      if j < |s| && IsAsciiLetter(s[j]) then Some(j + 1 - i) else None
    else None
  }

  /** `strip_ansi`: every control sequence the pattern finds, scanning left
      to right without overlap, removed. */
  function StripAnsi(s: string): (r: string)
    ensures |r| <= |s|
    decreases |s|
  {
    if s == "" then ""
    else
      match EscapeAt(s, 0)
      case Some(n) => StripAnsi(s[n..])
      case None => [s[0]] + StripAnsi(s[1..])
  }

  /** Text without an ESC character comes back unchanged. */
  lemma {:induction false} StripAnsiNoEscape(s: string)
    requires forall i :: 0 <= i < |s| ==> s[i] != ESC
    ensures StripAnsi(s) == s
    decreases |s|
  {
    if s != "" {
      StripAnsiNoEscape(s[1..]);
    }
  }

  /** Stripping only deletes characters: the output is a subsequence of the
      input. */
  lemma {:induction false} StripAnsiSubseq(s: string)
    ensures IsSubseq(StripAnsi(s), s)
    decreases |s|
  {
    if s != "" {
      match EscapeAt(s, 0)
      case Some(n) =>
        StripAnsiSubseq(s[n..]);
        SubseqOfSuffix(StripAnsi(s[n..]), s, n);
      case None =>
        StripAnsiSubseq(s[1..]);
        var r := [s[0]] + StripAnsi(s[1..]);
        assert r[0] == s[0] && r[1..] == StripAnsi(s[1..]);
    }
  }

  lemma {:induction false} SubseqOfSuffix(a: string, s: string, n: nat)
    requires n <= |s| && IsSubseq(a, s[n..])
    ensures IsSubseq(a, s)
    decreases n
  {
    if n > 0 {
      assert s[n - 1..][1..] == s[n..];
      IsSubseqCons(a, s[n - 1], s[n..]);
      assert [s[n - 1]] + s[n..] == s[n - 1..];
      SubseqOfSuffix(a, s, n - 1);
    }
  }

  /** A colour or cursor sequence in front of the text disappears. */
  lemma StripAnsiSequence(params: string, letter: char, t: string)
    requires forall i :: 0 <= i < |params| ==> IsParamChar(params[i])
    requires IsAsciiLetter(letter)
    ensures StripAnsi([ESC, '['] + params + [letter] + t) == StripAnsi(t)
  {
    var s := [ESC, '['] + params + [letter] + t;
    ParamRunOver(s, 2, |params|);
    assert EscapeAt(s, 0) == Some(|params| + 3);
    assert s[|params| + 3..] == t;
  }

  lemma {:induction false} ParamRunOver(s: string, i: nat, n: nat)
    requires i + n < |s| && !IsParamChar(s[i + n])
    requires forall k :: i <= k < i + n ==> IsParamChar(s[k])
    ensures ParamRun(s, i) == i + n
    decreases n
  {
    if n > 0 {
      ParamRunOver(s, i + 1, n - 1);
    }
  }

  // --------------------------------------------------------- TICKET file

  /** A replacement field `{name}` of a format string. */
  function Field(name: string): string { "{" + name + "}" }

  /** `'[{ticket}] {title}'`. */
  const DefaultFormat: string := "[" + Field("ticket") + "] " + Field("title")

  function DefaultTicketConfig(): map<string, string> {
    map["prefix" := "", "format" := DefaultFormat]
  }

  /** One line of the TICKET file: blank lines, `#` comments and lines
      without `=` are skipped; otherwise the text before the first `=` is
      the key and the rest the value, both stripped. */
  function TicketLine(cfg: map<string, string>, raw: string): map<string, string> {
    var line := Strip(raw);
    if line == "" || StartsWith(line, "#") then cfg
    else
      match SplitFirst(line, '=')
      case (_, None) => cfg
      case (k, Some(v)) => cfg[Strip(k) := Strip(v)]
  }

  /** The configuration after reading `lines` in order, later keys
      overwriting earlier ones. */
  function TicketLines(lines: seq<string>): (cfg: map<string, string>)
    ensures "prefix" in cfg && "format" in cfg
    decreases |lines|
  {
    if lines == [] then DefaultTicketConfig()
    else TicketLine(TicketLines(lines[..|lines| - 1]), lines[|lines| - 1])
  }

  /** What `read_tickert` answers for the file's content, None when the
      file does not exist. */
  function TicketConfig(file: Option<string>): (cfg: map<string, string>)
    ensures "prefix" in cfg && "format" in cfg
  {
    match file
    case None => DefaultTicketConfig()
    case Some(text) => TicketLines(SplitLines(text))
  }

  /** `read_tickert`: the defaults, then one update per line. */
  method ReadTickert(file: Option<string>) returns (cfg: map<string, string>)
    ensures cfg == TicketConfig(file)
  {
    cfg := DefaultTicketConfig();
    if file.None? {
      return;
    }
    var lines := SplitLines(file.value);
    for i := 0 to |lines|
      invariant cfg == TicketLines(lines[..i])
    {
      TicketStep(lines, i);
      var line := Strip(lines[i]);
      if line == "" || StartsWith(line, "#") {
        continue;
      }
      var (k, v) := SplitFirst(line, '=');
      if v.None? {
        continue;
      }
      cfg := cfg[Strip(k) := Strip(v.value)];
    }
    assert lines[..|lines|] == lines;
  }

  lemma TicketStep(lines: seq<string>, i: nat)
    requires i < |lines|
    ensures TicketLines(lines[..i + 1]) == TicketLine(TicketLines(lines[..i]), lines[i])
  {
    assert lines[..i + 1][..i] == lines[..i];
  }

  predicate NoLineBreak(s: string) {
    forall i :: 0 <= i < |s| ==> !IsLineBreak(s[i])
  }

  lemma SplitLinesOne(s: string)
    requires s != "" && NoLineBreak(s)
    ensures SplitLines(s) == [s]
  {
  }

  /** A file holding one `key=value` line reads back as the defaults with
      that key set, when key and value carry no padding of their own. */
  lemma TicketRoundTrip(k: string, v: string)
    requires k != "" && Strip(k) == k && Strip(v) == v && k[0] != '#'
    requires '=' !in k
    requires NoLineBreak(k) && NoLineBreak(v)
    ensures TicketConfig(Some(k + "=" + v)) == DefaultTicketConfig()[k := v]
  {
    var line := k + "=" + v;
    NoLineBreakAssignment(k, v);
    SplitLinesOne(line);
    assert TicketConfig(Some(line)) == TicketLines([line]);
    assert [line][..0] == [];
    assert TicketLines([line]) == TicketLine(DefaultTicketConfig(), line);
    TicketAssignment(DefaultTicketConfig(), k, v);
  }

  lemma NoLineBreakAssignment(k: string, v: string)
    requires NoLineBreak(k) && NoLineBreak(v)
    ensures NoLineBreak(k + "=" + v)
  {
    var line := k + "=" + v;
    forall i | 0 <= i < |line| ensures !IsLineBreak(line[i]) {
      if i < |k| { assert line[i] == k[i]; }
      else if i > |k| { assert line[i] == v[i - |k| - 1]; }
    }
  }

  /** A `key=value` line without padding sets the key. */
  lemma TicketAssignment(cfg: map<string, string>, k: string, v: string)
    requires k != "" && Strip(k) == k && Strip(v) == v && k[0] != '#'
    requires '=' !in k
    ensures TicketLine(cfg, k + "=" + v) == cfg[k := v]
  {
    AssignmentLine(k, v);
  }

  /** `key=value` with an unpadded key not starting with `#` is already
      stripped, is no comment, and splits at its first `=`. */
  lemma AssignmentLine(k: string, v: string)
    requires k != "" && Strip(k) == k && Strip(v) == v && k[0] != '#'
    requires '=' !in k
    ensures var line := k + "=" + v;
      Strip(line) == line && line != "" && !StartsWith(line, "#") && SplitFirst(line, '=') == (k, Some(v))
  {
    var line := k + "=" + v;
    assert line[0] == k[0];
    assert !IsSpace(line[0]);
    if v == "" {
      assert line[|line| - 1] == '=';
    } else {
      assert !IsSpace(v[|v| - 1]);
      assert line[|line| - 1] == v[|v| - 1];
    }
    StripUnpadded(line);
    SplitFirstAt(k, v, '=');
    assert line == k + ['='] + v;
  }

  /** A file with no `key=value` line leaves the defaults in place. */
  lemma {:induction false} TicketNoAssignments(lines: seq<string>)
    requires forall k :: 0 <= k < |lines| ==> '=' !in lines[k]
    ensures TicketLines(lines) == DefaultTicketConfig()
    decreases |lines|
  {
    if lines != [] {
      var front := lines[..|lines| - 1];
      TicketNoAssignments(front);
      StripKeepsOut(lines[|lines| - 1], '=');
      var line := Strip(lines[|lines| - 1]);
      SplitFirstNone(line, '=');
    }
  }

  // ---------------------------------------------------- apply_ticket_prefix

  /** `str.format` with the two keyword fields `ticket` and `title`: `{{`
      and `}}` are literal braces and any other field is an error. */
  function FormatTicket(fmt: string, ticket: string, title: string): (r: Result<string>)
    decreases |fmt|
  {
    if fmt == "" then Ok("")
    else if fmt[0] == '{' && |fmt| >= 2 && fmt[1] == '{' then
      Prepend("{", FormatTicket(fmt[2..], ticket, title))
    else if fmt[0] == '{' then
      match Find(fmt[1..], "}")
      case None => Err("ValueError: Single '{' encountered in format string")
      case Some(j) =>
        var name := fmt[1..][..j];
        var rest := fmt[1..][j + 1..];
        if name == "ticket" then Prepend(ticket, FormatTicket(rest, ticket, title))
        else if name == "title" then Prepend(title, FormatTicket(rest, ticket, title))
        else Err("KeyError: " + name)
    else if fmt[0] == '}' then
      if |fmt| >= 2 && fmt[1] == '}' then Prepend("}", FormatTicket(fmt[2..], ticket, title))
      else Err("ValueError: Single '}' encountered in format string")
    else Prepend([fmt[0]], FormatTicket(fmt[1..], ticket, title))
  }

  function Prepend(s: string, r: Result<string>): Result<string> {
    match r
    case Ok(t) => Ok(s + t)
    case Err(e) => Err(e)
  }

  /** A format without braces is its own output. */
  lemma {:induction false} FormatPlain(fmt: string, ticket: string, title: string)
    requires forall i :: 0 <= i < |fmt| ==> fmt[i] != '{' && fmt[i] != '}'
    ensures FormatTicket(fmt, ticket, title) == Ok(fmt)
    decreases |fmt|
  {
    if fmt != "" {
      FormatPlain(fmt[1..], ticket, title);
      assert [fmt[0]] + fmt[1..] == fmt;
    }
  }

  /** A `{ticket}` or `{title}` field is replaced by its value. */
  lemma FormatField(name: string, rest: string, ticket: string, title: string)
    requires name == "ticket" || name == "title"
    ensures FormatTicket(Field(name) + rest, ticket, title)
      == Prepend(if name == "ticket" then ticket else title, FormatTicket(rest, ticket, title))
  {
    var f := Field(name) + rest;
    assert f[1..] == name + "}" + rest;
    FindAfter(name, rest);
    assert f[1..][..|name|] == name;
    assert f[1..][|name| + 1..] == rest;
  }

  lemma FindAfter(name: string, rest: string)
    requires '}' !in name
    ensures Find(name + "}" + rest, "}") == Some(|name|)
  {
    var s := name + "}" + rest;
    assert s[|name|..|name| + 1] == "}";
    ContainsAt(s, "}", |name|);
    var r := Find(s, "}");
    assert "}" <= s[|name|..];
    assert r.value <= |name|;
    assert s[r.value] == '}';
  }

  /** A character other than a brace is copied. */
  lemma FormatChar(c: char, rest: string, ticket: string, title: string)
    requires c != '{' && c != '}'
    ensures FormatTicket([c] + rest, ticket, title) == Prepend([c], FormatTicket(rest, ticket, title))
  {
    assert ([c] + rest)[1..] == rest;
  }

  lemma FormatTail(ticket: string, title: string)
    ensures FormatTicket("] " + Field("title"), ticket, title) == Ok("] " + title)
  {
    var tail := Field("title");
    FormatField("title", "", ticket, title);
    assert tail + "" == tail && title + "" == title;
    assert FormatTicket("", ticket, title) == Ok("");
    var spaced := [' '] + tail;
    FormatChar(' ', tail, ticket, title);
    assert FormatTicket(spaced, ticket, title) == Ok([' '] + title);
    FormatChar(']', spaced, ticket, title);
    TwoChars(']', ' ', tail);
    TwoChars(']', ' ', title);
  }

  lemma TwoChars(a: char, b: char, t: string)
    ensures [a] + ([b] + t) == [a, b] + t
  {
  }

  /** The default format puts the ticket in brackets before the title. */
  lemma FormatDefault(ticket: string, title: string)
    ensures FormatTicket(DefaultFormat, ticket, title) == Ok("[" + ticket + "] " + title)
  {
    var tail := "] " + Field("title");
    FormatTail(ticket, title);
    FormatField("ticket", tail, ticket, title);
    FormatChar('[', Field("ticket") + tail, ticket, title);
    assert DefaultFormat == ['['] + (Field("ticket") + tail);
    assert "[" + (ticket + ("] " + title)) == "[" + ticket + "] " + title;
  }

  /** `apply_ticket_prefix` with the TICKET file's content as a parameter:
      the explicit ticket, else the configured prefix; nothing to add leaves
      the title alone; a format that fails falls back to `[ticket] title`. */
  function ApplyTicketPrefix(title: string, ticket: Option<string>, file: Option<string>): (r: string)
    ensures Strip(TicketValue(ticket, TicketConfig(file))) == "" ==> r == title
  {
    var cfg := TicketConfig(file);
    var t := Strip(TicketValue(ticket, cfg));
    if t == "" then title
    else
      var fmt := if cfg["format"] != "" then cfg["format"] else DefaultFormat;
      match FormatTicket(fmt, t, title)
      case Ok(s) => s
      case Err(_) => "[" + t + "] " + title
  }

  /** `ticket or cfg.get('prefix') or ''`. */
  function TicketValue(ticket: Option<string>, cfg: map<string, string>): string
    requires "prefix" in cfg
  {
    if ticket.Some? && ticket.value != "" then ticket.value else cfg["prefix"]
  }

  /** With no TICKET file an explicit ticket is put in brackets. */
  lemma TicketPrefixDefault(title: string, ticket: string)
    requires Strip(ticket) != ""
    ensures ApplyTicketPrefix(title, Some(ticket), None) == "[" + Strip(ticket) + "] " + title
  {
    FormatDefault(Strip(ticket), title);
  }

  /** An empty or blank ticket and no prefix leave the title unchanged. */
  lemma NoTicketNoPrefix(title: string, ticket: Option<string>)
    requires ticket.None? || Strip(ticket.value) == ""
    ensures ApplyTicketPrefix(title, ticket, None) == title
  {
    var cfg := TicketConfig(None);
    assert cfg == DefaultTicketConfig() && cfg["prefix"] == "";
    StripEmpty();
    assert Strip(TicketValue(ticket, cfg)) == "";
  }

  // --------------------------------------------------- split_paths_by_type

  datatype PathGroup = CodeGroup | DocsGroup | CiGroup | ExamplesGroup | OtherGroup

  /** The group of a path, by its lower-cased form: examples first, then
      docs, CI, code and the rest. */
  function GroupOf(p: string): PathGroup {
    var pl := Lower(p);
    if StartsWith(pl, "examples/") then ExamplesGroup
    else if StartsWith(pl, "docs/") || EndsWith(pl, ".md") || EndsWith(pl, ".rst") || Basename(pl) == "readme.md" then DocsGroup
    else if StartsWith(pl, ".github/") || StartsWith(pl, ".gitlab/") || EndsWith(pl, ".yml") || EndsWith(pl, ".yaml") then CiGroup
    else if StartsWith(pl, "goal/") || StartsWith(pl, "src/") || StartsWith(pl, "lib/") || EndsWith(pl, ".py") then CodeGroup
    else OtherGroup
  }

  function GroupName(g: PathGroup): string {
    match g
    case CodeGroup => "code"
    case DocsGroup => "docs"
    case CiGroup => "ci"
    case ExamplesGroup => "examples"
    case OtherGroup => "other"
  }

  /** The paths of one group, in input order. */
  function Members(paths: seq<string>, g: PathGroup): seq<string> {
    Filter(paths, ValueIs(GroupOf, g))
  }

  function Entry(paths: seq<string>, g: PathGroup): (string, seq<string>) {
    (GroupName(g), Members(paths, g))
  }

  /** A dict item kept only when its list is not empty. */
  function IfAny(name: string, xs: seq<string>): seq<(string, seq<string>)> {
    if xs != [] then [(name, xs)] else []
  }

  function IfAnyGroup(paths: seq<string>, g: PathGroup): seq<(string, seq<string>)> {
    IfAny(GroupName(g), Members(paths, g))
  }

  /** What `split_paths_by_type` returns, as the dict's items in its key
      order code, docs, ci, examples, other. */
  function SplitPaths(paths: seq<string>): seq<(string, seq<string>)> {
    IfAnyGroup(paths, CodeGroup) + IfAnyGroup(paths, DocsGroup) + IfAnyGroup(paths, CiGroup)
    + IfAnyGroup(paths, ExamplesGroup) + IfAnyGroup(paths, OtherGroup)
  }

  lemma MembersStep(paths: seq<string>, i: nat, g: PathGroup)
    requires i < |paths|
    ensures Members(paths[..i + 1], g) == Members(paths[..i], g) + (if GroupOf(paths[i]) == g then [paths[i]] else [])
  {
    assert paths[..i + 1] == paths[..i] + [paths[i]];
    FilterAppend(paths[..i], [paths[i]], ValueIs(GroupOf, g));
    assert [paths[i]][1..] == [];
  }

  /** `split_paths_by_type`: one pass appending each path to its group,
      then the non-empty groups. */
  method SplitPathsByType(paths: seq<string>) returns (groups: seq<(string, seq<string>)>)
    ensures groups == SplitPaths(paths)
  {
    var code, docs, ci, examples, other := [], [], [], [], [];
    for i := 0 to |paths|
      invariant code == Members(paths[..i], CodeGroup)
      invariant docs == Members(paths[..i], DocsGroup)
      invariant ci == Members(paths[..i], CiGroup)
      invariant examples == Members(paths[..i], ExamplesGroup)
      invariant other == Members(paths[..i], OtherGroup)
    {
      MembersStep(paths, i, CodeGroup);
      MembersStep(paths, i, DocsGroup);
      MembersStep(paths, i, CiGroup);
      MembersStep(paths, i, ExamplesGroup);
      MembersStep(paths, i, OtherGroup);
      var p := paths[i];
      var g := GroupOf(p);
      match g
      case ExamplesGroup => examples := examples + [p];
      case DocsGroup => docs := docs + [p];
      case CiGroup => ci := ci + [p];
      case CodeGroup => code := code + [p];
      case OtherGroup => other := other + [p];
    }
    assert paths[..|paths|] == paths;
    groups := IfAny("code", code) + IfAny("docs", docs) + IfAny("ci", ci) + IfAny("examples", examples) + IfAny("other", other);
  }

  /** Every path lands in exactly the entry of its group, and every entry
      is a non-empty, order-preserving selection of the input whose paths
      all belong to that group. */
  lemma SplitPathsPartition(paths: seq<string>)
    ensures forall p :: p in paths ==> Entry(paths, GroupOf(p)) in SplitPaths(paths) && p in Entry(paths, GroupOf(p)).1
    ensures forall e :: e in SplitPaths(paths) ==>
      e.1 != [] && IsSubseq(e.1, paths) && forall q :: q in e.1 ==> e.0 == GroupName(GroupOf(q))
  {
    forall p | p in paths ensures Entry(paths, GroupOf(p)) in SplitPaths(paths) && p in Entry(paths, GroupOf(p)).1 {
      FilterMembers(paths, ValueIs(GroupOf, GroupOf(p)));
      assert Entry(paths, GroupOf(p)) in IfAnyGroup(paths, GroupOf(p));
    }
    forall e | e in SplitPaths(paths)
      ensures e.1 != [] && IsSubseq(e.1, paths) && forall q :: q in e.1 ==> e.0 == GroupName(GroupOf(q))
    {
      var g := EntryGroup(paths, e);
      FilterIsSubseq(paths, ValueIs(GroupOf, g));
      FilterMembers(paths, ValueIs(GroupOf, g));
    }
  }

  /** The group an item of the result comes from. */
  lemma EntryGroup(paths: seq<string>, e: (string, seq<string>)) returns (g: PathGroup)
    requires e in SplitPaths(paths)
    ensures Members(paths, g) != [] && e == Entry(paths, g)
  {
    if e in IfAnyGroup(paths, CodeGroup) { g := CodeGroup; }
    else if e in IfAnyGroup(paths, DocsGroup) { g := DocsGroup; }
    else if e in IfAnyGroup(paths, CiGroup) { g := CiGroup; }
    else if e in IfAnyGroup(paths, ExamplesGroup) { g := ExamplesGroup; }
    else { g := OtherGroup; }
  }

  // ----------------------------------------------------------- stage_paths

  /** The size at which `stage_paths` flushes its chunk. */
  const ChunkSize: nat := 100

  /** `stage_paths`: the argument lists of the `git add --` calls it makes.
      No call for no paths; otherwise full chunks of 100 and a last,
      shorter one, together the input in order. */
  method StagePaths(paths: seq<string>) returns (calls: seq<seq<string>>)
    ensures Flatten(calls) == paths
    ensures paths == [] ==> calls == []
    ensures forall k :: 0 <= k < |calls| ==> 0 < |calls[k]| <= ChunkSize
    ensures forall k :: 0 <= k < |calls| - 1 ==> |calls[k]| == ChunkSize
  {
    calls := [];
    if paths == [] {
      return;
    }
    var chunk: seq<string> := [];
    for i := 0 to |paths|
      invariant StagedSoFar(paths[..i], calls, chunk)
    {
      StageStep(paths[..i], paths[i], calls, chunk);
      assert paths[..i + 1] == paths[..i] + [paths[i]];
      chunk := chunk + [paths[i]];
      if |chunk| >= ChunkSize {
        calls := calls + [chunk];
        chunk := [];
      }
    }
    assert paths[..|paths|] == paths;
    StageLast(paths, calls, chunk);
    if chunk != [] {
      calls := calls + [chunk];
    }
  }

  /** The calls made so far hold full chunks, and with the pending chunk
      they are the paths read so far, in order. */
  ghost predicate StagedSoFar(read: seq<string>, calls: seq<seq<string>>, chunk: seq<string>) {
    Flatten(calls) + chunk == read
    && |chunk| < ChunkSize
    && forall k :: 0 <= k < |calls| ==> |calls[k]| == ChunkSize
  }

  /** One path: it joins the chunk, which is flushed when full. */
  lemma StageStep(read: seq<string>, p: string, calls: seq<seq<string>>, chunk: seq<string>)
    requires StagedSoFar(read, calls, chunk)
    ensures var c := chunk + [p];
      if |c| >= ChunkSize then StagedSoFar(read + [p], calls + [c], [])
      else StagedSoFar(read + [p], calls, c)
  {
    var c := chunk + [p];
    assert Flatten(calls) + c == read + [p];
    if |c| >= ChunkSize {
      FlattenAppend(calls, [c]);
      assert Flatten([c]) == c by { assert [c][1..] == []; }
      assert Flatten(calls + [c]) + [] == read + [p];
    }
  }

  /** The last, partial chunk completes the calls. */
  lemma StageLast(paths: seq<string>, calls: seq<seq<string>>, chunk: seq<string>)
    requires paths != [] && StagedSoFar(paths, calls, chunk)
    ensures var all := if chunk != [] then calls + [chunk] else calls;
      Flatten(all) == paths
      && (forall k :: 0 <= k < |all| ==> 0 < |all[k]| <= ChunkSize)
      && (forall k :: 0 <= k < |all| - 1 ==> |all[k]| == ChunkSize)
  {
    if chunk != [] {
      FlattenAppend(calls, [chunk]);
      assert Flatten([chunk]) == chunk by { assert [chunk][1..] == []; }
    }
  }

  // ------------------------------------------------------ get_diff_stats

  /** What one numstat line contributes to the per-file map. */
  datatype FileRead = NotThree | FileCounts(path: string, a: int, d: int) | FileRaises

  /** Exactly three tab fields count; a count that `int()` rejects raises. */
  function ReadFileFields(parts: seq<string>): FileRead {
    if |parts| != 3 then NotThree
    else
      match (CommitGenerator.CountField(parts[0]), CommitGenerator.CountField(parts[1]))
      case (Some(a), Some(d)) => FileCounts(parts[2], a, d)
      case _ => FileRaises
  }

  function FileReads(rows: seq<seq<string>>): (r: seq<FileRead>)
    ensures |r| == |rows| && forall k :: 0 <= k < |rows| ==> r[k] == ReadFileFields(rows[k])
  {
    seq(|rows|, k requires 0 <= k < |rows| => ReadFileFields(rows[k]))
  }

  /** The per-file map, later lines overwriting earlier ones; the error
      `int()` raises propagates. */
  function FileStats(got: seq<FileRead>): Result<map<string, (int, int)>>
    decreases |got|
  {
    if got == [] then Ok(map[])
    else
      match FileStats(got[..|got| - 1])
      case Err(e) => Err(e)
      case Ok(m) =>
        match got[|got| - 1]
        case NotThree => Ok(m)
        case FileCounts(p, a, d) => Ok(m[p := (a, d)])
        case FileRaises => Err("ValueError: invalid literal for int()")
  }

  lemma FileStatsStep(got: seq<FileRead>, i: nat, m: map<string, (int, int)>)
    requires i < |got| && FileStats(got[..i]) == Ok(m)
    ensures FileStats(got[..i + 1]) == match got[i]
      case NotThree => Ok(m)
      case FileCounts(p, a, d) => Ok(m[p := (a, d)])
      case FileRaises => Err("ValueError: invalid literal for int()")
  {
    assert got[..i + 1][..i] == got[..i];
  }

  lemma {:induction false} FileStatsErrSticks(got: seq<FileRead>, n: nat)
    requires n <= |got| && FileStats(got[..n]).Err?
    ensures FileStats(got) == FileStats(got[..n])
    decreases |got| - n
  {
    if n < |got| {
      assert got[..n + 1][..n] == got[..n];
      FileStatsErrSticks(got, n + 1);
    } else {
      assert got[..n] == got;
    }
  }

  /** `get_diff_stats` in the CLI, given what `git diff --numstat` printed. */
  method GetDiffStats(stdout: string) returns (r: Result<map<string, (int, int)>>)
    ensures r == FileStats(FileReads(CommitGenerator.LineFields(Split(Strip(stdout), '\n'))))
  {
    var lines := Split(Strip(stdout), '\n');
    var fields := CommitGenerator.LineFields(lines);
    ghost var got := FileReads(fields);
    var stats: map<string, (int, int)> := map[];
    for i := 0 to |lines|
      invariant FileStats(got[..i]) == Ok(stats)
    {
      FileStatsStep(got, i, stats);
      var parts := fields[i];
      if |parts| == 3 {
        var adds := CommitGenerator.CountField(parts[0]);
        var dels := CommitGenerator.CountField(parts[1]);
        if adds.None? || dels.None? {
          FileStatsErrSticks(got, i + 1);
          return Err("ValueError: invalid literal for int()");
        }
        stats := stats[parts[2] := (adds.value, dels.value)];
      }
    }
    assert got[..|lines|] == got;
    return Ok(stats);
  }

  function Paths(rows: seq<CommitGenerator.Row>): set<string> {
    set k | 0 <= k < |rows| :: rows[k].path
  }

  /** Row `k` is the last one naming its file. */
  predicate LastFor(rows: seq<CommitGenerator.Row>, k: nat)
    requires k < |rows|
  {
    forall j :: k < j < |rows| ==> rows[j].path != rows[k].path
  }

  /** Lines that each name a file and its counts give the map of the last
      counts seen per file. */
  lemma {:induction false} FileStatsCounted(got: seq<FileRead>, rows: seq<CommitGenerator.Row>)
    requires |got| == |rows|
    requires forall k :: 0 <= k < |rows| ==> got[k] == FileCounts(rows[k].path, rows[k].added, rows[k].deleted)
    ensures FileStats(got).Ok?
    ensures FileStats(got).value.Keys == Paths(rows)
    ensures forall k :: 0 <= k < |rows| && LastFor(rows, k) ==>
      FileStats(got).value[rows[k].path] == (rows[k].added, rows[k].deleted)
    decreases |rows|
  {
    if rows != [] {
      var n := |rows| - 1;
      FileStatsCounted(got[..n], rows[..n]);
      var m := FileStats(got[..n]).value;
      FileStatsStep(got, n, m);
      assert got[..n + 1] == got;
      FileStatsLast(rows, m);
    }
  }

  lemma FileStatsLast(rows: seq<CommitGenerator.Row>, m: map<string, (int, int)>)
    requires rows != []
    requires m.Keys == Paths(rows[..|rows| - 1])
    requires forall k :: 0 <= k < |rows| - 1 && LastFor(rows[..|rows| - 1], k) ==> m[rows[k].path] == (rows[k].added, rows[k].deleted)
    ensures var r := rows[|rows| - 1]; var m2 := m[r.path := (r.added, r.deleted)];
      m2.Keys == Paths(rows)
      && forall k :: 0 <= k < |rows| && LastFor(rows, k) ==> m2[rows[k].path] == (rows[k].added, rows[k].deleted)
  {
    var n := |rows| - 1;
    var r := rows[n];
    var m2 := m[r.path := (r.added, r.deleted)];
    assert Paths(rows) == Paths(rows[..n]) + {r.path} by {
      forall p | p in Paths(rows) ensures p in Paths(rows[..n]) + {r.path} {
        var k :| 0 <= k < |rows| && rows[k].path == p;
        if k < n { assert rows[..n][k].path == p; }
      }
    }
    forall k | 0 <= k < |rows| && LastFor(rows, k) ensures m2[rows[k].path] == (rows[k].added, rows[k].deleted) {
      if k < n {
        assert LastFor(rows[..n], k);
        assert rows[k].path != r.path;
      }
    }
  }

  /** Reading back the numstat lines git prints for some files gives each
      file its counts (the last ones, for a file listed twice). */
  lemma NumstatFileRoundTrip(rows: seq<CommitGenerator.Row>)
    requires forall k :: 0 <= k < |rows| ==> CommitGenerator.PlainPath(rows[k].path)
    ensures var r := FileStats(FileReads(CommitGenerator.LineFields(CommitGenerator.RowLines(rows))));
      r.Ok? && r.value.Keys == Paths(rows)
      && forall k :: 0 <= k < |rows| && LastFor(rows, k) ==> r.value[rows[k].path] == (rows[k].added, rows[k].deleted)
  {
    var got := FileReads(CommitGenerator.LineFields(CommitGenerator.RowLines(rows)));
    forall k | 0 <= k < |rows| ensures got[k] == FileCounts(rows[k].path, rows[k].added, rows[k].deleted) {
      RowReadsBack(rows[k]);
    }
    FileStatsCounted(got, rows);
  }

  lemma RowReadsBack(r: CommitGenerator.Row)
    requires CommitGenerator.PlainPath(r.path)
    ensures ReadFileFields(Split(CommitGenerator.RowLine(r), '\t')) == FileCounts(r.path, r.added, r.deleted)
  {
    CommitGenerator.RowFields(r);
    CommitGenerator.CountFieldNat(r.added);
    CommitGenerator.CountFieldNat(r.deleted);
  }

  // ------------------------------------------------------- categorize_file

  /** `categorize_file`: the CHANGELOG line for a changed file; None for the
      files the release step writes itself. */
  function CategorizeFile(filename: string): (r: Option<string>)
    ensures r.None? <==> Basename(filename) in ["CHANGELOG.md", "VERSION"]
  {
    var base := Basename(filename);
    if base in ["CHANGELOG.md", "VERSION"] then None
    else if base == "Makefile" then Some("build: update Makefile")
    else if base == "package.json" then Some("deps: update package.json")
    else if base in ["Dockerfile", "docker-compose.yml"] then Some("docker: update " + base)
    else if base == "README.md" then Some("docs: update README")
    else if EndsWith(filename, ".md") then Some("docs: update " + base)
    else if EndsWith(filename, ".py") then Some("update " + filename)
    else if EndsWith(filename, ".js") || EndsWith(filename, ".ts") || EndsWith(filename, ".tsx") || EndsWith(filename, ".jsx") then Some("update " + filename)
    else if EndsWith(filename, ".yml") || EndsWith(filename, ".yaml") then Some("config: update " + base)
    else if EndsWith(filename, ".sh") then Some("scripts: update " + base)
    else Some("update " + filename)
  }

  lemma BasenameNoSlash(p: string)
    requires '/' !in p
    ensures Basename(p) == p
  {
    assert RFind(p, '/').None?;
  }

  lemma EndsWithAppend(a: string, b: string)
    ensures EndsWith(a + b, b)
  {
    assert (a + b)[|a + b| - |b|..] == b;
  }

  /** Every description except the README one names the file: it ends with
      the file's base name. */
  lemma CategorizeNamesFile(filename: string)
    requires CategorizeFile(filename).Some? && Basename(filename) != "README.md"
    ensures EndsWith(CategorizeFile(filename).value, Basename(filename))
  {
    var base := Basename(filename);
    var r := CategorizeFile(filename).value;
    if base == "Makefile" {
      assert r == "build: update " + base;
      EndsWithAppend("build: update ", base);
    } else if base == "package.json" {
      assert r == "deps: update " + base;
      EndsWithAppend("deps: update ", base);
    } else if base in ["Dockerfile", "docker-compose.yml"] {
      EndsWithAppend("docker: update ", base);
    } else if EndsWith(filename, ".md") {
      EndsWithAppend("docs: update ", base);
    } else if EndsWith(filename, ".py") || EndsWith(filename, ".js") || EndsWith(filename, ".ts")
              || EndsWith(filename, ".tsx") || EndsWith(filename, ".jsx") {
      NamesPath(filename);
    } else if EndsWith(filename, ".yml") || EndsWith(filename, ".yaml") {
      EndsWithAppend("config: update ", base);
    } else if EndsWith(filename, ".sh") {
      EndsWithAppend("scripts: update ", base);
    } else {
      NamesPath(filename);
    }
  }

  lemma NamesPath(filename: string)
    ensures EndsWith("update " + filename, Basename(filename))
  {
    var base := Basename(filename);
    var r := "update " + filename;
    assert r[|r| - |base|..] == filename[|filename| - |base|..];
  }

  /** The README rule comes before the generic Markdown rule. */
  lemma ReadmeBeforeMarkdown(dir: string)
    requires '/' !in dir
    ensures CategorizeFile(dir + "/README.md") == Some("docs: update README")
  {
    var f := dir + "/README.md";
    assert f[|dir|] == '/';
    assert f[|dir| + 1..] == "README.md";
    assert RFind(f, '/') == Some(|dir|);
  }

  // ---------------------------------------------------------- bump_version

  /** `f"{major}.{minor}.{patch}"`. */
  function Render(major: int, minor: int, patch: int): string {
    IntToString(major) + "." + IntToString(minor) + "." + IntToString(patch)
  }

  /** The next version after `major.minor.patch`: the named part goes up by
      one and the parts below it restart at zero, as Semantic Versioning
      2.0.0 (items 6 to 8) orders them; any other bump type is a patch. */
  function Next(major: int, minor: int, patch: int, bumpType: string): (r: (int, int, int))
    ensures bumpType == "major" ==> r == (major + 1, 0, 0)
    ensures bumpType == "minor" ==> r == (major, minor + 1, 0)
    ensures bumpType !in ["major", "minor"] ==> r == (major, minor, patch + 1)
  {
    if bumpType == "major" then (major + 1, 0, 0)
    else if bumpType == "minor" then (major, minor + 1, 0)
    else (major, minor, patch + 1)
  }

  /** `bump_version`: three dot-separated integers go to their next
      version; anything else gives `1.0.0`. */
  function BumpVersion(version: string, bumpType: string): string {
    var parts := Split(version, '.');
    if |parts| != 3 then "1.0.0"
    else
      match (ParseInt(parts[0]), ParseInt(parts[1]), ParseInt(parts[2]))
      case (Some(major), Some(minor), Some(patch)) =>
        var n := Next(major, minor, patch, bumpType);
        Render(n.0, n.1, n.2)
      case _ => "1.0.0"
  }

  /** A rendered version of naturals reads back as its three parts. */
  lemma RenderFields(major: nat, minor: nat, patch: nat)
    ensures var parts := Split(Render(major, minor, patch), '.');
      |parts| == 3 && ParseInt(parts[0]) == Some(major) && ParseInt(parts[1]) == Some(minor)
      && ParseInt(parts[2]) == Some(patch)
  {
    var ps := [NatToString(major), NatToString(minor), NatToString(patch)];
    assert Join(".", ps) == Render(major, minor, patch);
    SplitOfJoin(ps, '.');
    ParseNat(major);
    ParseNat(minor);
    ParseNat(patch);
  }

  /** Bumping a rendered version gives the rendered next version. */
  lemma BumpRendered(major: nat, minor: nat, patch: nat, bumpType: string)
    ensures var n := Next(major, minor, patch, bumpType);
      BumpVersion(Render(major, minor, patch), bumpType) == Render(n.0, n.1, n.2)
  {
    RenderFields(major, minor, patch);
  }

  lemma {:induction false} SplitNoSep(s: string, sep: char)
    requires sep !in s
    ensures Split(s, sep) == [s]
    decreases |s|
  {
    if s != "" {
      SplitNoSep(s[1..], sep);
      assert [s[0]] + s[1..] == s;
    }
  }

  /** A version without a dot restarts at `1.0.0`. */
  lemma BumpMalformed(version: string, bumpType: string)
    requires '.' !in version
    ensures BumpVersion(version, bumpType) == "1.0.0"
  {
    SplitNoSep(version, '.');
  }

  /** The second of two bumps reads the first one's output back. */
  lemma BumpTwice(major: nat, minor: nat, patch: nat, t1: string, t2: string)
    ensures var n1 := Next(major, minor, patch, t1); var n2 := Next(n1.0, n1.1, n1.2, t2);
      BumpVersion(BumpVersion(Render(major, minor, patch), t1), t2) == Render(n2.0, n2.1, n2.2)
  {
    BumpRendered(major, minor, patch, t1);
    var n1 := Next(major, minor, patch, t1);
    BumpRendered(n1.0, n1.1, n1.2, t2);
  }

  // -------------------------------------------------------- update_changelog

  /** The settings `update_changelog` reads from a non-empty config:
      `git.changelog.group_by_domain` and `git.commit.domain_mapping`, the
      latter in its insertion order. */
  datatype ChangelogSettings = ChangelogSettings(groupByDomain: bool, mapping: seq<(string, string)>)

  /** A mapping pattern covers a file by `fnmatch` or, when it ends in a
      slash and a star, by the prefix before them. */
  predicate PatternCovers(pattern: string, f: string) {
    Glob(pattern, f) || (EndsWith(pattern, "/" + "*") && StartsWith(f, pattern[..|pattern| - 2]))
  }

  /** The domain of the first mapping entry that covers the file, else
      `other`. */
  function DomainFor(mapping: seq<(string, string)>, f: string): (r: string)
    ensures r == "other" || exists k :: 0 <= k < |mapping| && mapping[k].1 == r && PatternCovers(mapping[k].0, f)
    decreases |mapping|
  {
    if mapping == [] then "other"
    else if PatternCovers(mapping[0].0, f) then mapping[0].1
    else
      var r := DomainFor(mapping[1..], f);
      assert r != "other" ==> exists k :: 0 <= k < |mapping[1..]| && mapping[1..][k].1 == r && PatternCovers(mapping[1..][k].0, f);
      r
  }

  /** Entries that do not cover the file are passed over. */
  lemma {:induction false} DomainForSkip(mapping: seq<(string, string)>, f: string, n: nat)
    requires n <= |mapping| && forall i :: 0 <= i < n ==> !PatternCovers(mapping[i].0, f)
    ensures DomainFor(mapping, f) == DomainFor(mapping[n..], f)
    decreases n
  {
    if n > 0 {
      DomainForSkip(mapping[1..], f, n - 1);
      assert mapping[1..][n - 1..] == mapping[n..];
    }
  }

  /** The first entry that covers the file decides its domain. */
  lemma DomainForHit(mapping: seq<(string, string)>, f: string, n: nat)
    requires n < |mapping| && PatternCovers(mapping[n].0, f)
    requires forall i :: 0 <= i < n ==> !PatternCovers(mapping[i].0, f)
    ensures DomainFor(mapping, f) == mapping[n].1
  {
    DomainForSkip(mapping, f, n);
    assert mapping[n..][0] == mapping[n];
  }

  /** A pattern that starts with a plain character other than the file's
      first does not cover it. */
  lemma FirstCharMiss(pattern: string, f: string)
    requires |pattern| >= 3 && f != "" && pattern[0] != '*' && pattern[0] != '?' && pattern[0] != f[0]
    ensures !PatternCovers(pattern, f)
  {
  }

  /** One CHANGELOG line and the domain it is filed under. */
  datatype Change = Change(domain: string, desc: string)

  /** The change a file contributes: none for an empty name or a file
      without a description. */
  function DescribeFile(mapping: seq<(string, string)>, f: string): (r: Option<Change>)
    ensures r.Some? <==> f != "" && CategorizeFile(f).Some?
    ensures r.Some? ==> r.value == Change(DomainFor(mapping, f), CategorizeFile(f).value)
  {
    if f == "" then None
    else match CategorizeFile(f)
      case None => None
      case Some(d) => Some(Change(DomainFor(mapping, f), d))
  }

  function Descriptions(mapping: seq<(string, string)>, files: seq<string>): (r: seq<Option<Change>>)
    ensures |r| == |files| && forall k :: 0 <= k < |files| ==> r[k] == DescribeFile(mapping, files[k])
  {
    seq(|files|, k requires 0 <= k < |files| => DescribeFile(mapping, files[k]))
  }

  /** The present changes, in order. */
  function Collect(opts: seq<Option<Change>>): (r: seq<Change>)
    ensures |r| <= |opts|
    decreases |opts|
  {
    if opts == [] then []
    else
      var o := opts[|opts| - 1];
      Collect(opts[..|opts| - 1]) + (if o.Some? then [o.value] else [])
  }

  /** The changes of a file list, in file order. */
  function Changes(mapping: seq<(string, string)>, files: seq<string>): seq<Change> {
    Collect(Descriptions(mapping, files))
  }

  lemma CollectStep(opts: seq<Option<Change>>, i: nat)
    requires i < |opts|
    ensures Collect(opts[..i + 1]) == Collect(opts[..i]) + (if opts[i].Some? then [opts[i].value] else [])
  {
    assert opts[..i + 1][..i] == opts[..i];
  }

  lemma {:induction false} CollectHas(opts: seq<Option<Change>>, k: nat)
    requires k < |opts| && opts[k].Some?
    ensures opts[k].value in Collect(opts)
    decreases |opts|
  {
    if k < |opts| - 1 {
      CollectHas(opts[..|opts| - 1], k);
    }
  }

  /** Every described file's change is among the changes. */
  lemma ChangeOfFile(mapping: seq<(string, string)>, files: seq<string>, k: nat)
    requires k < |files| && files[k] != "" && CategorizeFile(files[k]).Some?
    ensures Change(DomainFor(mapping, files[k]), CategorizeFile(files[k]).value) in Changes(mapping, files)
  {
    CollectHas(Descriptions(mapping, files), k);
  }

  /** The descriptions of a list of changes. */
  function Descs(cs: seq<Change>): (r: seq<string>)
    ensures |r| == |cs| && forall k :: 0 <= k < |cs| ==> r[k] == cs[k].desc
  {
    seq(|cs|, k requires 0 <= k < |cs| => cs[k].desc)
  }

  /** The descriptions filed under one domain, in order. */
  function DomainChanges(cs: seq<Change>, d: string): seq<string>
    decreases |cs|
  {
    if cs == [] then []
    else
      var c := cs[|cs| - 1];
      DomainChanges(cs[..|cs| - 1], d) + (if c.domain == d then [c.desc] else [])
  }

  lemma DomainChangesSnoc(cs: seq<Change>, c: Change, d: string)
    ensures DomainChanges(cs + [c], d) == DomainChanges(cs, d) + (if c.domain == d then [c.desc] else [])
  {
    assert (cs + [c])[..|cs|] == cs;
  }

  lemma {:induction false} DomainChangesHas(cs: seq<Change>, k: nat)
    requires k < |cs|
    ensures cs[k].desc in DomainChanges(cs, cs[k].domain)
    decreases |cs|
  {
    if k < |cs| - 1 {
      DomainChangesHas(cs[..|cs| - 1], k);
    }
  }

  /** The domains of the changes in the order they first appear: the key
      order of `domain_changes`. */
  function FirstSeen(cs: seq<Change>): seq<string>
    decreases |cs|
  {
    if cs == [] then []
    else
      var seen := FirstSeen(cs[..|cs| - 1]);
      var d := cs[|cs| - 1].domain;
      if d in seen then seen else seen + [d]
  }

  lemma FirstSeenSnoc(cs: seq<Change>, c: Change)
    ensures FirstSeen(cs + [c]) == if c.domain in FirstSeen(cs) then FirstSeen(cs) else FirstSeen(cs) + [c.domain]
  {
    assert (cs + [c])[..|cs|] == cs;
  }

  lemma {:induction false} FirstSeenHas(cs: seq<Change>, k: nat)
    requires k < |cs|
    ensures cs[k].domain in FirstSeen(cs)
    decreases |cs|
  {
    if k < |cs| - 1 {
      FirstSeenHas(cs[..|cs| - 1], k);
    }
  }

  /** `- item` lines. */
  function Bullets(items: seq<string>): string
    decreases |items|
  {
    if items == [] then "" else "- " + items[0] + "\n" + Bullets(items[1..])
  }

  /** The first `cap` items, then `... and N more<what>` for the rest. */
  function Capped(items: seq<string>, cap: nat, what: string): (r: seq<string>)
    ensures |items| <= cap ==> r == items
    ensures |items| > cap ==>
      |r| == cap + 1 && r[..cap] == items[..cap] && r[cap] == "... and " + NatToString(|items| - cap) + " more" + what
  {
    if |items| <= cap then items
    else items[..cap] + ["... and " + NatToString(|items| - cap) + " more" + what]
  }

  function EntryHeader(version: string, date: string, message: string): string {
    "## [" + version + "] - " + date + "\n\n" + "### Summary\n\n" + message + "\n\n"
  }

  function Backticked(xs: seq<string>): (r: seq<string>)
    ensures |r| == |xs| && forall k :: 0 <= k < |xs| ==> r[k] == "`" + xs[k] + "`"
  {
    seq(|xs|, k requires 0 <= k < |xs| => "`" + xs[k] + "`")
  }

  /** The `**Key Changes:**` line naming at most five entities. */
  function KeyChanges(entities: seq<string>): string {
    if entities == [] then ""
    else "**Key Changes:** " + Join(", ", Backticked(Take(entities, 5))) + "\n\n"
  }

  /** One domain's section: its capitalised name, at most ten lines and a
      count of the rest; nothing for a domain without changes. */
  function DomainSection(d: string, items: seq<string>): string {
    if items == [] then ""
    else "### " + Capitalize(d) + "\n\n" + Bullets(Capped(items, 10, "")) + "\n"
  }

  /** The concatenation of rendered pieces, in order. */
  function Concat(parts: seq<string>): string
    decreases |parts|
  {
    if parts == [] then "" else Concat(parts[..|parts| - 1]) + parts[|parts| - 1]
  }

  /** The section of each domain of `order`, in that order. */
  function Sections(cs: seq<Change>, order: seq<string>): (r: seq<string>)
    ensures |r| == |order| && forall k :: 0 <= k < |order| ==> r[k] == DomainSection(order[k], DomainChanges(cs, order[k]))
  {
    seq(|order|, k requires 0 <= k < |order| => DomainSection(order[k], DomainChanges(cs, order[k])))
  }

  function DomainSections(cs: seq<Change>, order: seq<string>): string {
    Concat(Sections(cs, order))
  }

  /** The order in which the source writes the domain sections. */
  const DomainOrder: seq<string> := ["core", "api", "app", "docs", "test", "build", "ci", "config", "other"]

  /** The entry without domain grouping: every description, at most twenty
      lines and a count of the rest. */
  function LegacyEntry(version: string, date: string, message: string, changes: seq<string>): string {
    EntryHeader(version, date, message)
    + (if changes != [] then "### Changes\n\n" + Bullets(Capped(changes, 20, " changes")) else "")
    + "\n"
  }

  /** The domain-grouped entry as written: sections for the fixed order
      only. */
  function DomainEntryAsWritten(version: string, date: string, message: string, cs: seq<Change>,
                                entities: seq<string>): string {
    EntryHeader(version, date, message) + KeyChanges(entities) + DomainSections(cs, DomainOrder) + "\n"
  }

  /** A change filed under a domain outside the order is not written. */
  lemma OutsideOrderDropped(cs: seq<Change>, c: Change, order: seq<string>)
    requires c.domain !in order
    ensures DomainSections(cs + [c], order) == DomainSections(cs, order)
  {
    forall k | 0 <= k < |order|
      ensures DomainChanges(cs + [c], order[k]) == DomainChanges(cs, order[k])
    {
      DomainChangesSnoc(cs, c, order[k]);
    }
    assert Sections(cs + [c], order) == Sections(cs, order);
  }

  lemma DescriptionsSnoc(mapping: seq<(string, string)>, files: seq<string>, f: string)
    ensures Descriptions(mapping, files + [f]) == Descriptions(mapping, files) + [DescribeFile(mapping, f)]
  {
  }

  /** A `Dockerfile` is described as a docker change. */
  lemma DockerfileDescription()
    ensures CategorizeFile("Dockerfile") == Some("docker: update Dockerfile")
  {
    BasenameNoSlash("Dockerfile");
    var base := Basename("Dockerfile");
    assert base !in ["CHANGELOG.md", "VERSION"] && base != "Makefile" && base != "package.json";
    assert "docker: update " + base == "docker: update Dockerfile";
  }

  lemma ChangesSnoc(mapping: seq<(string, string)>, files: seq<string>, f: string)
    ensures var o := DescribeFile(mapping, f);
      Changes(mapping, files + [f]) == Changes(mapping, files) + (if o.Some? then [o.value] else [])
  {
    DescriptionsSnoc(mapping, files, f);
    var opts := Descriptions(mapping, files + [f]);
    assert opts[..|opts| - 1] == Descriptions(mapping, files);
  }

  /** A file filed under a domain outside the order adds no section text. */
  lemma OutsideOrderFile(mapping: seq<(string, string)>, files: seq<string>, f: string, order: seq<string>)
    requires DomainFor(mapping, f) !in order
    ensures DomainSections(Changes(mapping, files + [f]), order) == DomainSections(Changes(mapping, files), order)
  {
    ChangesSnoc(mapping, files, f);
    var o := DescribeFile(mapping, f);
    if o.Some? {
      assert o.value.domain == DomainFor(mapping, f);
      OutsideOrderDropped(Changes(mapping, files), o.value, order);
    } else {
      assert Changes(mapping, files + [f]) == Changes(mapping, files) + [];
      assert Changes(mapping, files + [f]) == Changes(mapping, files);
    }
  }

  /** A file whose domain is outside the fixed order leaves the grouped
      entry as it was. */
  lemma OutsideOrderFileDropped(version: string, date: string, message: string, files: seq<string>,
                                mapping: seq<(string, string)>, entities: seq<string>, f: string)
    requires DomainFor(mapping, f) !in DomainOrder
    ensures DomainEntryAsWritten(version, date, message, Changes(mapping, files + [f]), entities)
      == DomainEntryAsWritten(version, date, message, Changes(mapping, files), entities)
  {
    OutsideOrderFile(mapping, files, f, DomainOrder);
  }

  /** A `Dockerfile` or `docker-compose.yml` that the mapping files under
      `docker` gets a description, yet leaves the grouped entry as it
      was. */
  lemma DockerFileDroppedAsWritten(version: string, date: string, message: string, files: seq<string>,
                                   mapping: seq<(string, string)>, entities: seq<string>, f: string)
    requires Basename(f) in ["Dockerfile", "docker-compose.yml"]
    requires DomainFor(mapping, f) == "docker"
    ensures DescribeFile(mapping, f) == Some(Change("docker", "docker: update " + Basename(f)))
    ensures DomainEntryAsWritten(version, date, message, Changes(mapping, files + [f]), entities)
      == DomainEntryAsWritten(version, date, message, Changes(mapping, files), entities)
  {
    DockerFileChange(mapping, f);
    OutsideOrderFileDropped(version, date, message, files, mapping, entities, f);
  }

  lemma DockerFileChange(mapping: seq<(string, string)>, f: string)
    requires Basename(f) in ["Dockerfile", "docker-compose.yml"]
    requires DomainFor(mapping, f) == "docker"
    ensures DescribeFile(mapping, f) == Some(Change("docker", "docker: update " + Basename(f)))
  {
    var base := Basename(f);
    assert base !in ["CHANGELOG.md", "VERSION"] && base != "Makefile" && base != "package.json";
    assert f != "";
  }

  function NotInOrder(d: string): bool { d !in DomainOrder }

  /** The fixed order, then every other domain in first-seen order. */
  function SectionOrder(cs: seq<Change>): seq<string> {
    DomainOrder + Filter(FirstSeen(cs), NotInOrder)
  }

  /** The domain-grouped entry with a section for every domain. */
  function DomainEntry(version: string, date: string, message: string, cs: seq<Change>, entities: seq<string>): string {
    EntryHeader(version, date, message) + KeyChanges(entities) + DomainSections(cs, SectionOrder(cs)) + "\n"
  }

  /** The entry `update_changelog` puts in front of the CHANGELOG; `None`
      settings stand for a missing or empty config. */
  function ChangelogEntry(version: string, date: string, message: string, files: seq<string>,
                          settings: Option<ChangelogSettings>, entities: seq<string>): string {
    if settings.Some? && settings.value.groupByDomain then
      DomainEntry(version, date, message, Changes(settings.value.mapping, files), entities)
    else
      LegacyEntry(version, date, message, Descs(Changes([], files)))
  }

  /** Every change's domain has its place in the section order. */
  lemma SectionOrderCovers(cs: seq<Change>, k: nat)
    requires k < |cs|
    ensures cs[k].domain in SectionOrder(cs)
  {
    FirstSeenHas(cs, k);
    FilterMembers(FirstSeen(cs), NotInOrder);
  }

  /** `s` holds `x` somewhere. */
  ghost predicate Infix(s: string, x: string) {
    exists pre, post :: s == pre + x + post
  }

  lemma {:induction false} ConcatHas(parts: seq<string>, i: nat)
    requires i < |parts|
    ensures Infix(Concat(parts), parts[i])
    decreases |parts|
  {
    var n := |parts| - 1;
    var front := Concat(parts[..n]);
    if i == n {
      assert Concat(parts) == front + parts[i] + "";
    } else {
      ConcatHas(parts[..n], i);
      var pre, post :| front == pre + parts[..n][i] + post;
      assert Concat(parts) == pre + parts[i] + (post + parts[n]);
    }
  }

  lemma InfixWrap(a: string, s: string, b: string, x: string)
    requires Infix(s, x)
    ensures Infix(a + s + b, x)
  {
    var pre, post :| s == pre + x + post;
    assert a + s + b == (a + pre) + x + (post + b);
  }

  /** A domain of the order has its section written. */
  lemma SectionInOrder(cs: seq<Change>, order: seq<string>, d: string)
    requires d in order
    ensures Infix(DomainSections(cs, order), DomainSection(d, DomainChanges(cs, d)))
  {
    var i :| 0 <= i < |order| && order[i] == d;
    ConcatHas(Sections(cs, order), i);
  }

  /** Every described file's line is filed under its domain. */
  lemma FileFiled(mapping: seq<(string, string)>, files: seq<string>, k: nat)
    requires k < |files| && files[k] != "" && CategorizeFile(files[k]).Some?
    ensures var cs := Changes(mapping, files); var d := DomainFor(mapping, files[k]);
      CategorizeFile(files[k]).value in DomainChanges(cs, d) && d in SectionOrder(cs)
  {
    var cs := Changes(mapping, files);
    var c := Change(DomainFor(mapping, files[k]), CategorizeFile(files[k]).value);
    ChangeOfFile(mapping, files, k);
    var j :| 0 <= j < |cs| && cs[j] == c;
    DomainChangesHas(cs, j);
    SectionOrderCovers(cs, j);
  }

  /** In the grouped entry every described file's line is listed under its
      domain, and that domain's section is written. */
  lemma DescribedFileWritten(version: string, date: string, message: string, files: seq<string>,
                             mapping: seq<(string, string)>, entities: seq<string>, k: nat)
    requires k < |files| && files[k] != "" && CategorizeFile(files[k]).Some?
    ensures var cs := Changes(mapping, files); var d := DomainFor(mapping, files[k]);
      CategorizeFile(files[k]).value in DomainChanges(cs, d)
      && Infix(DomainEntry(version, date, message, cs, entities), DomainSection(d, DomainChanges(cs, d)))
  {
    var cs := Changes(mapping, files);
    var d := DomainFor(mapping, files[k]);
    FileFiled(mapping, files, k);
    SectionInOrder(cs, SectionOrder(cs), d);
    InfixWrap(EntryHeader(version, date, message) + KeyChanges(entities), DomainSections(cs, SectionOrder(cs)), "\n",
              DomainSection(d, DomainChanges(cs, d)));
  }

  lemma {:induction false} FirstSeenFrom(cs: seq<Change>, x: string)
    requires x in FirstSeen(cs)
    ensures exists k :: 0 <= k < |cs| && cs[k].domain == x
    decreases |cs|
  {
    var n := |cs| - 1;
    if x in FirstSeen(cs[..n]) {
      FirstSeenFrom(cs[..n], x);
      var k :| 0 <= k < n && cs[..n][k].domain == x;
      assert cs[k].domain == x;
    } else {
      assert cs[n].domain == x;
    }
  }

  /** When every change is filed under a domain of the fixed order, the
      corrected entry is the entry as written. */
  lemma CorrectedAgreesWhenKnown(version: string, date: string, message: string, cs: seq<Change>, entities: seq<string>)
    requires forall k :: 0 <= k < |cs| ==> cs[k].domain in DomainOrder
    ensures DomainEntry(version, date, message, cs, entities) == DomainEntryAsWritten(version, date, message, cs, entities)
  {
    var extra := Filter(FirstSeen(cs), NotInOrder);
    if extra != [] {
      FilterMembers(FirstSeen(cs), NotInOrder);
      FirstSeenFrom(cs, extra[0]);
      assert false;
    }
    assert SectionOrder(cs) == DomainOrder;
  }

  /** The loop that fills `domain_changes`: each domain's descriptions in
      file order, and the domains in the order they first appear. */
  method CollectByDomain(opts: seq<Option<Change>>) returns (byDomain: map<string, seq<string>>, seen: seq<string>)
    ensures seen == FirstSeen(Collect(opts))
    ensures forall d :: d in byDomain <==> d in seen
    ensures forall d :: d in byDomain ==> byDomain[d] == DomainChanges(Collect(opts), d)
    ensures forall d :: d !in byDomain ==> DomainChanges(Collect(opts), d) == []
  {
    byDomain := map[];
    seen := [];
    for i := 0 to |opts|
      invariant ByDomainSoFar(Collect(opts[..i]), byDomain, seen)
    {
      ghost var cs := Collect(opts[..i]);
      CollectStep(opts, i);
      if opts[i].Some? {
        var c := opts[i].value;
        ByDomainStep(cs, c, byDomain, seen);
        if c.domain in byDomain {
          byDomain := byDomain[c.domain := byDomain[c.domain] + [c.desc]];
        } else {
          byDomain := byDomain[c.domain := [c.desc]];
          seen := seen + [c.domain];
        }
        assert Collect(opts[..i + 1]) == cs + [c];
      } else {
        assert Collect(opts[..i + 1]) == cs;
      }
    }
    assert opts[..|opts|] == opts;
  }

  /** `byDomain` and `seen` after the changes `cs`. */
  ghost predicate ByDomainSoFar(cs: seq<Change>, byDomain: map<string, seq<string>>, seen: seq<string>) {
    seen == FirstSeen(cs)
    && (forall d :: d in byDomain <==> d in seen)
    && (forall d :: d in byDomain ==> byDomain[d] == DomainChanges(cs, d))
    && (forall d :: d !in byDomain ==> DomainChanges(cs, d) == [])
  }

  /** One change: its description joins its domain's list, and a domain
      seen for the first time is recorded. */
  lemma ByDomainStep(cs: seq<Change>, c: Change, byDomain: map<string, seq<string>>, seen: seq<string>)
    requires ByDomainSoFar(cs, byDomain, seen)
    ensures c.domain in byDomain ==>
      ByDomainSoFar(cs + [c], byDomain[c.domain := byDomain[c.domain] + [c.desc]], seen)
    ensures c.domain !in byDomain ==>
      ByDomainSoFar(cs + [c], byDomain[c.domain := [c.desc]], seen + [c.domain])
  {
    var cs' := cs + [c];
    FirstSeenSnoc(cs, c);
    var nb := if c.domain in byDomain then byDomain[c.domain := byDomain[c.domain] + [c.desc]]
              else byDomain[c.domain := [c.desc]];
    var ns := if c.domain in byDomain then seen else seen + [c.domain];
    assert ns == FirstSeen(cs');
    forall d ensures d in nb <==> d in ns {
    }
    forall d | d in nb ensures nb[d] == DomainChanges(cs', d) {
      DomainChangesSnoc(cs, c, d);
    }
    forall d | d !in nb ensures DomainChanges(cs', d) == [] {
      DomainChangesSnoc(cs, c, d);
    }
    assert ByDomainSoFar(cs', nb, ns);
  }

  /** The loop that writes one section per domain of `order`. */
  method WriteSections(order: seq<string>, byDomain: map<string, seq<string>>, ghost cs: seq<Change>)
    returns (sections: string)
    requires forall d :: d in byDomain ==> byDomain[d] == DomainChanges(cs, d)
    requires forall d :: d !in byDomain ==> DomainChanges(cs, d) == []
    ensures sections == DomainSections(cs, order)
  {
    ghost var parts := Sections(cs, order);
    sections := "";
    var j := 0;
    while j < |order|
      invariant 0 <= j <= |order|
      invariant sections == Concat(parts[..j])
    {
      var d := order[j];
      var items := if d in byDomain then byDomain[d] else [];
      assert parts[..j + 1][..j] == parts[..j];
      sections := sections + DomainSection(d, items);
      j := j + 1;
    }
    assert parts[..j] == parts;
  }

  /** The loop that lists the descriptions without grouping. */
  method CollectDescs(opts: seq<Option<Change>>) returns (changes: seq<string>)
    ensures changes == Descs(Collect(opts))
  {
    changes := [];
    var i := 0;
    while i < |opts|
      invariant 0 <= i <= |opts|
      invariant changes == Descs(Collect(opts[..i]))
    {
      CollectStep(opts, i);
      if opts[i].Some? {
        changes := changes + [opts[i].value.desc];
      }
      i := i + 1;
    }
    assert opts[..i] == opts;
  }

  /** `update_changelog` with the grouped sections written for every
      domain: the new file content is the entry followed by what was
      there. The clock's date and the old CHANGELOG are parameters. */
  method UpdateChangelog(version: string, date: string, message: string, files: seq<string>,
                         settings: Option<ChangelogSettings>, entities: seq<string>, existing: string)
    returns (content: string)
    ensures content == ChangelogEntry(version, date, message, files, settings, entities) + existing
  {
    var entry := EntryHeader(version, date, message);
    if settings.Some? && settings.value.groupByDomain {
      var opts := Descriptions(settings.value.mapping, files);
      var byDomain, seen := CollectByDomain(opts);
      var sections := WriteSections(DomainOrder + Filter(seen, NotInOrder), byDomain, Collect(opts));
      assert sections == DomainSections(Collect(opts), SectionOrder(Collect(opts)));
      entry := entry + KeyChanges(entities) + sections + "\n";
      assert entry == DomainEntry(version, date, message, Changes(settings.value.mapping, files), entities);
    } else {
      var changes := CollectDescs(Descriptions([], files));
      if changes != [] {
        entry := entry + "### Changes\n\n" + Bullets(Capped(changes, 20, " changes"));
      }
      entry := entry + "\n";
      assert entry == LegacyEntry(version, date, message, changes);
    }
    content := entry + existing;
  }
}
