/** The Markdown report builder of goal/formatter.py: a `MarkdownFormatter`
    collects text pieces (its sections) and an ordered key/value front matter
    (its metadata) and renders them by concatenation; `FormatPushResult` and
    `FormatStatusOutput` drive it for the `goal push` and `goal status`
    reports. Clock readings are parameters. */
module Formatter {
  import opened Wrappers
  import opened Strings
  import opened Seqs

  // ---------------------------------------------------------------------
  // Metadata values and their JSON text
  // ---------------------------------------------------------------------

  /** A front-matter value: the reports store text, integers, lists of
      strings and None. */
  datatype MetaValue = Text(text: string) | Int(number: int) | List(items: seq<string>) | Null

  /** One `key: value` pair of a dict, in insertion order. */
  type Entry = (string, MetaValue)

  function EntryKey(e: Entry): string { e.0 }

  /** The keys of a dict in insertion order. */
  function KeyOrder(entries: seq<Entry>): seq<string> { Map(EntryKey, entries) }

  /** `d.get(k)`. */
  function Get(entries: seq<Entry>, k: string): (r: Option<MetaValue>)
    ensures r.None? <==> k !in KeyOrder(entries)
    decreases |entries|
  {
    if entries == [] then None
    else if entries[0].0 == k then Some(entries[0].1)
    else Get(entries[1..], k)
  }

  /** `d[k] = v`: an existing key keeps its place, a new key goes last. */
  function Upsert(entries: seq<Entry>, k: string, v: MetaValue): seq<Entry>
    decreases |entries|
  {
    if entries == [] then [(k, v)]
    else if entries[0].0 == k then [(k, v)] + entries[1..]
    else [entries[0]] + Upsert(entries[1..], k, v)
  }

  /** `d.update(kwargs)`: the pairs are stored one after another. */
  function UpdateAll(entries: seq<Entry>, kwargs: seq<Entry>): seq<Entry>
    decreases |kwargs|
  {
    if kwargs == [] then entries
    else
      var last := kwargs[|kwargs| - 1];
      Upsert(UpdateAll(entries, kwargs[..|kwargs| - 1]), last.0, last.1)
  }

  /** The value the last pair with key `k` carries, if any. */
  function LastValue(kwargs: seq<Entry>, k: string): Option<MetaValue>
    decreases |kwargs|
  {
    if kwargs == [] then None
    else if kwargs[|kwargs| - 1].0 == k then Some(kwargs[|kwargs| - 1].1)
    else LastValue(kwargs[..|kwargs| - 1], k)
  }

  /** Storing a value: it is found under its key and no other key changes. */
  lemma {:induction false} UpsertGet(entries: seq<Entry>, k: string, v: MetaValue, j: string)
    ensures Get(Upsert(entries, k, v), j) == if j == k then Some(v) else Get(entries, j)
    decreases |entries|
  {
    if entries != [] && entries[0].0 != k {
      UpsertGet(entries[1..], k, v, j);
      assert Upsert(entries, k, v)[1..] == Upsert(entries[1..], k, v);
    }
  }

  /** Storing a value grows the key order by the key exactly when it is new. */
  lemma {:induction false} UpsertKeys(entries: seq<Entry>, k: string, v: MetaValue)
    ensures KeyOrder(Upsert(entries, k, v)) == KeyOrder(entries) + (if k in KeyOrder(entries) then [] else [k])
    decreases |entries|
  {
    var r := Upsert(entries, k, v);
    if entries != [] {
      assert KeyOrder(entries) == [entries[0].0] + KeyOrder(entries[1..]);
      if entries[0].0 == k {
        assert r[1..] == entries[1..];
        assert KeyOrder(r) == [k] + KeyOrder(entries[1..]);
      } else {
        UpsertKeys(entries[1..], k, v);
        assert r[1..] == Upsert(entries[1..], k, v);
        assert KeyOrder(r) == [entries[0].0] + KeyOrder(r[1..]);
      }
    }
  }

  /** Storing a value keeps the keys distinct. */
  lemma UpsertDistinct(entries: seq<Entry>, k: string, v: MetaValue)
    requires Distinct(KeyOrder(entries))
    ensures Distinct(KeyOrder(Upsert(entries, k, v)))
  {
    UpsertKeys(entries, k, v);
    var ko, ks := KeyOrder(entries), KeyOrder(Upsert(entries, k, v));
    if k !in ko {
      forall a, b | 0 <= a < b < |ks| ensures ks[a] != ks[b] {
        if b == |ko| { assert ks[a] == ko[a]; }
      }
    }
  }

  /** After `d.update(kwargs)` every key of `kwargs` holds the value of its
      last occurrence, every other key is unchanged, the old keys keep their
      positions and keys stay distinct. */
  lemma {:induction false} UpdateAllFacts(entries: seq<Entry>, kwargs: seq<Entry>)
    ensures forall j :: (Get(UpdateAll(entries, kwargs), j) ==
      if LastValue(kwargs, j).Some? then LastValue(kwargs, j) else Get(entries, j))
    ensures KeyOrder(entries) <= KeyOrder(UpdateAll(entries, kwargs))
    ensures Distinct(KeyOrder(entries)) ==> Distinct(KeyOrder(UpdateAll(entries, kwargs)))
    decreases |kwargs|
  {
    if kwargs != [] {
      var init := kwargs[..|kwargs| - 1];
      var last := kwargs[|kwargs| - 1];
      UpdateAllFacts(entries, init);
      var before := UpdateAll(entries, init);
      forall j ensures Get(Upsert(before, last.0, last.1), j) ==
        (if j == last.0 then Some(last.1) else Get(before, j))
      {
        UpsertGet(before, last.0, last.1, j);
      }
      UpsertKeys(before, last.0, last.1);
      if Distinct(KeyOrder(entries)) { UpsertDistinct(before, last.0, last.1); }
    }
  }

  /** A dict built from pairs with distinct keys lists them in order. */
  lemma {:induction false} UpdateAllFresh(kwargs: seq<Entry>)
    requires Distinct(KeyOrder(kwargs))
    ensures UpdateAll([], kwargs) == kwargs
    decreases |kwargs|
  {
    if kwargs != [] {
      var init := kwargs[..|kwargs| - 1];
      var last := kwargs[|kwargs| - 1];
      assert KeyOrder(init) == KeyOrder(kwargs)[..|kwargs| - 1];
      UpdateAllFresh(init);
      assert last.0 !in KeyOrder(init);
      UpsertAppends(init, last.0, last.1);
      assert init + [last] == kwargs;
    }
  }

  lemma {:induction false} UpsertAppends(entries: seq<Entry>, k: string, v: MetaValue)
    requires k !in KeyOrder(entries)
    ensures Upsert(entries, k, v) == entries + [(k, v)]
    decreases |entries|
  {
    if entries != [] {
      assert KeyOrder(entries) == [entries[0].0] + KeyOrder(entries[1..]);
      UpsertAppends(entries[1..], k, v);
      assert entries == [entries[0]] + entries[1..];
    }
  }

  /** Python's `json.dumps(s)` for a string: quoted, with `"` and `\`
      escaped, the usual short escapes for control characters and `\uXXXX`
      (a surrogate pair above U+FFFF) for everything outside printable
      ASCII, as the default `ensure_ascii=True` does. */
  function JsonString(s: string): string { "\"" + JsonEscape(s) + "\"" }

  function JsonEscape(s: string): (r: string)
    decreases |s|
  {
    if s == "" then "" else JsonEscapeChar(s[0]) + JsonEscape(s[1..])
  }

  predicate Printable(c: char) { ' ' <= c <= '~' }

  function JsonEscapeChar(c: char): (r: string)
    ensures forall i :: 0 <= i < |r| ==> Printable(r[i])
  {
    if c == '"' then "\\\""
    else if c == '\\' then "\\\\"
    else if c == '\n' then "\\n"
    else if c == '\r' then "\\r"
    else if c == '\t' then "\\t"
    else if c == '\U{0008}' then "\\b"
    else if c == '\U{000C}' then "\\f"
    else if Printable(c) then [c]
    else if (c as int) < 0x1_0000 then "\\u" + Hex4(c as int)
    else
      var n := c as int - 0x1_0000;
      "\\u" + Hex4(0xD800 + n / 0x400) + "\\u" + Hex4(0xDC00 + n % 0x400)
  }

  function HexDigit(d: int): (c: char)
    requires 0 <= d < 16
    ensures Printable(c)
  {
    if d < 10 then ('0' as int + d) as char else ('a' as int + d - 10) as char
  }

  /** Four lower-case hexadecimal digits, as `'\\u{0:04x}'` writes them. */
  function Hex4(n: int): (r: string)
    requires 0 <= n < 0x1_0000
    ensures |r| == 4 && forall i :: 0 <= i < 4 ==> Printable(r[i])
  {
    [HexDigit(n / 0x1000), HexDigit(n / 0x100 % 16), HexDigit(n / 0x10 % 16), HexDigit(n % 16)]
  }

  /** The escaped text is printable ASCII; text that already is, and holds
      no quote or backslash, is left as it was. */
  lemma {:induction false} JsonEscapeFacts(s: string)
    ensures forall i :: 0 <= i < |JsonEscape(s)| ==> Printable(JsonEscape(s)[i])
    ensures (forall i :: 0 <= i < |s| ==> Printable(s[i]) && s[i] != '"' && s[i] != '\\')
      ==> JsonEscape(s) == s
    decreases |s|
  {
    if s != "" {
      JsonEscapeFacts(s[1..]);
      var h, t := JsonEscapeChar(s[0]), JsonEscape(s[1..]);
      forall i | 0 <= i < |h + t| ensures Printable((h + t)[i]) {
        if i >= |h| { assert (h + t)[i] == t[i - |h|]; }
      }
    }
  }

  /** `json.dumps(items, indent=2)` for a list of strings. */
  function JsonList(items: seq<string>): string {
    if items == [] then "[]" else "[\n" + Join(",\n", Map(JsonItem, items)) + "\n]"
  }

  function JsonItem(s: string): string { "  " + JsonString(s) }

  /** The text a front-matter value renders as: lists as JSON, None as
      `None`, integers in decimal. */
  function ValueText(v: MetaValue): string {
    match v
    case Text(s) => s
    case Int(n) => IntToString(n)
    case List(items) => JsonList(items)
    case Null => "None"
  }

  function MetaLine(e: Entry): string { e.0 + ": " + ValueText(e.1) + "\n" }

  // ---------------------------------------------------------------------
  // The pieces each builder call appends
  // ---------------------------------------------------------------------

  /** `c * n`. */
  function Repeat(c: char, n: int): (r: string)
    ensures |r| == Max(n, 0) && forall i :: 0 <= i < |r| ==> r[i] == c
    decreases n
  {
    if n <= 0 then "" else [c] + Repeat(c, n - 1)
  }

  function HeaderLine(title: string, level: int): string { Repeat('#', level) + " " + title + "\n" }

  /** The header is `level` hash marks (none for a level below one), a
      space and the title. */
  lemma HeaderMarks(title: string, level: int)
    ensures var h := HeaderLine(title, level);
      var n := Max(level, 0);
      |h| == n + |title| + 2 && (forall i :: 0 <= i < n ==> h[i] == '#')
      && h[n] == ' ' && h[n + 1..|h| - 1] == title && h[|h| - 1] == '\n'
  {
  }

  function SectionTitle(title: string): string { "\n## " + title + "\n" }

  function SectionBody(content: string, codeBlock: bool, language: string): string {
    if codeBlock then "```" + language + "\n" + content + "\n```\n" else content + "\n"
  }

  function SectionParts(title: string, content: string, codeBlock: bool, language: string): seq<string> {
    [SectionTitle(title), SectionBody(content, codeBlock, language)]
  }

  function ItemMark(n: int, ordered: bool): string { if ordered then IntToString(n) + "." else "-" }

  function ItemLine(n: int, item: string, ordered: bool): string { ItemMark(n, ordered) + " " + item + "\n" }

  /** The item lines of a list, numbered from 1 when ordered. */
  function ItemLines(items: seq<string>, ordered: bool): (r: seq<string>)
    ensures |r| == |items|
  {
    seq(|items|, i requires 0 <= i < |items| => ItemLine(i + 1, items[i], ordered))
  }

  function ListParts(title: string, items: seq<string>, ordered: bool): seq<string> {
    [SectionTitle(title)] + ItemLines(items, ordered)
  }

  /** In an ordered list the text before the first `.` of the line for the
      item at index `i` reads back as `i + 1`, and the item follows `. `; in
      a bulleted list every line starts with `- `. */
  lemma ListNumbering(items: seq<string>, ordered: bool, i: nat)
    requires i < |items|
    ensures var line := ItemLines(items, ordered)[i];
      if ordered then
        Find(line, ".").Some? && var d := Find(line, ".").value;
        ParseInt(line[..d]) == Some(i + 1) && line[d..] == ". " + items[i] + "\n"
      else line == "- " + items[i] + "\n"
  {
    if ordered {
      var digits := NatToString(i + 1);
      var rest := ". " + items[i] + "\n";
      assert ItemLines(items, ordered)[i] == digits + rest;
      FindAfterDigits(digits, rest);
      assert (digits + rest)[..|digits|] == digits;
      ParseNat(i + 1);
    }
  }

  /** In digits followed by `.`, the first `.` is the one after the digits. */
  lemma FindAfterDigits(digits: string, rest: string)
    requires AllDigits(digits) && |rest| > 0 && rest[0] == '.'
    ensures Find(digits + rest, ".") == Some(|digits|) && (digits + rest)[|digits|..] == rest
  {
    var line := digits + rest;
    assert line[|digits|] == '.';
    forall j | 0 <= j < |digits| ensures line[j] != '.' {
      assert line[j] == digits[j];
    }
    FindChar(line, '.', |digits|);
  }

  const SuccessStatus: string := "\U{2705} Success"
  const FailedStatus: string := "\U{274C} Failed"

  function Status(exitCode: int): string { if exitCode == 0 then SuccessStatus else FailedStatus }

  function StatusLine(exitCode: int): string {
    "**Status:** " + Status(exitCode) + " (exit code: " + IntToString(exitCode) + ")\n"
  }

  function CommandParts(command: string, output: string, exitCode: int): seq<string> {
    ["\n### Command: `" + command + "`\n", StatusLine(exitCode), "**Output:**\n", "```\n" + output + "\n```\n"]
  }

  lemma IntToStringChars(n: int)
    ensures forall i :: 0 <= i < |IntToString(n)| ==> IntToString(n)[i] == '-' || IsDigit(IntToString(n)[i])
  {
    if n < 0 {
      var s := IntToString(n);
      forall i | 0 <= i < |s| ensures s[i] == '-' || IsDigit(s[i]) {
        if i > 0 { assert s[i] == NatToString(-n)[i - 1]; }
      }
    }
  }

  /** The status line shows the success mark exactly when the exit code is
      zero. */
  lemma StatusReportsSuccess(exitCode: int)
    ensures Contains(StatusLine(exitCode), SuccessStatus) <==> exitCode == 0
  {
    var line := StatusLine(exitCode);
    if exitCode == 0 {
      assert line[12..12 + |SuccessStatus|] == SuccessStatus;
      ContainsAt(line, SuccessStatus, 12);
    } else {
      FailedLacksMark(exitCode);
      if Contains(line, SuccessStatus) {
        assert SuccessStatus[0] == '\U{2705}';
        ContainsMembers(line, SuccessStatus, '\U{2705}');
      }
    }
  }

  lemma FailedLacksMark(exitCode: int)
    requires exitCode != 0
    ensures '\U{2705}' !in StatusLine(exitCode)
  {
    var code := IntToString(exitCode);
    IntToStringChars(exitCode);
    assert '\U{2705}' !in code by {
      forall i | 0 <= i < |code| ensures code[i] != '\U{2705}' { }
    }
    assert '\U{2705}' !in "**Status:** " + FailedStatus + " (exit code: ";
  }

  function ActionLine(action: string): string { "- \U{2705} " + action + "\n" }

  function StepLine(step: string): string { "- \U{27A1}\U{FE0F} " + step + "\n" }

  function ActionLines(actions: seq<string>): (r: seq<string>)
    ensures |r| == |actions|
  {
    seq(|actions|, i requires 0 <= i < |actions| => ActionLine(actions[i]))
  }

  function StepLines(steps: seq<string>): (r: seq<string>)
    ensures |r| == |steps|
  {
    seq(|steps|, i requires 0 <= i < |steps| => StepLine(steps[i]))
  }

  lemma ActionLinesSnoc(actions: seq<string>, i: nat)
    requires i < |actions|
    ensures ActionLines(actions[..i + 1]) == ActionLines(actions[..i]) + [ActionLine(actions[i])]
  {
  }

  lemma StepLinesSnoc(steps: seq<string>, i: nat)
    requires i < |steps|
    ensures StepLines(steps[..i + 1]) == StepLines(steps[..i]) + [StepLine(steps[i])]
  {
  }

  const SummaryTitle: string := "\n## Summary\n"
  const ActionsTitle: string := "**Actions Taken:**\n"
  const StepsTitle: string := "\n**Next Steps:**\n"

  function SummaryParts(actionsTaken: seq<string>, nextSteps: seq<string>): seq<string> {
    [SummaryTitle, ActionsTitle] + ActionLines(actionsTaken) + StepParts(nextSteps)
  }

  lemma SummaryPartsSplit(before: seq<string>, actionsTaken: seq<string>, nextSteps: seq<string>)
    ensures before + SummaryParts(actionsTaken, nextSteps)
      == (before + [SummaryTitle, ActionsTitle] + ActionLines(actionsTaken)) + StepParts(nextSteps)
  {
    var t, al, sp := [SummaryTitle, ActionsTitle], ActionLines(actionsTaken), StepParts(nextSteps);
    assert SummaryParts(actionsTaken, nextSteps) == (t + al) + sp;
    AppendAssoc(before, t + al, sp);
    AppendAssoc(before, t, al);
  }


  function StepParts(nextSteps: seq<string>): seq<string> {
    if nextSteps != [] then [StepsTitle] + StepLines(nextSteps) else []
  }

  function Footer(now: string): string { "\n---\n*Generated at " + now + "*\n" }

  /** The front matter: the metadata lines between `---` fences, or nothing
      when there is no metadata. */
  function FrontMatter(metadata: seq<Entry>): string {
    if metadata == [] then "" else "---\n" + Flatten(Map(MetaLine, metadata)) + "---\n"
  }

  /** The pieces `render` joins: front matter, sections, footer. */
  function RenderPieces(sections: seq<string>, metadata: seq<Entry>, now: string): seq<string> {
    (if metadata == [] then [] else ["---\n"] + Map(MetaLine, metadata) + ["---\n"])
    + sections + [Footer(now)]
  }

  function RenderText(sections: seq<string>, metadata: seq<Entry>, now: string): string {
    Flatten(RenderPieces(sections, metadata, now))
  }

  /** A rendered report is the front matter (present exactly when there is
      metadata, and fenced by `---` lines), then every section in the order
      it was added, then the footer with the timestamp. */
  lemma RenderLayout(sections: seq<string>, metadata: seq<Entry>, now: string)
    ensures RenderText(sections, metadata, now) == FrontMatter(metadata) + Flatten(sections) + Footer(now)
    ensures FrontMatter(metadata) == "" <==> metadata == []
    ensures metadata != [] ==> var f := FrontMatter(metadata);
      f[..4] == "---\n" && f[|f| - 4..] == "---\n"
  {
    var fence := if metadata == [] then [] else ["---\n"] + Map(MetaLine, metadata) + ["---\n"];
    FlattenAppend(fence + sections, [Footer(now)]);
    FlattenAppend(fence, sections);
    assert Flatten([Footer(now)]) == Footer(now);
    if metadata != [] {
      FlattenAppend(["---\n"] + Map(MetaLine, metadata), ["---\n"]);
      FlattenAppend(["---\n"], Map(MetaLine, metadata));
      assert Flatten(["---\n"]) == "---\n";
    }
  }

  // ---------------------------------------------------------------------
  // The builder
  // ---------------------------------------------------------------------

  class MarkdownFormatter {
    /** The text pieces, in the order they were added. */
    var sections: seq<string>
    /** The front matter, a dict in insertion order. */
    var metadata: seq<Entry>

    ghost predicate Valid()
      reads this
    {
      Distinct(KeyOrder(metadata))
    }

    constructor()
      ensures Valid() && sections == [] && metadata == []
    {
      sections := [];
      metadata := [];
    }

    method AddHeader(title: string, level: int)
      modifies this
      ensures sections == old(sections) + [HeaderLine(title, level)]
      ensures metadata == old(metadata)
    {
      sections := sections + [HeaderLine(title, level)];
    }

    method AddMetadata(kwargs: seq<Entry>)
      requires Valid()
      modifies this
      ensures Valid()
      ensures metadata == UpdateAll(old(metadata), kwargs)
      ensures sections == old(sections)
    {
      UpdateAllFacts(metadata, kwargs);
      for i := 0 to |kwargs|
        invariant metadata == UpdateAll(old(metadata), kwargs[..i])
        invariant sections == old(sections)
      {
        assert kwargs[..i + 1][..i] == kwargs[..i];
        metadata := Upsert(metadata, kwargs[i].0, kwargs[i].1);
      }
      assert kwargs[..|kwargs|] == kwargs;
    }

    method AddSection(title: string, content: string, codeBlock: bool, language: string)
      modifies this
      ensures sections == old(sections) + SectionParts(title, content, codeBlock, language)
      ensures metadata == old(metadata)
    {
      sections := sections + [SectionTitle(title)];
      if codeBlock {
        sections := sections + ["```" + language + "\n" + content + "\n```\n"];
      } else {
        sections := sections + [content + "\n"];
      }
    }

    method AddList(title: string, items: seq<string>, ordered: bool)
      modifies this
      ensures sections == old(sections) + ListParts(title, items, ordered)
      ensures metadata == old(metadata)
    {
      sections := sections + [SectionTitle(title)];
      for i := 0 to |items|
        invariant sections == old(sections) + [SectionTitle(title)] + ItemLines(items[..i], ordered)
        invariant metadata == old(metadata)
      {
        var prefix := if ordered then IntToString(i + 1) + "." else "-";
        assert ItemLines(items[..i + 1], ordered) == ItemLines(items[..i], ordered) + [prefix + " " + items[i] + "\n"];
        sections := sections + [prefix + " " + items[i] + "\n"];
      }
      assert items[..|items|] == items;
    }

    method AddCommandOutput(command: string, output: string, exitCode: int)
      modifies this
      ensures sections == old(sections) + CommandParts(command, output, exitCode)
      ensures metadata == old(metadata)
    {
      var status := if exitCode == 0 then SuccessStatus else FailedStatus;
      sections := sections + ["\n### Command: `" + command + "`\n"];
      sections := sections + ["**Status:** " + status + " (exit code: " + IntToString(exitCode) + ")\n"];
      sections := sections + ["**Output:**\n"];
      sections := sections + ["```\n" + output + "\n```\n"];
    }

    method AddSummary(actionsTaken: seq<string>, nextSteps: seq<string>)
      modifies this
      ensures sections == old(sections) + SummaryParts(actionsTaken, nextSteps)
      ensures metadata == old(metadata)
    {
      sections := sections + [SummaryTitle];
      sections := sections + [ActionsTitle];
      for i := 0 to |actionsTaken|
        invariant sections == old(sections) + [SummaryTitle, ActionsTitle] + ActionLines(actionsTaken[..i])
        invariant metadata == old(metadata)
      {
        ActionLinesSnoc(actionsTaken, i);
        sections := sections + [ActionLine(actionsTaken[i])];
      }
      assert actionsTaken[..|actionsTaken|] == actionsTaken;
      ghost var done := sections;
      assert done == old(sections) + [SummaryTitle, ActionsTitle] + ActionLines(actionsTaken);
      if nextSteps != [] {
        sections := sections + [StepsTitle];
        for i := 0 to |nextSteps|
          invariant sections == done + [StepsTitle] + StepLines(nextSteps[..i])
          invariant metadata == old(metadata)
        {
          StepLinesSnoc(nextSteps, i);
          sections := sections + [StepLine(nextSteps[i])];
        }
        assert nextSteps[..|nextSteps|] == nextSteps;
      }
      assert sections == done + StepParts(nextSteps);
      SummaryPartsSplit(old(sections), actionsTaken, nextSteps);
    }

    method Render(now: string) returns (text: string)
      ensures text == RenderText(sections, metadata, now)
    {
      var output: seq<string> := [];
      if metadata != [] {
        output := output + ["---\n"];
        for i := 0 to |metadata|
          invariant output == ["---\n"] + Map(MetaLine, metadata[..i])
        {
          MapSlice(MetaLine, metadata, i);
          var value := ValueText(metadata[i].1);
          output := output + [metadata[i].0 + ": " + value + "\n"];
        }
        assert metadata[..|metadata|] == metadata;
        output := output + ["---\n"];
      }
      output := output + sections;
      output := output + [Footer(now)];
      text := Flatten(output);
    }
  }

  // ---------------------------------------------------------------------
  // The `goal push` report
  // ---------------------------------------------------------------------

  /** The change analysis the push report may receive; a key the dict lacks
      reads as its empty default. */
  datatype Analysis = Analysis(
    features: seq<string>,
    summary: string,
    entities: seq<string>,
    domains: seq<(string, seq<string>)>)

  /** The arguments of `format_push_result`; `stats` lists the per-file
      `(added, deleted)` dict in insertion order. */
  datatype PushInput = PushInput(
    projectTypes: seq<string>,
    files: seq<string>,
    stats: seq<(string, (int, int))>,
    currentVersion: string,
    newVersion: string,
    commitMsg: string,
    commitBody: Option<string>,
    testResult: Option<string>,
    testExitCode: int,
    actions: Option<seq<string>>,
    error: Option<string>,
    analysis: Option<Analysis>)

  /** Python truthiness of an optional string. */
  predicate Given(s: Option<string>) { s.Some? && s.value != "" }

  function ActionsOrEmpty(actions: Option<seq<string>>): seq<string> {
    if actions.Some? then actions.value else []
  }

  function Features(a: Option<Analysis>): seq<string> { if a.Some? then a.value.features else [] }
  function SummaryOf(a: Option<Analysis>): string { if a.Some? then a.value.summary else "" }
  function Entities(a: Option<Analysis>): seq<string> { if a.Some? then a.value.entities else [] }

  /** `stats.get(f, (0, 0))`. */
  function StatOf(stats: seq<(string, (int, int))>, f: string): (r: (int, int))
    ensures (forall i :: 0 <= i < |stats| ==> stats[i].0 != f) ==> r == (0, 0)
    ensures forall i :: (0 <= i < |stats| && stats[i].0 == f && (forall j :: 0 <= j < i ==> stats[j].0 != f)
      ==> r == stats[i].1)
    decreases |stats|
  {
    if stats == [] then (0, 0)
    else if stats[0].0 == f then stats[0].1
    else
      var r := StatOf(stats[1..], f);
      assert forall i :: 1 <= i < |stats| ==> stats[i] == stats[1..][i - 1];
      r
  }

  function TotalAdds(stats: seq<(string, (int, int))>): int
    decreases |stats|
  {
    if stats == [] then 0 else stats[0].1.0 + TotalAdds(stats[1..])
  }

  function TotalDels(stats: seq<(string, (int, int))>): int
    decreases |stats|
  {
    if stats == [] then 0 else stats[0].1.1 + TotalDels(stats[1..])
  }

  function PushMetadata(p: PushInput, stampedAt: string): seq<Entry> {
    var features := Features(p.analysis);
    [("command", Text("goal push")),
     ("project_types", List(p.projectTypes)),
     ("version_bump", Text(p.currentVersion + " -> " + p.newVersion)),
     ("file_count", Int(|p.files|)),
     ("features", if features != [] then List(features) else Null),
     ("timestamp", Text(stampedAt))]
  }

  /** The push report's front matter lists its six keys in order, once each. */
  lemma PushMetadataKeys(p: PushInput, stampedAt: string)
    ensures KeyOrder(PushMetadata(p, stampedAt))
      == ["command", "project_types", "version_bump", "file_count", "features", "timestamp"]
    ensures Distinct(KeyOrder(PushMetadata(p, stampedAt)))
    ensures UpdateAll([], PushMetadata(p, stampedAt)) == PushMetadata(p, stampedAt)
  {
    var ks := KeyOrder(PushMetadata(p, stampedAt));
    assert ks == ["command", "project_types", "version_bump", "file_count", "features", "timestamp"];
    assert ks[0][0] == 'c' && ks[1][0] == 'p' && ks[2][0] == 'v' && ks[3][1] == 'i'
      && ks[4][1] == 'e' && ks[5][0] == 't' && ks[3][0] == 'f' && ks[4][0] == 'f';
    UpdateAllFresh(PushMetadata(p, stampedAt));
  }

  /** The "What Changed" headline: up to two features by name, more as a
      count, else the analysis summary. */
  function ChangeHeadline(features: seq<string>, summary: string, fileCount: int): string {
    if features != [] then
      if |features| == 1 then "Added " + features[0] + " support"
      else if |features| == 2 then "Added " + features[0] + " and " + features[1] + " support"
      else "Added " + features[0] + ", " + features[1] + ", and " + IntToString(|features| - 2) + " more features"
    else if summary != "" then summary
    else "Updated " + IntToString(fileCount) + " files"
  }

  /** The headline names the first feature and the second if there is one,
      counts the rest as "more features", and falls back to the summary
      when there are no features. */
  lemma ChangeHeadlineFacts(features: seq<string>, summary: string, fileCount: int)
    ensures var h := ChangeHeadline(features, summary, fileCount);
      && (features != [] ==> StartsWith(h, "Added " + features[0]))
      && (|features| >= 2 ==> Contains(h, features[1]))
      && (|features| > 2 ==> EndsWith(h, ", and " + IntToString(|features| - 2) + " more features"))
      && (|features| <= 2 && features != [] ==> EndsWith(h, " support"))
      && (features == [] && summary != "" ==> h == summary)
  {
    var h := ChangeHeadline(features, summary, fileCount);
    if |features| >= 2 {
      var pre := "Added " + features[0] + (if |features| == 2 then " and " else ", ");
      assert h[|pre|..|pre| + |features[1]|] == features[1];
      ContainsAt(h, features[1], |pre|);
    }
  }

  /** The per-change lines under "Key Functions/Classes": the first six
      entities longer than two characters. */
  function Meaningful(entities: seq<string>): seq<string> {
    Take(Filter(entities, (e: string) => |e| > 2), 6)
  }

  /** At most six entities, each longer than two characters, in their
      original order. */
  lemma MeaningfulFacts(entities: seq<string>)
    ensures |Meaningful(entities)| <= 6
    ensures forall i :: 0 <= i < |Meaningful(entities)| ==> |Meaningful(entities)[i]| > 2
    ensures IsSubseq(Meaningful(entities), entities)
  {
    var f := Filter(entities, (e: string) => |e| > 2);
    FilterIsSubseq(entities, (e: string) => |e| > 2);
    PrefixIsSubseq(Meaningful(entities), f);
    IsSubseqTrans(Meaningful(entities), f, entities);
  }

  function EntityLine(e: string): string { "- `" + e + "`\n" }

  function EntityLines(es: seq<string>): (r: seq<string>)
    ensures |r| == |es|
  {
    seq(|es|, i requires 0 <= i < |es| => EntityLine(es[i]))
  }

  const KeyChangesTitle: string := "\n**Key Functions/Classes:**\n"

  function KeyChangeParts(entities: seq<string>): seq<string> {
    var m := Meaningful(entities);
    if entities != [] && m != [] then [KeyChangesTitle] + EntityLines(m) else []
  }

  function ScopeText(p: PushInput): string {
    IntToString(|p.files|) + " files (+" + IntToString(TotalAdds(p.stats)) + "/-"
    + IntToString(TotalDels(p.stats)) + " lines)"
  }

  const Arrow: string := " \U{2192} "

  function FunctionalOverview(p: PushInput): string {
    "**What Changed:** " + ChangeHeadline(Features(p.analysis), SummaryOf(p.analysis), |p.files|)
    + "\n**Scope:** " + ScopeText(p)
    + "\n**Version:** " + p.currentVersion + Arrow + p.newVersion
    + "\n**Commit:** `" + p.commitMsg + "`"
  }

  /** The fallback overview; the text in the source is stripped of the
      newline before and the indentation after it. */
  function Overview(p: PushInput): string {
    "**Project Type:** " + Join(", ", p.projectTypes)
    + "\n**Files Changed:** " + IntToString(|p.files|) + " (+" + IntToString(TotalAdds(p.stats)) + "/-"
    + IntToString(TotalDels(p.stats)) + " lines)"
    + "\n**Version:** " + p.currentVersion + Arrow + p.newVersion
    + "\n**Commit Message:** `" + p.commitMsg + "`"
  }

  function OverviewParts(p: PushInput): seq<string> {
    if Features(p.analysis) != [] || SummaryOf(p.analysis) != "" then
      SectionParts("Summary", FunctionalOverview(p), false, "") + KeyChangeParts(Entities(p.analysis))
    else SectionParts("Overview", Overview(p), false, "")
  }

  function BodyParts(p: PushInput): seq<string> {
    if Given(p.commitBody) then SectionParts("Commit Body", p.commitBody.value, true, "") else []
  }

  function DomainLine(d: (string, seq<string>)): string {
    "**" + Title(d.0) + ":** " + IntToString(|d.1|) + " files"
  }

  /** One line per domain that has files, in the dict's order. */
  function DomainLines(domains: seq<(string, seq<string>)>): seq<string>
    decreases |domains|
  {
    if domains == [] then []
    else
      var last := domains[|domains| - 1];
      DomainLines(domains[..|domains| - 1]) + (if last.1 != [] then [DomainLine(last)] else [])
  }

  function FileLine(f: string, stats: seq<(string, (int, int))>): string {
    f + " (+" + IntToString(StatOf(stats, f).0) + "/-" + IntToString(StatOf(stats, f).1) + ")"
  }

  function FileLines(fs: seq<string>, stats: seq<(string, (int, int))>): (r: seq<string>)
    ensures |r| == |fs|
  {
    seq(|fs|, i requires 0 <= i < |fs| => FileLine(fs[i], stats))
  }

  function MoreFiles(n: int): string { "... and " + IntToString(n) + " more files" }

  /** The changed-file lines: the first ten files, then a count of the rest. */
  function FileDetails(files: seq<string>, stats: seq<(string, (int, int))>): seq<string> {
    FileLines(Take(files, 10), stats) + (if |files| > 10 then [MoreFiles(|files| - 10)] else [])
  }

  /** At most ten files are listed, in order and each with its line counts
      (0/0 for a file without stats); when there are more, one last line
      counts the files left out, so listed plus counted is every file. */
  lemma FileDetailsFacts(files: seq<string>, stats: seq<(string, (int, int))>)
    ensures var d := FileDetails(files, stats);
      && |d| == Min(|files|, 10) + (if |files| > 10 then 1 else 0)
      && (forall i :: 0 <= i < Min(|files|, 10) ==> d[i] == FileLine(files[i], stats))
      && (|files| > 10 ==> d[10] == MoreFiles(|files| - 10) && 10 + (|files| - 10) == |files|)
  {
    var d := FileDetails(files, stats);
    forall i | 0 <= i < Min(|files|, 10) ensures d[i] == FileLine(files[i], stats) {
      assert Take(files, 10)[i] == files[i];
    }
  }

  function ChangesParts(p: PushInput): seq<string> {
    if p.analysis.Some? && p.analysis.value.domains != [] then
      var lines := DomainLines(p.analysis.value.domains);
      if lines != [] then ListParts("Changes by Area", lines, false) else []
    else ListParts("Changed Files", FileDetails(p.files, p.stats), false)
  }

  function TestCommand(projectTypes: seq<string>): string {
    if "python" in projectTypes then "pytest" else "test"
  }

  function TestParts(p: PushInput): seq<string> {
    if p.testResult.Some? then CommandParts(TestCommand(p.projectTypes), p.testResult.value, p.testExitCode)
    else []
  }

  function ActionParts(p: PushInput): seq<string> {
    if p.actions.Some? && p.actions.value != [] then ListParts("Actions Performed", p.actions.value, true)
    else []
  }

  function ErrorParts(p: PushInput): seq<string> {
    if Given(p.error) then SectionParts("Error", p.error.value, true, "") else []
  }

  function SuccessSteps(newVersion: string): seq<string> {
    ["Changes committed successfully",
     "Version updated to " + newVersion,
     "Run `goal push --yes` to retry without prompts",
     "Run `goal --all` for full automation including publish"]
  }

  const TestFailureSteps: seq<string> := [
    "Fix failing tests",
    "Run tests manually: pytest",
    "Retry with: goal push",
    "Or skip tests: goal push --yes -m 'chore: skip tests'"]

  const ErrorSteps: seq<string> := [
    "Review the error above",
    "Check git status: goal status",
    "Retry when ready"]

  function NextSteps(error: Option<string>, testExitCode: int, newVersion: string): seq<string> {
    if !Given(error) && testExitCode == 0 then SuccessSteps(newVersion)
    else if testExitCode != 0 then TestFailureSteps
    else ErrorSteps
  }

  /** The next steps are the success list exactly when there is no error
      and the tests passed, the test-failure list exactly when the tests
      failed (whatever the error), and the error list otherwise. */
  lemma NextStepsChoice(error: Option<string>, testExitCode: int, newVersion: string)
    ensures NextSteps(error, testExitCode, newVersion) == SuccessSteps(newVersion)
      <==> !Given(error) && testExitCode == 0
    ensures NextSteps(error, testExitCode, newVersion) == TestFailureSteps <==> testExitCode != 0
    ensures NextSteps(error, testExitCode, newVersion) == ErrorSteps
      <==> Given(error) && testExitCode == 0
  {
    assert SuccessSteps(newVersion)[0] != TestFailureSteps[0] by {
      assert SuccessSteps(newVersion)[0][0] == 'C' && TestFailureSteps[0][0] == 'F';
    }
    assert |ErrorSteps| != |SuccessSteps(newVersion)| && |ErrorSteps| != |TestFailureSteps|;
  }

  /** The sections of the push report, in the order they are added. */
  function PushSections(p: PushInput): seq<string> {
    PushBody(p) + SummaryParts(ActionsOrEmpty(p.actions), NextSteps(p.error, p.testExitCode, p.newVersion))
  }

  /** Everything before the summary. */
  function PushBody(p: PushInput): seq<string> {
    [HeaderLine("Goal Push Result", 1)] + OverviewParts(p) + BodyParts(p) + ChangesParts(p)
    + TestParts(p) + ActionParts(p) + ErrorParts(p)
  }

  /** The push report opens with its title and closes with the summary of
      actions and the next steps. */
  lemma PushSectionsEnds(p: PushInput)
    ensures var s := PushSections(p);
      var tail := SummaryParts(ActionsOrEmpty(p.actions), NextSteps(p.error, p.testExitCode, p.newVersion));
      s[0] == HeaderLine("Goal Push Result", 1) && |tail| <= |s| && s[|s| - |tail|..] == tail
  {
    var tail := SummaryParts(ActionsOrEmpty(p.actions), NextSteps(p.error, p.testExitCode, p.newVersion));
    AppendEnds(PushBody(p), tail);
    assert PushBody(p)[0] == HeaderLine("Goal Push Result", 1);
  }

  lemma AppendEnds<T>(a: seq<T>, b: seq<T>)
    ensures |b| <= |a + b| && (a + b)[|a + b| - |b|..] == b
    ensures |a| > 0 ==> (a + b)[0] == a[0]
  {
  }

  /** `format_push_result`: builds the push report and renders it;
      `stampedAt` and `renderedAt` stand for the two clock readings. */
  method FormatPushResult(p: PushInput, stampedAt: string, renderedAt: string) returns (text: string)
    ensures text == RenderText(PushSections(p), PushMetadata(p, stampedAt), renderedAt)
  {
    var formatter := new MarkdownFormatter();
    formatter.AddMetadata(PushMetadata(p, stampedAt));
    PushMetadataKeys(p, stampedAt);
    formatter.AddHeader("Goal Push Result", 1);
    assert formatter.sections == [HeaderLine("Goal Push Result", 1)];
    AddPushOverview(formatter, p);
    AddPushDetails(formatter, p);
    assert formatter.sections == PushBody(p);
    var nextSteps;
    if !Given(p.error) && p.testExitCode == 0 {
      nextSteps := SuccessSteps(p.newVersion);
    } else if p.testExitCode != 0 {
      nextSteps := TestFailureSteps;
    } else {
      nextSteps := ErrorSteps;
    }
    assert nextSteps == NextSteps(p.error, p.testExitCode, p.newVersion);
    formatter.AddSummary(ActionsOrEmpty(p.actions), nextSteps);
    assert formatter.sections == PushSections(p);
    text := formatter.Render(renderedAt);
  }

  /** The summary (or, without features and summary, the overview) block of
      `format_push_result`. */
  method AddPushOverview(formatter: MarkdownFormatter, p: PushInput)
    modifies formatter
    ensures formatter.sections == old(formatter.sections) + OverviewParts(p)
    ensures formatter.metadata == old(formatter.metadata)
  {
    var features := Features(p.analysis);
    var summary := SummaryOf(p.analysis);
    var entities := Entities(p.analysis);
    ghost var s0 := formatter.sections;
    if features != [] || summary != "" {
      formatter.AddSection("Summary", FunctionalOverview(p), false, "");
      ghost var s1 := formatter.sections;
      if entities != [] {
        var meaningful := Meaningful(entities);
        if meaningful != [] {
          AddKeyChanges(formatter, meaningful);
          AppendAssoc(s1, [KeyChangesTitle], EntityLines(meaningful));
        } else {
          assert s1 + [] == s1;
        }
      } else {
        assert s1 + [] == s1;
      }
      assert formatter.sections == s1 + KeyChangeParts(entities);
      AppendAssoc(s0, SectionParts("Summary", FunctionalOverview(p), false, ""), KeyChangeParts(entities));
    } else {
      formatter.AddSection("Overview", Overview(p), false, "");
    }
  }

  /** The key functions and classes block: its title, then one bullet per
      entity, in order. */
  method AddKeyChanges(formatter: MarkdownFormatter, meaningful: seq<string>)
    modifies formatter
    ensures formatter.sections == old(formatter.sections) + [KeyChangesTitle] + EntityLines(meaningful)
    ensures formatter.metadata == old(formatter.metadata)
  {
    formatter.sections := formatter.sections + [KeyChangesTitle];
    for i := 0 to |meaningful|
      invariant formatter.sections == old(formatter.sections) + [KeyChangesTitle] + EntityLines(meaningful[..i])
      invariant formatter.metadata == old(formatter.metadata)
    {
      assert EntityLines(meaningful[..i + 1]) == EntityLines(meaningful[..i]) + [EntityLine(meaningful[i])];
      formatter.sections := formatter.sections + ["- `" + meaningful[i] + "`\n"];
    }
    assert meaningful[..|meaningful|] == meaningful;
  }

  /** The blocks of `format_push_result` between the overview and the next
      steps: commit body, changes by area or changed files, test output,
      actions and error. */
  method AddPushDetails(formatter: MarkdownFormatter, p: PushInput)
    modifies formatter
    ensures formatter.sections == old(formatter.sections) + BodyParts(p) + ChangesParts(p)
      + TestParts(p) + ActionParts(p) + ErrorParts(p)
    ensures formatter.metadata == old(formatter.metadata)
  {
    if Given(p.commitBody) {
      formatter.AddSection("Commit Body", p.commitBody.value, true, "");
    }
    ghost var s3 := formatter.sections;
    assert s3 == old(formatter.sections) + BodyParts(p);
    AddPushChanges(formatter, p);
    ghost var s4 := formatter.sections;
    if p.testResult.Some? {
      var command := if "python" in p.projectTypes then "pytest" else "test";
      formatter.AddCommandOutput(command, p.testResult.value, p.testExitCode);
    }
    ghost var s5 := formatter.sections;
    assert s5 == s4 + TestParts(p);
    if p.actions.Some? && p.actions.value != [] {
      formatter.AddList("Actions Performed", p.actions.value, true);
    }
    ghost var s6 := formatter.sections;
    assert s6 == s5 + ActionParts(p);
    if Given(p.error) {
      formatter.AddSection("Error", p.error.value, true, "");
    }
    assert formatter.sections == s6 + ErrorParts(p);
  }

  /** The "Changes by Area" list, or the "Changed Files" list without
      domains. */
  method AddPushChanges(formatter: MarkdownFormatter, p: PushInput)
    modifies formatter
    ensures formatter.sections == old(formatter.sections) + ChangesParts(p)
    ensures formatter.metadata == old(formatter.metadata)
  {
    if p.analysis.Some? && p.analysis.value.domains != [] {
      var domainSummary := SummarizeDomains(p.analysis.value.domains);
      if domainSummary != [] {
        formatter.AddList("Changes by Area", domainSummary, false);
      }
    } else {
      var fileDetails := DescribeFiles(Take(p.files, 10), p.stats);
      if |p.files| > 10 {
        fileDetails := fileDetails + [MoreFiles(|p.files| - 10)];
      }
      formatter.AddList("Changed Files", fileDetails, false);
    }
  }

  /** The loop over the domains: one line for each domain with files. */
  method SummarizeDomains(domains: seq<(string, seq<string>)>) returns (domainSummary: seq<string>)
    ensures domainSummary == DomainLines(domains)
  {
    domainSummary := [];
    for i := 0 to |domains|
      invariant domainSummary == DomainLines(domains[..i])
    {
      assert domains[..i + 1][..i] == domains[..i];
      if domains[i].1 != [] {
        domainSummary := domainSummary + [DomainLine(domains[i])];
      }
    }
    assert domains[..|domains|] == domains;
  }

  /** The loop over the shown files: each with its added and deleted counts. */
  method DescribeFiles(shown: seq<string>, stats: seq<(string, (int, int))>) returns (fileDetails: seq<string>)
    ensures fileDetails == FileLines(shown, stats)
  {
    fileDetails := [];
    for i := 0 to |shown|
      invariant fileDetails == FileLines(shown[..i], stats)
    {
      var (adds, dels) := StatOf(stats, shown[i]);
      var line := shown[i] + " (+" + IntToString(adds) + "/-" + IntToString(dels) + ")";
      FileLineOf(shown[i], stats, adds, dels, line);
      PrefixSnoc(shown, i);
      FileLinesSnoc(shown[..i], shown[i], stats);
      fileDetails := fileDetails + [line];
    }
    assert shown[..|shown|] == shown;
  }

  lemma FileLinesSnoc(fs: seq<string>, f: string, stats: seq<(string, (int, int))>)
    ensures FileLines(fs + [f], stats) == FileLines(fs, stats) + [FileLine(f, stats)]
  {
    var a, b := FileLines(fs + [f], stats), FileLines(fs, stats) + [FileLine(f, stats)];
    forall k | 0 <= k < |a| ensures a[k] == b[k] {
      if k < |fs| {
        assert (fs + [f])[k] == fs[k];
      }
    }
  }

  lemma FileLineOf(f: string, stats: seq<(string, (int, int))>, adds: int, dels: int, line: string)
    requires (adds, dels) == StatOf(stats, f)
    requires line == f + " (+" + IntToString(adds) + "/-" + IntToString(dels) + ")"
    ensures line == FileLine(f, stats)
  {
  }

  // ---------------------------------------------------------------------
  // The `goal status` report
  // ---------------------------------------------------------------------

  /** The "Current State" text; the text in the source is stripped of the
      newline before and the indentation after it. */
  function StateInfo(version: string, branch: string, staged: seq<string>, unstaged: seq<string>): string {
    "**Version:** " + version + "\n**Branch:** " + branch
    + "\n**Staged Files:** " + IntToString(|staged|)
    + "\n**Unstaged Files:** " + IntToString(|unstaged|)
  }

  const QuickActions: seq<string> := [
    "Commit staged files: `goal push`",
    "Stage all changes: `git add . && goal push`",
    "Check version: `goal version`",
    "Dry run: `goal push --dry-run`"]

  /** The unstaged files: at most twenty listed, then an untitled section
      counting the rest. */
  function UnstagedParts(unstaged: seq<string>): seq<string> {
    if unstaged != [] then
      ListParts("Unstaged/Untracked Files", Take(unstaged, 20), false)
      + (if |unstaged| > 20 then SectionParts("", MoreFiles(|unstaged| - 20), false, "") else [])
    else []
  }

  function StatusSections(version: string, branch: string, staged: seq<string>, unstaged: seq<string>): seq<string> {
    [HeaderLine("Goal Status", 1)]
    + SectionParts("Current State", StateInfo(version, branch, staged, unstaged), false, "")
    + (if staged != [] then ListParts("Staged Files", staged, false) else [])
    + UnstagedParts(unstaged)
    + ListParts("Quick Actions", QuickActions, false)
  }

  /** The unstaged listing shows the first twenty files in order, as
      bulleted lines, and when there are more it ends with a line counting
      the rest, so shown plus counted is every unstaged file. */
  lemma UnstagedFacts(unstaged: seq<string>)
    ensures var u := UnstagedParts(unstaged);
      && |u| == (if unstaged == [] then 0 else 1 + Min(|unstaged|, 20) + (if |unstaged| > 20 then 2 else 0))
      && (forall i :: 0 <= i < Min(|unstaged|, 20) ==> u[1 + i] == "- " + unstaged[i] + "\n")
      && (|unstaged| > 20 ==>
            u[|u| - 1] == MoreFiles(|unstaged| - 20) + "\n" && 20 + (|unstaged| - 20) == |unstaged|)
  {
    if unstaged != [] {
      var shown := Take(unstaged, 20);
      var u := UnstagedParts(unstaged);
      forall i | 0 <= i < Min(|unstaged|, 20) ensures u[1 + i] == "- " + unstaged[i] + "\n" {
        assert u[1 + i] == ItemLines(shown, false)[i];
        assert shown[i] == unstaged[i];
      }
    }
  }

  /** The status report has no front matter: it starts with its title
      header and ends with the footer. */
  lemma StatusReportLayout(version: string, branch: string, staged: seq<string>, unstaged: seq<string>, now: string)
    ensures var sections := StatusSections(version, branch, staged, unstaged);
      RenderText(sections, [], now) == Flatten(sections) + Footer(now)
      && sections[0] == HeaderLine("Goal Status", 1)
  {
    RenderLayout(StatusSections(version, branch, staged, unstaged), [], now);
  }

  /** `format_status_output`: builds the status report and renders it at
      the clock reading `now`. */
  method FormatStatusOutput(version: string, branch: string, staged: seq<string>, unstaged: seq<string>, now: string)
    returns (text: string)
    ensures text == RenderText(StatusSections(version, branch, staged, unstaged), [], now)
  {
    var formatter := new MarkdownFormatter();
    formatter.AddHeader("Goal Status", 1);
    assert formatter.sections == [HeaderLine("Goal Status", 1)];
    formatter.AddSection("Current State", StateInfo(version, branch, staged, unstaged), false, "");
    ghost var s0 := formatter.sections;
    if staged != [] {
      formatter.AddList("Staged Files", staged, false);
    }
    ghost var s1 := formatter.sections;
    assert s1 == s0 + (if staged != [] then ListParts("Staged Files", staged, false) else []);
    if unstaged != [] {
      formatter.AddList("Unstaged/Untracked Files", Take(unstaged, 20), false);
      if |unstaged| > 20 {
        formatter.AddSection("", MoreFiles(|unstaged| - 20), false, "");
      }
    }
    assert formatter.sections == s1 + UnstagedParts(unstaged);
    formatter.AddList("Quick Actions", QuickActions, false);
    assert formatter.sections == StatusSections(version, branch, staged, unstaged);
    text := formatter.Render(now);
  }
}
