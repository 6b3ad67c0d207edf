/** The goal.yaml configuration store: a nested map of YAML values with
    deep merge, dot-path lookup and update, cached loading, validation and
    detection updates. */
module Config {
  import opened Wrappers
  import opened Strings
  import Cli
  import Patterns

  /** A YAML value as `yaml.safe_load` produces it (floats are not
      modelled). A mapping is a `map`, so its key order is not kept. */
  datatype Value =
    | Null
    | Bool(b: bool)
    | Num(n: int)
    | Str(s: string)
    | List(items: seq<Value>)
    | Dict(entries: map<string, Value>)

  /** Python truthiness. */
  predicate Truthy(v: Value) {
    match v
    case Null => false
    case Bool(b) => b
    case Num(n) => n != 0
    case Str(s) => s != ""
    case List(items) => items != []
    case Dict(m) => m != map[]
  }

  // ------------------------------------------------------------ _deep_copy

  /** `_deep_copy`: rebuilds every map and list; the copy is the same value. */
  function DeepCopy(v: Value): (r: Value)
    ensures r == v
  {
    match v
    case List(items) =>
      var copied := seq(|items|, i requires 0 <= i < |items| => DeepCopy(items[i]));
      assert copied == items;
      List(copied)
    case Dict(m) =>
      var copied := map k | k in m :: DeepCopy(m[k]);
      assert copied == m;
      Dict(copied)
    case _ => v
  }

  // -------------------------------------------------------- _merge_configs

  /** `_merge_configs`: every key of either side; where both sides hold a
      mapping the two are merged, otherwise the override wins. */
  function Merge(base: map<string, Value>, override: map<string, Value>): (r: map<string, Value>)
    ensures r.Keys == base.Keys + override.Keys
    decreases Dict(override)
  {
    map k | k in base.Keys + override.Keys ::
      if k in override then
        if k in base && base[k].Dict? && override[k].Dict? then
          Dict(Merge(base[k].entries, override[k].entries))
        else DeepCopy(override[k])
      else DeepCopy(base[k])
  }

  /** A key only the base has keeps its base value. */
  lemma MergeKeepsBase(base: map<string, Value>, override: map<string, Value>, k: string)
    requires k in base && k !in override
    ensures Merge(base, override)[k] == base[k]
  {
  }

  /** Merging nothing in gives the base back. */
  lemma MergeEmptyOverride(base: map<string, Value>)
    ensures Merge(base, map[]) == base
  {
    assert forall k | k in base :: Merge(base, map[])[k] == base[k];
  }

  /** Merging into nothing gives the override back. */
  lemma MergeEmptyBase(override: map<string, Value>)
    ensures Merge(map[], override) == override
  {
    assert forall k | k in override :: Merge(map[], override)[k] == override[k];
  }

  /** Merging the same override twice changes nothing the second time. */
  lemma {:induction false} MergeIdempotent(base: map<string, Value>, override: map<string, Value>)
    ensures Merge(Merge(base, override), override) == Merge(base, override)
    decreases Dict(override)
  {
    var once := Merge(base, override);
    forall k | k in once
      ensures Merge(once, override)[k] == once[k]
    {
      if k in override && once[k].Dict? && override[k].Dict? {
        if k in base && base[k].Dict? {
          MergeIdempotent(base[k].entries, override[k].entries);
        } else {
          MergeSelf(override[k].entries);
        }
      }
    }
  }

  /** A map merged with itself is itself. */
  lemma {:induction false} MergeSelf(m: map<string, Value>)
    ensures Merge(m, m) == m
    decreases Dict(m)
  {
    forall k | k in m
      ensures Merge(m, m)[k] == m[k]
    {
      if m[k].Dict? {
        MergeSelf(m[k].entries);
      }
    }
  }

  // ------------------------------------------------------------------ get

  /** The value a key path reaches, if every step is a mapping holding the
      next key. */
  function PathValue(v: Value, keys: seq<string>): Option<Value>
    decreases |keys|
  {
    if keys == [] then Some(v)
    else if v.Dict? && keys[0] in v.entries then PathValue(v.entries[keys[0]], keys[1..])
    else None
  }

  /** `get`'s walk: the value at the path, or the default. */
  function GetPath(v: Value, keys: seq<string>, default: Value): Value {
    PathValue(v, keys).GetOr(default)
  }

  /** Every leaf of the override is found at its path in the merge. */
  lemma {:induction false} MergeOverrideLeaf(base: map<string, Value>, override: map<string, Value>, keys: seq<string>, x: Value)
    requires |keys| > 0 && PathValue(Dict(override), keys) == Some(x) && !x.Dict?
    ensures PathValue(Dict(Merge(base, override)), keys) == Some(x)
    decreases |keys|
  {
    var k := keys[0];
    var m := Merge(base, override);
    if |keys| > 1 && k in base && base[k].Dict? && override[k].Dict? {
      MergeOverrideLeaf(base[k].entries, override[k].entries, keys[1..], x);
    } else if |keys| > 1 {
      assert m[k] == override[k];
    }
  }

  // ------------------------------------------------------------------ set

  /** `set`'s walk: missing intermediate keys get fresh mappings and the last
      key gets the value; None when an existing intermediate is not a
      mapping, where the source raises. */
  function SetPath(m: map<string, Value>, keys: seq<string>, value: Value): (r: Option<map<string, Value>>)
    requires |keys| > 0
    ensures r.Some? ==> r.value.Keys == m.Keys + {keys[0]}
    decreases |keys|
  {
    var k := keys[0];
    if |keys| == 1 then Some(m[k := value])
    else if k !in m then
      var inner := SetPath(map[], keys[1..], value);
      if inner.Some? then Some(m[k := Dict(inner.value)]) else None
    else if m[k].Dict? then
      var inner := SetPath(m[k].entries, keys[1..], value);
      if inner.Some? then Some(m[k := Dict(inner.value)]) else None
    else None
  }

  /** On fresh ground the walk never fails. */
  lemma {:induction false} SetPathFresh(keys: seq<string>, value: Value)
    requires |keys| > 0
    ensures SetPath(map[], keys, value).Some?
    decreases |keys|
  {
    if |keys| > 1 {
      SetPathFresh(keys[1..], value);
    }
  }

  /** After a successful `set`, `get` of the same key returns the value. */
  lemma {:induction false} SetThenGet(m: map<string, Value>, keys: seq<string>, value: Value)
    requires |keys| > 0 && SetPath(m, keys, value).Some?
    ensures PathValue(Dict(SetPath(m, keys, value).value), keys) == Some(value)
    decreases |keys|
  {
    if |keys| > 1 {
      var k := keys[0];
      if k !in m {
        SetThenGet(map[], keys[1..], value);
      } else {
        SetThenGet(m[k].entries, keys[1..], value);
      }
    }
  }

  /** Two paths part at index `i`: they agree before it and differ at it. */
  predicate Diverge(a: seq<string>, b: seq<string>, i: nat) {
    i < |a| && i < |b| && a[..i] == b[..i] && a[i] != b[i]
  }

  /** A successful `set` changes no path that parts from the key's. */
  lemma {:induction false} SetElsewhere(m: map<string, Value>, keys: seq<string>, value: Value, other: seq<string>, i: nat)
    requires |keys| > 0 && SetPath(m, keys, value).Some? && Diverge(keys, other, i)
    ensures PathValue(Dict(SetPath(m, keys, value).value), other) == PathValue(Dict(m), other)
    decreases |keys|
  {
    var k := keys[0];
    var m' := SetPath(m, keys, value).value;
    if i > 0 {
      assert other[0] == k by { assert keys[..i][0] == other[..i][0]; }
      assert Diverge(keys[1..], other[1..], i - 1) by {
        assert keys[1..][..i - 1] == keys[..i][1..];
        assert other[1..][..i - 1] == other[..i][1..];
      }
      if k !in m {
        SetElsewhere(map[], keys[1..], value, other[1..], i - 1);
      } else {
        SetElsewhere(m[k].entries, keys[1..], value, other[1..], i - 1);
      }
    }
  }

  // ------------------------------------------------------------- defaults

  /** The default `git.commit.domain_mapping`, in its declaration order. */
  const DefaultDomainMapping: seq<(string, string)> := [
    ("goal/*.py", "core"), ("src/*.py", "core"), ("lib/*.py", "core"), ("app/*.py", "app"),
    ("api/*.py", "api"), ("docs/*", "docs"), ("tests/*", "test"), ("test/*", "test"),
    ("*.md", "docs"), ("*.rst", "docs"), ("pyproject.toml", "build"), ("setup.py", "build"),
    ("setup.cfg", "build"), ("package.json", "build"), ("Cargo.toml", "build"),
    ("goal.yaml", "config"), (".github/*", "ci"), (".gitlab-ci.yml", "ci"),
    ("Dockerfile", "docker"), ("docker-compose.yml", "docker")
  ]

  /** A list of pairs as a YAML mapping; a later pair wins. */
  function PairsDict(pairs: seq<(string, string)>): (r: map<string, Value>)
    ensures forall k :: k in r <==> exists i :: 0 <= i < |pairs| && pairs[i].0 == k
    decreases |pairs|
  {
    if pairs == [] then map[]
    else
      var last := pairs[|pairs| - 1];
      var front := PairsDict(pairs[..|pairs| - 1]);
      assert forall k :: k in front ==> exists i :: 0 <= i < |pairs| && pairs[i].0 == k by {
        forall k | k in front ensures exists i :: 0 <= i < |pairs| && pairs[i].0 == k {
          var i :| 0 <= i < |pairs| - 1 && pairs[..|pairs| - 1][i].0 == k;
          assert pairs[i].0 == k;
        }
      }
      front[last.0 := Str(last.1)]
  }

  function Strs(xs: seq<string>): (r: Value)
    ensures r.List? && |r.items| == |xs| && forall i :: 0 <= i < |xs| ==> r.items[i] == Str(xs[i])
  {
    List(seq(|xs|, i requires 0 <= i < |xs| => Str(xs[i])))
  }

  /** `_get_default_config`: the default tables with the detected project
      name, types, description and version files filled in; the scope
      defaults to the project name. Reproduced are the `version` field,
      the project and versioning tables, `advanced.auto_update_config`,
      and of `git` the commit strategy, scope,
      abstraction level, domain mapping, benefit keywords and templates,
      the changelog switches and the tag settings; the other tables are
      left out. */
  function DefaultConfig(name: string, types: seq<string>, description: string, versionFiles: seq<string>): (r: map<string, Value>)
    ensures PathValue(Dict(r), ["project", "name"]) == Some(Str(name))
    ensures PathValue(Dict(r), ["versioning", "files"]) == Some(Strs(versionFiles))
    ensures PathValue(Dict(r), ["git", "commit", "strategy"]) == Some(Str("conventional"))
    ensures PathValue(Dict(r), ["git", "commit", "templates"]) == Some(Dict(DefaultTemplates()))
    ensures PathValue(Dict(r), ["git", "commit", "benefit_keywords"]) == Some(Dict(DefaultBenefitKeywords()))
  {
    var commit := map[
      "scope" := Str(name),
      "abstraction_level" := Str("auto"),
      "domain_mapping" := Dict(PairsDict(DefaultDomainMapping)),
      "benefit_keywords" := Dict(DefaultBenefitKeywords()),
      "templates" := Dict(DefaultTemplates()),
      "strategy" := Str("conventional")];
    var versioning := map[
      "strategy" := Str("semver"),
      "bump_rules" := Dict(map["patch" := Num(10), "minor" := Num(50), "major" := Num(200)]),
      "files" := Strs(versionFiles)];
    var r := map[
      "version" := Str("1.0"),
      "advanced" := Dict(map["auto_update_config" := Bool(true)]),
      "versioning" := Dict(versioning),
      "project" := Dict(map["name" := Str(name), "type" := Strs(types), "description" := Str(description)]),
      "git" := Dict(map[
        "tag" := Dict(map["enabled" := Bool(true), "prefix" := Str("v"), "format" := Str("{prefix}{version}")]),
        "changelog" := Dict(map[
          "enabled" := Bool(true),
          "output" := Str("CHANGELOG.md"),
          "group_by_domain" := Bool(true),
          "include_entities" := Bool(true),
          "max_entities_per_entry" := Num(5)]),
        "commit" := Dict(commit)])
    ];
    PathOfTwo(r, "project", "name");
    PathOfTwo(r, "versioning", "files");
    PathOfThree(r, "git", "commit", "strategy");
    PathOfThree(r, "git", "commit", "templates");
    PathOfThree(r, "git", "commit", "benefit_keywords");
    r
  }

  /** The default `git.commit.benefit_keywords`: a benefit per keyword. */
  function DefaultBenefitKeywords(): map<string, Value> {
    map[
      "config" := Str("better configuration management"), "cli" := Str("improved CLI experience"),
      "api" := Str("enhanced API functionality"), "test" := Str("improved test coverage"),
      "docs" := Str("better documentation"), "auth" := Str("enhanced security"),
      "perf" := Str("improved performance"), "refactor" := Str("cleaner code architecture"),
      "fix" := Str("resolved issues"), "feat" := Str("new functionality")
    ]
  }

  lemma PathOfTwo(m: map<string, Value>, a: string, b: string)
    requires a in m && m[a].Dict? && b in m[a].entries
    ensures PathValue(Dict(m), [a, b]) == Some(m[a].entries[b])
  {
    var x := m[a].entries[b];
    assert PathValue(x, []) == Some(x);
    assert [b][1..] == [];
    assert PathValue(m[a], [b]) == PathValue(x, []);
    assert [a, b][1..] == [b];
  }

  lemma PathOfThree(m: map<string, Value>, a: string, b: string, c: string)
    requires a in m && m[a].Dict? && b in m[a].entries
    requires m[a].entries[b].Dict? && c in m[a].entries[b].entries
    ensures PathValue(Dict(m), [a, b, c]) == Some(m[a].entries[b].entries[c])
  {
    assert [a, b, c][1..] == [b, c];
    PathOfTwo(m[a].entries, b, c);
  }

  /** The default `git.commit.templates`: per commit type, a template for
      each abstraction level. */
  function DefaultTemplates(): map<string, Value> {
    map[
      "feat" := Levels("feat", "{benefit}", "add {entities}", "add {file_count} files (+{added}/-{deleted})"),
      "fix" := Levels("fix", "{benefit}", "resolve {entities}", "update {file_count} files (+{added}/-{deleted})"),
      "docs" := Levels("docs", "{benefit}", "document {entities}", "update {file_count} files"),
      "refactor" := Levels("refactor", "{benefit}", "restructure {entities}", "update {file_count} files"),
      "test" := Levels("test", "{benefit}", "add tests for {entities}", "update {file_count} files"),
      "build" := Levels("build", "{benefit}", "configure {entities}", "update {file_count} files"),
      "chore" := Levels("chore", "{benefit}", "update {entities}", "update {file_count} files"),
      "style" := Levels("style", "{benefit}", "format {entities}", "update {file_count} files"),
      "perf" := Levels("perf", "{benefit}", "optimize {entities}", "update {file_count} files")
    ]
  }

  /** The three templates `<type>({domain}): <text>` of one commit type. */
  function Levels(kind: string, high: string, medium: string, low: string): Value {
    var head := kind + "({domain}): ";
    Dict(map["high" := Str(head + high), "medium" := Str(head + medium), "low" := Str(head + low)])
  }

  /** The default mapping files a `Dockerfile` under `docker`. */
  lemma DefaultDockerfileDomain()
    ensures Cli.DomainFor(DefaultDomainMapping, "Dockerfile") == "docker"
  {
    var m := DefaultDomainMapping;
    var f := "Dockerfile";
    forall i | 0 <= i < 18
      ensures !Cli.PatternCovers(m[i].0, f)
    {
      if i == 8 || i == 9 {
        Patterns.GlobStarSuffix(m[i].0[1..], f);
        assert "*" + m[i].0[1..] == m[i].0;
      } else {
        Cli.FirstCharMiss(m[i].0, f);
      }
    }
    Patterns.GlobLiteral(f, f);
    Cli.DomainForHit(m, f, 18);
  }

  /** The default config groups the CHANGELOG by domain. */
  lemma DefaultGroupsByDomain(name: string, types: seq<string>, description: string, versionFiles: seq<string>)
    ensures PathValue(Dict(DefaultConfig(name, types, description, versionFiles)), ["git", "changelog", "group_by_domain"])
      == Some(Bool(true))
  {
    var r := DefaultConfig(name, types, description, versionFiles);
    PathOfThree(r, "git", "changelog", "group_by_domain");
  }

  /** With the default settings the grouped CHANGELOG entry as written
      leaves out a changed `Dockerfile`. */
  lemma DefaultDropsDockerfileAsWritten(version: string, date: string, message: string, files: seq<string>, entities: seq<string>)
    ensures Cli.DomainEntryAsWritten(version, date, message, Cli.Changes(DefaultDomainMapping, files + ["Dockerfile"]), entities)
      == Cli.DomainEntryAsWritten(version, date, message, Cli.Changes(DefaultDomainMapping, files), entities)
  {
    DefaultDockerfileDomain();
    DropsDockerfileAsWritten(version, date, message, files, entities, DefaultDomainMapping);
  }

  /** Any mapping that sends `Dockerfile` to the docker domain drops it
      from the grouped entry as written. */
  lemma DropsDockerfileAsWritten(version: string, date: string, message: string, files: seq<string>,
                                 entities: seq<string>, mapping: seq<(string, string)>)
    requires Cli.DomainFor(mapping, "Dockerfile") == "docker"
    ensures Cli.DomainEntryAsWritten(version, date, message, Cli.Changes(mapping, files + ["Dockerfile"]), entities)
      == Cli.DomainEntryAsWritten(version, date, message, Cli.Changes(mapping, files), entities)
  {
    Cli.BasenameNoSlash("Dockerfile");
    Cli.DockerFileDroppedAsWritten(version, date, message, files, mapping, entities, "Dockerfile");
  }

  // ----------------------------------------------------------------- load

  /** What `load` finds at the config path: no file, a file that cannot be
      read or parsed, or a parsed YAML document. */
  datatype ConfigFile = Missing | Unreadable | Parsed(doc: Value)

  /** `load`'s result: the defaults merged with a parsed mapping. An empty
      document counts as `{}`; any other non-mapping document makes the
      merge raise, which falls back to the defaults. */
  function LoadedConfig(file: ConfigFile, defaults: map<string, Value>): (r: map<string, Value>)
    ensures defaults.Keys <= r.Keys
  {
    match file
    case Parsed(doc) =>
      if !Truthy(doc) then Merge(defaults, map[])
      else if doc.Dict? then Merge(defaults, doc.entries)
      else defaults
    case _ => defaults
  }

  /** `get`'s lookup of a dotted key. */
  function Lookup(config: map<string, Value>, key: string, default: Value): Value {
    GetPath(Dict(config), Split(key, '.'), default)
  }

  // ------------------------------------------------ update_from_detection

  /** `set(v)` of a stored value: a list gives its items, a string its
      characters and a mapping its keys; None where `set` raises (a number,
      a boolean, None, or a list holding a list or a mapping). */
  function StoredSet(v: Value): Option<set<Value>> {
    match v
    case List(items) =>
      if forall i :: 0 <= i < |items| ==> !items[i].List? && !items[i].Dict? then
        Some(set i | 0 <= i < |items| :: items[i])
      else None
    case Str(s) => Some(set i | 0 <= i < |s| :: Str([s[i]]))
    case Dict(m) => Some(set k | k in m :: Str(k))
    case _ => None
  }

  function StrSet(xs: seq<string>): set<Value> {
    set i | 0 <= i < |xs| :: Str(xs[i])
  }

  /** The stored list at `section.key` as a set, where `.get` with `{}` and
      `[]` defaults reads it; None where the source raises. */
  function Stored(config: map<string, Value>, section: string, key: string): Option<set<Value>> {
    var sec := if section in config then config[section] else Dict(map[]);
    if !sec.Dict? then None
    else StoredSet(if key in sec.entries then sec.entries[key] else List([]))
  }

  /** A two-step `set` through an existing mapping. */
  lemma SetPathPair(m: map<string, Value>, a: string, b: string, v: Value)
    requires a in m && m[a].Dict?
    ensures SetPath(m, [a, b], v) == Some(m[a := Dict(m[a].entries[b := v])])
  {
    assert [a, b][1..] == [b];
  }

  /** One half of `update_from_detection`: replace `section.key` by the
      detected list when the two differ as sets. Err where the source
      raises. */
  function UpdateList(config: map<string, Value>, section: string, key: string, detected: seq<string>)
    : Result<(map<string, Value>, bool)>
  {
    match Stored(config, section, key)
    case None => Err("cannot compare " + section + "." + key)
    case Some(stored) =>
      if StrSet(detected) == stored then Ok((config, false))
      else if section !in config then Err("KeyError: " + section)
      else
        SetPathPair(config, section, key, Strs(detected));
        Ok((SetPath(config, [section, key], Strs(detected)).value, true))
  }

  /** `update_from_detection`: the project types, then the version files.
      The result and the configuration afterwards; an error after the types
      were replaced leaves that replacement in place. */
  function DetectionUpdate(config: map<string, Value>, types: seq<string>, files: seq<string>)
    : (Result<bool>, map<string, Value>)
  {
    match UpdateList(config, "project", "type", types)
    case Err(e) => (Err(e), config)
    case Ok((c1, changed1)) =>
      match UpdateList(c1, "versioning", "files", files)
      case Err(e) => (Err(e), c1)
      case Ok((c2, changed2)) => (Ok(changed1 || changed2), c2)
  }

  /** A replaced list reads back as the detected one, and no path that
      parts from it changes. */
  lemma UpdateListEffect(config: map<string, Value>, section: string, key: string, detected: seq<string>, other: seq<string>, i: nat)
    requires UpdateList(config, section, key, detected).Ok?
    requires Diverge([section, key], other, i)
    ensures var (c, changed) := UpdateList(config, section, key, detected).value;
      (changed ==> PathValue(Dict(c), [section, key]) == Some(Strs(detected)))
      && PathValue(Dict(c), other) == PathValue(Dict(config), other)
  {
    var (c, changed) := UpdateList(config, section, key, detected).value;
    if changed {
      SetThenGet(config, [section, key], Strs(detected));
      SetElsewhere(config, [section, key], Strs(detected), other, i);
    }
  }

  /** `update_from_detection` reports a change exactly when the detected
      types or version files differ, as sets, from the stored ones. */
  lemma DetectionChangedIff(config: map<string, Value>, types: seq<string>, files: seq<string>)
    requires DetectionUpdate(config, types, files).0.Ok?
    ensures Stored(config, "project", "type").Some? && Stored(config, "versioning", "files").Some?
    ensures DetectionUpdate(config, types, files).0.value
      <==> (StrSet(types) != Stored(config, "project", "type").value
            || StrSet(files) != Stored(config, "versioning", "files").value)
  {
    var (c1, changed1) := UpdateList(config, "project", "type", types).value;
    if changed1 {
      SetElsewhere(config, ["project", "type"], Strs(types), ["versioning"], 0);
      SetElsewhere(config, ["project", "type"], Strs(types), ["versioning", "files"], 0);
      assert "versioning" in c1 <==> "versioning" in config by {
        assert PathValue(Dict(c1), ["versioning"]) == PathValue(Dict(config), ["versioning"]);
      }
      if "versioning" in config {
        assert c1["versioning"] == config["versioning"] by {
          assert PathValue(Dict(c1), ["versioning"]) == PathValue(Dict(config), ["versioning"]);
        }
      }
    }
  }

  // ------------------------------------------------------------- validate

  /** `str(v)` in a validation message; lists and mappings are shown by
      their kind only. */
  function Show(v: Value): string {
    match v
    case Null => "None"
    case Bool(b) => if b then "True" else "False"
    case Num(n) => IntToString(n)
    case Str(s) => s
    case List(_) => "<list>"
    case Dict(_) => "<mapping>"
  }

  /** What a `for` loop over the value visits: list items or a string's
      characters; None for a value it cannot iterate, and for a mapping,
      whose key order is not modelled. */
  function Iterated(v: Value): (r: Option<seq<Value>>)
    ensures r.Some? <==> v.List? || v.Str?
    ensures v.List? ==> r == Some(v.items)
    ensures v.Str? ==> |r.value| == |v.s| && forall i :: 0 <= i < |v.s| ==> r.value[i] == Str([v.s[i]])
  {
    match v
    case List(items) => Some(items)
    case Str(s) => Some(seq(|s|, i requires 0 <= i < |s| => Str([s[i]])))
    case _ => None
  }

  /** The missing-file errors for the version file entries, in order; the
      path is the part before the first `:` and `VERSION` is never
      reported. Err at an entry that is not a string. */
  function VersionFileErrors(entries: seq<Value>, present: string -> bool): (r: Result<seq<string>>)
    ensures r.Ok? ==> |r.value| <= |entries|
    decreases |entries|
  {
    if entries == [] then Ok([])
    else
      match VersionFileErrors(entries[..|entries| - 1], present)
      case Err(e) => Err(e)
      case Ok(errs) =>
        var e := entries[|entries| - 1];
        if !e.Str? then Err("not a string: " + Show(e))
        else
          var path := Split(e.s, ':')[0];
          Ok(errs + (if !present(path) && path != "VERSION" then ["Version file not found: " + path] else []))
  }

  const Strategies: seq<Value> := [Str("semver"), Str("calver"), Str("date")]
  const CommitStrategies: seq<Value> := [Str("conventional"), Str("semantic"), Str("custom")]

  /** The three field checks of `validate`, in order. */
  function FieldErrors(config: map<string, Value>): seq<string> {
    var name := Lookup(config, "project.name", Null);
    var strategy := Lookup(config, "versioning.strategy", Null);
    var commit := Lookup(config, "git.commit.strategy", Null);
    (if !Truthy(name) then ["project.name is required"] else [])
    + (if strategy !in Strategies then ["Invalid versioning.strategy: " + Show(strategy)] else [])
    + (if commit !in CommitStrategies then ["Invalid git.commit.strategy: " + Show(commit)] else [])
  }

  /** `validate`'s error list; `present` stands for the file system's `exists`. */
  function ValidationErrors(config: map<string, Value>, present: string -> bool): Result<seq<string>> {
    match Iterated(Lookup(config, "versioning.files", List([])))
    case None => Err("versioning.files is not iterable")
    case Some(entries) =>
      match VersionFileErrors(entries, present)
      case Err(e) => Err(e)
      case Ok(fileErrs) => Ok(FieldErrors(config) + fileErrs)
  }

  /** Every version-file entry is reported iff its file is missing and is
      not `VERSION`. */
  lemma {:induction false} VersionFileErrorsIff(entries: seq<Value>, present: string -> bool, path: string)
    requires forall i :: 0 <= i < |entries| ==> entries[i].Str?
    ensures VersionFileErrors(entries, present).Ok?
    ensures "Version file not found: " + path in VersionFileErrors(entries, present).value
      <==> (!present(path) && path != "VERSION"
            && exists i :: 0 <= i < |entries| && Split(entries[i].s, ':')[0] == path)
    decreases |entries|
  {
    if entries != [] {
      var front := entries[..|entries| - 1];
      VersionFileErrorsIff(front, present, path);
      var e := entries[|entries| - 1];
      var p := Split(e.s, ':')[0];
      var msg := "Version file not found: ";
      if msg + path == msg + p {
        assert path == (msg + path)[|msg|..] == (msg + p)[|msg|..] == p;
      }
      if exists i :: 0 <= i < |entries| && Split(entries[i].s, ':')[0] == path {
        var i :| 0 <= i < |entries| && Split(entries[i].s, ':')[0] == path;
        if i < |entries| - 1 {
          assert front[i] == entries[i];
        }
      }
      if exists i :: 0 <= i < |front| && Split(front[i].s, ':')[0] == path {
        var i :| 0 <= i < |front| && Split(front[i].s, ':')[0] == path;
        assert entries[i] == front[i];
      }
    }
  }

  lemma VersionFileStep(entries: seq<Value>, i: nat, present: string -> bool)
    requires i < |entries|
    ensures VersionFileErrors(entries[..i + 1], present)
      == match VersionFileErrors(entries[..i], present)
         case Err(e) => Err(e)
         case Ok(errs) =>
           if !entries[i].Str? then Err("not a string: " + Show(entries[i]))
           else
             var path := Split(entries[i].s, ':')[0];
             Ok(errs + (if !present(path) && path != "VERSION" then ["Version file not found: " + path] else []))
  {
    assert entries[..i + 1][..i] == entries[..i];
  }

  /** An entry that is not a string ends the check with its error. */
  lemma {:induction false} VersionFileErrSticks(entries: seq<Value>, n: nat, present: string -> bool)
    requires n <= |entries| && VersionFileErrors(entries[..n], present).Err?
    ensures VersionFileErrors(entries, present) == VersionFileErrors(entries[..n], present)
    decreases |entries| - n
  {
    if n < |entries| {
      VersionFileStep(entries, n, present);
      VersionFileErrSticks(entries, n + 1, present);
    } else {
      assert entries[..n] == entries;
    }
  }

  /** The loop of `validate` over the version file entries. */
  method CheckVersionFiles(entries: seq<Value>, present: string -> bool) returns (r: Result<seq<string>>)
    ensures r == VersionFileErrors(entries, present)
  {
    var errors: seq<string> := [];
    var i := 0;
    while i < |entries|
      invariant 0 <= i <= |entries|
      invariant VersionFileErrors(entries[..i], present) == Ok(errors)
    {
      var e := entries[i];
      VersionFileStep(entries, i, present);
      if !e.Str? {
        VersionFileErrSticks(entries, i + 1, present);
        return Err("not a string: " + Show(e));
      }
      var path := Split(e.s, ':')[0];
      if !present(path) && path != "VERSION" {
        errors := errors + ["Version file not found: " + path];
      } else {
        assert errors + [] == errors;
      }
      i := i + 1;
    }
    assert entries[..i] == entries;
    r := Ok(errors);
  }

  // ------------------------------------------------------------ GoalConfig

  /** `GoalConfig`: the configuration file it reads, the defaults detected
      for the project, and the cached configuration with its loaded flag. */
  class GoalConfig {
    const file: ConfigFile
    const defaults: map<string, Value>
    var config: map<string, Value>
    var loaded: bool

    constructor(file: ConfigFile, defaults: map<string, Value>)
      ensures this.file == file && this.defaults == defaults
      ensures config == map[] && !loaded
    {
      this.file := file;
      this.defaults := defaults;
      config := map[];
      loaded := false;
    }

    /** The configuration as every accessor sees it after `load`. */
    function Current(): map<string, Value>
      reads this
    {
      if loaded then config else LoadedConfig(file, defaults)
    }

    /** `load`: the cached configuration once loaded, otherwise the
        defaults merged with the file. */
    method Load() returns (r: map<string, Value>)
      modifies this
      ensures loaded && config == old(Current()) && r == config
      ensures old(loaded) ==> config == old(config)
    {
      if loaded {
        return config;
      }
      config := LoadedConfig(file, defaults);
      loaded := true;
      r := config;
    }

    /** `get`: walks the dotted key, giving the default as soon as a step
        is missing or not a mapping. */
    method Get(key: string, default: Value) returns (r: Value)
      modifies this
      ensures loaded && config == old(Current())
      ensures r == Lookup(config, key, default)
    {
      var _ := Load();
      var keys := Split(key, '.');
      var value := Dict(config);
      var i := 0;
      while i < |keys|
        invariant 0 <= i <= |keys|
        invariant loaded && config == old(Current())
        invariant PathValue(Dict(config), keys) == PathValue(value, keys[i..])
      {
        assert keys[i..][1..] == keys[i + 1..];
        if value.Dict? && keys[i] in value.entries {
          value := value.entries[keys[i]];
        } else {
          return default;
        }
        i := i + 1;
      }
      r := value;
    }

    /** `set`: creates missing intermediate mappings and stores the value;
        false, with nothing changed, where the source raises. */
    method Set(key: string, value: Value) returns (ok: bool)
      modifies this
      ensures loaded
      ensures var s := SetPath(old(Current()), Split(key, '.'), value);
        ok == s.Some? && config == (if ok then s.value else old(Current()))
    {
      var _ := Load();
      var s := SetPath(config, Split(key, '.'), value);
      if s.Some? {
        config := s.value;
      }
      ok := s.Some?;
    }

    /** `update_from_detection` with the detected types and version files
        as parameters. */
    method UpdateFromDetection(types: seq<string>, files: seq<string>) returns (r: Result<bool>)
      modifies this
      ensures loaded && (r, config) == DetectionUpdate(old(Current()), types, files)
    {
      var _ := Load();
      var u := UpdateList(config, "project", "type", types);
      if u.Err? {
        return Err(u.error);
      }
      var changed := u.value.1;
      config := u.value.0;
      var v := UpdateList(config, "versioning", "files", files);
      if v.Err? {
        return Err(v.error);
      }
      config := v.value.0;
      r := Ok(changed || v.value.1);
    }

    /** `validate`, with the file system's `exists` as the parameter `present`. */
    method Validate(present: string -> bool) returns (r: Result<seq<string>>)
      modifies this
      ensures loaded && config == old(Current())
      ensures r == ValidationErrors(config, present)
    {
      var name := Get("project.name", Null);
      var strategy := Get("versioning.strategy", Null);
      var commit := Get("git.commit.strategy", Null);
      var errors := (if !Truthy(name) then ["project.name is required"] else [])
        + (if strategy !in Strategies then ["Invalid versioning.strategy: " + Show(strategy)] else [])
        + (if commit !in CommitStrategies then ["Invalid git.commit.strategy: " + Show(commit)] else []);
      var files := Get("versioning.files", List([]));
      var it := Iterated(files);
      if it.None? {
        return Err("versioning.files is not iterable");
      }
      var fileErrors := CheckVersionFiles(it.value, present);
      if fileErrors.Err? {
        return Err(fileErrors.error);
      }
      r := Ok(errors + fileErrors.value);
    }

    /** `get_commit_template`: the configured template for the type, or
        the generic one; Err where the templates entry is not a mapping. */
    method GetCommitTemplate(commitType: string) returns (r: Result<Value>)
      modifies this
      ensures loaded && config == old(Current())
      ensures var t := Lookup(config, "git.commit.templates", Dict(map[]));
        r == if !t.Dict? then Err("templates is not a mapping")
             else if commitType in t.entries then Ok(t.entries[commitType])
             else Ok(Str("{type}({scope}): {description}"))
    {
      var templates := Get("git.commit.templates", Dict(map[]));
      if !templates.Dict? {
        return Err("templates is not a mapping");
      }
      if commitType in templates.entries {
        return Ok(templates.entries[commitType]);
      }
      r := Ok(Str("{type}({scope}): {description}"));
    }
  }
}
