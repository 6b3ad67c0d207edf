/** Package-manager selection: the table of supported managers, detection
    from lock and configuration files, the language filter, the preferred
    manager, command templating and suggestions by language.

    The file system and the search path are parameters: a `Project` says
    which paths exist and which glob patterns match a file, and `onPath`
    says which programs `shutil.which` finds. */
module PackageManagers {
  import opened Wrappers
  import opened Strings
  import opened Seqs
  import opened Scanning

  datatype PackageManager = PackageManager(
    name: string,
    language: string,
    lockFiles: seq<string>,
    configFiles: seq<string>,
    installCmd: string,
    addCmd: string,
    removeCmd: string,
    updateCmd: string,
    testCmd: Option<string>,
    publishCmd: Option<string>,
    buildCmd: Option<string>,
    runCmd: Option<string>,
    versionCmd: Option<string>,
    envVars: map<string, string>,
    priority: int)

  /** The dataclass constructor with `__post_init__`: environment variables
      that are not given become the empty map. */
  function NewPackageManager(name: string, language: string, lockFiles: seq<string>, configFiles: seq<string>,
                             installCmd: string, addCmd: string, removeCmd: string, updateCmd: string,
                             testCmd: Option<string>, publishCmd: Option<string>, buildCmd: Option<string>,
                             runCmd: Option<string>, versionCmd: Option<string>,
                             envVars: Option<map<string, string>>, priority: int): (pm: PackageManager)
    ensures envVars.None? ==> pm.envVars == map[]
    ensures envVars.Some? ==> pm.envVars == envVars.value
    ensures pm.name == name && pm.language == language && pm.priority == priority
    ensures pm.lockFiles == lockFiles && pm.configFiles == configFiles
  {
    PackageManager(name, language, lockFiles, configFiles, installCmd, addCmd, removeCmd, updateCmd,
                   testCmd, publishCmd, buildCmd, runCmd, versionCmd,
                   if envVars.None? then map[] else envVars.value, priority)
  }

  function Name(pm: PackageManager): string { pm.name }
  function Priority(pm: PackageManager): int { pm.priority }

  /** `PACKAGE_MANAGERS`, in its insertion order. */
  const Table: seq<PackageManager> := [
    Poetry, Uv, Pip, Conda, Pipenv, Npm, Yarn, Pnpm, Bun, Cargo, Go, Bundler, Gem, Composer, Maven, Gradle, Nuget, Mix, Cabal, Stack, Swift, Pub, GradleKotlin
  ]

  /** The keys of `PACKAGE_MANAGERS`, which are the entries' names. */
  const TableNames: seq<string> := [
    "poetry", "uv", "pip", "conda", "pipenv", "npm", "yarn", "pnpm", "bun", "cargo", "go", "bundler", "gem", "composer", "maven", "gradle", "nuget", "mix", "cabal", "stack", "swift", "pub", "gradle-kotlin"
  ]

  const Poetry := NewPackageManager("poetry", "python", ["poetry.lock"], ["pyproject.toml"],
    "poetry install", "poetry add {package}", "poetry remove {package}", "poetry update",
    Some("poetry run pytest"), Some("poetry publish"), Some("poetry build"), Some("poetry run {command}"), Some("poetry version"),
    None, 10)
  const Uv := NewPackageManager("uv", "python", ["uv.lock"], ["pyproject.toml"],
    "uv sync", "uv add {package}", "uv remove {package}", "uv sync --upgrade",
    Some("uv run pytest"), Some("uv publish"), Some("uv build"), Some("uv run {command}"), Some("uv version"),
    None, 9)
  const Pip := NewPackageManager("pip", "python", ["requirements.txt", "requirements-dev.txt"], ["setup.py", "setup.cfg", "pyproject.toml"],
    "pip install -r requirements.txt", "pip install {package}", "pip uninstall {package}", "pip install --upgrade {package}",
    Some("pytest"), Some("python -m twine upload dist/*"), Some("python -m build"), Some("python {command}"), Some("python setup.py --version"),
    None, 1)
  const Conda := NewPackageManager("conda", "python", ["environment.yml", "conda-lock.yml"], ["environment.yml"],
    "conda env create -f environment.yml", "conda install {package}", "conda remove {package}", "conda update {package}",
    Some("pytest"), Some("anaconda upload"), Some("python -m build"), Some("conda run {command}"), Some("conda list"),
    Some(map["CONDA_DEFAULT_ENV" := "base"]), 8)
  const Pipenv := NewPackageManager("pipenv", "python", ["Pipfile.lock"], ["Pipfile"],
    "pipenv install", "pipenv install {package}", "pipenv uninstall {package}", "pipenv update",
    Some("pipenv run pytest"), Some("pipenv run python -m twine upload dist/*"), Some("pipenv run python -m build"), Some("pipenv run {command}"), Some("pipenv --version"),
    None, 6)
  const Npm := NewPackageManager("npm", "nodejs", ["package-lock.json"], ["package.json"],
    "npm install", "npm install {package}", "npm uninstall {package}", "npm update",
    Some("npm test"), Some("npm publish"), Some("npm run build"), Some("npm run {command}"), Some("npm --version"),
    None, 5)
  const Yarn := NewPackageManager("yarn", "nodejs", ["yarn.lock"], ["package.json"],
    "yarn install", "yarn add {package}", "yarn remove {package}", "yarn upgrade",
    Some("yarn test"), Some("yarn publish"), Some("yarn build"), Some("yarn {command}"), Some("yarn --version"),
    None, 7)
  const Pnpm := NewPackageManager("pnpm", "nodejs", ["pnpm-lock.yaml"], ["package.json"],
    "pnpm install", "pnpm add {package}", "pnpm remove {package}", "pnpm update",
    Some("pnpm test"), Some("pnpm publish"), Some("pnpm build"), Some("pnpm {command}"), Some("pnpm --version"),
    None, 8)
  const Bun := NewPackageManager("bun", "nodejs", ["bun.lockb"], ["package.json"],
    "bun install", "bun add {package}", "bun remove {package}", "bun update",
    Some("bun test"), Some("bun publish"), Some("bun build"), Some("bun {command}"), Some("bun --version"),
    None, 9)
  const Cargo := NewPackageManager("cargo", "rust", ["Cargo.lock"], ["Cargo.toml"],
    "cargo build", "cargo add {package}", "cargo remove {package}", "cargo update",
    Some("cargo test"), Some("cargo publish"), Some("cargo build --release"), Some("cargo run"), Some("cargo --version"),
    None, 10)
  const Go := NewPackageManager("go", "go", ["go.sum"], ["go.mod", "go.sum"],
    "go mod download", "go get {package}", "go mod tidy && go mod tidy -compat={package}", "go get -u {package}",
    Some("go test ./..."), Some("git push origin --tags"), Some("go build"), Some("go run"), Some("go version"),
    None, 10)
  const Bundler := NewPackageManager("bundler", "ruby", ["Gemfile.lock"], ["Gemfile"],
    "bundle install", "bundle add {package}", "bundle remove {package}", "bundle update",
    Some("bundle exec rspec"), Some("gem build *.gemspec && gem push *.gem"), Some("bundle exec rake build"), Some("bundle exec {command}"), Some("bundle --version"),
    None, 8)
  const Gem := NewPackageManager("gem", "ruby", [], ["*.gemspec"],
    "gem install", "gem install {package}", "gem uninstall {package}", "gem update {package}",
    Some("rspec"), Some("gem push *.gem"), Some("gem build *.gemspec"), Some("ruby {command}"), Some("gem --version"),
    None, 5)
  const Composer := NewPackageManager("composer", "php", ["composer.lock"], ["composer.json"],
    "composer install", "composer require {package}", "composer remove {package}", "composer update",
    Some("composer test"), Some("composer publish"), Some("composer build"), Some("composer run {command}"), Some("composer --version"),
    None, 10)
  const Maven := NewPackageManager("maven", "java", [], ["pom.xml"],
    "mvn install", "mvn dependency:add -Dartifact={package}", "mvn dependency:purge-local-repository", "mvn dependency:update",
    Some("mvn test"), Some("mvn deploy"), Some("mvn package"), Some("mvn exec:java"), Some("mvn --version"),
    None, 8)
  const Gradle := NewPackageManager("gradle", "java", [], ["build.gradle", "build.gradle.kts"],
    "gradle build", "gradle add dependency {package}", "gradle remove dependency {package}", "gradle dependency update",
    Some("gradle test"), Some("gradle publish"), Some("gradle build"), Some("gradle run"), Some("gradle --version"),
    None, 9)
  const Nuget := NewPackageManager("nuget", "dotnet", ["packages.lock.json"], ["*.csproj", "*.fsproj", "packages.config"],
    "dotnet restore", "dotnet add package {package}", "dotnet remove package {package}", "dotnet add package {package} --version latest",
    Some("dotnet test"), Some("dotnet nuget push *.nupkg"), Some("dotnet pack"), Some("dotnet run"), Some("dotnet --version"),
    None, 8)
  const Mix := NewPackageManager("mix", "elixir", ["mix.lock"], ["mix.exs"],
    "mix deps.get", "mix deps.add {package}", "mix deps.remove {package}", "mix deps.update",
    Some("mix test"), Some("mix hex.publish"), Some("mix compile"), Some("mix run"), Some("mix --version"),
    None, 10)
  const Cabal := NewPackageManager("cabal", "haskell", ["cabal.project.freeze"], ["cabal.project", "*.cabal"],
    "cabal build all", "cabal add {package}", "cabal uninstall {package}", "cabal update",
    Some("cabal test"), Some("cabal sdist"), Some("cabal build"), Some("cabal run"), Some("cabal --version"),
    None, 7)
  const Stack := NewPackageManager("stack", "haskell", ["stack.yaml.lock"], ["stack.yaml"],
    "stack build", "stack add {package}", "stack uninstall {package}", "stack update",
    Some("stack test"), Some("stack sdist"), Some("stack build"), Some("stack exec"), Some("stack --version"),
    None, 8)
  const Swift := NewPackageManager("swift", "swift", ["Package.resolved"], ["Package.swift"],
    "swift package resolve", "swift package add dependency {package}", "swift package remove dependency {package}", "swift package update",
    Some("swift test"), Some("swift package publish"), Some("swift build"), Some("swift run"), Some("swift --version"),
    None, 10)
  const Pub := NewPackageManager("pub", "dart", ["pubspec.lock"], ["pubspec.yaml"],
    "pub get", "pub add {package}", "pub remove {package}", "pub upgrade",
    Some("dart test"), Some("pub publish"), Some("dart compile"), Some("dart run"), Some("dart --version"),
    None, 10)
  const GradleKotlin := NewPackageManager("gradle-kotlin", "kotlin", [], ["build.gradle.kts"],
    "gradle build", "gradle add dependency {package}", "gradle remove dependency {package}", "gradle dependency update",
    Some("gradle test"), Some("gradle publish"), Some("gradle build"), Some("gradle run"), Some("gradle --version"),
    None, 9)

  /** Each name labels one entry, as the dictionary keys do. */
  lemma TableNamesDistinct()
    ensures DistinctKeys(Table, Name)
  {
    NamesLiteralDistinct();
    NamesMatch();
  }

  lemma NamesLiteralDistinct()
    ensures forall i, j :: 0 <= i < j < |TableNames| ==> TableNames[i] != TableNames[j]
  {
  }

  lemma NamesMatch()
    ensures |Table| == |TableNames| && forall i :: 0 <= i < |Table| ==> Table[i].name == TableNames[i]
  {
  }

  /** `get_package_manager`: the entry with that name, if any. */
  function GetPackageManager(name: string): Option<PackageManager> {
    Lookup(Table, name)
  }

  /** `dict.get` over entries keyed by name: the first entry with the name. */
  function Lookup(ms: seq<PackageManager>, name: string): (r: Option<PackageManager>)
    ensures r.Some? ==> r.value in ms && r.value.name == name
    ensures r.None? ==> forall i :: 0 <= i < |ms| ==> ms[i].name != name
    decreases |ms|
  {
    if ms == [] then None
    else if ms[0].name == name then Some(ms[0])
    else Lookup(ms[1..], name)
  }

  // ----------------------------------------------------------- detection

  /** What detection sees of a project directory: whether a path below it
      exists, and whether a glob pattern matches at least one file there. */
  datatype Project = Project(pathExists: string -> bool, globMatches: string -> bool)

  /** A lock or configuration file name is present; a name holding `*` is a
      glob pattern. */
  predicate Present(file: string, project: Project) {
    if '*' in file then project.globMatches(file) else project.pathExists(file)
  }

  predicate AnyPresent(files: seq<string>, project: Project) {
    exists i :: 0 <= i < |files| && Present(files[i], project)
  }

  /** A manager is detected when one of its lock files or one of its
      configuration files is present. */
  predicate Detected(pm: PackageManager, project: Project) {
    AnyPresent(pm.lockFiles, project) || AnyPresent(pm.configFiles, project)
  }

  function DetectedIn(project: Project): PackageManager -> bool {
    (pm: PackageManager) => Detected(pm, project)
  }

  /** `detect_package_managers` as a value, for the table `ms`: the
      detected entries in table order, then sorted by priority, highest
      first, stably. */
  function Detect(ms: seq<PackageManager>, project: Project): seq<PackageManager> {
    SortDesc(Filter(ms, DetectedIn(project)), Priority)
  }

  /** One of the inner loops of `detect_package_managers`: the files are
      tried in order and the first present one ends the search. */
  method FindPresent(files: seq<string>, project: Project) returns (found: bool)
    ensures found <==> AnyPresent(files, project)
  {
    for k := 0 to |files|
      invariant forall i :: 0 <= i < k ==> !Present(files[i], project)
    {
      if '*' in files[k] {
        if project.globMatches(files[k]) {
          return true;
        }
      } else if project.pathExists(files[k]) {
        return true;
      }
    }
    return false;
  }

  /** `detect_package_managers` over the table `ms`, whose names are
      distinct as dictionary keys are: lock files first, configuration files
      only when the manager was not appended yet, then the in-place stable
      sort. */
  method DetectPackageManagers(ms: seq<PackageManager>, project: Project) returns (detected: seq<PackageManager>)
    requires DistinctKeys(ms, Name)
    ensures detected == Detect(ms, project)
  {
    var p := DetectedIn(project);
    detected := [];
    for i := 0 to |ms|
      invariant detected == Filter(ms[..i], p)
    {
      var pm := ms[i];
      assert ms[..i + 1] == ms[..i] + [pm];
      FilterAppend(ms[..i], [pm], p);
      assert Filter([pm], p) == if p(pm) then [pm] else [];
      FilterMembers(ms[..i], p);
      assert pm !in ms[..i] by {
        forall k | 0 <= k < i ensures ms[k] != pm {
          assert Name(ms[k]) != Name(ms[i]);
        }
      }
      var found := FindPresent(pm.lockFiles, project);
      if found {
        detected := detected + [pm];
      }
      if pm !in detected {
        found := FindPresent(pm.configFiles, project);
        if found {
          detected := detected + [pm];
        }
      }
    }
    assert ms[..|ms|] == ms;
    detected := SortDesc(detected, Priority);
  }

  /** Detection includes a manager iff one of its files is present, at most
      once, sorted by priority with table order kept among equal
      priorities. */
  lemma DetectFacts(ms: seq<PackageManager>, project: Project)
    requires DistinctKeys(ms, Name)
    ensures forall pm :: pm in Detect(ms, project) <==> pm in ms && Detected(pm, project)
    ensures DistinctKeys(Detect(ms, project), Name)
    ensures SortedDesc(Detect(ms, project), Priority)
    ensures forall k :: Filter(Detect(ms, project), KeyIs(Priority, k)) == Filter(Filter(ms, DetectedIn(project)), KeyIs(Priority, k))
  {
    var found := Filter(ms, DetectedIn(project));
    SortDescFacts(found, Priority);
    FilterMembers(ms, DetectedIn(project));
    forall pm ensures pm in Detect(ms, project) <==> pm in found {
      assert pm in Detect(ms, project) <==> pm in multiset(Detect(ms, project));
    }
    FilterDistinctKeys(ms, DetectedIn(project), Name);
    SortDescKeys(found, Priority, Name);
    forall k ensures Filter(Detect(ms, project), KeyIs(Priority, k)) == Filter(found, KeyIs(Priority, k)) {
      SortDescStable(found, Priority, k);
    }
  }

  // ------------------------------------------------------ language filter

  function LanguageIs(language: string): PackageManager -> bool {
    (pm: PackageManager) => pm.language == language
  }

  /** `get_package_managers_by_language` over the table `ms`. */
  function ByLanguage(ms: seq<PackageManager>, language: string): seq<PackageManager> {
    Filter(ms, LanguageIs(language))
  }

  /** Exactly the entries of that language, in table order. */
  lemma ByLanguageFacts(ms: seq<PackageManager>, language: string)
    ensures forall pm :: pm in ByLanguage(ms, language) <==> pm in ms && pm.language == language
    ensures IsSubseq(ByLanguage(ms, language), ms)
  {
    FilterMembers(ms, LanguageIs(language));
    FilterIsSubseq(ms, LanguageIs(language));
  }

  // ----------------------------------------------------- preferred manager

  function OnPath(onPath: string -> bool): PackageManager -> bool {
    (pm: PackageManager) => onPath(pm.name)
  }

  /** `get_available_package_managers`: the detected managers whose program
      is on the search path. */
  function Available(ms: seq<PackageManager>, project: Project, onPath: string -> bool): seq<PackageManager> {
    Filter(Detect(ms, project), OnPath(onPath))
  }

  /** `if language:`. */
  predicate Truthy(language: Option<string>) {
    language.Some? && language.value != ""
  }

  function Candidates(ms: seq<PackageManager>, project: Project, onPath: string -> bool, language: Option<string>): seq<PackageManager> {
    var available := Available(ms, project, onPath);
    if Truthy(language) then Filter(available, LanguageIs(language.value)) else available
  }

  /** `get_preferred_package_manager`: the first candidate, if any. */
  function PreferredPackageManager(ms: seq<PackageManager>, project: Project, onPath: string -> bool, language: Option<string>): Option<PackageManager> {
    var candidates := Candidates(ms, project, onPath, language);
    if candidates == [] then None else Some(candidates[0])
  }

  predicate Eligible(pm: PackageManager, project: Project, onPath: string -> bool, language: Option<string>) {
    Detected(pm, project) && onPath(pm.name) && (Truthy(language) ==> pm.language == language.value)
  }

  lemma CandidatesFacts(ms: seq<PackageManager>, project: Project, onPath: string -> bool, language: Option<string>)
    requires DistinctKeys(ms, Name)
    ensures forall pm :: pm in Candidates(ms, project, onPath, language) <==> pm in ms && Eligible(pm, project, onPath, language)
    ensures SortedDesc(Candidates(ms, project, onPath, language), Priority)
  {
    DetectFacts(ms, project);
    FilterMembers(Detect(ms, project), OnPath(onPath));
    FilterSortedDesc(Detect(ms, project), OnPath(onPath), Priority);
    if Truthy(language) {
      FilterMembers(Available(ms, project, onPath), LanguageIs(language.value));
      FilterSortedDesc(Available(ms, project, onPath), LanguageIs(language.value), Priority);
    }
  }

  /** The preferred manager is eligible and of the highest priority among
      the eligible entries; there is none iff no entry is eligible. */
  lemma PreferredIsHighest(ms: seq<PackageManager>, project: Project, onPath: string -> bool, language: Option<string>)
    requires DistinctKeys(ms, Name)
    ensures PreferredPackageManager(ms, project, onPath, language).None? <==>
      forall i :: 0 <= i < |ms| ==> !Eligible(ms[i], project, onPath, language)
    ensures PreferredPackageManager(ms, project, onPath, language).Some? ==>
      var pm := PreferredPackageManager(ms, project, onPath, language).value;
      pm in ms && Eligible(pm, project, onPath, language) &&
      forall i :: 0 <= i < |ms| && Eligible(ms[i], project, onPath, language) ==> ms[i].priority <= pm.priority
  {
    var cs := Candidates(ms, project, onPath, language);
    CandidatesFacts(ms, project, onPath, language);
    if cs != [] {
      forall i | 0 <= i < |ms| && Eligible(ms[i], project, onPath, language) ensures ms[i].priority <= cs[0].priority {
        assert ms[i] in cs;
        var k :| 0 <= k < |cs| && cs[k] == ms[i];
        if k > 0 { assert Priority(cs[0]) >= Priority(cs[k]); }
      }
      assert cs[0] in cs;
    } else {
      forall i | 0 <= i < |ms| ensures !Eligible(ms[i], project, onPath, language) {
        assert ms[i] in ms;
      }
    }
  }

  // ----------------------------------------------------- command templates

  /** Why `str.format` fails: a field naming a missing keyword (`KeyError`),
      a stray or unclosed brace (`ValueError`), or a positional field such as
      `{}` or `{0}` with no positional arguments (`IndexError`). */
  datatype FormatError = MissingKey(key: string) | Malformed(message: string) | Positional

  datatype Formatted = Done(text: string) | Failed(error: FormatError)

  function Prepend(s: string, r: Formatted): Formatted {
    match r
    case Done(t) => Done(s + t)
    case Failed(e) => Failed(e)
  }

  predicate NoBraces(t: string) {
    forall i :: 0 <= i < |t| ==> t[i] != '{' && t[i] != '}'
  }

  /** `template.format(**kwargs)` for replacement fields that are plain
      names: `{name}` becomes `kwargs[name]`, and `{{` and `}}` stand for
      single braces. The first problem from the left is the error. */
  function Format(t: string, kwargs: map<string, string>): Formatted
    decreases |t|
  {
    if t == "" then Done("")
    else if t[0] == '{' then
      if |t| > 1 && t[1] == '{' then Prepend("{", Format(t[2..], kwargs))
      else
        var n := CharPos(t[1..], '}');
        if n == |t| - 1 then
          Failed(Malformed(if |t| == 1 then "Single '{' encountered in format string" else "expected '}' before end of string"))
        else
          var field := t[1..n + 1];
          if field == "" || AllDigits(field) then Failed(Positional)
          else if field in kwargs then Prepend(kwargs[field], Format(t[n + 2..], kwargs))
          else Failed(MissingKey(field))
    else if t[0] == '}' then
      if |t| > 1 && t[1] == '}' then Prepend("}", Format(t[2..], kwargs))
      else Failed(Malformed("Single '}' encountered in format string"))
    else Prepend([t[0]], Format(t[1..], kwargs))
  }

  lemma PrependTwice(x: string, y: string, r: Formatted)
    ensures Prepend(x, Prepend(y, r)) == Prepend(x + y, r)
  {
    match r {
      case Done(t) => assert x + (y + t) == x + y + t;
      case Failed(_) =>
    }
  }

  /** Text without braces passes through. */
  lemma {:induction false} FormatAfterPlain(a: string, rest: string, kwargs: map<string, string>)
    requires NoBraces(a)
    ensures Format(a + rest, kwargs) == Prepend(a, Format(rest, kwargs))
    decreases |a|
  {
    if a == "" {
      assert a + rest == rest;
      match Format(rest, kwargs) { case Done(t) => assert "" + t == t; case Failed(_) => }
    } else {
      var t := a + rest;
      assert t[0] == a[0] && t[0] != '{' && t[0] != '}';
      assert t[1..] == a[1..] + rest;
      assert Format(t, kwargs) == Prepend([a[0]], Format(t[1..], kwargs));
      FormatAfterPlain(a[1..], rest, kwargs);
      PrependTwice([a[0]], a[1..], Format(rest, kwargs));
      assert [a[0]] + a[1..] == a;
    }
  }

  /** Text without braces formats to itself, whatever the keywords. */
  lemma FormatPlain(t: string, kwargs: map<string, string>)
    requires NoBraces(t)
    ensures Format(t, kwargs) == Done(t)
  {
    FormatAfterPlain(t, "", kwargs);
    assert t + "" == t;
  }

  /** One named field between plain texts is replaced by its keyword value;
      a field without a keyword is a `KeyError` naming it. */
  lemma FormatField(a: string, key: string, b: string, kwargs: map<string, string>)
    requires NoBraces(a) && NoBraces(key) && NoBraces(b)
    requires key != "" && !AllDigits(key)
    ensures key in kwargs ==> Format(a + "{" + key + "}" + b, kwargs) == Done(a + kwargs[key] + b)
    ensures key !in kwargs ==> Format(a + "{" + key + "}" + b, kwargs) == Failed(MissingKey(key))
  {
    var t := "{" + key + "}" + b;
    assert a + "{" + key + "}" + b == a + t;
    FormatAfterPlain(a, t, kwargs);
    assert t[1] == key[0];
    assert t[1..] == key + "}" + b;
    assert CharPos(t[1..], '}') == |key| by {
      assert forall k :: 0 <= k < |key| ==> t[1..][k] != '}';
      assert t[1..][|key|] == '}';
    }
    assert t[1..|key| + 1] == key;
    assert t[|key| + 2..] == b;
    if key in kwargs {
      FormatPlain(b, kwargs);
      assert Format(t, kwargs) == Prepend(kwargs[key], Format(b, kwargs));
      assert Format(t, kwargs) == Done(kwargs[key] + b);
      assert a + (kwargs[key] + b) == a + kwargs[key] + b;
    }
  }

  /** `{{` and `}}` are escapes for braces. */
  lemma FormatEscapes(t: string, kwargs: map<string, string>)
    ensures Format("{{" + t, kwargs) == Prepend("{", Format(t, kwargs))
    ensures Format("}}" + t, kwargs) == Prepend("}", Format(t, kwargs))
  {
    assert ("{{" + t)[2..] == t;
    assert ("}}" + t)[2..] == t;
  }

  /** `getattr(pm, f"{command_type}_cmd", None)`. */
  function CommandTemplate(pm: PackageManager, commandType: string): Option<string> {
    match commandType
    case "install" => Some(pm.installCmd)
    case "add" => Some(pm.addCmd)
    case "remove" => Some(pm.removeCmd)
    case "update" => Some(pm.updateCmd)
    case "test" => pm.testCmd
    case "publish" => pm.publishCmd
    case "build" => pm.buildCmd
    case "run" => pm.runCmd
    case "version" => pm.versionCmd
    case _ => None
  }

  function UnsupportedMessage(pm: PackageManager, commandType: string): string {
    "ValueError: Command type '" + commandType + "' not supported for " + pm.name
  }

  function MissingMessage(pm: PackageManager, commandType: string, key: string): string {
    "ValueError: Missing required parameter '" + key + "' for command '" + commandType + "' in " + pm.name
  }

  /** `format_package_manager_command`: a missing or empty template and a
      missing keyword are `ValueError`s; other format errors propagate. */
  function FormatPackageManagerCommand(pm: PackageManager, commandType: string, kwargs: map<string, string>): (r: Result<string>)
    ensures !Truthy(CommandTemplate(pm, commandType)) ==> r == Err(UnsupportedMessage(pm, commandType))
    ensures Truthy(CommandTemplate(pm, commandType)) ==>
      match Format(CommandTemplate(pm, commandType).value, kwargs)
      case Done(text) => r == Ok(text)
      case Failed(MissingKey(key)) => r == Err(MissingMessage(pm, commandType, key))
      case Failed(_) => r.Err?
  {
    var template := CommandTemplate(pm, commandType);
    if !Truthy(template) then Err(UnsupportedMessage(pm, commandType))
    else
      match Format(template.value, kwargs)
      case Done(text) => Ok(text)
      case Failed(MissingKey(key)) => Err(MissingMessage(pm, commandType, key))
      case Failed(Malformed(message)) => Err("ValueError: " + message)
      case Failed(Positional) => Err("IndexError: Replacement index out of range for positional args tuple")
  }

  /** An `add` template of the form `TEXT{package}` names the package given. */
  lemma AddCommandNamesPackage(pm: PackageManager, prefix: string, package: string)
    requires pm.addCmd == prefix + "{package}" && prefix != "" && NoBraces(prefix)
    ensures FormatPackageManagerCommand(pm, "add", map["package" := package]) == Ok(prefix + package)
    ensures FormatPackageManagerCommand(pm, "add", map[]) == Err(MissingMessage(pm, "add", "package"))
  {
    var key := "package";
    assert NoBraces(key) && !AllDigits(key) && NoBraces("") by { assert key[0] == 'p'; }
    assert "{" + key + "}" + "" == "{package}";
    assert prefix + "{" + key + "}" + "" == pm.addCmd;
    assert CommandTemplate(pm, "add") == Some(pm.addCmd);
    assert |pm.addCmd| > 0;
    FormatField(prefix, key, "", map["package" := package]);
    FormatField(prefix, key, "", map[]);
    assert prefix + package + "" == prefix + package;
  }

  // ---------------------------------------------------------- suggestions

  function LanguageSuggestions(ms: seq<PackageManager>, onPath: string -> bool): string -> seq<PackageManager> {
    (language: string) => Filter(ByLanguage(ms, language), OnPath(onPath))
  }

  /** `suggest_package_managers` as a value, for the detected languages: the
      available managers of each language, one per name, sorted by priority
      with the first-seen order kept among equals. */
  function Suggestions(ms: seq<PackageManager>, languages: seq<string>, onPath: string -> bool): seq<PackageManager> {
    SortDesc(DedupeBy(Flatten(Map(LanguageSuggestions(ms, onPath), languages)), Name, {}), Priority)
  }

  /** `suggest_package_managers`, given the languages that
      `detect_project_language` found. The dictionary keyed by name keeps one
      entry per name in first-seen order and the last value written for it;
      with the table's names distinct, that value is the first-seen entry
      kept here. */
  method SuggestPackageManagers(ms: seq<PackageManager>, languages: seq<string>, onPath: string -> bool)
    returns (suggested: seq<PackageManager>)
    requires DistinctKeys(ms, Name)
    ensures suggested == Suggestions(ms, languages, onPath)
  {
    var f := LanguageSuggestions(ms, onPath);
    var suggestions: seq<PackageManager> := [];
    for i := 0 to |languages|
      invariant suggestions == Flatten(Map(f, languages[..i]))
    {
      var pms := ByLanguage(ms, languages[i]);
      var availablePms := Filter(pms, OnPath(onPath));
      MapSlice(f, languages, i);
      FlattenSnoc(Map(f, languages[..i]), availablePms);
      suggestions := suggestions + availablePms;
    }
    assert languages[..|languages|] == languages;
    var unique := DedupeBy(suggestions, Name, {});
    suggested := SortDesc(unique, Priority);
  }

  /** The suggestions have distinct names, are sorted by priority, come from
      the table with a listed language and a program on the path, and every
      such entry's name is among them. */
  lemma SuggestionsFacts(ms: seq<PackageManager>, languages: seq<string>, onPath: string -> bool)
    ensures DistinctKeys(Suggestions(ms, languages, onPath), Name)
    ensures SortedDesc(Suggestions(ms, languages, onPath), Priority)
    ensures forall pm :: pm in Suggestions(ms, languages, onPath) ==> pm in ms && pm.language in languages && onPath(pm.name)
    ensures forall pm :: pm in ms && pm.language in languages && onPath(pm.name) ==> pm.name in Keys(Suggestions(ms, languages, onPath), Name)
  {
    var flat := Flatten(Map(LanguageSuggestions(ms, onPath), languages));
    var unique := DedupeBy(flat, Name, {});
    DedupeByKeys(flat, Name, {});
    SortDescKeys(unique, Priority, Name);
    SortDescFacts(unique, Priority);
    SuggestedEntries(ms, languages, onPath);
    SuggestedNames(ms, languages, onPath);
  }

  /** An entry of the concatenated per-language lists is an available entry
      of a listed language, and every such entry is in them. */
  lemma FlatSuggestions(ms: seq<PackageManager>, languages: seq<string>, onPath: string -> bool, pm: PackageManager)
    ensures pm in Flatten(Map(LanguageSuggestions(ms, onPath), languages)) <==>
      pm in ms && pm.language in languages && onPath(pm.name)
  {
    var f := LanguageSuggestions(ms, onPath);
    var fs := Map(f, languages);
    FlattenMembers(fs, pm);
    if pm in Flatten(fs) {
      var i :| 0 <= i < |fs| && pm in fs[i];
      FilterMembers(ByLanguage(ms, languages[i]), OnPath(onPath));
      ByLanguageFacts(ms, languages[i]);
    }
    if pm in ms && pm.language in languages && onPath(pm.name) {
      var i :| 0 <= i < |languages| && languages[i] == pm.language;
      ByLanguageFacts(ms, languages[i]);
      FilterMembers(ByLanguage(ms, languages[i]), OnPath(onPath));
      assert pm in fs[i];
    }
  }

  lemma SuggestedEntries(ms: seq<PackageManager>, languages: seq<string>, onPath: string -> bool)
    ensures forall pm :: pm in Suggestions(ms, languages, onPath) ==> pm in ms && pm.language in languages && onPath(pm.name)
  {
    var flat := Flatten(Map(LanguageSuggestions(ms, onPath), languages));
    var unique := DedupeBy(flat, Name, {});
    SortDescFacts(unique, Priority);
    DedupeByMembers(flat, Name, {});
    forall pm | pm in Suggestions(ms, languages, onPath) ensures pm in ms && pm.language in languages && onPath(pm.name) {
      assert pm in multiset(unique);
      FlatSuggestions(ms, languages, onPath, pm);
    }
  }

  lemma SuggestedNames(ms: seq<PackageManager>, languages: seq<string>, onPath: string -> bool)
    ensures forall pm :: pm in ms && pm.language in languages && onPath(pm.name) ==> pm.name in Keys(Suggestions(ms, languages, onPath), Name)
  {
    var flat := Flatten(Map(LanguageSuggestions(ms, onPath), languages));
    var unique := DedupeBy(flat, Name, {});
    DedupeByKeys(flat, Name, {});
    SortDescKeys(unique, Priority, Name);
    forall pm | pm in ms && pm.language in languages && onPath(pm.name) ensures pm.name in Keys(Suggestions(ms, languages, onPath), Name) {
      FlatSuggestions(ms, languages, onPath, pm);
      var k :| 0 <= k < |flat| && flat[k] == pm;
      assert Name(flat[k]) in Keys(flat, Name);
    }
  }
}
