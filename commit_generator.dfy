/** The legacy conventional-commit generator of goal 2.1.68
    (goal-2.1.68/goal/commit_generator.py): a keyword-scoring classifier of
    the change type, a counting scope detector, a short action phrase, small
    per-file notes, and the assembly of `type(scope): description`.
    Git output is a parameter everywhere. */
module CommitGenerator {
  import opened Wrappers
  import opened Strings
  import opened Seqs
  import opened Patterns
  import opened Ordering
  import SmartCommit
  import Scanning

  // ------------------------------------------------------------------ tallies

  /** A `defaultdict(int)` or `Counter` keyed by strings: its items in
      insertion order. */
  type Tally = seq<(string, int)>

  /** `tally[k]`, 0 for a missing key. */
  function Get(t: Tally, k: string): int
    decreases |t|
  {
    if t == [] then 0 else if t[0].0 == k then t[0].1 else Get(t[1..], k)
  }

  predicate HasKey(t: Tally, k: string) {
    exists i :: 0 <= i < |t| && t[i].0 == k
  }

  predicate UniqueKeys(t: Tally) {
    forall i, j :: 0 <= i < j < |t| ==> t[i].0 != t[j].0
  }

  /** `tally[k] += d`: an existing key keeps its place, a new one goes last. */
  function Bump(t: Tally, k: string, d: int): (r: Tally)
    ensures Get(r, k) == Get(t, k) + d
    ensures forall j :: j != k ==> Get(r, j) == Get(t, j)
    ensures HasKey(r, k)
    ensures forall j :: HasKey(r, j) <==> HasKey(t, j) || j == k
    ensures UniqueKeys(t) ==> UniqueKeys(r)
    ensures |r| == if HasKey(t, k) then |t| else |t| + 1
    decreases |t|
  {
    if t == [] then [(k, d)]
    else if t[0].0 == k then
      var r := [(k, t[0].1 + d)] + t[1..];
      HasKeyCons(t[0], t[1..]);
      HasKeyCons(r[0], t[1..]);
      assert t == [t[0]] + t[1..];
      UniqueCons(t[0], t[1..]);
      UniqueCons(r[0], t[1..]);
      r
    else
      var rest := Bump(t[1..], k, d);
      var r := [t[0]] + rest;
      HasKeyCons(t[0], t[1..]);
      HasKeyCons(t[0], rest);
      assert t == [t[0]] + t[1..];
      UniqueCons(t[0], t[1..]);
      UniqueCons(t[0], rest);
      r
  }

  /** A tally with a head entry has unique keys exactly when its tail does
      and does not hold the head's key. */
  lemma UniqueCons(x: (string, int), rest: Tally)
    ensures UniqueKeys([x] + rest) <==> !HasKey(rest, x.0) && UniqueKeys(rest)
  {
    var t := [x] + rest;
    if UniqueKeys(t) {
      forall i | 0 <= i < |rest| ensures rest[i].0 != x.0 {
        assert t[0] == x && t[i + 1] == rest[i];
      }
      forall i, j | 0 <= i < j < |rest| ensures rest[i].0 != rest[j].0 {
        assert t[i + 1] == rest[i] && t[j + 1] == rest[j];
      }
    }
    if !HasKey(rest, x.0) && UniqueKeys(rest) {
      forall i, j | 0 <= i < j < |t| ensures t[i].0 != t[j].0 {
        assert t[j] == rest[j - 1];
        if i > 0 { assert t[i] == rest[i - 1]; } else { assert t[i] == x; }
      }
    }
  }

  lemma HasKeyCons(x: (string, int), rest: Tally)
    ensures forall j :: HasKey([x] + rest, j) <==> x.0 == j || HasKey(rest, j)
  {
    var t := [x] + rest;
    forall j | HasKey(t, j) && x.0 != j ensures HasKey(rest, j) {
      var i :| 0 <= i < |t| && t[i].0 == j;
      assert rest[i - 1].0 == j;
    }
    forall j | HasKey(rest, j) ensures HasKey(t, j) {
      var i :| 0 <= i < |rest| && rest[i].0 == j;
      assert t[i + 1].0 == j;
    }
    assert t[0].0 == x.0;
  }

  /** Every value in the tally, read through `Get`, is at least zero. */
  predicate NonNegative(t: Tally) {
    forall i :: 0 <= i < |t| ==> t[i].1 >= 0
  }

  lemma {:induction false} GetOfNonNegative(t: Tally, k: string)
    requires NonNegative(t)
    ensures Get(t, k) >= 0
    decreases |t|
  {
    if t != [] && t[0].0 != k { GetOfNonNegative(t[1..], k); }
  }

  lemma {:induction false} BumpNonNegative(t: Tally, k: string, d: int)
    requires NonNegative(t) && Get(t, k) + d >= 0
    ensures NonNegative(Bump(t, k, d))
    decreases |t|
  {
    if t != [] && t[0].0 != k {
      GetOfNonNegative(t, t[0].0);
      BumpNonNegative(t[1..], k, d);
    }
  }

  /** The position of `max(tally.items(), key=value)` and of
      `Counter.most_common(1)`: a largest value, the first one inserted on a
      tie. */
  function TopIndex(t: Tally): (j: nat)
    requires t != []
    ensures j < |t|
    ensures forall i :: 0 <= i < |t| ==> t[i].1 <= t[j].1
    ensures forall i :: 0 <= i < j ==> t[i].1 < t[j].1
    decreases |t|
  {
    if |t| == 1 then 0
    else
      var j := TopIndex(t[..|t| - 1]);
      if t[|t| - 1].1 > t[j].1 then |t| - 1 else j
  }

  /** The key `max`/`most_common(1)` picks. */
  function TopKey(t: Tally): string
    requires t != []
  {
    t[TopIndex(t)].0
  }

  // ------------------------------------------------------ change-type scoring

  /** One entry of `TYPE_PATTERNS`: a plain regex that is a literal, or a
      literal anchored with `$`. */
  datatype TypePattern = Plain(w: string) | Anchored(w: string)

  function P(ws: seq<string>): seq<TypePattern> {
    seq(|ws|, k requires 0 <= k < |ws| => Plain(ws[k]))
  }

  function A(ws: seq<string>): seq<TypePattern> {
    seq(|ws|, k requires 0 <= k < |ws| => Anchored(ws[k]))
  }

  /** The change types, in the order of `TYPE_PATTERNS`. */
  function TypeNames(): seq<string> {
    ["feat", "fix", "docs", "style", "refactor", "perf", "test", "build", "chore"]
  }

  function TypeTable(): seq<(string, seq<TypePattern>)> {
    [("feat", A([".py", ".js", ".ts", ".jsx", ".tsx"])
              + P(["src/", "lib/", "components/", "modules/", "add", "new", "create", "implement"])),
     ("fix", P(["fix", "bug", "patch", "repair", "resolve", "error", "exception", "issue", "problem"])),
     ("docs", A([".md", ".rst", ".txt"]) + P(["readme", "doc", "comment", "license", "guide", "tutorial"])),
     ("style", P(["format", "style", "lint", "whitespace", "prettier", "black", "flake8", "eslint"])),
     ("refactor", P(["refactor", "restructure", "reorganize", "rename", "move", "extract", "inline", "simplify"])),
     ("perf", P(["perf", "optimize", "speed", "cache", "fast", "slow", "improve", "boost"])),
     ("test", P(["test", "spec", "coverage", "pytest", ".test."]) + A(["_test.py"]) + P(["tests/"])),
     ("build", P(["makefile", "dockerfile", "docker-compose"]) + A([".yml", ".yaml", ".json"])
               + P(["ci", "cd", "build", "compile", "webpack", "vite"])),
     ("chore", P(["deps", "dependenc", "update", "bump", "config"]) + A([".cfg", ".ini", ".toml"])
               + P(["version", "requirements", "package.json"]))]
  }

  lemma TypeTableKeys()
    ensures |TypeTable()| == |TypeNames()|
    ensures forall k :: 0 <= k < |TypeTable()| ==> TypeTable()[k].0 == TypeNames()[k]
  {
  }

  /** `re.search(pattern, s)`: an anchored literal matches at the very end
      or just before a final newline. */
  predicate Hit(p: TypePattern, s: string) {
    match p
    case Plain(w) => Contains(s, w)
    case Anchored(w) => EndsWith(s, w) || EndsWith(s, w + "\n")
  }

  /** `len(re.findall(pattern, s))`. An anchored literal has at most one
      match; the empty pattern matches at every position. */
  function Occurrences(p: TypePattern, s: string): nat {
    if p.w == "" then |s| + 1
    else
      match p
      case Plain(w) => CountOcc(s, w)
      case Anchored(w) => if Hit(p, s) then 1 else 0
  }

  /** An anchored pattern is the regex `w$`: the search finds it exactly
      when `Hit` says so. */
  lemma AnchoredHitIsSearch(w: string, s: string)
    ensures Hit(Anchored(w), s) <==> Search(Lit(w) + [End], s)
  {
    if Search(Lit(w) + [End], s) {
      AnchoredSearchHits(w, s);
    }
    if Hit(Anchored(w), s) {
      AnchoredHitSearches(w, s);
    }
  }

  lemma AnchoredSearchHits(w: string, s: string)
    requires Search(Lit(w) + [End], s)
    ensures EndsWith(s, w) || EndsWith(s, w + "\n")
  {
    var i := AnchoredMatchStart(w, s, 0);
    MatchLitThen(w, [End], s, i);
    if i + |w| == |s| {
      assert s[|s| - |w|..] == w;
    } else {
      assert s[|s| - |w + "\n"|..] == s[i..i + |w|] + "\n";
    }
  }

  lemma AnchoredHitSearches(w: string, s: string)
    requires EndsWith(s, w) || EndsWith(s, w + "\n")
    ensures Search(Lit(w) + [End], s)
  {
    if EndsWith(s, w) {
      MatchLitThenAt(w, [End], s, |s| - |w|);
      SearchFromReaches(Lit(w) + [End], s, 0, |s| - |w|);
    } else {
      var i := |s| - |w| - 1;
      assert s[i..i + |w|] == (w + "\n")[..|w|];
      MatchLitThenAt(w, [End], s, i);
      SearchFromReaches(Lit(w) + [End], s, 0, i);
    }
  }

  /** The position a successful search starts at. */
  lemma {:induction false} AnchoredMatchStart(w: string, s: string, i: nat) returns (j: nat)
    requires i <= |s| && SearchFrom(Lit(w) + [End], s, i)
    ensures i <= j <= |s| && MatchAt(Lit(w) + [End], s, j)
    decreases |s| - i
  {
    if MatchAt(Lit(w) + [End], s, i) { j := i; }
    else { j := AnchoredMatchStart(w, s, i + 1); }
  }

  lemma {:induction false} SearchFromReaches(p: Pattern, s: string, i: nat, j: nat)
    requires i <= j <= |s| && MatchAt(p, s, j)
    ensures SearchFrom(p, s, i)
    decreases j - i
  {
    if i < j { SearchFromReaches(p, s, i + 1, j); }
  }

  /** How many of the patterns `s` matches. */
  function HitCount(pats: seq<TypePattern>, s: string): (n: nat)
    ensures n <= |pats|
  {
    if pats == [] then 0 else (if Hit(pats[0], s) then 1 else 0) + HitCount(pats[1..], s)
  }

  /** The total number of `findall` matches of the patterns in `s`. */
  function Occurrences2(pats: seq<TypePattern>, s: string): nat {
    if pats == [] then 0 else Occurrences(pats[0], s) + Occurrences2(pats[1..], s)
  }

  /** The path loop for one lower-cased path: 2 points per matching pattern;
      a type enters the tally only when one of its patterns matches. */
  function AddPathHits(t: Tally, f: string, table: seq<(string, seq<TypePattern>)>): Tally
    decreases |table|
  {
    if table == [] then t
    else
      var n := HitCount(table[0].1, f);
      AddPathHits(if n > 0 then Bump(t, table[0].0, 2 * n) else t, f, table[1..])
  }

  /** The tally after the loop over the paths. */
  function PathTally(files: seq<string>): Tally
    decreases |files|
  {
    if files == [] then []
    else AddPathHits(PathTally(files[..|files| - 1]), Lower(files[|files| - 1]), TypeTable())
  }

  lemma PathTallyStep(files: seq<string>, n: nat)
    requires n < |files|
    ensures PathTally(files[..n + 1]) == AddPathHits(PathTally(files[..n]), Lower(files[n]), TypeTable())
  {
    assert files[..n + 1][..n] == files[..n];
  }

  /** The loop over the changed paths. */
  method ScorePaths(files: seq<string>) returns (t: Tally)
    ensures t == PathTally(files)
  {
    t := [];
    var n := 0;
    while n < |files|
      invariant n <= |files|
      invariant t == PathTally(files[..n])
    {
      PathTallyStep(files, n);
      t := AddPathHits(t, Lower(files[n]), TypeTable());
      n := n + 1;
    }
    assert files[..n] == files;
  }

  /** The diff loop: every type is bumped by its match count, so every type
      enters the tally here. */
  function AddDiffCounts(t: Tally, table: seq<(string, seq<TypePattern>)>, d: string): Tally
    decreases |table|
  {
    if table == [] then t
    else
      var front := table[..|table| - 1];
      Bump(AddDiffCounts(t, front, d), table[|table| - 1].0, Occurrences2(table[|table| - 1].1, d))
  }

  method ScoreDiff(t: Tally, diffLower: string) returns (r: Tally)
    ensures r == AddDiffCounts(t, TypeTable(), diffLower)
  {
    var table := TypeTable();
    r := t;
    var k := 0;
    while k < |table|
      invariant k <= |table|
      invariant r == AddDiffCounts(t, table[..k], diffLower)
    {
      assert table[..k + 1][..k] == table[..k];
      r := Bump(r, table[k].0, Occurrences2(table[k].1, diffLower));
      k := k + 1;
    }
    assert table[..k] == table;
  }

  predicate KeysAmong(t: Tally, names: seq<string>) {
    forall i :: 0 <= i < |t| ==> t[i].0 in names
  }

  /** The tally keeps unique keys, only type names, and no negative value. */
  predicate GoodTally(t: Tally) {
    UniqueKeys(t) && KeysAmong(t, TypeNames()) && NonNegative(t)
  }

  lemma BumpGood(t: Tally, k: string, d: int)
    requires GoodTally(t) && k in TypeNames() && Get(t, k) + d >= 0
    ensures GoodTally(Bump(t, k, d))
  {
    var r := Bump(t, k, d);
    BumpNonNegative(t, k, d);
    forall i | 0 <= i < |r| ensures r[i].0 in TypeNames() {
      assert HasKey(r, r[i].0);
      if r[i].0 != k {
        var m :| 0 <= m < |t| && t[m].0 == r[i].0;
      }
    }
  }

  /** A table whose keys are the change types, in order. */
  predicate KeyedByTypes(table: seq<(string, seq<TypePattern>)>) {
    |table| == |TypeNames()| && forall k :: 0 <= k < |table| ==> table[k].0 == TypeNames()[k]
  }

  lemma {:induction false} AddPathHitsGood(t: Tally, f: string, table: seq<(string, seq<TypePattern>)>)
    requires GoodTally(t) && forall k :: 0 <= k < |table| ==> table[k].0 in TypeNames()
    ensures GoodTally(AddPathHits(t, f, table))
    decreases |table|
  {
    if table != [] {
      var n := HitCount(table[0].1, f);
      assert forall k :: 0 <= k < |table[1..]| ==> table[1..][k].0 in TypeNames() by {
        forall k | 0 <= k < |table[1..]| ensures table[1..][k].0 in TypeNames() {
          assert table[1..][k] == table[k + 1];
        }
      }
      if n > 0 {
        GetOfNonNegative(t, table[0].0);
        BumpGood(t, table[0].0, 2 * n);
        AddPathHitsGood(Bump(t, table[0].0, 2 * n), f, table[1..]);
      } else {
        AddPathHitsGood(t, f, table[1..]);
      }
    }
  }

  lemma {:induction false} PathTallyGood(files: seq<string>)
    ensures GoodTally(PathTally(files))
    decreases |files|
  {
    if files != [] {
      PathTallyGood(files[..|files| - 1]);
      TypeTableKeys();
      AddPathHitsGood(PathTally(files[..|files| - 1]), Lower(files[|files| - 1]), TypeTable());
    }
  }

  /** After the diff loop the tally is good and holds every change type. */
  lemma {:induction false} AddDiffCountsGood(t: Tally, d: string, table: seq<(string, seq<TypePattern>)>, k: nat)
    requires GoodTally(t) && KeyedByTypes(table) && k <= |table|
    ensures GoodTally(AddDiffCounts(t, table[..k], d))
    ensures forall i :: 0 <= i < k ==> HasKey(AddDiffCounts(t, table[..k], d), TypeNames()[i])
    decreases k
  {
    if k > 0 {
      var front := table[..k - 1];
      assert table[..k][..k - 1] == front;
      AddDiffCountsGood(t, d, table, k - 1);
      var prev := AddDiffCounts(t, front, d);
      var key := table[k - 1].0;
      var n := Occurrences2(table[k - 1].1, d);
      assert key == TypeNames()[k - 1];
      GetOfNonNegative(prev, key);
      BumpGood(prev, key, n);
      var r := Bump(prev, key, n);
      assert AddDiffCounts(t, table[..k], d) == r;
      forall i | 0 <= i < k ensures HasKey(r, TypeNames()[i]) {
        if i < k - 1 {
          assert HasKey(prev, TypeNames()[i]);
        }
      }
    }
  }

  /** `git diff --numstat` totals. */
  datatype DiffStats = DiffStats(files: int, added: int, deleted: int)

  /** `stats['files'] == 1` inspects `files[0]`: a test/spec path gets 3
      test points, else a `.md` path 3 docs points. With no file at all
      the lookup raises IndexError. */
  function SingleFileStep(t: Tally, files: seq<string>, stats: DiffStats): Result<Tally> {
    if stats.files != 1 then Ok(t)
    else if files == [] then Err("IndexError: list index out of range")
    else if Contains(files[0], "test") || Contains(files[0], "spec") then Ok(Bump(t, "test", 3))
    else if EndsWith(files[0], ".md") then Ok(Bump(t, "docs", 3))
    else Ok(t)
  }

  /** The add/delete ratio step, `added / max(deleted, 1)` compared with 5
      and 0.5, in integer form. */
  function RatioStep(t: Tally, stats: DiffStats): Tally {
    var m := Max(stats.deleted, 1);
    if stats.added > 5 * m then Bump(t, "feat", 2)
    else if 2 * stats.added < m then Bump(t, "refactor", 2)
    else if stats.deleted > stats.added then Bump(t, "fix", 1)
    else t
  }

  /** A path in the package (`goal/`, `src/`, `lib/`) in Python, JS or TS. */
  predicate IsPackageCode(f: string) {
    (StartsWith(f, "goal/") || StartsWith(f, "src/") || StartsWith(f, "lib/"))
    && (EndsWith(f, ".py") || EndsWith(f, ".js") || EndsWith(f, ".ts"))
  }

  predicate HasPackageCode(files: seq<string>) { exists f :: f in files && IsPackageCode(f) }

  predicate IsDocsPath(f: string) {
    EndsWith(f, ".md") || EndsWith(f, ".rst") || EndsWith(f, ".txt")
    || Contains(f, "docs/") || Contains(Lower(f), "readme")
  }

  /** `all(...)`: true for no files at all. */
  predicate HasDocsOnly(files: seq<string>) { forall f :: f in files ==> IsDocsPath(f) }

  predicate IsCiPath(f: string) {
    StartsWith(f, ".github/") || StartsWith(f, ".gitlab/") || EndsWith(f, ".yml") || EndsWith(f, ".yaml")
  }

  predicate HasCiOnly(files: seq<string>) { forall f :: f in files ==> IsCiPath(f) }

  predicate HasNewGoalPythonFile(files: seq<string>, diff: string) {
    Contains(diff, "new file mode") && exists f :: f in files && StartsWith(f, "goal/") && EndsWith(f, ".py")
  }

  /** Line starts for `re.MULTILINE`'s `^`. */
  predicate LineStart(s: string, i: nat) { i <= |s| && (i == 0 || s[i - 1] == '\n') }

  /** The end of the run of `\s` characters starting at `i`. */
  function SkipSpaces(s: string, i: nat): (j: nat)
    requires i <= |s|
    ensures i <= j <= |s| && (j == |s| || !IsSpace(s[j]))
    ensures forall k :: i <= k < j ==> IsSpace(s[k])
    decreases |s| - i
  {
    if i < |s| && IsSpace(s[i]) then SkipSpaces(s, i + 1) else i
  }

  /** The end of the run of `\w` characters starting at `i`. */
  function SkipWord(s: string, i: nat): (j: nat)
    requires i <= |s|
    ensures i <= j <= |s| && (j == |s| || !IsWordChar(s[j]))
    ensures forall k :: i <= k < j ==> IsWordChar(s[k])
    decreases |s| - i
  {
    if i < |s| && IsWordChar(s[i]) then SkipWord(s, i + 1) else i
  }

  /** `def\s+(\w+)\s*\(` at `i`: the name it captures. The classes are
      disjoint, so the greedy runs are the only way to match. */
  function DefNameAt(s: string, i: nat): (r: Option<string>)
    requires i <= |s|
    ensures r.Some? ==> |r.value| > 0 && forall k :: 0 <= k < |r.value| ==> IsWordChar(r.value[k])
  {
    if !(i + 3 <= |s| && s[i..i + 3] == "def") then None
    else
      var b := SkipSpaces(s, i + 3);
      var c := SkipWord(s, b);
      var e := SkipSpaces(s, c);
      if b > i + 3 && c > b && e < |s| && s[e] == '(' then Some(s[b..c]) else None
  }

  /** The length of a `class\s+\w+` match at the start of `t`: the
      keyword, a run of blanks (line breaks included), then a run of word
      characters. */
  function ClassMatchLen(t: string): (r: Option<nat>)
    ensures r.Some? ==> 5 < r.value <= |t| && 5 < SkipSpaces(t, 5) < r.value
  {
    if !(5 <= |t| && t[..5] == "class") then None
    else
      var b := SkipSpaces(t, 5);
      var c := SkipWord(t, b);
      if b > 5 && c > b then Some(c) else None
  }

  /** `class\s+(\w+)` at the start of `t`: the name the group captures. */
  function ClassName(t: string): (r: Option<string>)
    ensures r.Some? <==> ClassMatchLen(t).Some?
    ensures r.Some? ==> |r.value| > 0 && forall k :: 0 <= k < |r.value| ==> IsWordChar(r.value[k])
  {
    match ClassMatchLen(t)
    case None => None
    case Some(c) => Some(t[SkipSpaces(t, 5)..c])
  }

  /** The name read back from the matched text alone is the name captured
      in the whole text: the match ends where the word run does. */
  lemma ClassMatchText(t: string)
    requires ClassMatchLen(t).Some?
    ensures ClassName(t[..ClassMatchLen(t).value]) == ClassName(t)
  {
    var c := ClassMatchLen(t).value;
    var v := t[..c];
    assert v[..5] == t[..5];
    var b := SkipSpaces(t, 5);
    assert forall k :: 0 <= k < c ==> v[k] == t[k];
    assert SkipSpaces(v, 5) == b;
    assert SkipWord(v, b) == c;
    assert v[b..c] == t[b..c];
  }

  /** `^\+\s*def\s+\w+\s*\(` under `re.MULTILINE`. */
  predicate HasAddedDef(diff: string) {
    exists i :: 0 <= i < |diff| && LineStart(diff, i) && diff[i] == '+'
      && DefNameAt(diff, SkipSpaces(diff, i + 1)).Some?
  }

  /** `@click.(command|group|option)\b` at `i`. */
  predicate ClickDecoratorAt(s: string, i: nat)
    requires i <= |s|
  {
    StartsWith(s[i..], "@click.")
    && exists w :: w in ["command", "group", "option"] && StartsWith(s[i + 7..], w)
         && (i + 7 + |w| == |s| || !IsWordChar(s[i + 7 + |w|]))
  }

  /** `^\+\s*@click\.(command|group|option)\b` under `re.MULTILINE`. */
  predicate HasAddedClick(diff: string) {
    exists i :: 0 <= i < |diff| && LineStart(diff, i) && diff[i] == '+'
      && ClickDecoratorAt(diff, SkipSpaces(diff, i + 1))
  }

  /** The yes/no facts about the change that the heuristics consult. */
  datatype Signals = Signals(
    packageCode: bool, docsOnly: bool, ciOnly: bool, newGoalPython: bool,
    addedDef: bool, addedClick: bool, commandWords: bool, fixWords: bool,
    choreWords: bool, buildWords: bool)

  function SignalsOf(files: seq<string>, diff: string): Signals {
    var dl := Lower(diff);
    Signals(
      HasPackageCode(files), HasDocsOnly(files), HasCiOnly(files), HasNewGoalPythonFile(files, diff),
      HasAddedDef(diff), HasAddedClick(diff),
      Contains(dl, "new command") || Contains(dl, "add command"),
      ContainsAny(dl, ["fix", "bug", "error", "exception", "crash"]),
      MentionsPackaging(files), MentionsBuild(files))
  }

  predicate MentionsPackaging(files: seq<string>) {
    exists f :: f in files && (Contains(f, "version") || Contains(f, "package") || Contains(f, "pyproject"))
  }

  predicate MentionsBuild(files: seq<string>) {
    exists f :: f in files && (Contains(f, "docker") || Contains(f, "ci") || Contains(f, "cd"))
  }

  /** `tally[k] += d` when `c` holds. */
  function BumpIf(t: Tally, c: bool, k: string, d: int): Tally {
    if c then Bump(t, k, d) else t
  }

  /** The package-code steps: docs loses up to 5 points (never below 0),
      chore gains 1, and new definitions, click decorators and "new/add
      command" favour feat. */
  function PackageStep(t: Tally, s: Signals): Tally {
    if !s.packageCode then t else FeatBonuses(Bump(ClampDocs(t), "chore", 1), s)
  }

  /** `scores['docs'] = max(0, scores['docs'] - 5)`. */
  function ClampDocs(t: Tally): Tally {
    Bump(t, "docs", DocsCut(Get(t, "docs")))
  }

  /** The change that takes a docs score `g` to `max(0, g - 5)`. */
  function DocsCut(g: int): (d: int)
    ensures g + d == Max(0, g - 5)
  {
    Max(0, g - 5) - g
  }

  function FeatBonuses(t: Tally, s: Signals): Tally {
    BumpIf(BumpIf(BumpIf(t, s.addedDef, "feat", 3), s.addedClick, "feat", 4), s.commandWords, "feat", 2)
  }

  /** The remaining bonuses, in source order. */
  function SignalStep(t: Tally, s: Signals): Tally {
    var t1 := BumpIf(BumpIf(t, s.newGoalPython, "feat", 4), s.fixWords, "fix", 2);
    var t2 := BumpIf(BumpIf(t1, s.docsOnly, "docs", 5), s.ciOnly, "build", 5);
    BumpIf(BumpIf(t2, s.choreWords, "chore", 3), s.buildWords, "build", 3)
  }

  /** The full score tally of `classify_change_type`. */
  function Scores(files: seq<string>, diff: string, stats: DiffStats): Result<Tally> {
    var t := AddDiffCounts(PathTally(files), TypeTable(), Lower(diff));
    var s := SignalsOf(files, diff);
    match SingleFileStep(t, files, stats)
    case Err(e) => Err(e)
    case Ok(t1) => Ok(SignalStep(PackageStep(RatioStep(t1, stats), s), s))
  }

  /** Fix clearly ahead of feat, chore and docs. */
  predicate FixAhead(t: Tally) {
    Get(t, "fix") >= Max(Get(t, "feat"), Max(Get(t, "chore"), Get(t, "docs"))) + 1
  }

  /** The decision after scoring, first rule wins. */
  function Decide(t: Tally, s: Signals): string {
    if FixAhead(t) then "fix"
    else if s.docsOnly && !s.packageCode then "docs"
    else if s.ciOnly && !s.packageCode then "build"
    else if s.packageCode && (s.addedClick || s.newGoalPython || Get(t, "feat") >= Get(t, "chore")) then "feat"
    else if t != [] then TopKey(t)
    else "chore"
  }

  function Classify(files: seq<string>, diff: string, stats: DiffStats): Result<string> {
    match Scores(files, diff, stats)
    case Err(e) => Err(e)
    case Ok(t) => Ok(Decide(t, SignalsOf(files, diff)))
  }

  /** `classify_change_type`: the two scoring loops, then the heuristics and
      the decision. */
  method ClassifyChangeType(files: seq<string>, diff: string, stats: DiffStats) returns (r: Result<string>)
    ensures r == Classify(files, diff, stats)
  {
    var t := ScorePaths(files);
    t := ScoreDiff(t, Lower(diff));
    var s := SingleFileStep(t, files, stats);
    if s.Err? { return Err(s.error); }
    var signals := SignalsOf(files, diff);
    var t1 := SignalStep(PackageStep(RatioStep(s.value, stats), signals), signals);
    return Ok(Decide(t1, signals));
  }

  // ------------------------------------------------------- classification facts

  /** A good tally that holds every change type. */
  predicate FullTally(t: Tally) {
    GoodTally(t) && forall i :: 0 <= i < |TypeNames()| ==> HasKey(t, TypeNames()[i])
  }

  lemma BumpFull(t: Tally, k: string, d: int)
    requires FullTally(t) && k in TypeNames() && Get(t, k) + d >= 0
    ensures FullTally(Bump(t, k, d))
  {
    BumpGood(t, k, d);
  }

  lemma BumpPositiveFull(t: Tally, k: string, d: nat)
    requires FullTally(t) && k in TypeNames()
    ensures FullTally(Bump(t, k, d))
  {
    GetOfNonNegative(t, k);
    BumpFull(t, k, d);
  }

  lemma DiffTallyFull(files: seq<string>, d: string)
    ensures FullTally(AddDiffCounts(PathTally(files), TypeTable(), d))
  {
    PathTallyGood(files);
    TypeTableKeys();
    DiffCountsFull(PathTally(files), d, TypeTable());
  }

  lemma DiffCountsFull(t: Tally, d: string, table: seq<(string, seq<TypePattern>)>)
    requires GoodTally(t) && KeyedByTypes(table)
    ensures FullTally(AddDiffCounts(t, table, d))
  {
    AddDiffCountsGood(t, d, table, |table|);
    assert table[..|table|] == table;
  }

  lemma RatioStepFull(t: Tally, stats: DiffStats)
    requires FullTally(t)
    ensures FullTally(RatioStep(t, stats))
  {
    BumpPositiveFull(t, "feat", 2);
    BumpPositiveFull(t, "refactor", 2);
    BumpPositiveFull(t, "fix", 1);
  }

  lemma BumpIfFull(t: Tally, c: bool, k: string, d: nat)
    requires FullTally(t) && k in TypeNames()
    ensures FullTally(BumpIf(t, c, k, d))
  {
    BumpPositiveFull(t, k, d);
  }

  lemma ClampDocsFull(t: Tally)
    requires FullTally(t)
    ensures FullTally(ClampDocs(t))
  {
    DocsIsType();
    var d := DocsCut(Get(t, "docs"));
    BumpFull(t, "docs", d);
  }

  lemma DocsIsType()
    ensures "docs" in TypeNames()
  {
    assert TypeNames()[2] == "docs";
  }

  lemma FeatBonusesFull(t: Tally, s: Signals)
    requires FullTally(t)
    ensures FullTally(FeatBonuses(t, s))
  {
    BumpIfFull(t, s.addedDef, "feat", 3);
    var t2 := BumpIf(t, s.addedDef, "feat", 3);
    BumpIfFull(t2, s.addedClick, "feat", 4);
    BumpIfFull(BumpIf(t2, s.addedClick, "feat", 4), s.commandWords, "feat", 2);
  }

  lemma PackageStepFull(t: Tally, s: Signals)
    requires FullTally(t)
    ensures FullTally(PackageStep(t, s))
  {
    if s.packageCode {
      ClampDocsFull(t);
      BumpPositiveFull(ClampDocs(t), "chore", 1);
      FeatBonusesFull(Bump(ClampDocs(t), "chore", 1), s);
    }
  }

  lemma SignalStepFull(t: Tally, s: Signals)
    requires FullTally(t)
    ensures FullTally(SignalStep(t, s))
  {
    BumpIfFull(t, s.newGoalPython, "feat", 4);
    var a := BumpIf(t, s.newGoalPython, "feat", 4);
    BumpIfFull(a, s.fixWords, "fix", 2);
    var t1 := BumpIf(a, s.fixWords, "fix", 2);
    BumpIfFull(t1, s.docsOnly, "docs", 5);
    var b := BumpIf(t1, s.docsOnly, "docs", 5);
    BumpIfFull(b, s.ciOnly, "build", 5);
    var t2 := BumpIf(b, s.ciOnly, "build", 5);
    BumpIfFull(t2, s.choreWords, "chore", 3);
    BumpIfFull(BumpIf(t2, s.choreWords, "chore", 3), s.buildWords, "build", 3);
  }

  /** The final tally holds all nine change types with scores of at least
      zero, the docs score included; so the `'chore'` default for an empty
      tally is never reached. */
  lemma SingleFileFull(t: Tally, files: seq<string>, stats: DiffStats)
    requires FullTally(t)
    ensures SingleFileStep(t, files, stats).Ok? ==> FullTally(SingleFileStep(t, files, stats).value)
  {
    BumpPositiveFull(t, "test", 3);
    BumpPositiveFull(t, "docs", 3);
  }

  lemma StepsFull(t: Tally, stats: DiffStats, s: Signals)
    requires FullTally(t)
    ensures FullTally(SignalStep(PackageStep(RatioStep(t, stats), s), s))
  {
    RatioStepFull(t, stats);
    PackageStepFull(RatioStep(t, stats), s);
    SignalStepFull(PackageStep(RatioStep(t, stats), s), s);
  }

  /** The final tally holds all nine change types with scores of at least
      zero, the docs score included; so the `'chore'` default for an empty
      tally is never reached. */
  lemma ScoresFull(files: seq<string>, diff: string, stats: DiffStats)
    ensures Scores(files, diff, stats).Ok? ==> FullTally(Scores(files, diff, stats).value)
  {
    var t := AddDiffCounts(PathTally(files), TypeTable(), Lower(diff));
    DiffTallyFull(files, Lower(diff));
    SingleFileFull(t, files, stats);
    var r := SingleFileStep(t, files, stats);
    if r.Ok? {
      StepsFull(r.value, stats, SignalsOf(files, diff));
    }
  }

  /** The error path: only a one-file count with no path raises. */
  lemma ScoresErr(files: seq<string>, diff: string, stats: DiffStats)
    ensures Scores(files, diff, stats).Err? <==> stats.files == 1 && files == []
  {
  }

  /** `Get` reads the item at a position when the keys are unique. */
  lemma {:induction false} GetAt(t: Tally, i: nat)
    requires UniqueKeys(t) && i < |t|
    ensures Get(t, t[i].0) == t[i].1
    decreases i
  {
    if i > 0 {
      assert t[0].0 != t[i].0;
      assert UniqueKeys(t[1..]) by {
        forall a, b | 0 <= a < b < |t[1..]| ensures t[1..][a].0 != t[1..][b].0 {
          assert t[1..][a] == t[a + 1] && t[1..][b] == t[b + 1];
        }
      }
      GetAt(t[1..], i - 1);
    }
  }

  /** A key missing from the tally reads as 0. */
  lemma {:induction false} GetMissing(t: Tally, k: string)
    requires !HasKey(t, k)
    ensures Get(t, k) == 0
    decreases |t|
  {
    if t != [] {
      assert t[0].0 != k;
      assert !HasKey(t[1..], k);
      GetMissing(t[1..], k);
    }
  }

  /** `classify_change_type` always answers with one of the nine types. */
  lemma ClassifyKnownType(files: seq<string>, diff: string, stats: DiffStats)
    ensures Classify(files, diff, stats).Ok? ==> Classify(files, diff, stats).value in TypeNames()
  {
    ScoresFull(files, diff, stats);
  }

  /** The top key of a tally with unique keys and no negative value scores
      at least as high as any key, missing keys included, and strictly
      higher than every key counted before it. */
  lemma TopKeyIsHighest(t: Tally, other: string)
    requires t != [] && UniqueKeys(t) && NonNegative(t)
    ensures Get(t, other) <= Get(t, TopKey(t))
    ensures forall i :: 0 <= i < TopIndex(t) ==> Get(t, t[i].0) < Get(t, TopKey(t))
  {
    var j := TopIndex(t);
    GetAt(t, j);
    if HasKey(t, other) {
      var i :| 0 <= i < |t| && t[i].0 == other;
      GetAt(t, i);
    } else {
      GetMissing(t, other);
    }
    forall i | 0 <= i < j ensures Get(t, t[i].0) < Get(t, TopKey(t)) { GetAt(t, i); }
  }

  /** When no forced rule applies, the answer is the highest-scoring type,
      the first counted on a tie. */
  lemma ClassifyTopScore(files: seq<string>, diff: string, stats: DiffStats)
    requires Scores(files, diff, stats).Ok?
    requires var t := Scores(files, diff, stats).value; var s := SignalsOf(files, diff);
      !FixAhead(t) && !(s.docsOnly && !s.packageCode) && !(s.ciOnly && !s.packageCode)
      && !(s.packageCode && (s.addedClick || s.newGoalPython || Get(t, "feat") >= Get(t, "chore")))
    ensures var t := Scores(files, diff, stats).value;
      t != [] && Classify(files, diff, stats) == Ok(TopKey(t))
  {
    var t := Scores(files, diff, stats).value;
    ScoresFull(files, diff, stats);
    DecideTop(t, SignalsOf(files, diff));
  }

  lemma DecideTop(t: Tally, s: Signals)
    requires FullTally(t)
    requires !FixAhead(t) && !(s.docsOnly && !s.packageCode) && !(s.ciOnly && !s.packageCode)
      && !(s.packageCode && (s.addedClick || s.newGoalPython || Get(t, "feat") >= Get(t, "chore")))
    ensures t != [] && Decide(t, s) == TopKey(t)
  {
    assert HasKey(t, TypeNames()[0]);
  }

  /** With no line counts at all (0 added, 0 deleted) the ratio step favours
      refactor. */
  lemma EmptyStatsFavourRefactor(t: Tally, files: int)
    ensures Get(RatioStep(t, DiffStats(files, 0, 0)), "refactor") == Get(t, "refactor") + 2
    ensures Get(RatioStep(t, DiffStats(files, 0, 0)), "feat") == Get(t, "feat")
  {
  }

  // ------------------------------------------------------------------- scope

  /** `SCOPE_PATTERNS`: each scope's regex is an alternation of literals. */
  function ScopeTable(): seq<(string, seq<string>)> {
    [("goal", ["goal", "cli", "release"]), ("examples", ["example", "demo"]),
     ("docs", ["doc", "readme", "md"]), ("tests", ["test", "spec"]),
     ("build", ["makefile", "docker", "ci", "cd"]), ("config", ["config", "setup", "pyproject"])]
  }

  /** One path's contribution to the scope counter, in table order. */
  function AddScopes(t: Tally, f: string, table: seq<(string, seq<string>)>): Tally
    decreases |table|
  {
    if table == [] then t
    else AddScopes(if ContainsAny(f, table[0].1) then Bump(t, table[0].0, 1) else t, f, table[1..])
  }

  /** The scope counter over `files`, counted against the table. */
  function ScopeTally(files: seq<string>): Tally {
    TallyIn(files, ScopeTable())
  }

  function TallyIn(files: seq<string>, table: seq<(string, seq<string>)>): Tally
    decreases |files|
  {
    if files == [] then []
    else AddScopes(TallyIn(files[..|files| - 1], table), Lower(files[|files| - 1]), table)
  }

  lemma ScopeTallyStep(files: seq<string>, n: nat)
    requires n < |files|
    ensures ScopeTally(files[..n + 1]) == AddScopes(ScopeTally(files[..n]), Lower(files[n]), ScopeTable())
  {
    assert files[..n + 1][..n] == files[..n];
  }

  /** The `Counter` loop of `detect_scope`. */
  method CountScopes(files: seq<string>) returns (t: Tally)
    ensures t == ScopeTally(files)
  {
    t := [];
    var n := 0;
    while n < |files|
      invariant n <= |files|
      invariant t == ScopeTally(files[..n])
    {
      ScopeTallyStep(files, n);
      t := AddScopes(t, Lower(files[n]), ScopeTable());
      n := n + 1;
    }
    assert files[..n] == files;
  }

  /** `os.path.dirname`: the text before the last `/`, with trailing slashes
      removed unless it is all slashes. */
  function Dirname(p: string): string {
    match RFind(p, '/')
    case None => ""
    case Some(i) =>
      var head := p[..i + 1];
      if forall k :: 0 <= k < |head| ==> head[k] == '/' then head else RStripChar(head, '/')
  }

  /** `os.path.dirname(f).split('/')[0]`. */
  function TopDir(f: string): string { SplitFirst(Dirname(f), '/').0 }

  /** The directory counter: first segments of non-empty dirnames, leaving
      out `''` and `'.'`. */
  function DirTally(files: seq<string>): Tally
    decreases |files|
  {
    if files == [] then []
    else
      var t := DirTally(files[..|files| - 1]);
      var f := files[|files| - 1];
      var d := TopDir(f);
      if Dirname(f) != "" && d != "" && d != "." then Bump(t, d, 1) else t
  }

  lemma DirTallyStep(files: seq<string>, n: nat)
    requires n < |files|
    ensures var f := files[n]; var d := TopDir(f);
      DirTally(files[..n + 1]) == if Dirname(f) != "" && d != "" && d != "." then Bump(DirTally(files[..n]), d, 1) else DirTally(files[..n])
  {
    assert files[..n + 1][..n] == files[..n];
  }

  method CountDirs(files: seq<string>) returns (t: Tally)
    ensures t == DirTally(files)
  {
    t := [];
    var n := 0;
    while n < |files|
      invariant n <= |files|
      invariant t == DirTally(files[..n])
    {
      DirTallyStep(files, n);
      var d := TopDir(files[n]);
      if Dirname(files[n]) != "" && d != "" && d != "." {
        t := Bump(t, d, 1);
      }
      n := n + 1;
    }
    assert files[..n] == files;
  }

  function ScopeOf(scopes: Tally, dirs: Tally, files: seq<string>): Option<string> {
    if scopes != [] then
      if exists f :: f in files && StartsWith(f, "goal/") then Some("goal") else Some(TopKey(scopes))
    else if dirs != [] && TopKey(dirs) !in ["src", "lib", "app"] then Some(TopKey(dirs))
    else None
  }

  /** The scope `detect_scope` picks. */
  function Scope(files: seq<string>): Option<string> {
    ScopeOf(ScopeTally(files), DirTally(files), files)
  }

  /** `detect_scope`: the two counters, then the choice. */
  method DetectScope(files: seq<string>) returns (r: Option<string>)
    ensures r == Scope(files)
  {
    var scopes := CountScopes(files);
    var dirs := CountDirs(files);
    r := ScopeOf(scopes, dirs, files);
  }

  predicate ScopeHit(l: string) {
    HitIn(l, ScopeTable())
  }

  predicate HitIn(l: string, table: seq<(string, seq<string>)>) {
    exists k :: 0 <= k < |table| && ContainsAny(l, table[k].1)
  }

  lemma {:induction false} AddScopesEmpty(t: Tally, f: string, table: seq<(string, seq<string>)>)
    ensures AddScopes(t, f, table) == [] <==> t == [] && forall k :: 0 <= k < |table| ==> !ContainsAny(f, table[k].1)
    decreases |table|
  {
    if table != [] {
      var t1 := if ContainsAny(f, table[0].1) then Bump(t, table[0].0, 1) else t;
      AddScopesEmpty(t1, f, table[1..]);
      assert forall k :: 1 <= k < |table| ==> table[k] == table[1..][k - 1];
      if forall k :: 0 <= k < |table[1..]| ==> !ContainsAny(f, table[1..][k].1) {
        assert forall k :: 1 <= k < |table| ==> !ContainsAny(f, table[k].1);
      }
    }
  }

  /** The scope counter stays empty exactly when no path mentions any scope
      word. */
  lemma ScopeTallyEmpty(files: seq<string>)
    ensures ScopeTally(files) == [] <==> forall f :: f in files ==> !ScopeHit(Lower(f))
  {
    TallyInEmpty(files, ScopeTable());
  }

  lemma {:induction false} TallyInEmpty(files: seq<string>, table: seq<(string, seq<string>)>)
    ensures TallyIn(files, table) == [] <==> forall f :: f in files ==> !HitIn(Lower(f), table)
    decreases |files|
  {
    if files != [] {
      var front, last := files[..|files| - 1], files[|files| - 1];
      TallyInEmpty(front, table);
      AddScopesEmpty(TallyIn(front, table), Lower(last), table);
      assert files == front + [last];
      HitsLast(files, front, last, table);
    }
  }

  lemma HitsLast(files: seq<string>, front: seq<string>, last: string, table: seq<(string, seq<string>)>)
    requires files == front + [last]
    ensures (forall f :: f in files ==> !HitIn(Lower(f), table))
            <==> (forall f :: f in front ==> !HitIn(Lower(f), table)) && !HitIn(Lower(last), table)
  {
    assert forall f :: f in files <==> f in front || f == last;
  }

  lemma GoalPathHits(f: string)
    requires StartsWith(f, "goal/")
    ensures ScopeHit(Lower(f))
  {
    var l := Lower(f);
    assert l[..4] == "goal" by {
      assert forall i :: 0 <= i < 4 ==> l[i] == LowerChar(f[i]);
    }
    ContainsAt(l, "goal", 0);
    assert Contains(l, ScopeTable()[0].1[0]);
    assert ContainsAny(l, ScopeTable()[0].1);
  }

  /** A path under `goal/` always makes the scope `goal`; and there is no
      scope at all only when no path names a scope word and the most common
      top directory is missing or generic. */
  lemma ScopeFacts(files: seq<string>)
    ensures (exists f :: f in files && StartsWith(f, "goal/")) ==> Scope(files) == Some("goal")
    ensures Scope(files) == None ==> forall f :: f in files ==> !ScopeHit(Lower(f))
  {
    ScopeTallyEmpty(files);
    if exists f :: f in files && StartsWith(f, "goal/") {
      var f :| f in files && StartsWith(f, "goal/");
      GoalPathHits(f);
    }
  }

  // ----------------------------------------------------------- action phrase

  predicate AnyContains(ls: seq<string>, w: string) { exists l :: l in ls && Contains(l, w) }

  predicate AnyStartsWith(ls: seq<string>, w: string) { exists l :: l in ls && StartsWith(l, w) }

  function LowerAll(files: seq<string>): (r: seq<string>)
    ensures |r| == |files| && forall i :: 0 <= i < |files| ==> r[i] == Lower(files[i])
  {
    seq(|files|, i requires 0 <= i < |files| => Lower(files[i]))
  }

  /** The theme tags of `_short_action_summary`, in their fixed order; the
      cli tag only when no other tag applies. */
  function Tags(files: seq<string>, diff: string): seq<string> {
    var fl := LowerAll(files);
    var dl := Lower(diff);
    var markdown := AnyContains(fl, "formatter.py") || Contains(dl, "markdown");
    var hooks := AnyContains(fl, "git-hooks") || AnyContains(fl, "prepare-commit-msg");
    var commitGen := AnyContains(fl, "commit_generator.py") || Contains(dl, "commit message");
    var cli := AnyStartsWith(fl, "goal/") && (Contains(dl, "@click.") || Contains(dl, "click.option"));
    var tags := (if markdown then ["markdown output"] else [])
                + (if commitGen then ["commit messages"] else [])
                + (if hooks then ["hooks"] else []);
    if cli && tags == [] then ["cli workflow"] else tags
  }

  /** `_short_action_summary`. */
  function ShortActionSummary(files: seq<string>, diff: string): (r: string)
    ensures |r| > 0
  {
    var tags := Tags(files, diff);
    var fl := LowerAll(files);
    if tags != [] then
      var pick := Take(tags, 2);
      if pick == ["markdown output"] then "add markdown output"
      else if pick == ["commit messages"] then "improve commit messages"
      else if pick == ["hooks"] then "add git hooks"
      else if |pick| == 2 then "add " + pick[0] + " and " + pick[1]
      else "add " + pick[0]
    else if AnyStartsWith(fl, "docs/") || AnyContains(fl, "readme.md") then
      if AnyStartsWith(fl, "goal/") then "update cli docs" else "update docs"
    else if AnyStartsWith(fl, "examples/") then
      if AnyStartsWith(fl, "goal/") then "update examples and cli" else "update examples"
    else if |files| == 1 then
      var base := Basename(files[0]);
      if EndsWith(Lower(base), ".md") then "update documentation" else "update " + base
    else "update project"
  }

  /** The tags keep their fixed order: a subsequence of the three themes,
      or the cli tag alone. */
  lemma TagsShape(files: seq<string>, diff: string)
    ensures var tags := Tags(files, diff);
      tags == ["cli workflow"] || IsSubseq(tags, ["markdown output", "commit messages", "hooks"])
  {
  }

  /** Two themes give "add A and B" with the first two tags in order. */
  lemma TwoThemes(files: seq<string>, diff: string)
    requires |Tags(files, diff)| >= 2
    ensures var tags := Tags(files, diff);
      ShortActionSummary(files, diff) == "add " + tags[0] + " and " + tags[1]
  {
    var tags := Tags(files, diff);
    var pick := Take(tags, 2);
    assert |pick| == 2 && pick[0] == tags[0] && pick[1] == tags[1];
  }

  // ---------------------------------------------------------- per-file notes

  /** The text of each added line: `l[1:].strip()` for lines starting `+`
      but not `+++`. */
  function AddedTexts(lines: seq<string>): (r: seq<string>)
    ensures |r| <= |lines|
  {
    if lines == [] then []
    else (if SmartCommit.IsAddedLine(lines[0]) then [Strip(lines[0][1..])] else []) + AddedTexts(lines[1..])
  }

  /** The names `re.findall(r'^def\s+(\w+)\s*\(', ...)` captures: those
      at every line start, since a `def` match ends at `(` and so cannot
      take in the start of another match. */
  function DefNames(text: string): set<string> {
    set i | 0 <= i <= |text| && LineStart(text, i) && DefNameAt(text, i).Some? :: DefNameAt(text, i).value
  }

  /** The texts `re.findall(r'^class\s+(\w+)', text, re.MULTILINE)` matches,
      each search resuming where the previous match ended. As `\s+` also
      runs over line breaks, a match can take in the start of the next
      line, and a `class` there is then never tried. */
  function ClassMatches(text: string): seq<string> {
    assert Scanning.Advances(ClassMatchLen);
    Scanning.FindAllLines(text, 0, ClassMatchLen)
  }

  /** The names that `findall` returns: the group of each match. */
  function ClassNames(text: string): set<string> {
    set v | v in ClassMatches(text) && ClassName(v).Some? :: ClassName(v).value
  }

  /** A text the class search returns is a match at some line start, and
      its group is the name captured there. */
  lemma ClassMatchFound(text: string, v: string)
    requires v in ClassMatches(text)
    ensures ClassName(v).Some?
    ensures exists i :: 0 <= i <= |text| && LineStart(text, i) && ClassName(text[i..]) == ClassName(v)
  {
    assert Scanning.Advances(ClassMatchLen);
    var q, n := Scanning.FindAllLinesAt(text, 0, ClassMatchLen, v);
    var u := text[q..];
    ClassMatchText(u);
    assert v == u[..n];
    assert LineStart(text, q);
  }

  /** Every class name listed is captured by a match at some line start,
      and there is none exactly when the pattern matches at no line start. */
  lemma ClassNamesFacts(text: string)
    ensures forall x :: x in ClassNames(text) ==>
      exists i :: 0 <= i <= |text| && LineStart(text, i) && ClassName(text[i..]) == Some(x)
    ensures ClassNames(text) == {} <==>
      forall i :: 0 <= i <= |text| && LineStart(text, i) ==> ClassName(text[i..]).None?
  {
    var ms := ClassMatches(text);
    assert Scanning.Advances(ClassMatchLen);
    Scanning.FindAllLinesFrom(text, 0, ClassMatchLen);
    forall v | v in ms
      ensures ClassName(v).Some?
      ensures exists i :: 0 <= i <= |text| && LineStart(text, i) && ClassName(text[i..]) == ClassName(v)
    {
      ClassMatchFound(text, v);
    }
    if ms != [] {
      assert ms[0] in ms;
      assert ClassName(ms[0]).value in ClassNames(text);
    } else {
      forall i | 0 <= i <= |text| && LineStart(text, i) ensures ClassName(text[i..]).None? {
        assert Scanning.LineMatch(text, i, ClassMatchLen).None?;
      }
    }
  }

  /** A note listing names: its head, then the first four names in sorted
      order, separated by commas. */
  function NamesNote(head: string, names: set<string>): (r: string)
    ensures head <= r
  {
    head + Join(", ", Take(SortedSet(names), 4))
  }

  /** The class note, when there are class names. */
  function ClassNoteOf(classes: set<string>): (r: seq<string>)
    ensures r != [] <==> classes != {}
    ensures r != [] ==> |r| == 1 && "add classes: " <= r[0]
  {
    if classes != {} then [NamesNote("add classes: ", classes)] else []
  }

  /** The notes after the class note: functions, click options and markdown
      formatting, each at most once. */
  function LaterPythonNotes(added: seq<string>, funcs: set<string>): (r: seq<string>)
    ensures |r| <= 3
    ensures forall x :: x in r ==> x in {NamesNote("add functions: ", funcs), ClickNote, MarkdownNote}
  {
    (if funcs != {} then [NamesNote("add functions: ", funcs)] else [])
    + (if MentionsClickOption(added) then [ClickNote] else [])
    + (if MentionsMarkdown(added) then [MarkdownNote] else [])
  }

  const ClickNote := "add/update cli options"
  const MarkdownNote := "add markdown formatting"

  /** None of the later notes starts like the class note. */
  lemma LaterNotNamedClass(x: string, funcs: set<string>)
    requires x in {NamesNote("add functions: ", funcs), ClickNote, MarkdownNote}
    ensures !("add classes: " <= x)
  {
    var c := "add classes: ";
    assert c[4] == 'c';
    if x == NamesNote("add functions: ", funcs) {
      assert "add functions: " <= x;
      assert x[4] == 'f';
    } else if x == ClickNote {
      assert x[4] == 'u';
    } else {
      assert x[4] == 'm';
    }
  }

  predicate MentionsClickOption(added: seq<string>) {
    exists l :: l in added && Contains(l, "click.option")
  }

  predicate MentionsMarkdown(added: seq<string>) {
    exists l :: l in added && Contains(Lower(l), "markdown")
  }

  /** Notes for a Python file: new classes and functions (sorted, at most
      four each), click options and markdown formatting. */
  function PythonNotes(added: seq<string>): seq<string> {
    var text := Join("\n", added);
    ClassNoteOf(ClassNames(text)) + LaterPythonNotes(added, DefNames(text))
  }

  /** The class pattern matches at the start of some line of `text`. */
  predicate ClassAtSomeLine(text: string) {
    exists i :: 0 <= i <= |text| && LineStart(text, i) && ClassName(text[i..]).Some?
  }

  lemma ClassNamesIff(text: string)
    ensures ClassNames(text) != {} <==> ClassAtSomeLine(text)
  {
    ClassNamesFacts(text);
  }

  /** `if classes:`: a Python file's notes open with the class note exactly
      when the class pattern matches at the start of some line of the
      joined added lines. */
  lemma ClassNote(added: seq<string>)
    ensures (PythonNotes(added) != [] && "add classes: " <= PythonNotes(added)[0])
      <==> ClassAtSomeLine(Join("\n", added))
  {
    var text := Join("\n", added);
    ClassNamesIff(text);
    var cn := ClassNoteOf(ClassNames(text));
    var later := LaterPythonNotes(added, DefNames(text));
    var r := PythonNotes(added);
    assert r == cn + later;
    if cn == [] {
      assert r == later;
      if r != [] { LaterNotNamedClass(r[0], DefNames(text)); }
    } else {
      assert r[0] == cn[0];
    }
  }

  /** On `class`, a line break and `class Foo`, the pattern at the start
      matches eleven characters: `\s+` takes the line break and `\w+` the
      second `class`. */
  lemma CrossingFirstLen()
    ensures ClassMatchLen("class\nclass Foo") == Some(11)
  {
    var text := "class\nclass Foo";
    assert text[..5] == "class";
    assert SkipSpaces(text, 6) == 6;
    assert SkipSpaces(text, 5) == 6;
    assert SkipWord(text, 11) == 11;
    assert SkipWord(text, 6) == 11;
  }

  /** No line starts after that match, so the search finds nothing more. */
  lemma CrossingTail()
    ensures Scanning.Advances(ClassMatchLen)
    ensures Scanning.FindAllLines("class\nclass Foo", 11, ClassMatchLen) == []
  {
    var text := "class\nclass Foo";
    var m := ClassMatchLen;
    assert Scanning.Advances(m);
    assert !Scanning.AtLineStart(text, 14) && !Scanning.AtLineStart(text, 13);
    assert !Scanning.AtLineStart(text, 12) && !Scanning.AtLineStart(text, 11);
    assert Scanning.FindAllLines(text, 15, m) == [];
    assert Scanning.FindAllLines(text, 14, m) == [];
    assert Scanning.FindAllLines(text, 13, m) == [];
    assert Scanning.FindAllLines(text, 12, m) == [];
  }

  /** So the search finds one match, which runs over the line break and
      ends inside the second line. */
  lemma CrossingFindAll()
    ensures Scanning.Advances(ClassMatchLen)
    ensures Scanning.FindAllLines("class\nclass Foo", 0, ClassMatchLen) == ["class\nclass"]
  {
    var text := "class\nclass Foo";
    var m := ClassMatchLen;
    CrossingFirstLen();
    CrossingTail();
    assert Scanning.LineMatch(text, 0, m) == Some(11);
    Scanning.FindAllLinesStep(text, 0, m);
    CrossingMatchText();
  }

  /** The first eleven characters of the text, which that match covers. */
  lemma CrossingMatchText()
    ensures "class\nclass Foo"[0..11] == "class\nclass"
  {
  }

  /** The class search on that text returns that one match. */
  lemma CrossingMatch()
    ensures ClassMatches("class\nclass Foo") == ["class\nclass"]
  {
    CrossingFindAll();
  }

  /** The group of that match is `class`, the word after the line break. */
  lemma CrossingName()
    ensures ClassName("class\nclass") == Some("class")
  {
    var v := "class\nclass";
    assert SkipSpaces(v, 6) == 6;
    assert SkipSpaces(v, 5) == 6;
    assert SkipWord(v, 11) == 11;
    assert SkipWord(v, 6) == 11;
    assert v[6..11] == "class";
  }

  /** So the class names of that text are `class` alone. */
  lemma CrossingNames()
    ensures ClassNames("class\nclass Foo") == {"class"}
  {
    CrossingMatch();
    CrossingName();
  }

  /** The note for the single class name `class`. */
  lemma CrossingNote()
    ensures ClassNoteOf({"class"}) == ["add classes: class"]
  {
    var sorted := SortedSet({"class"});
    assert sorted[0] in {"class"};
    assert Take(sorted, 4) == ["class"];
    assert NamesNote("add classes: ", {"class"}) == "add classes: " + "class";
    assert "add classes: " + "class" == "add classes: class";
  }

  /** A line `class` followed by a line `class Foo`: the first match's `\s+`
      runs over the line break and captures `class`, and the search resumes
      inside the second line, so `Foo` is never captured. */
  lemma ClassNoteCrossesLines()
    ensures PythonNotes(["class", "class Foo"]) != []
      && PythonNotes(["class", "class Foo"])[0] == "add classes: class"
  {
    var added := ["class", "class Foo"];
    var text := Join("\n", added);
    assert text == "class\nclass Foo";
    CrossingNames();
    CrossingNote();
    assert PythonNotes(added) == ClassNoteOf(ClassNames(text)) + LaterPythonNotes(added, DefNames(text));
  }

  /** `^\[.*\d+\.\d+.*\]`: a bracketed version such as `[1.2.0]`. */
  predicate BracketVersion(h: string) {
    |h| > 0 && h[0] == '['
    && exists m, e :: 1 <= m && m + 2 < e < |h| && IsDigit(h[m]) && h[m + 1] == '.' && IsDigit(h[m + 2]) && h[e] == ']'
  }

  predicate DigitsAt(h: string, i: nat, n: nat) {
    i + n <= |h| && forall k :: i <= k < i + n ==> IsDigit(h[k])
  }

  /** `^\d{4}-\d{2}-\d{2}`: a date. */
  predicate IsoDate(h: string) {
    DigitsAt(h, 0, 4) && |h| > 4 && h[4] == '-' && DigitsAt(h, 5, 2) && |h| > 7 && h[7] == '-' && DigitsAt(h, 8, 2)
  }

  /** The end of the run of digits starting at `i`. */
  function SkipDigits(s: string, i: nat): (j: nat)
    requires i <= |s|
    ensures i <= j <= |s| && (j == |s| || !IsDigit(s[j]))
    decreases |s| - i
  {
    if i < |s| && IsDigit(s[i]) then SkipDigits(s, i + 1) else i
  }

  /** `^v?\d+\.\d+` under IGNORECASE: a version number. */
  predicate VersionPrefix(h: string) {
    var t := if |h| > 0 && (h[0] == 'v' || h[0] == 'V') then h[1..] else h;
    var k := SkipDigits(t, 0);
    k >= 1 && k + 1 < |t| && t[k] == '.' && IsDigit(t[k + 1])
  }

  /** The changelog-noise headings, matched case-insensitively. */
  predicate IsNoiseHeading(h: string) {
    BracketVersion(h) || IsoDate(h)
    || Lower(h) in ["added", "changed", "deprecated", "removed", "fixed", "security"]
    || StartsWith(Lower(h), "changelog") || StartsWith(Lower(h), "unreleased")
    || VersionPrefix(h)
  }

  /** A kept heading: `#`s and spaces removed, longer than two characters
      and not noise. */
  function HeadingOf(line: string): (r: Option<string>)
    ensures r.Some? ==> |r.value| > 2 && !IsNoiseHeading(r.value)
  {
    if !StartsWith(line, "#") then None
    else
      var h := Strip(LStripChar(line, '#'));
      if |h| > 2 && !IsNoiseHeading(h) then Some(h) else None
  }

  function Headings(added: seq<string>): (r: seq<string>)
    ensures |r| <= |added|
    ensures forall h :: h in r ==> |h| > 2 && !IsNoiseHeading(h)
  {
    if added == [] then []
    else (match HeadingOf(added[0]) case Some(h) => [h] case None => []) + Headings(added[1..])
  }

  /** Notes for a Markdown or reST file. */
  function DocNotes(path: string, added: seq<string>): seq<string> {
    var headings := Headings(added);
    if headings != [] then ["update sections: " + Join(", ", Take(headings, 4))]
    else if Contains(Lower(path), "changelog") then ["update changelog entries"]
    else if Contains(Lower(path), "readme") then ["update documentation"]
    else []
  }

  function ShellNotes(added: seq<string>): seq<string> {
    if exists l :: l in added && (Contains(l, "chmod") || Contains(l, "hook")) then ["add hook install script"] else []
  }

  /** All notes for the file before the dedupe and cap. */
  function RawNotes(path: string, diff: string): seq<string> {
    var added := AddedTexts(SplitLines(diff));
    (if EndsWith(path, ".py") then PythonNotes(added) else [])
    + (if EndsWith(path, ".md") || EndsWith(path, ".rst") then DocNotes(path, added) else [])
    + (if EndsWith(path, ".sh") then ShellNotes(added) else [])
  }

  /** `_per_file_notes` on the file's `git diff -U0` output. */
  function PerFileNotes(path: string, diff: string): seq<string> {
    Take(DedupeBy(RawNotes(path, diff), Same, {}), 3)
  }

  /** At most three notes, none repeated, each one of the raw notes, in
      their first-seen order. */
  lemma PerFileNotesFacts(path: string, diff: string)
    ensures var r := PerFileNotes(path, diff);
      |r| <= 3 && Distinct(r) && IsSubseq(r, RawNotes(path, diff))
  {
    var raw := RawNotes(path, diff);
    var d := DedupeBy(raw, Same, {});
    DedupeByKeys(raw, Same, {});
    DedupeBySubseq(raw, Same, {});
    var r := Take(d, 3);
    PrefixIsSubseq(r, d);
    IsSubseqTrans(r, d, raw);
    forall i, j | 0 <= i < j < |r| ensures r[i] != r[j] {
      assert Same(d[i]) != Same(d[j]);
    }
  }

  /** A file that is neither Python, Markdown, reST nor shell gets no note. */
  lemma OtherFilesNoNotes(path: string, diff: string)
    requires !EndsWith(path, ".py") && !EndsWith(path, ".md") && !EndsWith(path, ".rst") && !EndsWith(path, ".sh")
    ensures PerFileNotes(path, diff) == []
  {
  }

  // ---------------------------------------------------------------- messages

  /** `f"{type}({scope})"` or the bare type, then `": "` and the phrase. */
  function Title(changeType: string, scope: Option<string>, desc: string): string {
    (match scope case Some(s) => changeType + "(" + s + ")" case None => changeType) + ": " + desc
  }

  /** `generate_commit_message`. `smart` is the outcome of the abstraction
      generator when one is configured: its title wins unless it raised or
      the level is `legacy`, in which case the scoring path runs. */
  function CommitMessage(files: seq<string>, diff: string, stats: DiffStats,
                         smart: Option<Result<string>>, level: Option<string>): (r: Option<string>)
    ensures r.None? <==> files == []
  {
    if files == [] then None
    else if smart.Some? && level != Some("legacy") && smart.value.Ok? then Some(smart.value.value)
    else
      var c := Classify(files, diff, stats);
      ClassifyNonEmpty(files, diff, stats);
      Some(Title(c.value, Scope(files), ShortActionSummary(files, diff)))
  }

  /** Classification fails only for a single-file count with no files. */
  lemma ClassifyNonEmpty(files: seq<string>, diff: string, stats: DiffStats)
    requires files != []
    ensures Classify(files, diff, stats).Ok?
  {
    ScoresErr(files, diff, stats);
  }

  /** The title starts with the type and, when there is one, the scope in
      parentheses. */
  lemma TitleShape(t: string, scope: Option<string>, desc: string)
    ensures scope.Some? ==> StartsWith(Title(t, scope, desc), t + "(" + scope.value + "): ")
    ensures scope.None? ==> StartsWith(Title(t, scope, desc), t + ": ")
  {
    if scope.Some? {
      assert Title(t, scope, desc) == (t + "(" + scope.value + "): ") + desc;
    } else {
      assert Title(t, scope, desc) == (t + ": ") + desc;
    }
  }

  /** On the scoring path the title is `type(scope): phrase`, with a known
      type, and `type: phrase` when no scope was found. */
  lemma LegacyTitleShape(files: seq<string>, diff: string, stats: DiffStats, smart: Option<Result<string>>, level: Option<string>)
    requires files != []
    requires smart.None? || level == Some("legacy") || smart.value.Err?
    ensures Classify(files, diff, stats).Ok?
    ensures Classify(files, diff, stats).value in TypeNames()
    ensures CommitMessage(files, diff, stats, smart, level)
      == Some(Title(Classify(files, diff, stats).value, Scope(files), ShortActionSummary(files, diff)))
  {
    ClassifyNonEmpty(files, diff, stats);
    ClassifyKnownType(files, diff, stats);
  }

  /** `str(None)`, as an f-string prints a missing scope. */
  function ScopeText(scope: Option<string>): string {
    match scope case Some(s) => s case None => "None"
  }

  /** The title rewrite of `generate_enhanced_summary`: a non-empty title
      gets `'{intent}({scope}): '` in front, the intent defaulting to
      `refactor`. */
  function EnhancedTitle(intent: Option<string>, scope: Option<string>, title: string): (r: string)
    ensures title == "" ==> r == ""
    ensures title != "" ==> EndsWith(r, "): " + title)
  {
    if title == "" then title
    else
      var r := intent.GetOr("refactor") + "(" + ScopeText(scope) + "): " + title;
      assert r == (intent.GetOr("refactor") + "(" + ScopeText(scope)) + ("): " + title);
      r
  }

  /** With no scope the title carries the literal `(None)`. */
  lemma EnhancedTitleNoScope(intent: string, title: string)
    requires title != ""
    ensures StartsWith(EnhancedTitle(Some(intent), None, title), intent + "(None): ")
  {
  }

  // ------------------------------------------------------------ git numstat

  /** What one line of numstat output contributes. */
  datatype LineRead = Skipped | Counted(a: int, d: int) | Raises

  /** A line, given as its tab-separated fields, counts when it has at least
      two; an empty line splits into one empty field and is skipped too. */
  function ReadFields(parts: seq<string>): LineRead {
    if |parts| < 2 then Skipped
    else
      match (CountField(parts[0]), CountField(parts[1]))
      case (Some(a), Some(d)) => Counted(a, d)
      case _ => Raises
  }

  function AddLine(acc: DiffStats, r: LineRead): Option<DiffStats> {
    match r
    case Skipped => Some(acc)
    case Counted(a, d) => Some(DiffStats(acc.files + 1, acc.added + a, acc.deleted + d))
    case Raises => None
  }

  /** The totals `get_diff_stats` adds up over the lines read, or None
      where `int()` raises (the method then answers zeros). */
  function NumstatTotals(got: seq<LineRead>): Option<DiffStats>
    decreases |got|
  {
    if got == [] then Some(DiffStats(0, 0, 0))
    else
      match NumstatTotals(got[..|got| - 1])
      case None => None
      case Some(acc) => AddLine(acc, got[|got| - 1])
  }

  /** A numstat count: `-` (a binary file) is 0, anything else goes through
      `int()`. */
  function CountField(s: string): Option<int> {
    if s == "-" then Some(0) else ParseInt(s)
  }

  /** Each line split at tabs. */
  function LineFields(lines: seq<string>): (r: seq<seq<string>>)
    ensures |r| == |lines| && forall k :: 0 <= k < |lines| ==> r[k] == Split(lines[k], '\t')
  {
    seq(|lines|, k requires 0 <= k < |lines| => Split(lines[k], '\t'))
  }

  /** What each line contributes. */
  function Reads(rows: seq<seq<string>>): (r: seq<LineRead>)
    ensures |r| == |rows| && forall k :: 0 <= k < |rows| ==> r[k] == ReadFields(rows[k])
  {
    seq(|rows|, k requires 0 <= k < |rows| => ReadFields(rows[k]))
  }

  /** `git diff --numstat` output, read the way `get_diff_stats` does. */
  function DiffStatsOf(stdout: string): Option<DiffStats> {
    NumstatTotals(Reads(LineFields(Split(Strip(stdout), '\n'))))
  }

  /** Reading one more line. */
  lemma NumstatStep(rows: seq<LineRead>, i: nat, acc: DiffStats)
    requires i < |rows| && NumstatTotals(rows[..i]) == Some(acc)
    ensures NumstatTotals(rows[..i + 1]) == AddLine(acc, rows[i])
  {
    assert rows[..i + 1][..i] == rows[..i];
  }

  /** Once a line raises, the whole read does. */
  lemma NumstatNoneSticks(rows: seq<LineRead>, n: nat)
    requires n <= |rows| && NumstatTotals(rows[..n]) == None
    ensures NumstatTotals(rows) == None
    decreases |rows| - n
  {
    if n < |rows| {
      assert rows[..n + 1][..n] == rows[..n];
      NumstatNoneSticks(rows, n + 1);
    } else {
      assert rows[..n] == rows;
    }
  }

  /** A numstat row as git prints it. */
  datatype Row = Row(added: nat, deleted: nat, path: string)

  function RowLine(r: Row): string {
    NatToString(r.added) + "\t" + NatToString(r.deleted) + "\t" + r.path
  }

  function RowLines(rows: seq<Row>): (r: seq<string>)
    ensures |r| == |rows| && forall k :: 0 <= k < |rows| ==> r[k] == RowLine(rows[k])
  {
    seq(|rows|, k requires 0 <= k < |rows| => RowLine(rows[k]))
  }

  function SumAdded(rows: seq<Row>): nat {
    if rows == [] then 0 else SumAdded(rows[..|rows| - 1]) + rows[|rows| - 1].added
  }

  function SumDeleted(rows: seq<Row>): nat {
    if rows == [] then 0 else SumDeleted(rows[..|rows| - 1]) + rows[|rows| - 1].deleted
  }

  predicate PlainPath(p: string) {
    forall i :: 0 <= i < |p| ==> p[i] != '\t' && p[i] != '\n'
  }

  lemma RowFields(r: Row)
    requires PlainPath(r.path)
    ensures Split(RowLine(r), '\t') == [NatToString(r.added), NatToString(r.deleted), r.path]
  {
    var ps := [NatToString(r.added), NatToString(r.deleted), r.path];
    assert Join("\t", ps) == RowLine(r);
    SplitOfJoin(ps, '\t');
  }

  /** A rendered row reads back as its counts. */
  lemma RowCounts(r: Row)
    requires PlainPath(r.path)
    ensures ReadFields(Split(RowLine(r), '\t')) == Counted(r.added, r.deleted)
  {
    RowFields(r);
    CountFieldNat(r.added);
    CountFieldNat(r.deleted);
  }

  /** A printed count reads back as itself. */
  lemma CountFieldNat(n: nat)
    ensures CountField(NatToString(n)) == Some(n)
  {
    ParseNat(n);
    assert NatToString(n)[0] != '-';
  }

  /** Lines that each count add up to their number and sums. */
  lemma {:induction false} NumstatCounted(fields: seq<LineRead>, rows: seq<Row>)
    requires |fields| == |rows|
    requires forall k :: 0 <= k < |rows| ==> fields[k] == Counted(rows[k].added, rows[k].deleted)
    ensures NumstatTotals(fields) == Some(DiffStats(|rows|, SumAdded(rows), SumDeleted(rows)))
    decreases |rows|
  {
    if rows != [] {
      var n := |rows| - 1;
      var front := rows[..n];
      NumstatCounted(fields[..n], front);
      NumstatStep(fields, n, DiffStats(|front|, SumAdded(front), SumDeleted(front)));
      assert fields[..n + 1] == fields;
    }
  }

  /** Reading rendered rows back gives their count and sums. */
  lemma NumstatRows(rows: seq<Row>)
    requires forall k :: 0 <= k < |rows| ==> PlainPath(rows[k].path)
    ensures NumstatTotals(Reads(LineFields(RowLines(rows)))) == Some(DiffStats(|rows|, SumAdded(rows), SumDeleted(rows)))
  {
    var f := Reads(LineFields(RowLines(rows)));
    forall k | 0 <= k < |rows| ensures f[k] == Counted(rows[k].added, rows[k].deleted) {
      RowCounts(rows[k]);
    }
    NumstatCounted(f, rows);
  }

  /** The loop of `get_diff_stats` over the output lines: the totals, or
      None as soon as a count does not parse. */
  method ReadNumstat(lines: seq<string>) returns (r: Option<DiffStats>)
    ensures r == NumstatTotals(Reads(LineFields(lines)))
  {
    var fields := LineFields(lines);
    ghost var rows := Reads(fields);
    var acc := DiffStats(0, 0, 0);
    var i := 0;
    while i < |lines|
      invariant 0 <= i <= |lines|
      invariant NumstatSoFar(rows, i, acc)
    {
      var read := ReadRow(fields[i]);
      assert rows[i] == read;
      var next := acc;
      if read.Counted? {
        next := DiffStats(acc.files + 1, acc.added + read.a, acc.deleted + read.d);
      }
      NumstatLine(rows, i, acc, read, next);
      if read.Raises? {
        return None;
      }
      acc := next;
      i := i + 1;
    }
    assert rows[..i] == rows;
    return Some(acc);
  }

  /** The body of the loop over one line's tab-separated fields: lines with
      fewer than two fields are skipped, and a count that does not parse
      raises. */
  method ReadRow(parts: seq<string>) returns (read: LineRead)
    ensures read == ReadFields(parts)
  {
    if |parts| >= 2 {
      var added := CountField(parts[0]);
      var deleted := CountField(parts[1]);
      if added.None? || deleted.None? {
        return Raises;
      }
      return Counted(added.value, deleted.value);
    }
    return Skipped;
  }

  ghost predicate NumstatSoFar(rows: seq<LineRead>, i: nat, acc: DiffStats) {
    i <= |rows| && NumstatTotals(rows[..i]) == Some(acc)
  }

  /** One line of the loop in `ReadNumstat`: skipped, raising, or counted
      into `next`. */
  lemma NumstatLine(rows: seq<LineRead>, i: nat, acc: DiffStats, read: LineRead, next: DiffStats)
    requires i < |rows| && NumstatSoFar(rows, i, acc) && rows[i] == read
    requires read.Skipped? ==> next == acc
    requires read.Counted? ==> next == DiffStats(acc.files + 1, acc.added + read.a, acc.deleted + read.d)
    ensures read != Raises ==> NumstatSoFar(rows, i + 1, next)
    ensures read == Raises ==> NumstatTotals(rows) == None
  {
    NumstatStep(rows, i, acc);
    if read == Raises {
      NumstatNoneSticks(rows, i + 1);
    }
  }



  /** The memoising part of `CommitMessageGenerator`: `get_diff_stats`
      keeps its answer per `cached` flag. */
  class CommitMessageGenerator {
    var statsCache: map<bool, DiffStats>

    constructor()
      ensures statsCache == map[]
    {
      statsCache := map[];
    }

    /** `get_diff_stats(cached)` given what git prints: a cached answer is
        returned as is; otherwise the parse is stored, except when `int()`
        raised, which answers zeros and stores nothing. */
    method GetDiffStats(cached: bool, gitOutput: string) returns (s: DiffStats)
      modifies this
      ensures cached in old(statsCache) ==> s == old(statsCache)[cached] && statsCache == old(statsCache)
      ensures cached !in old(statsCache) && DiffStatsOf(gitOutput).Some? ==>
        s == DiffStatsOf(gitOutput).value && statsCache == old(statsCache)[cached := s]
      ensures cached !in old(statsCache) && DiffStatsOf(gitOutput).None? ==>
        s == DiffStats(0, 0, 0) && statsCache == old(statsCache)
    {
      if cached in statsCache {
        return statsCache[cached];
      }
      var r := ReadNumstat(Split(Strip(gitOutput), '\n'));
      if r.None? {
        return DiffStats(0, 0, 0);
      }
      s := r.value;
      statsCache := statsCache[cached := s];
    }
  }
}
