/** Git helpers: repository URL validation, the outcome of cloning, and the
    parsers of `git remote -v`, `git ls-remote --heads`, `git diff
    --name-only` and `git ls-files --others` output.

    Git itself is not run: the exit status and the standard output of each
    command are parameters. */
module GitOps {
  import opened Wrappers
  import opened Strings
  import opened Seqs
  import opened Scanning

  // ------------------------------------------------------ URL validation

  /** `[\w.\-]`: a host character. */
  predicate HostChar(c: char) {
    IsWordChar(c) || c == '.' || c == '-'
  }

  /** `[\w.\-/]`: a path character. */
  predicate PathChar(c: char) {
    HostChar(c) || c == '/'
  }

  predicate HostText(s: string) {
    |s| > 0 && forall i :: 0 <= i < |s| ==> HostChar(s[i])
  }

  predicate PathText(s: string) {
    |s| > 0 && forall i :: 0 <= i < |s| ==> PathChar(s[i])
  }

  /** A host, the separator, then a path, all of `s`. A host cannot hold the
      separator, so the host ends at the first one. */
  predicate HostSepPath(s: string, sep: char) {
    var i := CharPos(s, sep);
    i < |s| && HostText(s[..i]) && PathText(s[i + 1..])
  }

  /** `validate_repo_url`: after stripping, `^git@[\w.\-]+:[\w.\-/]+(?:\.git)?$`
      or `^https?://[\w.\-]+/[\w.\-/]+(?:\.git)?$`. The optional `.git`
      adds nothing, since the path class already holds its characters. */
  function ValidateRepoUrl(url: string): bool {
    var u := Strip(url);
    Prefixed(u, "git@", ':') || Prefixed(u, "http://", '/') || Prefixed(u, "https://", '/')
  }

  /** `^SCHEME HOST SEP PATH$`, recognised left to right. */
  predicate Prefixed(u: string, scheme: string, sep: char) {
    scheme <= u && HostSepPath(u[|scheme|..], sep)
  }

  /** The URL forms as a reader states them: a scheme, a host, a separator
      and a path. */
  ghost predicate UrlForm(u: string, scheme: string, sep: char) {
    exists h, p :: HostText(h) && PathText(p) && u == scheme + h + [sep] + p
  }

  /** A scheme followed by host, separator and path. */
  lemma SchemeParts(scheme: string, h: string, sep: char, p: string)
    ensures scheme <= scheme + h + [sep] + p
    ensures (scheme + h + [sep] + p)[|scheme|..] == h + [sep] + p
  {
    var u := scheme + h + [sep] + p;
    assert u[..|scheme|] == scheme;
    assert u[|scheme|..] == h + [sep] + p;
  }

  /** The recogniser and the forms agree, for one scheme. */
  lemma HostSepPathForm(u: string, scheme: string, sep: char)
    requires !HostChar(sep)
    ensures Prefixed(u, scheme, sep) <==> UrlForm(u, scheme, sep)
  {
    if Prefixed(u, scheme, sep) {
      var s := u[|scheme|..];
      var i := CharPos(s, sep);
      var h, p := s[..i], s[i + 1..];
      assert s == h + [sep] + p;
      assert u == scheme + s;
      SchemeParts(scheme, h, sep, p);
      assert u == scheme + h + [sep] + p;
    }
    if UrlForm(u, scheme, sep) {
      var h, p :| HostText(h) && PathText(p) && u == scheme + h + [sep] + p;
      SchemeParts(scheme, h, sep, p);
      var s := u[|scheme|..];
      assert s[|h|] == sep;
      assert forall k :: 0 <= k < |h| ==> s[k] == h[k];
      assert CharPos(s, sep) == |h|;
      assert s[..|h|] == h && s[|h| + 1..] == p;
    }
  }

  /** `validate_repo_url` accepts exactly the stripped URLs of the three
      forms `git@HOST:PATH`, `http://HOST/PATH` and `https://HOST/PATH`. */
  lemma ValidateRepoUrlForms(url: string)
    ensures ValidateRepoUrl(url) <==>
      UrlForm(Strip(url), "git@", ':') || UrlForm(Strip(url), "http://", '/') || UrlForm(Strip(url), "https://", '/')
  {
    var u := Strip(url);
    Separators();
    HostSepPathForm(u, "git@", ':');
    HostSepPathForm(u, "http://", '/');
    HostSepPathForm(u, "https://", '/');
  }

  /** Neither separator is a host character. */
  lemma Separators()
    ensures !HostChar(':') && !HostChar('/')
  {
  }

  /** A URL built from a scheme, a host, a separator and a path is
      accepted. */
  lemma AcceptedForm(scheme: string, h: string, sep: char, p: string)
    requires (scheme == "git@" && sep == ':') || (scheme == "http://" && sep == '/') || (scheme == "https://" && sep == '/')
    requires HostText(h) && PathText(p)
    ensures ValidateRepoUrl(scheme + h + [sep] + p)
  {
    var u := scheme + h + [sep] + p;
    assert UrlForm(u, scheme, sep);
    Separators();
    HostSepPathForm(u, scheme, sep);
    assert Strip(u) == u by {
      assert u[0] == scheme[0] && u[|u| - 1] == p[|p| - 1];
      StripUnpadded(u);
    }
  }

  /** An SSH URL with an empty host, such as `git@:missing-host.git`, is
      rejected. */
  lemma RejectedEmptyHost(rest: string)
    requires rest == "" || !IsSpace(rest[|rest| - 1])
    ensures !ValidateRepoUrl("git@:" + rest)
  {
    var u := "git@:" + rest;
    assert u[0] == 'g' && u[|u| - 1] == (if rest == "" then ':' else rest[|rest| - 1]);
    StripUnpadded(u);
    assert u[4..][0] == ':';
    assert !("http://" <= u) by { assert u[0] != 'h'; }
    assert !("https://" <= u) by { assert u[0] != 'h'; }
  }

  /** Surrounding whitespace does not matter. */
  lemma ValidateIgnoresPadding(url: string)
    ensures ValidateRepoUrl(url) == ValidateRepoUrl(Strip(url))
  {
    StripIdempotent(url);
  }

  // ------------------------------------------------------------- cloning

  /** `name[:-4]` when the name ends with `.git`: one suffix only. */
  function DropGitSuffix(name: string): (r: string)
    ensures EndsWith(name, ".git") ==> r + ".git" == name
    ensures !EndsWith(name, ".git") ==> r == name
  {
    if EndsWith(name, ".git") then name[..|name| - 4] else name
  }

  /** The directory name `clone_repository` reports when no target is
      given, as written: `url.rstrip('/').rsplit('/', 1)[-1]` without one
      `.git`. */
  function RepoNameAsWritten(u: string): string {
    DropGitSuffix(Basename(RStripChar(u, '/')))
  }

  predicate IsPathSeparator(c: char) { c == '/' || c == ':' }

  /** The text after the last `/` or `:` of `s`, or all of `s`. */
  function LastSegment(s: string): (r: string)
    ensures |r| <= |s| && r == s[|s| - |r|..]
    ensures forall i :: 0 <= i < |r| ==> !IsPathSeparator(r[i])
    ensures |r| < |s| ==> IsPathSeparator(s[|s| - |r| - 1])
    decreases |s|
  {
    if s == "" || IsPathSeparator(s[|s| - 1]) then ""
    else LastSegment(s[..|s| - 1]) + [s[|s| - 1]]
  }

  /** The directory `git clone` creates for a URL: the last component after
      a `/` or, for the SSH form `host:path`, a `:`, without one `.git`. */
  function RepoName(u: string): string {
    DropGitSuffix(LastSegment(RStripChar(u, '/')))
  }

  /** Whatever precedes a separator, the last segment is what follows it. */
  lemma {:induction false} LastSegmentOf(a: string, c: char, b: string)
    requires IsPathSeparator(c)
    requires forall i :: 0 <= i < |b| ==> !IsPathSeparator(b[i])
    ensures LastSegment(a + [c] + b) == b
    decreases |b|
  {
    var s := a + [c] + b;
    if b == "" {
      assert s[|s| - 1] == c;
    } else {
      var b' := b[..|b| - 1];
      assert s[..|s| - 1] == a + [c] + b';
      LastSegmentOf(a, c, b');
      assert b == b' + [b[|b| - 1]];
    }
  }

  /** A repository name with a `.git` suffix, after a `/` or a `:`, names the
      directory; trailing slashes are ignored. */
  lemma RepoNameOf(a: string, c: char, name: string, slashes: nat)
    requires IsPathSeparator(c) && name != ""
    requires forall i :: 0 <= i < |name| ==> !IsPathSeparator(name[i])
    ensures RepoName(a + [c] + name + ".git" + Slashes(slashes)) == name
  {
    var b := GitNamed(name);
    GitNamedFacts(name);
    var u := a + [c] + b;
    assert a + [c] + name + ".git" + Slashes(slashes) == u + Slashes(slashes);
    assert u[|u| - 1] == b[|b| - 1];
    RStripSlashes(u, slashes);
    LastSegmentOf(a, c, b);
  }

  /** `name.git` has no separator when `name` has none, and drops back to
      `name`. */
  lemma GitNamedFacts(name: string)
    requires forall i :: 0 <= i < |name| ==> !IsPathSeparator(name[i])
    ensures forall i :: 0 <= i < |GitNamed(name)| ==> !IsPathSeparator(GitNamed(name)[i])
    ensures GitNamed(name)[|GitNamed(name)| - 1] == 't'
    ensures DropGitSuffix(GitNamed(name)) == name
  {
    var b := GitNamed(name);
    assert b[|b| - 4..] == ".git";
    assert b[..|b| - 4] == name;
  }

  function GitNamed(name: string): (b: string)
    ensures |b| == |name| + 4
  {
    name + ".git"
  }

  function Slashes(n: nat): (r: string)
    ensures |r| == n && forall i :: 0 <= i < n ==> r[i] == '/'
  {
    if n == 0 then "" else Slashes(n - 1) + "/"
  }

  /** Trailing slashes come off; the last other character stays. */
  lemma {:induction false} RStripSlashes(u: string, n: nat)
    requires u != "" && u[|u| - 1] != '/'
    ensures RStripChar(u + Slashes(n), '/') == u
    decreases n
  {
    if n == 0 {
      assert u + Slashes(0) == u;
    } else {
      var s := u + Slashes(n);
      assert s[..|s| - 1] == u + Slashes(n - 1);
      RStripSlashes(u, n - 1);
    }
  }

  /** The name as written and the directory git creates agree whenever the
      part after the last `/` holds no `:`, as in every `http(s)://` URL and
      every SSH URL with a `/` in its path. */
  lemma RepoNamesAgree(u: string)
    requires forall i :: 0 <= i < |Basename(RStripChar(u, '/'))| ==> Basename(RStripChar(u, '/'))[i] != ':'
    ensures RepoNameAsWritten(u) == RepoName(u)
  {
    var s := RStripChar(u, '/');
    var b := Basename(s);
    if |b| < |s| {
      assert s == s[..|s| - |b| - 1] + [s[|s| - |b| - 1]] + b;
      LastSegmentOf(s[..|s| - |b| - 1], '/', b);
    } else {
      assert s == b;
      NoSeparatorIsWhole(s);
    }
  }

  /** Text without a separator is its own last segment. */
  lemma {:induction false} NoSeparatorIsWhole(s: string)
    requires forall i :: 0 <= i < |s| ==> !IsPathSeparator(s[i])
    ensures LastSegment(s) == s
    decreases |s|
  {
    if s != "" {
      NoSeparatorIsWhole(s[..|s| - 1]);
      assert s == s[..|s| - 1] + [s[|s| - 1]];
    }
  }

  /** `git@HOST:PATH`. */
  function SshUrl(h: string, p: string): string {
    "git@" + h + [':'] + p
  }

  /** An accepted SSH URL whose path has no `/`, such as
      `git@github.com:repo.git`: the name as written keeps the user and the
      host, while git creates a directory named after the path. */
  lemma SshNameAsWrittenKeepsHost(h: string, name: string)
    requires HostText(h) && name != ""
    requires forall i :: 0 <= i < |name| ==> HostChar(name[i])
    ensures ValidateRepoUrl(SshUrl(h, GitNamed(name)))
    ensures RepoNameAsWritten(SshUrl(h, GitNamed(name))) == SshUrl(h, name)
    ensures RepoName(SshUrl(h, GitNamed(name))) == name
  {
    SshAccepted(h, name);
    SshAsWritten(h, name);
    SshRepoName(h, name);
  }

  lemma SshRepoName(h: string, name: string)
    requires name != ""
    requires forall i :: 0 <= i < |name| ==> HostChar(name[i])
    ensures RepoName(SshUrl(h, GitNamed(name))) == name
  {
    Separators();
    SshUrlParts(h, name);
    RepoNameOf("git@" + h, ':', name, 0);
  }

  lemma SshUrlParts(h: string, name: string)
    ensures "git@" + h + [':'] + name + ".git" + Slashes(0) == SshUrl(h, GitNamed(name))
  {
    assert Slashes(0) == "";
  }

  lemma SshAccepted(h: string, name: string)
    requires HostText(h) && name != ""
    requires forall i :: 0 <= i < |name| ==> HostChar(name[i])
    ensures ValidateRepoUrl(SshUrl(h, GitNamed(name)))
  {
    var p := GitNamed(name);
    assert PathText(p) by {
      forall i | 0 <= i < |p| ensures PathChar(p[i]) {
        if i >= |name| { assert p[i] == ".git"[i - |name|]; }
      }
    }
    AcceptedForm("git@", h, ':', p);
  }

  lemma SshAsWritten(h: string, name: string)
    requires HostText(h) && name != ""
    requires forall i :: 0 <= i < |name| ==> HostChar(name[i])
    ensures RepoNameAsWritten(SshUrl(h, GitNamed(name))) == SshUrl(h, name)
  {
    var u := SshUrl(h, GitNamed(name));
    assert u == SshUrl(h, name) + ".git";
    assert forall i :: 0 <= i < |u| ==> u[i] != '/' by {
      Separators();
      forall i | 0 <= i < |u| ensures u[i] != '/' {
        if 4 <= i < 4 + |h| { assert u[i] == h[i - 4]; }
        else if 5 + |h| <= i < 5 + |h| + |name| { assert u[i] == name[i - 5 - |h|]; }
      }
    }
    assert u[|u| - 1] == 't';
    assert Basename(u) == u;
    assert u[..|u| - 4] == SshUrl(h, name);
  }

  /** `target_dir` when it is given and non-empty (`if target_dir:`). */
  predicate Given(targetDir: Option<string>) {
    targetDir.Some? && targetDir.value != ""
  }

  /** The arguments `clone_repository` passes to git. */
  function CloneArgs(url: string, targetDir: Option<string>): (r: seq<string>)
    ensures |r| == if Given(targetDir) then 3 else 2
    ensures r[..2] == ["clone", Strip(url)]
    ensures Given(targetDir) ==> r[2] == targetDir.value
  {
    ["clone", Strip(url)] + if Given(targetDir) then [targetDir.value] else []
  }

  const CloneFailed := "Failed to clone repository. Check the URL and your access permissions."

  function InvalidUrlMessage(u: string): string {
    "Invalid repository URL: " + u + "\nExpected format: https://... or git@host:user/repo.git"
  }

  /** `clone_repository`. `gitClone` stands for running git with the given
      arguments: whether it exited with status 0. The result is the pair
      (success, message or directory). */
  function CloneRepository(url: string, targetDir: Option<string>, gitClone: seq<string> -> bool): (r: (bool, string))
    ensures !ValidateRepoUrl(url) ==> r == (false, InvalidUrlMessage(Strip(url)))
    ensures r.0 <==> ValidateRepoUrl(url) && gitClone(CloneArgs(url, targetDir))
    ensures ValidateRepoUrl(url) && !r.0 ==> r.1 == CloneFailed
    ensures r.0 && Given(targetDir) ==> r.1 == targetDir.value
    ensures r.0 && !Given(targetDir) ==> r.1 == RepoName(Strip(url))
  {
    var u := Strip(url);
    ValidateIgnoresPadding(url);
    if !ValidateRepoUrl(u) then (false, InvalidUrlMessage(u))
    else if gitClone(CloneArgs(url, targetDir)) then (true, if Given(targetDir) then targetDir.value else RepoName(u))
    else (false, CloneFailed)
  }

  /** An invalid URL is refused before git is run: the outcome does not
      depend on what git would do. */
  lemma InvalidUrlNeverClones(url: string, targetDir: Option<string>, g1: seq<string> -> bool, g2: seq<string> -> bool)
    requires !ValidateRepoUrl(url)
    ensures CloneRepository(url, targetDir, g1) == CloneRepository(url, targetDir, g2)
    ensures !CloneRepository(url, targetDir, g1).0
  {
  }

  /** A successful clone without a target names a directory without `/` or
      `:` and without a `.git` suffix left by the URL. */
  lemma ClonedDirectoryIsAName(url: string, targetDir: Option<string>, gitClone: seq<string> -> bool)
    requires CloneRepository(url, targetDir, gitClone).0 && !Given(targetDir)
    ensures forall i :: 0 <= i < |CloneRepository(url, targetDir, gitClone).1| ==>
      !IsPathSeparator(CloneRepository(url, targetDir, gitClone).1[i])
  {
    var s := LastSegment(RStripChar(Strip(url), '/'));
    assert CloneRepository(url, targetDir, gitClone).1 == DropGitSuffix(s);
    DropGitSuffixPrefix(s);
  }

  lemma DropGitSuffixPrefix(s: string)
    ensures DropGitSuffix(s) <= s
  {
  }

  // ----------------------------------------------------- output parsers

  /** The lines of a git command's output, or none when the command failed
      or printed only whitespace. */
  function OutputLines(ok: bool, stdout: string): seq<string> {
    if !ok || Strip(stdout) == "" then [] else SplitLines(Strip(stdout))
  }

  /** One line of `git remote -v`: its first two whitespace-separated fields
      (name and URL), when it has them. */
  function RemoteEntry(line: string): Option<(string, string)> {
    var parts := SplitWs(line);
    if |parts| >= 2 then Some((parts[0], parts[1])) else None
  }

  /** The entries of the lines that have one, in line order. */
  function Entries(lines: seq<string>): (r: seq<(string, string)>)
    ensures |r| <= |lines|
    decreases |lines|
  {
    if lines == [] then []
    else match RemoteEntry(lines[0])
      case Some(e) => [e] + Entries(lines[1..])
      case None => Entries(lines[1..])
  }

  function RemoteName(e: (string, string)): string { e.0 }

  /** `list_remotes` as a value: the first entry per remote name. */
  function Remotes(ok: bool, stdout: string): seq<(string, string)> {
    DedupeBy(Entries(OutputLines(ok, stdout)), RemoteName, {})
  }

  /** `list_remotes`, given git's exit status and output. The dictionary
      `seen` of the source is the pair of `remotes` (its items, in insertion
      order) and `names` (its keys). */
  method ListRemotes(ok: bool, stdout: string) returns (remotes: seq<(string, string)>)
    ensures remotes == Remotes(ok, stdout)
  {
    remotes := [];
    if !ok || Strip(stdout) == "" {
      return;
    }
    var lines := SplitLines(Strip(stdout));
    var names: set<string> := {};
    for j := 0 to |lines|
      invariant RemotesSoFar(lines, j, remotes, names, Remotes(ok, stdout))
    {
      ghost var before, seenBefore := remotes, names;
      var parts := SplitWs(lines[j]);
      if |parts| >= 2 && parts[0] !in names {
        remotes := remotes + [(parts[0], parts[1])];
        names := names + {parts[0]};
      }
      RemotesStep(lines, j, before, seenBefore, remotes, names, Remotes(ok, stdout));
    }
    assert lines[|lines|..] == [];
  }

  /** The remotes kept from the first `j` lines, followed by those the rest
      will keep, make up `target`. */
  ghost predicate RemotesSoFar(lines: seq<string>, j: nat, remotes: seq<(string, string)>, names: set<string>,
                               target: seq<(string, string)>) {
    j <= |lines| && remotes + DedupeBy(Entries(lines[j..]), RemoteName, names) == target
  }

  /** One line of the loop in `ListRemotes`: an entry whose name is new is
      appended and its name recorded; anything else changes nothing. */
  lemma RemotesStep(lines: seq<string>, j: nat, remotes: seq<(string, string)>, names: set<string>,
                    remotes': seq<(string, string)>, names': set<string>, target: seq<(string, string)>)
    requires j < |lines| && RemotesSoFar(lines, j, remotes, names, target)
    requires var parts := SplitWs(lines[j]);
      if |parts| >= 2 && parts[0] !in names
      then remotes' == remotes + [(parts[0], parts[1])] && names' == names + {parts[0]}
      else remotes' == remotes && names' == names
    ensures RemotesSoFar(lines, j + 1, remotes', names', target)
  {
    var x := RemoteEntry(lines[j]);
    EntriesFrom(lines, j);
    DedupeStep(x, Entries(lines[j + 1..]), remotes, names, remotes', names', target);
  }

  /** The loop step over one optional entry, apart from where it came from. */
  lemma DedupeStep(x: Option<(string, string)>, rest: seq<(string, string)>,
                   remotes: seq<(string, string)>, names: set<string>,
                   remotes': seq<(string, string)>, names': set<string>, target: seq<(string, string)>)
    requires remotes + DedupeBy((if x.Some? then [x.value] else []) + rest, RemoteName, names) == target
    requires if x.Some? && x.value.0 !in names
      then remotes' == remotes + [x.value] && names' == names + {x.value.0}
      else remotes' == remotes && names' == names
    ensures remotes' + DedupeBy(rest, RemoteName, names') == target
  {
    if x.Some? {
      DedupeByCons(x.value, rest, RemoteName, names);
    } else {
      assert [] + rest == rest;
    }
  }

  /** `Entries` over the lines from `j` on, one line at a time. */
  lemma EntriesFrom(lines: seq<string>, j: nat)
    requires j < |lines|
    ensures var x := RemoteEntry(lines[j]);
      Entries(lines[j..]) == (if x.Some? then [x.value] else []) + Entries(lines[j + 1..])
  {
    assert lines[j..][0] == lines[j];
    assert lines[j..][1..] == lines[j + 1..];
    if RemoteEntry(lines[j]).None? {
      assert [] + Entries(lines[j + 1..]) == Entries(lines[j + 1..]);
    }
  }

  /** The remotes have distinct names, every line with two fields gives its
      name one, and each is the first entry with that name. */
  lemma RemotesFirstPerName(ok: bool, stdout: string)
    ensures DistinctKeys(Remotes(ok, stdout), RemoteName)
    ensures Keys(Remotes(ok, stdout), RemoteName) == Keys(Entries(OutputLines(ok, stdout)), RemoteName)
    ensures forall m :: 0 <= m < |Remotes(ok, stdout)| ==>
      FirstOfKey(Entries(OutputLines(ok, stdout)), RemoteName, Remotes(ok, stdout)[m])
  {
    var es := Entries(OutputLines(ok, stdout));
    DedupeByKeys(es, RemoteName, {});
    DedupeByFirst(es, RemoteName, {});
  }

  /** A failed command or blank output lists no remotes. */
  lemma NoOutputNoRemotes(ok: bool, stdout: string)
    requires !ok || Strip(stdout) == ""
    ensures Remotes(ok, stdout) == []
  {
  }

  /** One line of `git ls-remote --heads`: with exactly two tab-separated
      fields, the second with every `refs/heads/` removed. */
  function BranchOf(line: string): Option<string> {
    var parts := Split(line, '\t');
    if |parts| == 2 then Some(Replace(parts[1], HeadsPrefix, "")) else None
  }

  function BranchesIn(lines: seq<string>): (r: seq<string>)
    ensures |r| <= |lines|
    decreases |lines|
  {
    if lines == [] then []
    else match BranchOf(lines[0])
      case Some(b) => [b] + BranchesIn(lines[1..])
      case None => BranchesIn(lines[1..])
  }

  /** `_list_remote_branches`, given git's exit status and output. */
  method ListRemoteBranches(ok: bool, stdout: string) returns (branches: seq<string>)
    ensures branches == BranchesIn(OutputLines(ok, stdout))
  {
    branches := [];
    if !ok || Strip(stdout) == "" {
      return;
    }
    var lines := SplitLines(Strip(stdout));
    for j := 0 to |lines|
      invariant branches + BranchesIn(lines[j..]) == BranchesIn(lines)
    {
      assert lines[j..][1..] == lines[j + 1..];
      var parts := Split(lines[j], '\t');
      if |parts| == 2 {
        var branch := Replace(parts[1], HeadsPrefix, "");
        assert BranchesIn(lines[j..]) == [branch] + BranchesIn(lines[j + 1..]);
        branches := branches + [branch];
      }
    }
    assert lines[|lines|..] == [];
  }

  const HeadsPrefix := "refs/heads/"

  /** `SHA<TAB>refs/heads/NAME`, a line of `git ls-remote --heads`. */
  function HeadLine(sha: string, name: string): string {
    sha + ['\t'] + (HeadsPrefix + name)
  }

  /** A head line gives the branch name. */
  lemma BranchOfHead(sha: string, name: string)
    requires forall i :: 0 <= i < |sha| ==> sha[i] != '\t'
    requires forall i :: 0 <= i < |name| ==> name[i] != '\t'
    requires !Contains(name, HeadsPrefix)
    ensures BranchOf(HeadLine(sha, name)) == Some(name)
  {
    var ref := HeadsPrefix + name;
    NoTabInRef(name);
    SplitAfterPiece(sha, ref, '\t');
    SplitPiece(ref, '\t');
    assert Split(HeadLine(sha, name), '\t') == [sha, ref];
    StripHeads(name);
  }

  lemma NoTabInRef(name: string)
    requires forall i :: 0 <= i < |name| ==> name[i] != '\t'
    ensures forall i :: 0 <= i < |HeadsPrefix + name| ==> (HeadsPrefix + name)[i] != '\t'
  {
    var ref := HeadsPrefix + name;
    forall i | 0 <= i < |ref| ensures ref[i] != '\t' {
      if i >= |HeadsPrefix| { assert ref[i] == name[i - |HeadsPrefix|]; }
    }
  }

  lemma StripHeads(name: string)
    requires !Contains(name, HeadsPrefix)
    ensures Replace(HeadsPrefix + name, HeadsPrefix, "") == name
  {
    var ref := HeadsPrefix + name;
    assert HeadsPrefix <= ref && ref[|HeadsPrefix|..] == name;
  }

  /** A line without a tab, or with more than one, names no branch. */
  lemma BranchOfOneField(line: string)
    requires forall i :: 0 <= i < |line| ==> line[i] != '\t'
    ensures BranchOf(line) == None
  {
    SplitPiece(line, '\t');
  }

  /** The non-blank lines, stripped, in order. */
  function Cleaned(lines: seq<string>): (r: seq<string>)
    ensures |r| <= |lines|
    decreases |lines|
  {
    if lines == [] then []
    else
      var f := Strip(lines[0]);
      if f == "" then Cleaned(lines[1..]) else [f] + Cleaned(lines[1..])
  }

  /** The lines of `git diff --name-only` followed by those of `git ls-files
      --others`, each cut at `\n` after stripping the whole output. */
  function TreeLines(changedOut: string, untrackedOut: string): seq<string> {
    Split(Strip(changedOut), '\n') + Split(Strip(untrackedOut), '\n')
  }

  /** `get_working_tree_files` as a value. */
  function WorkingTreeFiles(changedOut: string, untrackedOut: string): seq<string> {
    DedupeBy(Cleaned(TreeLines(changedOut, untrackedOut)), Same, {})
  }

  /** `get_working_tree_files`, given the outputs of the two git commands.
      The source's `f not in files` test is on the list itself; `seen`
      mirrors its elements. */
  method GetWorkingTreeFiles(changedOut: string, untrackedOut: string) returns (files: seq<string>)
    ensures files == WorkingTreeFiles(changedOut, untrackedOut)
  {
    files := CleanLines(TreeLines(changedOut, untrackedOut));
  }

  /** The loop of `get_working_tree_files` over the output lines: strip
      each, skip blanks and names already listed. */
  method CleanLines(all: seq<string>) returns (files: seq<string>)
    ensures files == DedupeBy(Cleaned(all), Same, {})
  {
    files := [];
    ghost var seen: set<string> := {};
    for j := 0 to |all|
      invariant CleanLinesSoFar(all, j, files, seen)
    {
      TreeStep(all, j, files, seen);
      var f := Strip(all[j]);
      if f != "" && f !in files {
        files := files + [f];
        seen := seen + {f};
      }
    }
    assert all[|all|..] == [];
  }

  /** After `j` lines: the names listed are the names seen, and what the
      remaining lines add completes the deduplicated list. */
  ghost predicate CleanLinesSoFar(all: seq<string>, j: nat, files: seq<string>, seen: set<string>)
    requires j <= |all|
  {
    (forall x :: x in files <==> x in seen)
    && files + DedupeBy(Cleaned(all[j..]), Same, seen) == DedupeBy(Cleaned(all), Same, {})
  }

  /** One line of the loop: a blank line or a name already listed adds
      nothing, a new name is appended. */
  lemma TreeStep(all: seq<string>, j: nat, files: seq<string>, seen: set<string>)
    requires j < |all| && CleanLinesSoFar(all, j, files, seen)
    ensures var f := Strip(all[j]);
      if f != "" && f !in files then CleanLinesSoFar(all, j + 1, files + [f], seen + {f})
      else CleanLinesSoFar(all, j + 1, files, seen)
  {
    assert all[j..][1..] == all[j + 1..];
    var f := Strip(all[j]);
    if f != "" && f !in files {
      var rest := DedupeBy(Cleaned(all[j + 1..]), Same, seen + {f});
      assert files + ([f] + rest) == (files + [f]) + rest;
    }
  }

  /** Some line strips to `x`. */
  ghost predicate StripsTo(lines: seq<string>, x: string) {
    exists i :: 0 <= i < |lines| && Strip(lines[i]) == x
  }

  lemma StripsToCons(lines: seq<string>, x: string)
    requires lines != []
    ensures StripsTo(lines, x) <==> Strip(lines[0]) == x || StripsTo(lines[1..], x)
  {
    if StripsTo(lines, x) {
      var i :| 0 <= i < |lines| && Strip(lines[i]) == x;
      if i > 0 { assert Strip(lines[1..][i - 1]) == x; }
    }
    if StripsTo(lines[1..], x) {
      var i :| 0 <= i < |lines[1..]| && Strip(lines[1..][i]) == x;
      assert Strip(lines[i + 1]) == x;
    }
  }

  /** The cleaned lines are exactly the non-empty stripped lines. */
  lemma {:induction false} CleanedMembers(lines: seq<string>)
    ensures forall x :: x in Cleaned(lines) <==> x != "" && StripsTo(lines, x)
    decreases |lines|
  {
    if lines != [] {
      CleanedMembers(lines[1..]);
      forall x ensures x in Cleaned(lines) <==> x != "" && StripsTo(lines, x) {
        StripsToCons(lines, x);
      }
    }
  }

  /** Deduplicated cleaned lines are distinct, non-empty and stripped, and
      hold a name iff some line strips to it. */
  lemma CleanedFacts(lines: seq<string>)
    ensures Distinct(DedupeBy(Cleaned(lines), Same, {}))
    ensures forall x :: x in DedupeBy(Cleaned(lines), Same, {}) <==> x != "" && StripsTo(lines, x)
    ensures forall x :: x in DedupeBy(Cleaned(lines), Same, {}) ==> Strip(x) == x
  {
    DedupeSame(Cleaned(lines));
    CleanedMembers(lines);
    forall x | x != "" && StripsTo(lines, x) ensures Strip(x) == x {
      var i :| 0 <= i < |lines| && Strip(lines[i]) == x;
      StripIdempotent(lines[i]);
    }
  }

  /** The working-tree files are distinct, non-empty and stripped, and a
      name is listed iff some output line strips to it. */
  lemma WorkingTreeFilesFacts(changedOut: string, untrackedOut: string)
    ensures Distinct(WorkingTreeFiles(changedOut, untrackedOut))
    ensures forall x :: x in WorkingTreeFiles(changedOut, untrackedOut) <==>
      x != "" && StripsTo(TreeLines(changedOut, untrackedOut), x)
    ensures forall x :: x in WorkingTreeFiles(changedOut, untrackedOut) ==> Strip(x) == x
  {
    CleanedFacts(TreeLines(changedOut, untrackedOut));
  }

  // -------------------------------------------- staged and unstaged files

  /** `get_staged_files`, given the output of `git diff --cached --name-only`:
      the lines of the stripped output, none for blank output. */
  function StagedFiles(stdout: string): (files: seq<string>)
    ensures files == [] <==> Strip(stdout) == ""
    ensures files != [] ==> Join("\n", files) == Strip(stdout)
    ensures forall k, i :: 0 <= k < |files| && 0 <= i < |files[k]| ==> files[k][i] != '\n'
  {
    if Strip(stdout) == "" then []
    else
      SplitJoin(Strip(stdout), '\n');
      Split(Strip(stdout), '\n')
  }

  /** `line[3:]`: a `git status --porcelain` line without its two status
      letters and the blank after them. */
  function PorcelainPath(line: string): string {
    if |line| >= 3 then line[3..] else ""
  }

  /** The paths of the non-empty lines, in order. */
  function PorcelainPaths(lines: seq<string>): (r: seq<string>)
    ensures |r| <= |lines|
    decreases |lines|
  {
    if lines == [] then []
    else if lines[0] == "" then PorcelainPaths(lines[1..])
    else [PorcelainPath(lines[0])] + PorcelainPaths(lines[1..])
  }

  /** `get_unstaged_files`, given the output of `git status --porcelain`. */
  function UnstagedFiles(stdout: string): seq<string> {
    PorcelainPaths(Split(Strip(stdout), '\n'))
  }

  predicate NonEmpty(line: string) {
    line != ""
  }

  /** Each unstaged path is the path of a non-empty porcelain line, in line
      order, one per such line. */
  lemma {:induction false} PorcelainPathsFacts(lines: seq<string>)
    ensures PorcelainPaths(lines) == Map(PorcelainPath, Filter(lines, NonEmpty))
    decreases |lines|
  {
    if lines != [] {
      PorcelainPathsFacts(lines[1..]);
    }
  }

  /** Blank output lists no unstaged files. */
  lemma BlankStatusNoFiles(stdout: string)
    requires Strip(stdout) == ""
    ensures UnstagedFiles(stdout) == []
  {
    assert Split("", '\n') == [""];
  }
}
