/** Version validation: the registry lookup dispatch, the shields.io
    version badges of a README (finding them, rewriting them to a new
    version, checking them against the current version) and the display of
    per-ecosystem validation results.

    The registries' answers are a parameter (the HTTP lookups are not
    modelled), and so is the README: `None` when the file does not exist,
    its text otherwise. */
module VersionValidation {
  import opened Wrappers
  import opened Strings
  import opened Seqs
  import opened Scanning

  // ------------------------------------------------------- registry dispatch

  /** The keys of `REGISTRY_HANDLERS`. */
  const Registries := ["pypi", "npm", "cargo", "rubygems"]

  /** `get_registry_version`: the registry name is looked up lower-cased;
      a known registry answers through `fetch` (what its HTTP handler would
      return for the package), an unknown one gives `None`. */
  function GetRegistryVersion(registry: string, package: string, fetch: (string, string) -> Option<string>): (r: Option<string>)
    ensures Lower(registry) !in Registries ==> r.None?
    ensures Lower(registry) in Registries ==> r == fetch(Lower(registry), package)
  {
    var key := Lower(registry);
    if key in Registries then fetch(key, package) else None
  }

  /** Upper-casing then lower-casing is lower-casing. */
  lemma LowerUpper(s: string)
    ensures Lower(Upper(s)) == Lower(s)
  {
    var a, b := Lower(Upper(s)), Lower(s);
    forall i | 0 <= i < |s| ensures a[i] == b[i] {
      assert Upper(s)[i] == UpperChar(s[i]);
    }
  }

  /** The registry name is matched without regard to case: `"PyPI"`,
      `"PYPI"` and `"pypi"` reach the same handler. */
  lemma RegistryIgnoresCase(registry: string, package: string, fetch: (string, string) -> Option<string>)
    ensures GetRegistryVersion(Upper(registry), package, fetch) == GetRegistryVersion(registry, package, fetch)
  {
    LowerUpper(registry);
  }

  // ------------------------------------------------------------ badge texts

  const BadgePrefix := "https://img.shields.io/badge/"
  const VersionHead := BadgePrefix + "version-"
  const VHead := BadgePrefix + "v-"
  const PypiHead := BadgePrefix + "pypi-"

  /** The three badge heads: what the expressions' first group captures. */
  predicate IsHead(head: string) {
    head == VersionHead || head == VHead || head == PypiHead
  }

  /** `[0-9]*` from position `i` of `u`: where the digit run ends. */
  function DigitsFrom(u: string, i: nat): (e: nat)
    requires i <= |u|
    ensures i <= e <= |u| && (e < |u| ==> !IsDigit(u[e]))
    decreases |u| - i
  {
    if i < |u| && IsDigit(u[i]) then DigitsFrom(u, i + 1) else i
  }

  /** Everything in a digit run is a digit. */
  lemma {:induction false} DigitsFromDigit(u: string, i: nat, k: nat)
    requires i <= k < |u| && k < DigitsFrom(u, i)
    ensures IsDigit(u[k])
    decreases k - i
  {
    if i < k {
      DigitsFromDigit(u, i + 1, k);
    }
  }

  /** A digit run is determined by where it stops. */
  lemma {:induction false} DigitsFromIs(u: string, i: nat, e: nat)
    requires i <= e <= |u| && (e < |u| ==> !IsDigit(u[e]))
    requires forall k :: i <= k < e ==> IsDigit(u[k])
    ensures DigitsFrom(u, i) == e
    decreases e - i
  {
    if i < e {
      DigitsFromIs(u, i + 1, e);
    }
  }

  /** `[0-9]+\.` from position `i` of `u`: where the dot is. */
  function RunDot(u: string, i: nat): (r: Option<nat>)
    requires i <= |u|
    ensures r.Some? ==> i < r.value < |u| && u[r.value] == '.' && r.value == DigitsFrom(u, i)
  {
    var e := DigitsFrom(u, i);
    if e == i || e == |u| || u[e] != '.' then None else Some(e)
  }

  /** `[0-9]+\.[0-9]+\.[0-9]+` at the start of `u`: the length of the match.
      Each run of digits is taken whole, so the character after a match is
      never a digit. */
  function SemverLen(u: string): (r: Option<nat>)
    ensures r.Some? ==> 0 < r.value <= |u| && (r.value < |u| ==> !IsDigit(u[r.value]))
  {
    match RunDot(u, 0)
    case None => None
    case Some(a) =>
      match RunDot(u, a + 1)
      case None => None
      case Some(b) =>
        var c := DigitsFrom(u, b + 1);
        if c == b + 1 then None else Some(c)
  }

  /** `new_version` as the badge expressions read it: digits.digits.digits. */
  predicate IsSemver(v: string) {
    SemverLen(v) == Some(|v|)
  }

  /** A match of the version expression is made of digits and dots. */
  lemma SemverChars(u: string)
    requires SemverLen(u).Some?
    ensures forall k :: 0 <= k < SemverLen(u).value ==> IsDigit(u[k]) || u[k] == '.'
  {
    var a := RunDot(u, 0).value;
    var b := RunDot(u, a + 1).value;
    forall k | 0 <= k < SemverLen(u).value ensures IsDigit(u[k]) || u[k] == '.' {
      if k < a {
        DigitsFromDigit(u, 0, k);
      } else if a < k < b {
        DigitsFromDigit(u, a + 1, k);
      } else if b < k {
        DigitsFromDigit(u, b + 1, k);
      }
    }
  }

  /** A digit run of `t` from `i` is one of `u` when `u` agrees with `t`
      over it and does not go on with a digit. */
  lemma RunAgrees(t: string, u: string, i: nat)
    requires i <= |t| && DigitsFrom(t, i) <= |u| && i <= |u|
    requires forall k :: i <= k < DigitsFrom(t, i) ==> u[k] == t[k]
    requires DigitsFrom(t, i) < |u| ==> !IsDigit(u[DigitsFrom(t, i)])
    ensures DigitsFrom(u, i) == DigitsFrom(t, i)
  {
    var e := DigitsFrom(t, i);
    forall k | i <= k < e ensures IsDigit(u[k]) {
      DigitsFromDigit(t, i, k);
    }
    DigitsFromIs(u, i, e);
  }

  /** The same for a digit run that ends in a dot. */
  lemma RunDotAgrees(t: string, u: string, i: nat)
    requires i <= |t| && RunDot(t, i).Some? && RunDot(t, i).value < |u|
    requires forall k :: i <= k <= RunDot(t, i).value ==> u[k] == t[k]
    ensures RunDot(u, i) == RunDot(t, i)
  {
    RunAgrees(t, u, i);
  }

  /** The version match depends only on the matched characters and on the
      next one not being a digit. */
  lemma SemverLocal(t: string, u: string)
    requires SemverLen(t).Some?
    requires var n := SemverLen(t).value; n <= |u| && u[..n] == t[..n] && (n < |u| ==> !IsDigit(u[n]))
    ensures SemverLen(u) == SemverLen(t)
  {
    var n := SemverLen(t).value;
    forall k | 0 <= k < n ensures u[k] == t[k] {
      assert u[k] == u[..n][k] && t[k] == t[..n][k];
    }
    var a := RunDot(t, 0).value;
    var b := RunDot(t, a + 1).value;
    RunDotAgrees(t, u, 0);
    RunDotAgrees(t, u, a + 1);
    RunAgrees(t, u, b + 1);
  }

  /** A badge at the start of `t` behind the given head: its length. */
  function HeadedLen(t: string, head: string): (r: Option<nat>)
    ensures r.Some? ==> |head| < r.value <= |t| && head <= t
  {
    if head <= t then
      match SemverLen(t[|head|..])
      case None => None
      case Some(k) => Some(|head| + k)
    else None
  }

  /** `https://img\.shields\.io/badge/(?:version|v)-[0-9]+\.[0-9]+\.[0-9]+`
      at the start of `t`: the `version` alternative first, then `v`. */
  function VersionBadgeLen(t: string): (r: Option<nat>)
    ensures r.Some? ==> 0 < r.value <= |t|
  {
    match HeadedLen(t, VersionHead)
    case Some(n) => Some(n)
    case None => HeadedLen(t, VHead)
  }

  /** `https://img\.shields\.io/badge/pypi-[0-9]+\.[0-9]+\.[0-9]+` at the
      start of `t`. */
  function PypiBadgeLen(t: string): (r: Option<nat>)
    ensures r.Some? ==> 0 < r.value <= |t|
  {
    HeadedLen(t, PypiHead)
  }

  /** Where the head of a badge text ends: just after the first `-` that
      follows the shields.io prefix. */
  function HeadLen(x: string): (n: nat)
    ensures n <= |x|
  {
    if |x| < |BadgePrefix| then |x|
    else
      var d := CharPos(x[|BadgePrefix|..], '-');
      if |BadgePrefix| + d < |x| then |BadgePrefix| + d + 1 else |x|
  }

  /** The version a badge shows: the expressions' first group. */
  function BadgeVersion(x: string): string {
    x[HeadLen(x)..]
  }

  /** `\g<1>{new_version}`: the badge head kept, the version replaced. */
  function Rebadge(newVersion: string): string -> string {
    x => x[..HeadLen(x)] + newVersion
  }

  /** The head of a head followed by a version is that head. */
  lemma HeadLenOf(head: string, v: string)
    requires IsHead(head) && forall k :: 0 <= k < |v| ==> v[k] != '-'
    ensures HeadLen(head + v) == |head|
  {
    var x := head + v;
    var t := x[|BadgePrefix|..];
    var d := |head| - |BadgePrefix| - 1;
    assert t[d] == '-';
    forall k | 0 <= k < d ensures t[k] != '-' {
      assert t[k] == head[|BadgePrefix| + k];
    }
    CharPosIs(t, d, '-');
  }

  /** `[^c]*` stops at the first `c`. */
  lemma CharPosIs(t: string, n: nat, c: char)
    requires n < |t| && t[n] == c && forall k :: 0 <= k < n ==> t[k] != c
    ensures CharPos(t, c) == n
  {
  }

  /** A version made of digits and dots holds no `-`. */
  lemma SemverNoDash(v: string)
    requires IsSemver(v)
    ensures forall k :: 0 <= k < |v| ==> v[k] != '-'
  {
    SemverChars(v);
  }

  /** A badge text: a head followed by exactly a version. */
  predicate IsBadgeUrl(x: string, head: string) {
    head <= x && IsSemver(x[|head|..])
  }

  /** The matched text of a headed badge is a badge text. */
  lemma HeadedMatch(t: string, head: string)
    requires HeadedLen(t, head).Some?
    ensures IsBadgeUrl(t[..HeadedLen(t, head).value], head)
  {
    var n := HeadedLen(t, head).value;
    var x := t[..n];
    assert x[..|head|] == t[..|head|];
    assert x[|head|..] == t[|head|..][..n - |head|];
    SemverLocal(t[|head|..], x[|head|..]);
  }

  /** The head and the version of a badge text. */
  lemma BadgeParts(x: string, head: string)
    requires IsHead(head) && IsBadgeUrl(x, head)
    ensures HeadLen(x) == |head| && BadgeVersion(x) == x[|head|..] && x == head + BadgeVersion(x)
  {
    SemverNoDash(x[|head|..]);
    assert x == head + x[|head|..];
    HeadLenOf(head, x[|head|..]);
  }

  // ------------------------------------- the badge expressions as matchers

  /** A `v-` head rules out the `version-` and `pypi-` heads, and the
      `version-` head rules out the `pypi-` head. */
  lemma HeadsExclusive(u: string)
    ensures VHead <= u ==> !(VersionHead <= u) && !(PypiHead <= u)
    ensures VersionHead <= u ==> !(PypiHead <= u)
  {
    if VHead <= u { assert u[30] == '-'; }
    if VersionHead <= u { assert u[29] == 'v'; }
  }

  lemma Advancing()
    ensures Advances(VersionBadgeLen) && Advances(PypiBadgeLen)
  {
  }

  /** A head followed by a version match is a headed match. */
  lemma HeadedIs(t: string, head: string, k: nat)
    requires head <= t && SemverLen(t[|head|..]) == Some(k)
    ensures HeadedLen(t, head) == Some(|head| + k)
  {
  }

  /** Texts that agree up to `n` agree after any `h <= n` as well. */
  lemma AgreeAfter(t: string, u: string, h: nat, n: nat)
    requires h <= n && AgreeUpTo(t, u, n)
    ensures t[..h] == u[..h] && AgreeUpTo(t[h..], u[h..], n - h)
  {
    assert t[..h] == t[..n][..h] && u[..h] == u[..n][..h];
    assert t[h..][..n - h] == t[..n][h..] && u[h..][..n - h] == u[..n][h..];
  }

  /** A headed match is found in every text that agrees up to its end. */
  lemma HeadedLocal(t: string, u: string, head: string)
    requires HeadedLen(t, head).Some? && AgreeUpTo(t, u, HeadedLen(t, head).value)
    ensures HeadedLen(u, head) == HeadedLen(t, head)
  {
    var n := HeadedLen(t, head).value;
    var h := |head|;
    var tv, uv := t[h..], u[h..];
    assert SemverLen(tv) == Some(n - h);
    AgreeAfter(t, u, h, n);
    assert head <= u;
    SemverLocal(tv, uv);
    HeadedIs(u, head, n - h);
  }

  lemma VersionLocal()
    ensures Local(VersionBadgeLen)
  {
    forall t ensures LocalAt(VersionBadgeLen, t) {
      forall u | VersionBadgeLen(t).Some? && AgreeUpTo(t, u, VersionBadgeLen(t).value)
        ensures VersionBadgeLen(u) == VersionBadgeLen(t)
      {
        if HeadedLen(t, VersionHead).Some? {
          HeadedLocal(t, u, VersionHead);
        } else {
          HeadedLocal(t, u, VHead);
          HeadsExclusive(u);
        }
      }
    }
  }

  lemma PypiLocal()
    ensures Local(PypiBadgeLen)
  {
    forall t ensures LocalAt(PypiBadgeLen, t) {
      forall u | PypiBadgeLen(t).Some? && AgreeUpTo(t, u, PypiBadgeLen(t).value)
        ensures PypiBadgeLen(u) == PypiBadgeLen(t)
      {
        HeadedLocal(t, u, PypiHead);
      }
    }
  }

  lemma Exclusives()
    ensures Exclusive(VersionBadgeLen, PypiBadgeLen) && Exclusive(PypiBadgeLen, VersionBadgeLen)
  {
    forall t ensures VersionBadgeLen(t).None? || PypiBadgeLen(t).None? {
      HeadsExclusive(t);
    }
  }

  /** A badge match starts with the shields.io prefix and holds no `h`
      after it. */
  ghost predicate BadgeShaped(m: string -> Option<nat>) {
    forall t :: m(t).Some? ==> m(t).value <= |t| && BadgePrefix <= t && NoHAfterPrefix(t, m(t).value)
  }

  predicate NoHAfterPrefix(t: string, n: nat)
    requires n <= |t|
  {
    forall i :: |BadgePrefix| <= i < n ==> t[i] != 'h'
  }

  lemma HeadedShape(t: string, head: string)
    requires IsHead(head) && HeadedLen(t, head).Some?
    ensures NoHAfterPrefix(t, HeadedLen(t, head).value)
  {
    var n := HeadedLen(t, head).value;
    SemverChars(t[|head|..]);
    forall i | |BadgePrefix| <= i < n ensures t[i] != 'h' {
      if i < |head| {
        assert t[i] == head[i];
      } else {
        assert t[i] == t[|head|..][i - |head|];
      }
    }
  }

  lemma Shapes()
    ensures BadgeShaped(VersionBadgeLen) && BadgeShaped(PypiBadgeLen)
  {
    forall t | VersionBadgeLen(t).Some? ensures BadgePrefix <= t && NoHAfterPrefix(t, VersionBadgeLen(t).value) {
      if HeadedLen(t, VersionHead).Some? {
        HeadedShape(t, VersionHead);
        assert BadgePrefix <= VersionHead;
      } else {
        HeadedShape(t, VHead);
        assert BadgePrefix <= VHead;
      }
    }
    forall t | PypiBadgeLen(t).Some? ensures BadgePrefix <= t && NoHAfterPrefix(t, PypiBadgeLen(t).value) {
      HeadedShape(t, PypiHead);
      assert BadgePrefix <= PypiHead;
    }
  }

  /** Inside the shields.io prefix, only the `h` of `shields` could start
      another prefix, and the next character rules it out. */
  lemma PrefixSelfOverlap(j: nat)
    requires 0 < j < |BadgePrefix| && BadgePrefix[j] == 'h'
    ensures j == 13 && BadgePrefix[j + 1] != BadgePrefix[1]
  {
  }

  /** Matches that begin with the prefix and hold no `h` after it never
      overlap the start of another such match. */
  lemma ApartFromShape(m1: string -> Option<nat>, m2: string -> Option<nat>)
    requires BadgeShaped(m1) && BadgeShaped(m2)
    ensures Apart(m1, m2)
  {
    forall t, j | 0 < j <= |t| && m1(t).Some? && m2(t[j..]).Some? ensures m1(t).value <= j {
      if j < m1(t).value {
        var p := BadgePrefix;
        assert p <= t[j..];
        assert t[j] == t[j..][0] == p[0];
        if j < |p| {
          assert t[j] == p[j];
          PrefixSelfOverlap(j);
        }
      }
    }
  }

  lemma Aparts()
    ensures Apart(VersionBadgeLen, VersionBadgeLen) && Apart(PypiBadgeLen, PypiBadgeLen)
    ensures Apart(VersionBadgeLen, PypiBadgeLen) && Apart(PypiBadgeLen, VersionBadgeLen)
  {
    Shapes();
    ApartFromShape(VersionBadgeLen, VersionBadgeLen);
    ApartFromShape(PypiBadgeLen, PypiBadgeLen);
    ApartFromShape(VersionBadgeLen, PypiBadgeLen);
    ApartFromShape(PypiBadgeLen, VersionBadgeLen);
  }

  /** The character after a headed match is not a digit. */
  lemma HeadedNext(x: string, r: string, head: string)
    requires HeadedLen(x + r, head) == Some(|x|)
    ensures r == [] || !IsDigit(r[0])
  {
    var t := x + r;
    var tv := t[|head|..];
    assert SemverLen(tv) == Some(|x| - |head|);
    if r != [] { assert tv[|x| - |head|] == r[0]; }
  }

  /** A version followed by a non-digit is matched whole. */
  lemma SemverExtends(v: string, r: string)
    requires IsSemver(v) && (r == [] || !IsDigit(r[0]))
    ensures SemverLen(v + r) == Some(|v|)
  {
    assert (v + r)[..|v|] == v[..|v|];
    if r != [] { assert (v + r)[|v|] == r[0]; }
    SemverLocal(v, v + r);
  }

  /** Rebadging a headed match keeps its head and puts in the new
      version. */
  lemma HeadedRebadge(head: string, x: string, r: string, v: string)
    requires IsHead(head) && HeadedLen(x + r, head) == Some(|x|)
    ensures Rebadge(v)(x) == head + v
  {
    var t := x + r;
    HeadedMatch(t, head);
    assert t[..|x|] == x;
    BadgeParts(x, head);
  }

  /** The head and a new version are again a headed match in the context
      of the old one. */
  lemma HeadedRematch(head: string, x: string, r: string, v: string)
    requires IsSemver(v) && HeadedLen(x + r, head) == Some(|x|)
    ensures HeadedLen(head + v + r, head) == Some(|head| + |v|)
  {
    HeadedNext(x, r, head);
    SemverExtends(v, r);
    Thirds(head, v, r);
    HeadedIs(head + v + r, head, |v|);
  }

  /** The head and the rest of a concatenation of three. */
  lemma Thirds(a: string, b: string, c: string)
    ensures a <= a + b + c && (a + b + c)[|a|..] == b + c
  {
    assert (a + b + c)[..|a|] == a;
  }

  /** One `version`/`v` badge rebadged in its context. */
  lemma VersionKeepsAt(x: string, r: string, v: string)
    requires IsSemver(v) && VersionBadgeLen(x + r) == Some(|x|)
    ensures VersionBadgeLen(Rebadge(v)(x) + r) == Some(|Rebadge(v)(x)|)
    ensures 0 < |Rebadge(v)(x)| && Rebadge(v)(x)[0] == x[0]
  {
    if HeadedLen(x + r, VersionHead).Some? {
      VersionKeepsUnder(VersionHead, x, r, v);
    } else {
      VersionKeepsUnder(VHead, x, r, v);
    }
  }

  lemma VersionKeepsUnder(head: string, x: string, r: string, v: string)
    requires head == VersionHead || head == VHead
    requires IsSemver(v) && HeadedLen(x + r, head) == Some(|x|)
    ensures VersionBadgeLen(Rebadge(v)(x) + r) == Some(|Rebadge(v)(x)|)
    ensures 0 < |Rebadge(v)(x)| && Rebadge(v)(x)[0] == x[0]
  {
    HeadedRebadge(head, x, r, v);
    HeadedRematch(head, x, r, v);
    VersionHeaded(head, head + v + r, |head| + |v|);
    assert (head + v) + r == head + v + r;
    assert x[0] == head[0] by {
      assert head <= x + r && 0 < |head| <= |x|;
      assert x[0] == (x + r)[0];
    }
  }

  /** A version badge is a headed match under one of its two heads. */
  lemma VersionHeaded(head: string, u: string, n: nat)
    requires (head == VersionHead || head == VHead) && HeadedLen(u, head) == Some(n)
    ensures VersionBadgeLen(u) == Some(n)
  {
    if head == VHead {
      HeadsExclusive(u);
    }
  }

  lemma VersionKeeps(v: string)
    requires IsSemver(v)
    ensures Keeps(VersionBadgeLen, Rebadge(v))
  {
    forall x ensures KeepsOne(VersionBadgeLen, Rebadge(v), x) {
      forall r | 0 < |x| && VersionBadgeLen(x + r) == Some(|x|)
        ensures VersionBadgeLen(Rebadge(v)(x) + r) == Some(|Rebadge(v)(x)|)
        ensures 0 < |Rebadge(v)(x)| && Rebadge(v)(x)[0] == x[0]
      {
        VersionKeepsAt(x, r, v);
      }
    }
  }

  lemma PypiKeeps(v: string)
    requires IsSemver(v)
    ensures Keeps(PypiBadgeLen, Rebadge(v))
  {
    forall x ensures KeepsOne(PypiBadgeLen, Rebadge(v), x) {
      forall r | 0 < |x| && PypiBadgeLen(x + r) == Some(|x|)
        ensures PypiBadgeLen(Rebadge(v)(x) + r) == Some(|Rebadge(v)(x)|)
        ensures 0 < |Rebadge(v)(x)| && Rebadge(v)(x)[0] == x[0]
      {
        HeadedRebadge(PypiHead, x, r, v);
        HeadedRematch(PypiHead, x, r, v);
        assert x[0] == (x + r)[0] == PypiHead[0];
      }
    }
  }

  // --------------------------------------------------------------- badges

  /** A badge found in the README: `(badge_url, current_version, badge_type)`. */
  datatype Badge = Badge(url: string, version: string, kind: string)

  function VersionBadge(x: string): Badge {
    Badge(x, BadgeVersion(x), "version")
  }

  function PypiBadge(x: string): Badge {
    Badge(x, BadgeVersion(x), "pypi")
  }

  /** `re.finditer` over the README text: the `version`/`v` badges in order
      of position, then the PyPI badges in order of position. */
  function BadgesIn(content: string): seq<Badge> {
    Advancing();
    Map(VersionBadge, FindAll(content, VersionBadgeLen)) + Map(PypiBadge, FindAll(content, PypiBadgeLen))
  }

  /** `extract_badge_versions` as a value: no README, no badges. */
  function Badges(readme: Option<string>): seq<Badge> {
    match readme
    case None => []
    case Some(content) => BadgesIn(content)
  }

  /** One `finditer` loop of `extract_badge_versions`: a badge appended
      for each match, in order. */
  method AppendBadges(badges: seq<Badge>, found: seq<string>, badge: string -> Badge) returns (r: seq<Badge>)
    ensures r == badges + Map(badge, found)
  {
    r := badges;
    for k := 0 to |found|
      invariant r == badges + Map(badge, found)[..k]
    {
      MapPrefix(badge, found, k);
      r := r + [badge(found[k])];
    }
    assert Map(badge, found)[..|found|] == Map(badge, found);
  }

  /** `extract_badge_versions`: the `version`/`v` matches, then the PyPI
      matches. */
  method ExtractBadgeVersions(readme: Option<string>) returns (badges: seq<Badge>)
    ensures badges == Badges(readme)
  {
    badges := [];
    if readme.None? {
      return;
    }
    var content := readme.value;
    Advancing();
    badges := AppendBadges(badges, FindAll(content, VersionBadgeLen), VersionBadge);
    assert badges == Map(VersionBadge, FindAll(content, VersionBadgeLen));
    badges := AppendBadges(badges, FindAll(content, PypiBadgeLen), PypiBadge);
    assert badges == BadgesIn(content);
  }

  /** What a `version`/`v` match looks like. */
  predicate VersionUrl(x: string) {
    IsBadgeUrl(x, VersionHead) || IsBadgeUrl(x, VHead)
  }

  /** What a PyPI match looks like. */
  predicate PypiUrl(x: string) {
    IsBadgeUrl(x, PypiHead)
  }

  /** Every badge found is a shields.io URL made of its kind's head and a
      three-part version, and the version reported is the one in the URL. */
  predicate WellFormed(b: Badge) {
    IsSemver(b.version)
    && (b.kind == "version" ==> b.url == VersionHead + b.version || b.url == VHead + b.version)
    && (b.kind == "pypi" ==> b.url == PypiHead + b.version)
    && (b.kind == "version" || b.kind == "pypi")
  }

  lemma VersionBadgeWellFormed(x: string)
    requires VersionUrl(x)
    ensures WellFormed(VersionBadge(x))
  {
    if IsBadgeUrl(x, VersionHead) {
      BadgeParts(x, VersionHead);
    } else {
      BadgeParts(x, VHead);
    }
  }

  lemma PypiBadgeWellFormed(x: string)
    requires PypiUrl(x)
    ensures WellFormed(PypiBadge(x))
  {
    BadgeParts(x, PypiHead);
  }

  /** The matches of both expressions are badge URLs. */
  lemma MatchesAreUrls(content: string)
    ensures Advances(VersionBadgeLen) && Advances(PypiBadgeLen)
    ensures forall k :: 0 <= k < |FindAll(content, VersionBadgeLen)| ==> VersionUrl(FindAll(content, VersionBadgeLen)[k])
    ensures forall k :: 0 <= k < |FindAll(content, PypiBadgeLen)| ==> PypiUrl(FindAll(content, PypiBadgeLen)[k])
  {
    Advancing();
    forall v | VersionBadgeLen(v).Some? ensures VersionUrl(v[..VersionBadgeLen(v).value]) {
      if HeadedLen(v, VersionHead).Some? {
        HeadedMatch(v, VersionHead);
      } else {
        HeadedMatch(v, VHead);
      }
    }
    FindAllSound(content, VersionBadgeLen, VersionUrl);
    forall v | PypiBadgeLen(v).Some? ensures PypiUrl(v[..PypiBadgeLen(v).value]) {
      HeadedMatch(v, PypiHead);
    }
    FindAllSound(content, PypiBadgeLen, PypiUrl);
  }

  /** Every badge `extract_badge_versions` reports is well formed. */
  lemma BadgesWellFormed(readme: Option<string>)
    ensures forall b :: b in Badges(readme) ==> WellFormed(b)
  {
    if readme.Some? {
      var content := readme.value;
      MatchesAreUrls(content);
      var vs, ps := FindAll(content, VersionBadgeLen), FindAll(content, PypiBadgeLen);
      var bs := Badges(readme);
      assert bs == Map(VersionBadge, vs) + Map(PypiBadge, ps);
      forall i | 0 <= i < |bs| ensures WellFormed(bs[i]) {
        if i < |vs| {
          VersionBadgeWellFormed(vs[i]);
        } else {
          PypiBadgeWellFormed(ps[i - |vs|]);
        }
      }
    }
  }

  // --------------------------------------------------------- badge update

  /** The two `re.sub` calls of `update_badge_versions`: the `version`/`v`
      badges first, then the PyPI badges, each keeping its head and taking
      `newVersion` as its version. */
  function UpdatedText(content: string, newVersion: string): string {
    Advancing();
    SubAll(SubAll(content, VersionBadgeLen, Rebadge(newVersion)), PypiBadgeLen, Rebadge(newVersion))
  }

  /** What `update_badge_versions` returns, and the README afterwards. */
  datatype Update = Update(changed: bool, after: Option<string>)

  /** `update_badge_versions`: a missing README stays missing and gives
      `False`; otherwise the substituted text is written back only when it
      differs, and the answer says whether it did. */
  function UpdateBadgeVersions(readme: Option<string>, newVersion: string): (r: Update)
    ensures readme.None? ==> r == Update(false, None)
    ensures r.changed <==> r.after != readme
    ensures readme.Some? ==> r.after == Some(UpdatedText(readme.value, newVersion))
  {
    match readme
    case None => Update(false, None)
    case Some(content) =>
      var text := UpdatedText(content, newVersion);
      if text != content then Update(true, Some(text)) else Update(false, readme)
  }

  /** The facts about the two expressions that the substitution theorems
      of the scanning module ask for. */
  lemma MatcherFacts(newVersion: string)
    requires IsSemver(newVersion)
    ensures Advances(VersionBadgeLen) && Advances(PypiBadgeLen)
    ensures Local(VersionBadgeLen) && Local(PypiBadgeLen)
    ensures Apart(VersionBadgeLen, VersionBadgeLen) && Apart(PypiBadgeLen, PypiBadgeLen)
    ensures Apart(VersionBadgeLen, PypiBadgeLen) && Apart(PypiBadgeLen, VersionBadgeLen)
    ensures Exclusive(VersionBadgeLen, PypiBadgeLen) && Exclusive(PypiBadgeLen, VersionBadgeLen)
    ensures Keeps(VersionBadgeLen, Rebadge(newVersion)) && Keeps(PypiBadgeLen, Rebadge(newVersion))
  {
    Advancing();
    VersionLocal();
    PypiLocal();
    Aparts();
    Exclusives();
    VersionKeeps(newVersion);
    PypiKeeps(newVersion);
  }

  /** After the update each expression finds the badges it found before,
      rebadged, and the other substitution does not disturb them. */
  lemma UpdatedFinds(content: string, newVersion: string)
    requires IsSemver(newVersion)
    ensures Advances(VersionBadgeLen) && Advances(PypiBadgeLen)
    ensures FindAll(UpdatedText(content, newVersion), VersionBadgeLen) == Map(Rebadge(newVersion), FindAll(content, VersionBadgeLen))
    ensures FindAll(UpdatedText(content, newVersion), PypiBadgeLen) == Map(Rebadge(newVersion), FindAll(content, PypiBadgeLen))
  {
    MatcherFacts(newVersion);
    var repl := Rebadge(newVersion);
    var once := SubAll(content, VersionBadgeLen, repl);
    assert UpdatedText(content, newVersion) == SubAll(once, PypiBadgeLen, repl);
    FindAllSubAllSelf(content, VersionBadgeLen, repl);
    FindAllSubAllOther(once, VersionBadgeLen, PypiBadgeLen, repl);
    FindAllSubAllOther(content, PypiBadgeLen, VersionBadgeLen, repl);
    FindAllSubAllSelf(once, PypiBadgeLen, repl);
  }

  /** A rebadged badge text: the same head, the new version. */
  lemma RebadgedUrl(x: string, head: string, newVersion: string)
    requires IsHead(head) && IsBadgeUrl(x, head) && IsSemver(newVersion)
    ensures Rebadge(newVersion)(x) == x[..|x| - |BadgeVersion(x)|] + newVersion
    ensures BadgeVersion(Rebadge(newVersion)(x)) == newVersion
  {
    BadgeParts(x, head);
    var y := head + newVersion;
    assert y[..|head|] == head && y[|head|..] == newVersion;
    BadgeParts(y, head);
  }

  /** The badge an updated README reports in place of `b`. */
  predicate Rebadged(b: Badge, a: Badge, newVersion: string) {
    |b.version| <= |b.url|
    && a == Badge(b.url[..|b.url| - |b.version|] + newVersion, newVersion, b.kind)
  }

  /** A `version`/`v` badge and the one reported in its place after the
      update. */
  lemma RebadgedVersion(x: string, newVersion: string)
    requires VersionUrl(x) && IsSemver(newVersion)
    ensures Rebadged(VersionBadge(x), VersionBadge(Rebadge(newVersion)(x)), newVersion)
  {
    var head := if IsBadgeUrl(x, VersionHead) then VersionHead else VHead;
    RebadgedUrl(x, head, newVersion);
  }

  /** A PyPI badge and the one reported in its place after the update. */
  lemma RebadgedPypi(x: string, newVersion: string)
    requires PypiUrl(x) && IsSemver(newVersion)
    ensures Rebadged(PypiBadge(x), PypiBadge(Rebadge(newVersion)(x)), newVersion)
  {
    RebadgedUrl(x, PypiHead, newVersion);
  }

  /** `update_badge_versions` followed by `extract_badge_versions`: the same
      badges in the same order and of the same kind, each now showing the
      new version behind its old head. */
  lemma UpdateThenExtract(content: string, newVersion: string)
    requires IsSemver(newVersion)
    ensures var before, after := BadgesIn(content), BadgesIn(UpdatedText(content, newVersion));
      |after| == |before| && forall k :: 0 <= k < |after| ==> Rebadged(before[k], after[k], newVersion)
  {
    UpdatedFinds(content, newVersion);
    MatchesAreUrls(content);
    var repl := Rebadge(newVersion);
    var vs, ps := FindAll(content, VersionBadgeLen), FindAll(content, PypiBadgeLen);
    var before := Map(VersionBadge, vs) + Map(PypiBadge, ps);
    var after := Map(VersionBadge, Map(repl, vs)) + Map(PypiBadge, Map(repl, ps));
    assert BadgesIn(content) == before;
    assert BadgesIn(UpdatedText(content, newVersion)) == after;
    forall k | 0 <= k < |after| ensures Rebadged(before[k], after[k], newVersion) {
      if k < |vs| {
        RebadgedVersion(vs[k], newVersion);
      } else {
        RebadgedPypi(ps[k - |vs|], newVersion);
      }
    }
  }

  // ---------------------------------------------------------- badge check

  /** One entry of `badges` in the report. */
  datatype BadgeStatus = BadgeStatus(url: string, currentVersion: string, needsUpdate: bool)

  /** The dictionary `check_readme_badges` returns. */
  datatype BadgeReport = BadgeReport(readmeExists: bool, badges: seq<BadgeStatus>, needsUpdate: bool, message: string)

  /** `any(badge_version != current_version for ...)`. */
  function AnyStale(badges: seq<Badge>, current: string): (r: bool)
    ensures r <==> exists k :: 0 <= k < |badges| && badges[k].version != current
    decreases |badges|
  {
    if badges == [] then false
    else if badges[0].version != current then true
    else
      var rest := AnyStale(badges[1..], current);
      assert forall k :: 0 < k < |badges| ==> badges[k] == badges[1..][k - 1];
      rest
  }

  function Status(current: string): Badge -> BadgeStatus {
    (b: Badge) => BadgeStatus(b.url, b.version, b.version != current)
  }

  /** `check_readme_badges`: without a README, a fixed "not found" report;
      otherwise one status per badge found, each needing an update exactly
      when its version differs from the current one, and the whole report
      needing one exactly when some badge does. */
  function CheckReadmeBadges(readme: Option<string>, current: string): (r: BadgeReport)
    ensures readme.None? ==> r == BadgeReport(false, [], false, "README.md not found")
    ensures readme.Some? ==> r.readmeExists && |r.badges| == |Badges(readme)|
    ensures readme.Some? ==> forall k :: 0 <= k < |r.badges| ==>
      r.badges[k].url == Badges(readme)[k].url && r.badges[k].currentVersion == Badges(readme)[k].version
      && (r.badges[k].needsUpdate <==> Badges(readme)[k].version != current)
    ensures r.needsUpdate <==> exists k :: 0 <= k < |r.badges| && r.badges[k].needsUpdate
    ensures readme.Some? ==> r.message == if r.needsUpdate then "Badges need update to " + current else "Badges are up to date"
  {
    match readme
    case None => BadgeReport(false, [], false, "README.md not found")
    case Some(_) =>
      var badges := Badges(readme);
      var stale := AnyStale(badges, current);
      var statuses := Map(Status(current), badges);
      BadgeReport(true, statuses, stale, if stale then "Badges need update to " + current else "Badges are up to date")
  }

  /** After `update_badge_versions` with a well-formed version, checking
      the README against that version finds nothing to update. */
  lemma UpdatedReadmeIsCurrent(content: string, newVersion: string)
    requires IsSemver(newVersion)
    ensures var r := CheckReadmeBadges(UpdateBadgeVersions(Some(content), newVersion).after, newVersion);
      r.readmeExists && !r.needsUpdate && r.message == "Badges are up to date"
      && |r.badges| == |Badges(Some(content))|
  {
    UpdateThenExtract(content, newVersion);
    var after := UpdateBadgeVersions(Some(content), newVersion).after;
    assert Badges(after) == BadgesIn(UpdatedText(content, newVersion));
  }

  // ------------------------------------------------- validation messages

  /** The per-ecosystem dictionary `validate_project_versions` builds. */
  datatype ValidationResult = ValidationResult(
    registry: Option<string>, packageName: Option<string>, registryVersion: Option<string>,
    localVersion: string, isLatest: bool, error: Option<string>)

  /** Python truthiness of an optional string: present and not empty. */
  predicate Truthy(o: Option<string>) {
    o.Some? && o.value != ""
  }

  const Cross: string := "\U{274C}"
  const Warning: string := "\U{26A0}\U{FE0F}"
  const Check: string := "\U{2705}"

  /** The line shown for one ecosystem: an error wins, then a missing
      registry version, then up to date, else the two versions compared. */
  function ResultMessage(projectType: string, r: ValidationResult): string {
    Icon(r) + projectType + ": " + Detail(r)
  }

  /** The icon and its padding that open a result's line. */
  function Icon(r: ValidationResult): string {
    if Truthy(r.error) then Cross + " "
    else if !Truthy(r.registryVersion) then Warning + "  "
    else if r.isLatest then Check + " "
    else Warning + "  "
  }

  /** The text after the ecosystem name. */
  function Detail(r: ValidationResult): string {
    if Truthy(r.error) then r.error.value
    else if !Truthy(r.registryVersion) then "Could not fetch registry version"
    else if r.isLatest then "Version " + r.localVersion + " is up to date"
    else "Local " + r.localVersion + " != Registry " + r.registryVersion.value
  }

  /** The icon a line starts with tells its case: the cross exactly for an
      error, the check mark exactly for an up-to-date version that was
      fetched without error, the warning sign otherwise. */
  lemma MessageIcons(projectType: string, r: ValidationResult)
    ensures Cross <= ResultMessage(projectType, r) <==> Truthy(r.error)
    ensures Check <= ResultMessage(projectType, r) <==> !Truthy(r.error) && Truthy(r.registryVersion) && r.isLatest
    ensures Warning <= ResultMessage(projectType, r) <==> !Truthy(r.error) && !(Truthy(r.registryVersion) && r.isLatest)
  {
    var m := ResultMessage(projectType, r);
    assert m[0] == Cross[0] || m[0] == Check[0] || m[0] == Warning[0];
  }

  /** `format_validation_results`: one line per ecosystem, in the order of
      the results. */
  method FormatValidationResults(results: seq<(string, ValidationResult)>) returns (messages: seq<string>)
    ensures |messages| == |results|
    ensures forall k :: 0 <= k < |results| ==> messages[k] == ResultMessage(results[k].0, results[k].1)
  {
    messages := [];
    for k := 0 to |results|
      invariant |messages| == k
      invariant forall i :: 0 <= i < k ==> messages[i] == ResultMessage(results[i].0, results[i].1)
    {
      var (projectType, result) := results[k];
      var line: string;
      if Truthy(result.error) {
        line := Cross + " " + projectType + ": " + result.error.value;
      } else if !Truthy(result.registryVersion) {
        line := Warning + "  " + projectType + ": " + "Could not fetch registry version";
      } else if result.isLatest {
        line := Check + " " + projectType + ": " + ("Version " + result.localVersion + " is up to date");
      } else {
        line := Warning + "  " + projectType + ": " + ("Local " + result.localVersion + " != Registry " + result.registryVersion.value);
      }
      messages := messages + [line];
    }
  }

  /** Every line names its ecosystem right after the icon, and the lines
      that compare versions show the local version, and the registry's when
      the two differ. */
  lemma MessageShowsVersions(projectType: string, r: ValidationResult)
    ensures var m := ResultMessage(projectType, r);
      StartsWith(m, Icon(r) + projectType + ": ") && EndsWith(m, Detail(r))
    ensures Truthy(r.error) ==> Detail(r) == r.error.value
    ensures !Truthy(r.error) && Truthy(r.registryVersion) && r.isLatest
            ==> Detail(r) == "Version " + r.localVersion + " is up to date"
    ensures !Truthy(r.error) && Truthy(r.registryVersion) && !r.isLatest
            ==> Detail(r) == "Local " + r.localVersion + " != Registry " + r.registryVersion.value
  {
    var a, d := Icon(r) + projectType + ": ", Detail(r);
    assert (a + d)[..|a|] == a;
    assert (a + d)[|a|..] == d;
  }
}
