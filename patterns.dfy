/** Recognisers for the small regular expressions that the goal rule tables
    use, and for `fnmatch` glob patterns. Only the constructs those tables
    contain are modelled: literal characters, `.`, `c?`, `c*`, `.*`, `\s`,
    `\s*`, `\d`, `\d*`, `[a-z]+` and a final `$`. */
module Patterns {
  import opened Strings

  datatype Atom =
    | Ch(c: char)      // a literal character
    | AnyChar          // `.`: any character but a newline
    | Opt(c: char)     // `c?`
    | AnyRun           // `.*`
    | Space            // `\s`
    | Letters          // `[a-z]+` under IGNORECASE
    | Star(c: char)    // `c*`
    | SpaceRun         // `\s*`
    | Digit            // `\d`
    | DigitRun         // `\d*`
    | End              // `$` without MULTILINE: the end, or just before a final newline

  type Pattern = seq<Atom>

  function Lit(s: string): (p: Pattern)
    ensures |p| == |s| && forall i :: 0 <= i < |s| ==> p[i] == Ch(s[i])
  {
    seq(|s|, i requires 0 <= i < |s| => Ch(s[i]))
  }

  /** Some match of `p` begins at position `i` of `s`. */
  predicate MatchAt(p: Pattern, s: string, i: nat)
    requires i <= |s|
    decreases |p|, |s| - i
  {
    if p == [] then true
    else match p[0]
      case Ch(c) => i < |s| && s[i] == c && MatchAt(p[1..], s, i + 1)
      case AnyChar => i < |s| && s[i] != '\n' && MatchAt(p[1..], s, i + 1)
      case Opt(c) => (i < |s| && s[i] == c && MatchAt(p[1..], s, i + 1)) || MatchAt(p[1..], s, i)
      case AnyRun => MatchAt(p[1..], s, i) || (i < |s| && s[i] != '\n' && MatchAt(p, s, i + 1))
      case Space => i < |s| && IsSpace(s[i]) && MatchAt(p[1..], s, i + 1)
      case Letters =>
        i < |s| && IsAlpha(s[i]) && (MatchAt(p[1..], s, i + 1) || MatchAt(p, s, i + 1))
      case Star(c) => MatchAt(p[1..], s, i) || (i < |s| && s[i] == c && MatchAt(p, s, i + 1))
      case SpaceRun => MatchAt(p[1..], s, i) || (i < |s| && IsSpace(s[i]) && MatchAt(p, s, i + 1))
      case Digit => i < |s| && IsDigit(s[i]) && MatchAt(p[1..], s, i + 1)
      case DigitRun => MatchAt(p[1..], s, i) || (i < |s| && IsDigit(s[i]) && MatchAt(p, s, i + 1))
      case End => (i == |s| || (i == |s| - 1 && s[i] == '\n')) && MatchAt(p[1..], s, i)
  }

  /** `re.search(p, s)` finds a match: some start position matches. */
  predicate SearchFrom(p: Pattern, s: string, i: nat)
    requires i <= |s|
    decreases |s| - i
  {
    MatchAt(p, s, i) || (i < |s| && SearchFrom(p, s, i + 1))
  }

  predicate Search(p: Pattern, s: string) { SearchFrom(p, s, 0) }

  /** `re.match(p, s)`: a match anchored at the start. */
  predicate MatchStart(p: Pattern, s: string) { MatchAt(p, s, 0) }

  /** A search for any of several alternatives, `a|b|c`. */
  predicate SearchAny(alts: seq<Pattern>, s: string) {
    exists k :: 0 <= k < |alts| && Search(alts[k], s)
  }

  lemma {:induction false} MatchLitAt(w: string, s: string, i: nat)
    requires i <= |s|
    ensures MatchAt(Lit(w), s, i) <==> i + |w| <= |s| && s[i..i + |w|] == w
    decreases |w|
  {
    if w != [] {
      assert Lit(w)[1..] == Lit(w[1..]);
      if i < |s| && s[i] == w[0] {
        MatchLitAt(w[1..], s, i + 1);
        if i + |w| <= |s| {
          assert s[i..i + |w|] == [s[i]] + s[i + 1..i + 1 + |w[1..]|];
          assert w == [w[0]] + w[1..];
        }
      }
    }
  }

  /** A match of a literal followed by more pattern is the literal, in
      place, and then a match of the rest. */
  lemma {:induction false} MatchLitThen(w: string, rest: Pattern, s: string, i: nat)
    requires i <= |s| && MatchAt(Lit(w) + rest, s, i)
    ensures i + |w| <= |s| && s[i..i + |w|] == w && MatchAt(rest, s, i + |w|)
    decreases |w|
  {
    if w != [] {
      assert (Lit(w) + rest)[0] == Ch(w[0]);
      assert (Lit(w) + rest)[1..] == Lit(w[1..]) + rest;
      MatchLitThen(w[1..], rest, s, i + 1);
      assert s[i..i + |w|] == [s[i]] + s[i + 1..i + 1 + |w[1..]|];
      assert w == [w[0]] + w[1..];
    } else {
      assert Lit(w) + rest == rest;
    }
  }

  /** The converse: the literal in place and then a match of the rest. */
  lemma {:induction false} MatchLitThenAt(w: string, rest: Pattern, s: string, i: nat)
    requires i + |w| <= |s| && s[i..i + |w|] == w && MatchAt(rest, s, i + |w|)
    ensures MatchAt(Lit(w) + rest, s, i)
    decreases |w|
  {
    if w != [] {
      assert (Lit(w) + rest)[1..] == Lit(w[1..]) + rest;
      assert s[i + 1..i + 1 + |w[1..]|] == w[1..];
      MatchLitThenAt(w[1..], rest, s, i + 1);
    } else {
      assert Lit(w) + rest == rest;
    }
  }

  /** A pattern that starts with a literal is not found in a string that
      lacks one of the literal's characters. */
  lemma LitMissingChar(w: string, rest: Pattern, s: string, c: char)
    requires c in w && c !in s
    ensures !Search(Lit(w) + rest, s)
  {
    LitMissingCharFrom(w, rest, s, c, 0);
  }

  lemma {:induction false} LitMissingCharFrom(w: string, rest: Pattern, s: string, c: char, i: nat)
    requires i <= |s| && c in w && c !in s
    ensures !SearchFrom(Lit(w) + rest, s, i)
    decreases |s| - i
  {
    if MatchAt(Lit(w) + rest, s, i) {
      MatchLitThen(w, rest, s, i);
    }
    if i < |s| { LitMissingCharFrom(w, rest, s, c, i + 1); }
  }

  /** A literal anchored by `$` is never found in a string that ends in a
      character the literal does not end in, other than a newline. */
  lemma {:induction false} EndAnchoredLastChar(w: string, s: string, i: nat)
    requires i <= |s| && |w| > 0 && |s| > 0 && s[|s| - 1] != w[|w| - 1] && s[|s| - 1] != '\n'
    ensures !SearchFrom(Lit(w) + [End], s, i)
    decreases |s| - i
  {
    if MatchAt(Lit(w) + [End], s, i) {
      MatchLitThen(w, [End], s, i);
    }
    if i < |s| { EndAnchoredLastChar(w, s, i + 1); }
  }

  lemma {:induction false} SearchLitFrom(w: string, s: string, i: nat)
    requires i <= |s|
    ensures SearchFrom(Lit(w), s, i) <==> Contains(s[i..], w)
    decreases |s| - i
  {
    MatchLitAt(w, s, i);
    assert (i + |w| <= |s| && s[i..i + |w|] == w) <==> w <= s[i..] by {
      if w <= s[i..] { assert s[i..][..|w|] == s[i..i + |w|]; }
    }
    if i < |s| {
      SearchLitFrom(w, s, i + 1);
      assert s[i..][1..] == s[i + 1..];
    }
  }

  /** A search for a pattern that is only literal characters is Python's `in`. */
  lemma SearchLit(w: string, s: string)
    ensures Search(Lit(w), s) <==> Contains(s, w)
  {
    SearchLitFrom(w, s, 0);
    assert s[0..] == s;
  }

  /** The strings of a literal alternation `w1|w2|...`. */
  function Lits(ws: seq<string>): (ps: seq<Pattern>)
    ensures |ps| == |ws| && forall k :: 0 <= k < |ws| ==> ps[k] == Lit(ws[k])
  {
    seq(|ws|, k requires 0 <= k < |ws| => Lit(ws[k]))
  }

  predicate ContainsAny(s: string, ws: seq<string>) {
    exists k :: 0 <= k < |ws| && Contains(s, ws[k])
  }

  lemma SearchLits(ws: seq<string>, s: string)
    ensures SearchAny(Lits(ws), s) <==> ContainsAny(s, ws)
  {
    forall k | 0 <= k < |ws| ensures Search(Lits(ws)[k], s) <==> Contains(s, ws[k]) {
      SearchLit(ws[k], s);
    }
  }

  /** `fnmatch.fnmatch(name, pat)` on POSIX: case-sensitive, `*` matches any
      run of characters including `/`, `?` matches one character. Character
      classes `[...]` are not modelled; `[` is taken literally. */
  predicate Glob(pat: string, name: string)
    decreases |pat| + |name|
  {
    if pat == [] then name == []
    else if pat[0] == '*' then Glob(pat[1..], name) || (name != [] && Glob(pat, name[1..]))
    else name != [] && (pat[0] == '?' || pat[0] == name[0]) && Glob(pat[1..], name[1..])
  }

  /** A glob without wildcards matches exactly itself. */
  lemma {:induction false} GlobLiteral(pat: string, name: string)
    requires forall i :: 0 <= i < |pat| ==> pat[i] != '*' && pat[i] != '?'
    ensures Glob(pat, name) <==> name == pat
    decreases |pat|
  {
    if pat != [] && name != [] {
      GlobLiteral(pat[1..], name[1..]);
      if name == pat { assert name[1..] == pat[1..]; }
      if pat[0] == name[0] && name[1..] == pat[1..] { assert name == [name[0]] + name[1..]; assert pat == [pat[0]] + pat[1..]; }
    }
  }

  /** `pre*suf` (no other wildcards) matches exactly the names that start with
      `pre`, end with `suf` and are long enough for both. */
  lemma {:induction false} GlobStarSuffix(suf: string, name: string)
    requires forall i :: 0 <= i < |suf| ==> suf[i] != '*' && suf[i] != '?'
    ensures Glob("*" + suf, name) <==> EndsWith(name, suf)
    decreases |name|
  {
    var pat := "*" + suf;
    assert pat[1..] == suf;
    GlobLiteral(suf, name);
    if name != [] {
      GlobStarSuffix(suf, name[1..]);
      if EndsWith(name, suf) && name != suf {
        assert name[1..][|name[1..]| - |suf|..] == name[|name| - |suf|..];
      }
      if EndsWith(name[1..], suf) {
        assert name[1..][|name[1..]| - |suf|..] == name[|name| - |suf|..];
      }
    }
  }
}
