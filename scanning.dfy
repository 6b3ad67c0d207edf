/** Regular-expression drivers over recognisers. A recogniser (a "matcher")
    gives the length of a match of one expression at the start of a text;
    the drivers here try it along a text as `re.search`, `re.findall` and
    `re.sub` do, and the lemmas relate what `findall` sees before and after
    a substitution. */
module Scanning {
  import opened Wrappers
  import opened Seqs

  /** The index of the first `c` in `t`, or `|t|`: where `[^c]*` stops. */
  function CharPos(t: string, c: char): (n: nat)
    ensures n <= |t| && (n < |t| ==> t[n] == c)
    ensures forall k :: 0 <= k < n ==> t[k] != c
    decreases |t|
  {
    if t != "" && t[0] != c then 1 + CharPos(t[1..], c) else 0
  }

  /** MULTILINE `^`: the start of the text or just after a newline. */
  predicate AtLineStart(s: string, i: nat)
    requires i <= |s|
  {
    i == 0 || s[i - 1] == '\n'
  }

  /** Whether a position starts a line depends only on the text before it. */
  lemma AtLineStartPrefix(a: string, b: string, p: nat)
    requires p <= |a| && p <= |b| && a[..p] == b[..p]
    ensures AtLineStart(a, p) == AtLineStart(b, p)
  {
    if p > 0 { assert a[p - 1] == a[..p][p - 1] && b[p - 1] == b[..p][p - 1]; }
  }

  /** A matcher advances when every match it reports consumes at least one
      character. */
  ghost predicate Advances(m: string -> Option<nat>) {
    forall t :: m(t).Some? ==> 0 < m(t).value <= |t|
  }

  // ------------------------------------ expressions anchored at line starts

  /** An expression that begins with MULTILINE `^`, tried at position `i`
      of `s`: it can only match at a line start. */
  function LineMatch(s: string, i: nat, m: string -> Option<nat>): Option<nat>
    requires i <= |s|
  {
    if AtLineStart(s, i) then m(s[i..]) else None
  }

  /** `re.search` from `i`: the leftmost position where the expression matches. */
  function FirstLineMatch(s: string, i: nat, m: string -> Option<nat>): (r: Option<nat>)
    requires i <= |s|
    ensures r.Some? ==> i <= r.value <= |s| && LineMatch(s, r.value, m).Some?
    ensures r.Some? ==> forall q :: i <= q < r.value ==> LineMatch(s, q, m).None?
    ensures r.None? ==> forall q :: i <= q <= |s| ==> LineMatch(s, q, m).None?
    decreases |s| - i
  {
    if LineMatch(s, i, m).Some? then Some(i)
    else if i == |s| then None
    else FirstLineMatch(s, i + 1, m)
  }

  /** `re.findall` from `i` for an expression without groups: the matches,
      left to right, each search resuming where the previous match ended. */
  function FindAllLines(s: string, i: nat, m: string -> Option<nat>): seq<string>
    requires i <= |s| && Advances(m)
    decreases |s| - i
  {
    if i == |s| then []
    else match LineMatch(s, i, m)
      case Some(n) => [s[i..i + n]] + FindAllLines(s, i + n, m)
      case None => FindAllLines(s, i + 1, m)
  }

  /** One step of the search: a match at `i` is returned, and the search
      resumes where it ends. */
  lemma FindAllLinesStep(s: string, i: nat, m: string -> Option<nat>)
    requires i < |s| && Advances(m) && LineMatch(s, i, m).Some?
    ensures i + LineMatch(s, i, m).value <= |s|
    ensures FindAllLines(s, i, m)
      == [s[i..i + LineMatch(s, i, m).value]] + FindAllLines(s, i + LineMatch(s, i, m).value, m)
  {
    assert m(s[i..]).Some?;
  }

  /** Every text `findall` returns is a match at a line start from `i` on,
      and it returns nothing exactly when no position from `i` on matches. */
  lemma {:induction false} FindAllLinesFrom(s: string, i: nat, m: string -> Option<nat>)
    requires i <= |s| && Advances(m)
    ensures forall x :: x in FindAllLines(s, i, m) ==>
      exists q :: i <= q <= |s| && LineMatch(s, q, m).Some?
        && q + LineMatch(s, q, m).value <= |s| && x == s[q..q + LineMatch(s, q, m).value]
    ensures FindAllLines(s, i, m) == [] <==> forall q :: i <= q <= |s| ==> LineMatch(s, q, m).None?
    decreases |s| - i
  {
    if i == |s| {
      assert s[i..] == "";
    } else {
      match LineMatch(s, i, m)
      case Some(n) =>
        FindAllLinesStep(s, i, m);
        FindAllLinesFrom(s, i + n, m);
      case None =>
        assert FindAllLines(s, i, m) == FindAllLines(s, i + 1, m);
        FindAllLinesFrom(s, i + 1, m);
    }
  }

  /** Where a text `findall` returns was matched. */
  lemma FindAllLinesAt(s: string, i: nat, m: string -> Option<nat>, x: string) returns (q: nat, n: nat)
    requires i <= |s| && Advances(m) && x in FindAllLines(s, i, m)
    ensures i <= q && q + n <= |s| && AtLineStart(s, q) && m(s[q..]) == Some(n) && x == s[q..q + n]
  {
    FindAllLinesFrom(s, i, m);
    q :| i <= q <= |s| && LineMatch(s, q, m).Some?
      && q + LineMatch(s, q, m).value <= |s| && x == s[q..q + LineMatch(s, q, m).value];
    n := LineMatch(s, q, m).value;
  }

  /** A replacement that ignores what it replaces: `re.sub` with a plain
      string. */
  function Always(r: string): string -> string { _ => r }

  /** `re.sub` from `i`: every match, left to right, replaced by what `repl`
      makes of it. */
  function SubAllLines(s: string, i: nat, m: string -> Option<nat>, repl: string -> string): string
    requires i <= |s| && Advances(m)
    decreases |s| - i
  {
    if i == |s| then ""
    else match LineMatch(s, i, m)
      case Some(n) => repl(s[i..i + n]) + SubAllLines(s, i + n, m, repl)
      case None => [s[i]] + SubAllLines(s, i + 1, m, repl)
  }

  /** Up to the first match the substitution copies the text. */
  lemma {:induction false} SubAllLinesCopies(s: string, i: nat, p: nat, m: string -> Option<nat>, repl: string -> string)
    requires i <= p <= |s| && Advances(m)
    requires forall q :: i <= q < p ==> LineMatch(s, q, m).None?
    ensures SubAllLines(s, i, m, repl) == s[i..p] + SubAllLines(s, p, m, repl)
    decreases p - i
  {
    if i < p {
      var rest := SubAllLines(s, p, m, repl);
      SubAllLinesKeeps(s, i, m, repl);
      SubAllLinesCopies(s, i + 1, p, m, repl);
      assert SubAllLines(s, i, m, repl) == [s[i]] + (s[i + 1..p] + rest);
      ConsSlice(s, i, p, rest);
    } else {
      assert s[i..p] == [];
    }
  }

  /** Where the expression does not match, the substitution copies one
      character. */
  lemma SubAllLinesKeeps(s: string, i: nat, m: string -> Option<nat>, repl: string -> string)
    requires i < |s| && Advances(m) && LineMatch(s, i, m).None?
    ensures SubAllLines(s, i, m, repl) == [s[i]] + SubAllLines(s, i + 1, m, repl)
  {
  }

  lemma ConsSlice(s: string, i: nat, p: nat, tail: string)
    requires i < p <= |s|
    ensures [s[i]] + (s[i + 1..p] + tail) == s[i..p] + tail
  {
    assert [s[i]] + s[i + 1..p] == s[i..p];
  }

  /** With a first match at `p`, the substitution keeps the text before it
      and the replacement starts where the match started. */
  lemma {:induction false} SubAllLinesPlaced(s: string, p: nat, m: string -> Option<nat>, repl: string -> string)
    requires Advances(m) && p <= |s| && LineMatch(s, p, m).Some?
    requires forall q :: 0 <= q < p ==> LineMatch(s, q, m).None?
    ensures var r := SubAllLines(s, 0, m, repl);
      var n := LineMatch(s, p, m).value;
      p + n <= |s| && p <= |r| && r[..p] == s[..p] && r[p..] == repl(s[p..p + n]) + SubAllLines(s, p + n, m, repl)
  {
    SubAllLinesCopies(s, 0, p, m, repl);
    var n := LineMatch(s, p, m).value;
    assert m(s[p..]) == Some(n);
    assert p < |s|;
    assert s[0..p] == s[..p];
  }

  /** The substitution puts the replacement of the first match at the start
      of a line, where the match stood. */
  lemma {:induction false} FirstReplacedAtLine(s: string, m: string -> Option<nat>, repl: string -> string)
    returns (p: nat, x: string, rest: string)
    requires Advances(m) && FirstLineMatch(s, 0, m).Some?
    ensures p == FirstLineMatch(s, 0, m).value
    ensures var r := SubAllLines(s, 0, m, repl);
      p <= |r| && AtLineStart(r, p) && r[p..] == repl(x) + rest
  {
    p := FirstLineMatch(s, 0, m).value;
    x, rest := ReplacedAtLine(s, p, m, repl);
  }

  /** The replacement of a match at `p`, with none before it, starts a line
      of the substituted text. */
  lemma ReplacedAtLine(s: string, p: nat, m: string -> Option<nat>, repl: string -> string)
    returns (x: string, rest: string)
    requires Advances(m) && p <= |s| && LineMatch(s, p, m).Some?
    requires forall q :: 0 <= q < p ==> LineMatch(s, q, m).None?
    ensures var r := SubAllLines(s, 0, m, repl);
      p <= |r| && AtLineStart(r, p) && r[p..] == repl(x) + rest
  {
    SubAllLinesPlaced(s, p, m, repl);
    var n := LineMatch(s, p, m).value;
    x := s[p..p + n];
    rest := SubAllLines(s, p + n, m, repl);
    var r := SubAllLines(s, 0, m, repl);
    assert AtLineStart(s, p);
    AtLineStartPrefix(r, s, p);
  }

  // ---------------------------------------------------- unanchored expressions

  /** `re.search` for an expression that may match anywhere: the leftmost
      offset in `t` where it matches. */
  function FirstMatch(t: string, m: string -> Option<nat>): (r: Option<nat>)
    ensures r.Some? ==> r.value <= |t| && m(t[r.value..]).Some?
    ensures r.Some? ==> forall q :: 0 <= q < r.value ==> m(t[q..]).None?
    ensures r.None? ==> forall q :: 0 <= q <= |t| ==> m(t[q..]).None?
    decreases |t|
  {
    if m(t).Some? then Some(0)
    else if t == "" then None
    else
      DropAfterFirst(t);
      match FirstMatch(t[1..], m)
      case None => None
      case Some(k) => Some(k + 1)
  }

  /** Dropping `q` characters is dropping the first, then `q - 1` more. */
  lemma DropAfterFirst(t: string)
    requires t != ""
    ensures t[0..] == t
    ensures forall q :: 1 <= q <= |t| ==> t[q..] == t[1..][q - 1..]
  {
  }

  /** `re.findall` (or the matched texts of `re.finditer`): the matches, left
      to right, each search resuming where the previous match ended. */
  function FindAll(t: string, m: string -> Option<nat>): seq<string>
    requires Advances(m)
    decreases |t|
  {
    if t == "" then []
    else match m(t)
      case Some(n) => [t[..n]] + FindAll(t[n..], m)
      case None => FindAll(t[1..], m)
  }

  /** `re.sub`: every match, left to right, replaced by what `repl` makes of
      it. */
  function SubAll(t: string, m: string -> Option<nat>, repl: string -> string): string
    requires Advances(m)
    decreases |t|
  {
    if t == "" then ""
    else match m(t)
      case Some(n) => repl(t[..n]) + SubAll(t[n..], m, repl)
      case None => [t[0]] + SubAll(t[1..], m, repl)
  }

  /** Positions without a match do not change what `findall` finds. */
  lemma {:induction false} FindAllSkip(t: string, p: nat, m: string -> Option<nat>)
    requires p <= |t| && Advances(m)
    requires forall q :: 0 <= q < p ==> m(t[q..]).None?
    ensures FindAll(t, m) == FindAll(t[p..], m)
    decreases p
  {
    if p > 0 {
      assert t[0..] == t;
      forall q | 0 <= q < p - 1 ensures m(t[1..][q..]).None? {
        assert t[1..][q..] == t[q + 1..];
      }
      FindAllSkip(t[1..], p - 1, m);
      assert t[1..][p - 1..] == t[p..];
    }
  }

  /** Everything `findall` returns is the text of a match: a property of
      every matched text holds of every element. */
  lemma {:induction false} FindAllSound(t: string, m: string -> Option<nat>, p: string -> bool)
    requires Advances(m) && forall v :: m(v).Some? ==> p(v[..m(v).value])
    ensures forall k :: 0 <= k < |FindAll(t, m)| ==> p(FindAll(t, m)[k])
    decreases |t|
  {
    if t != "" {
      match m(t)
      case Some(n) =>
        FindAllSound(t[n..], m, p);
        assert FindAll(t, m) == [t[..n]] + FindAll(t[n..], m);
      case None =>
        FindAllSound(t[1..], m, p);
    }
  }

  /** Up to the first match the substitution copies the text. */
  lemma {:induction false} SubAllCopies(t: string, p: nat, m: string -> Option<nat>, repl: string -> string)
    requires p <= |t| && Advances(m)
    requires forall q :: 0 <= q < p ==> m(t[q..]).None?
    ensures SubAll(t, m, repl) == t[..p] + SubAll(t[p..], m, repl)
    decreases p
  {
    if p > 0 {
      var w := t[1..];
      NoMatchShift(t, p, m);
      SubAllCopies(w, p - 1, m, repl);
      assert w[p - 1..] == t[p..];
      SubAllKeeps(t, m, repl);
      ConsPrefix(t, p, SubAll(t[p..], m, repl));
    }
  }

  /** Where the expression does not match at the start, the substitution
      copies the first character. */
  lemma SubAllKeeps(t: string, m: string -> Option<nat>, repl: string -> string)
    requires t != "" && Advances(m) && m(t).None?
    ensures SubAll(t, m, repl) == [t[0]] + SubAll(t[1..], m, repl)
  {
  }

  /** No match in the first `p` positions of `t` means none in the first
      `p - 1` positions of `t[1..]`. */
  lemma NoMatchShift(t: string, p: nat, m: string -> Option<nat>)
    requires 0 < p <= |t| && forall q :: 0 <= q < p ==> m(t[q..]).None?
    ensures forall q :: 0 <= q < p - 1 ==> m(t[1..][q..]).None?
    ensures m(t).None?
  {
    assert t[0..] == t;
    forall q | 0 <= q < p - 1 ensures m(t[1..][q..]).None? {
      assert t[1..][q..] == t[q + 1..];
    }
  }

  lemma ConsPrefix(t: string, p: nat, tail: string)
    requires 0 < p <= |t|
    ensures [t[0]] + (t[1..][..p - 1] + tail) == t[..p] + tail
  {
    assert [t[0]] + t[1..][..p - 1] == t[..p];
  }

  /** The substitution of a non-empty text starts with the same character. */
  lemma {:induction false} SubAllHead(t: string, m: string -> Option<nat>, repl: string -> string)
    requires t != "" && Advances(m) && Keeps(m, repl)
    ensures var u := SubAll(t, m, repl); 0 < |u| && u[0] == t[0]
  {
    match m(t)
    case Some(n) =>
      assert t == t[..n] + t[n..];
      assert KeepsOne(m, repl, t[..n]);
    case None =>
  }

  // ------------------------------------------- findall after a substitution

  /** Two texts agree up to `n` when their first `n` characters are the
      same and so is what follows them: the next character, or the end. */
  predicate AgreeUpTo(t: string, u: string, n: nat) {
    n <= |t| && n <= |u| && t[..n] == u[..n] && (n == |t| <==> n == |u|)
    && (n < |t| && n < |u| ==> t[n] == u[n])
  }

  /** A matcher is local when a match depends only on the matched text and
      on what follows it (one character of look-ahead, or the end). */
  ghost predicate Local(m: string -> Option<nat>) {
    forall t :: LocalAt(m, t)
  }

  /** A match at the start of `t` is found in every text that agrees with
      `t` up to its end. */
  ghost predicate LocalAt(m: string -> Option<nat>, t: string) {
    forall u :: m(t).Some? && AgreeUpTo(t, u, m(t).value) ==> m(u) == m(t)
  }

  /** A match of `m1` never reaches past the start of a match of `m2`
      inside it. */
  ghost predicate Apart(m1: string -> Option<nat>, m2: string -> Option<nat>) {
    forall t, j :: 0 < j <= |t| && m1(t).Some? && m2(t[j..]).Some? ==> m1(t).value <= j
  }

  /** The two matchers never both match at the same place. */
  ghost predicate Exclusive(m1: string -> Option<nat>, m2: string -> Option<nat>) {
    forall t :: m1(t).None? || m2(t).None?
  }

  /** A replacement is kept by a matcher when the replaced text is again a
      whole match in the same context, starting with the same character. */
  ghost predicate Keeps(m: string -> Option<nat>, repl: string -> string) {
    forall x :: KeepsOne(m, repl, x)
  }

  /** The replacement of the match `x` is kept, whatever follows. */
  ghost predicate KeepsOne(m: string -> Option<nat>, repl: string -> string, x: string) {
    forall r :: 0 < |x| && m(x + r) == Some(|x|) ==> m(repl(x) + r) == Some(|repl(x)|) && 0 < |repl(x)| && repl(x)[0] == x[0]
  }

  /** A match is found at the same place in another text that agrees with
      the first through the character after the match. */
  lemma LocalShift(a: string, b: string, q: nat, e: nat, m: string -> Option<nat>)
    requires Local(m) && q <= e < |a| && e < |b| && a[..e + 1] == b[..e + 1]
    requires m(a[q..]).Some? && q + m(a[q..]).value <= e
    ensures m(b[q..]) == m(a[q..])
  {
    var k := m(a[q..]).value;
    assert a[q..][..k] == a[..e + 1][q..q + k];
    assert b[q..][..k] == b[..e + 1][q..q + k];
    assert a[q..][k] == a[..e + 1][q + k] && b[q..][k] == b[..e + 1][q + k];
    assert AgreeUpTo(a[q..], b[q..], k);
    assert LocalAt(m, a[q..]);
  }

  /** `findall` at a match: the match, then `findall` after it. */
  lemma FindAllHere(v: string, n: nat, m: string -> Option<nat>)
    requires Advances(m) && m(v) == Some(n)
    ensures FindAll(v, m) == [v[..n]] + FindAll(v[n..], m)
  {
  }

  /** With no match anywhere, the substitution changes nothing and
      `findall` finds nothing. */
  lemma NoMatch(t: string, m: string -> Option<nat>, repl: string -> string)
    requires Advances(m) && FirstMatch(t, m).None?
    ensures SubAll(t, m, repl) == t && FindAll(t, m) == []
  {
    SubAllCopies(t, |t|, m, repl);
    FindAllSkip(t, |t|, m);
    assert t[..|t|] == t && t[|t|..] == "";
  }

  /** The substitution around the first match: the text before it, the
      replacement, then the substitution of the rest. */
  lemma {:induction false} SubAllFirst(t: string, m: string -> Option<nat>, repl: string -> string) returns (p: nat, n: nat)
    requires Advances(m) && FirstMatch(t, m).Some?
    ensures p == FirstMatch(t, m).value && m(t[p..]) == Some(n) && p + n <= |t|
    ensures SubAll(t, m, repl) == t[..p] + repl(t[p..p + n]) + SubAll(t[p + n..], m, repl)
  {
    p := FirstMatch(t, m).value;
    n := m(t[p..]).value;
    SubAllAt(t, p, n, m, repl);
  }

  /** The substitution around a match at `p` with none before it. */
  lemma SubAllAt(t: string, p: nat, n: nat, m: string -> Option<nat>, repl: string -> string)
    requires Advances(m) && p <= |t| && m(t[p..]) == Some(n)
    requires forall q :: 0 <= q < p ==> m(t[q..]).None?
    ensures p + n <= |t|
    ensures SubAll(t, m, repl) == t[..p] + repl(t[p..p + n]) + SubAll(t[p + n..], m, repl)
  {
    var v := t[p..];
    SubAllCopies(t, p, m, repl);
    SubAllHere(v, n, m, repl);
    SplitAfter(t, p, n);
    JoinThree(t[..p], repl(v[..n]), SubAll(v[n..], m, repl));
  }

  /** The first `n` characters from `p`, and what follows them. */
  lemma SplitAfter(t: string, p: nat, n: nat)
    requires p + n <= |t|
    ensures t[p..][..n] == t[p..p + n] && t[p..][n..] == t[p + n..]
  {
  }

  lemma JoinThree(a: string, b: string, c: string)
    ensures a + (b + c) == a + b + c
  {
  }

  /** The substitution at a match: its replacement, then the substitution
      after it. */
  lemma SubAllHere(v: string, n: nat, m: string -> Option<nat>, repl: string -> string)
    requires Advances(m) && m(v) == Some(n)
    ensures SubAll(v, m, repl) == repl(v[..n]) + SubAll(v[n..], m, repl)
  {
  }

  /** A kept replacement is again a whole match when the text after it
      starts as the text after the original did. */
  lemma KeptInContext(x: string, tail: string, rest: string, m: string -> Option<nat>, repl: string -> string)
    requires Local(m) && Keeps(m, repl) && 0 < |x| && m(x + tail) == Some(|x|)
    requires (tail == "") == (rest == "") && (tail != "" ==> rest[0] == tail[0])
    ensures m(repl(x) + rest) == Some(|repl(x)|) && 0 < |repl(x)| && repl(x)[0] == x[0]
  {
    assert KeepsOne(m, repl, x);
    var rx := repl(x);
    var u0, u1 := rx + tail, rx + rest;
    assert u0[..|rx|] == rx == u1[..|rx|];
    if tail != "" { assert u0[|rx|] == tail[0] && u1[|rx|] == rest[0]; }
    assert AgreeUpTo(u0, u1, |rx|);
    assert LocalAt(m, u0);
  }

  /** The first match and the shape of the substitution around it: the text
      before is copied, the replacement is again a match, and the copy runs
      on through the first character of the replacement. */
  lemma {:induction false} Replaced(t: string, m: string -> Option<nat>, repl: string -> string) returns (p: nat, n: nat)
    requires Advances(m) && Local(m) && Keeps(m, repl) && FirstMatch(t, m).Some?
    ensures p == FirstMatch(t, m).value && p < |t|
    ensures m(t[p..]) == Some(n) && p + n <= |t|
    ensures var u := SubAll(t, m, repl); var rx := repl(t[p..p + n]); var rest := SubAll(t[p + n..], m, repl);
      u == t[..p] + rx + rest && 0 < |rx| && p < |u| && u[..p + 1] == t[..p + 1]
      && u[p..] == rx + rest && m(u[p..]) == Some(|rx|)
  {
    p, n := SubAllFirst(t, m, repl);
    var x, tail := t[p..p + n], t[p + n..];
    var rest := SubAll(tail, m, repl);
    assert t[p..] == x + tail;
    if tail != "" { SubAllHead(tail, m, repl); }
    KeptInContext(x, tail, rest, m, repl);
    SplicedAt(t, SubAll(t, m, repl), p, repl(x), rest);
  }

  /** A text spliced at `p`, where the inserted part starts with the
      character that stood there, agrees with the original through `p`. */
  lemma SplicedAt(t: string, u: string, p: nat, rx: string, rest: string)
    requires p < |t| && u == t[..p] + rx + rest && 0 < |rx| && rx[0] == t[p]
    ensures p < |u| && u[..p + 1] == t[..p + 1] && u[p..] == rx + rest
  {
    assert u[..p + 1] == t[..p] + [rx[0]];
    assert t[..p + 1] == t[..p] + [t[p]];
  }

  /** Before the first replacement the substituted text has no match. */
  lemma {:induction false} GapFree(t: string, u: string, p: nat, m: string -> Option<nat>)
    requires Local(m) && Apart(m, m) && FirstMatch(t, m) == Some(p)
    requires p < |t| && p < |u| && u[..p + 1] == t[..p + 1] && m(u[p..]).Some?
    ensures forall q :: 0 <= q < p ==> m(u[q..]).None?
  {
    forall q | 0 <= q < p ensures m(u[q..]).None? {
      if m(u[q..]).Some? {
        assert u[q..][p - q..] == u[p..];
        LocalShift(u, t, q, p, m);
      }
    }
  }

  /** Findall for a matcher after substituting its own matches: exactly the
      replacements, in order. */
  lemma {:induction false} FindAllSubAllSelf(t: string, m: string -> Option<nat>, repl: string -> string)
    requires Advances(m) && Local(m) && Apart(m, m) && Keeps(m, repl)
    ensures FindAll(SubAll(t, m, repl), m) == Map(repl, FindAll(t, m))
    decreases |t|
  {
    match FirstMatch(t, m)
    case None => NoMatch(t, m, repl);
    case Some(_) =>
      var u := SubAll(t, m, repl);
      var p, n := Replaced(t, m, repl);
      var x, tail := t[p..p + n], t[p + n..];
      var rx, rest := repl(x), SubAll(tail, m, repl);
      GapFree(t, u, p, m);
      FindAllAfterGap(u, p, rx, rest, m);
      SplitAfter(t, p, n);
      assert t[p..] == x + tail;
      FindAllAfterGap(t, p, x, tail, m);
      FindAllSubAllSelf(tail, m, repl);
      var later := FindAll(tail, m);
      assert ([x] + later)[1..] == later;
  }

  /** With no match before `p` and a match `a` at `p` followed by `b`,
      `findall` returns `a`, then what it finds in `b`. */
  lemma FindAllAfterGap(u: string, p: nat, a: string, b: string, m: string -> Option<nat>)
    requires Advances(m) && p <= |u| && forall q :: 0 <= q < p ==> m(u[q..]).None?
    requires u[p..] == a + b && m(u[p..]) == Some(|a|)
    ensures FindAll(u, m) == [a] + FindAll(b, m)
  {
    FindAllSkip(u, p, m);
    FindAllHere(u[p..], |a|, m);
    assert u[p..][..|a|] == a && u[p..][|a|..] == b;
  }

  /** Inside a match of `m2`, `m1` finds nothing: the whole match can be
      skipped. */
  lemma {:induction false} SkipOther(v: string, len: nat, m1: string -> Option<nat>, m2: string -> Option<nat>)
    requires Advances(m1) && m2(v) == Some(len) && len <= |v|
    requires Exclusive(m1, m2) && Apart(m2, m1)
    ensures FindAll(v, m1) == FindAll(v[len..], m1)
  {
    forall q | 0 <= q < len ensures m1(v[q..]).None? {
      if q == 0 { assert v[0..] == v; }
    }
    FindAllSkip(v, len, m1);
  }

  /** A match `a` of `m2` followed by `b`: `m1` finds only what it finds
      in `b`. */
  lemma SkipOtherTo(v: string, a: string, b: string, m1: string -> Option<nat>, m2: string -> Option<nat>)
    requires Advances(m1) && v == a + b && m2(v) == Some(|a|)
    requires Exclusive(m1, m2) && Apart(m2, m1)
    ensures FindAll(v, m1) == FindAll(b, m1)
  {
    SkipOther(v, |a|, m1, m2);
    assert v[|a|..] == b;
  }

  /** At offset `d` of a region of length `len` at the start of two texts,
      the matcher matches alike in both, and a match stays inside the
      region. */
  ghost predicate AlikeAt(m: string -> Option<nat>, a: string, b: string, len: nat, d: nat) {
    d <= |a| && d <= |b| && m(a[d..]) == m(b[d..])
    && (m(a[d..]).Some? ==> d + m(a[d..]).value <= len)
  }

  /** Two texts that start with the same region, where the matcher matches
      alike, have the same `findall` when they have it after the region. */
  lemma {:induction false} FindAllAligned(a: string, b: string, len: nat, m: string -> Option<nat>)
    requires Advances(m) && len <= |a| && len <= |b| && a[..len] == b[..len]
    requires forall d :: 0 <= d < len ==> AlikeAt(m, a, b, len, d)
    requires FindAll(a[len..], m) == FindAll(b[len..], m)
    ensures FindAll(a, m) == FindAll(b, m)
    decreases len
  {
    if len > 0 {
      var k := if m(a).Some? then m(a).value else 1;
      AlignedHead(a, b, len, m);
      AlignedShift(a, b, len, k, m, a[k..], b[k..], len - k);
      FindAllAligned(a[k..], b[k..], len - k, m);
    }
  }

  /** The first step of `findall` over a shared region takes the same text
      from both and stays inside the region. */
  lemma AlignedHead(a: string, b: string, len: nat, m: string -> Option<nat>)
    requires Advances(m) && 0 < len <= |a| && len <= |b| && a[..len] == b[..len]
    requires AlikeAt(m, a, b, len, 0)
    ensures var k := if m(a).Some? then m(a).value else 1;
      0 < k <= len
      && (FindAll(a[k..], m) == FindAll(b[k..], m) ==> FindAll(a, m) == FindAll(b, m))
  {
    assert a[0..] == a && b[0..] == b;
    var k := if m(a).Some? then m(a).value else 1;
    assert a[..k] == a[..len][..k] && b[..k] == b[..len][..k];
  }

  /** After `k` characters of the shared region, what is left of it is
      still shared and still matched alike. */
  lemma AlignedShift(a: string, b: string, len: nat, k: nat, m: string -> Option<nat>,
                     a2: string, b2: string, len2: nat)
    requires 0 < k <= len <= |a| && len <= |b| && a[..len] == b[..len]
    requires forall d :: 0 <= d < len ==> AlikeAt(m, a, b, len, d)
    requires Advances(m) && FindAll(a[len..], m) == FindAll(b[len..], m)
    requires a2 == a[k..] && b2 == b[k..] && len2 == len - k
    ensures a2[..len2] == b2[..len2]
    ensures forall d :: 0 <= d < len2 ==> AlikeAt(m, a2, b2, len2, d)
    ensures FindAll(a2[len2..], m) == FindAll(b2[len2..], m)
  {
    assert a2[..len2] == a[..len][k..] && b2[..len2] == b[..len][k..];
    forall d | 0 <= d < len2 ensures AlikeAt(m, a2, b2, len2, d) {
      assert AlikeAt(m, a, b, len, k + d);
      assert a2[d..] == a[k + d..] && b2[d..] == b[k + d..];
    }
    assert a2[len2..] == a[len..] && b2[len2..] == b[len..];
  }

  /** Before the first replacement, `m1` matches alike in the text and in
      its substitution, and its matches end before the replacement. */
  lemma {:induction false} RegionAgrees(t: string, u: string, p: nat, m1: string -> Option<nat>, m2: string -> Option<nat>)
    requires p < |t| && p < |u| && t[..p + 1] == u[..p + 1] && Local(m1) && Apart(m1, m2)
    requires m2(t[p..]).Some? && m2(u[p..]).Some?
    ensures forall d :: 0 <= d < p ==> AlikeAt(m1, t, u, p, d)
  {
    forall d | 0 <= d < p ensures AlikeAt(m1, t, u, p, d) {
      assert t[d..][p - d..] == t[p..];
      assert u[d..][p - d..] == u[p..];
      if m1(u[d..]).Some? {
        LocalShift(u, t, d, p, m1);
      } else if m1(t[d..]).Some? {
        LocalShift(t, u, d, p, m1);
      }
    }
  }

  /** Findall for one matcher after substituting the matches of another
      that it is exclusive with and kept apart from: unchanged. */
  lemma {:induction false} FindAllSubAllOther(t: string, m1: string -> Option<nat>, m2: string -> Option<nat>, repl: string -> string)
    requires Advances(m1) && Advances(m2) && Local(m1) && Local(m2)
    requires Apart(m1, m2) && Apart(m2, m1) && Exclusive(m1, m2) && Keeps(m2, repl)
    ensures FindAll(SubAll(t, m2, repl), m1) == FindAll(t, m1)
    decreases |t|
  {
    match FirstMatch(t, m2)
    case None => NoMatch(t, m2, repl);
    case Some(_) =>
      var u := SubAll(t, m2, repl);
      var p, n := Replaced(t, m2, repl);
      var rx, tail := repl(t[p..p + n]), t[p + n..];
      var rest := SubAll(tail, m2, repl);
      FindAllSubAllOther(tail, m1, m2, repl);
      OtherReplacedStep(t, u, p, n, rx, rest, m1, m2);
  }

  /** One replacement of an `m2` match at `p`, with the same text before
      it: when `m1` finds the same after the two matches, it finds the same
      in the whole texts. */
  lemma OtherReplacedStep(t: string, u: string, p: nat, n: nat, rx: string, rest: string,
                          m1: string -> Option<nat>, m2: string -> Option<nat>)
    requires Advances(m1) && Local(m1) && Apart(m1, m2) && Apart(m2, m1) && Exclusive(m1, m2)
    requires p < |t| && p < |u| && p + n <= |t| && u[..p + 1] == t[..p + 1]
    requires m2(t[p..]) == Some(n) && u[p..] == rx + rest && m2(u[p..]) == Some(|rx|)
    requires FindAll(rest, m1) == FindAll(t[p + n..], m1)
    ensures FindAll(u, m1) == FindAll(t, m1)
  {
    var tail := t[p + n..];
    SkipOtherTo(u[p..], rx, rest, m1, m2);
    SplitAfter(t, p, n);
    assert t[p..] == t[p..p + n] + tail;
    SkipOtherTo(t[p..], t[p..p + n], tail, m1, m2);
    RegionAgrees(t, u, p, m1, m2);
    assert t[..p] == t[..p + 1][..p] && u[..p] == u[..p + 1][..p];
    FindAllAligned(t, u, p, m1);
  }
}
