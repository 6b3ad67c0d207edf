/** The parts of Python's `str`, `int()`, `os.path` and `pathlib` behaviour
    that the goal pipeline relies on, written out over `seq<char>`.
    Letter case and digits are ASCII-only here. */
module Strings {
  import opened Wrappers
  import Seqs

  /** The characters Python's `str.split()` and `str.strip()` treat as whitespace. */
  predicate IsSpace(c: char) {
    c == ' ' || c == '\t' || c == '\n' || c == '\r' || c == '\U{000B}' || c == '\U{000C}'
    || c == '\U{001C}' || c == '\U{001D}' || c == '\U{001E}' || c == '\U{001F}'
    || c == '\U{0085}' || c == '\U{00A0}' || c == '\U{1680}'
    || ('\U{2000}' <= c <= '\U{200A}') || c == '\U{2028}' || c == '\U{2029}'
    || c == '\U{202F}' || c == '\U{205F}' || c == '\U{3000}'
  }

  predicate IsDigit(c: char) { '0' <= c <= '9' }
  predicate IsUpper(c: char) { 'A' <= c <= 'Z' }
  predicate IsLowerLetter(c: char) { 'a' <= c <= 'z' }
  predicate IsAlpha(c: char) { IsUpper(c) || IsLowerLetter(c) }
  predicate IsAlnum(c: char) { IsAlpha(c) || IsDigit(c) }
  /** Regular-expression `\w`. */
  predicate IsWordChar(c: char) { IsAlnum(c) || c == '_' }

  function LowerChar(c: char): (r: char)
    ensures !IsUpper(r)
    ensures !IsUpper(c) ==> r == c
  {
    if IsUpper(c) then (c as int + 32) as char else c
  }

  function Lower(s: string): (r: string)
    ensures |r| == |s|
    ensures forall i :: 0 <= i < |s| ==> r[i] == LowerChar(s[i])
  {
    seq(|s|, i requires 0 <= i < |s| => LowerChar(s[i]))
  }

  function UpperChar(c: char): (r: char)
    ensures !IsLowerLetter(r)
    ensures !IsLowerLetter(c) ==> r == c
  {
    if IsLowerLetter(c) then (c as int - 32) as char else c
  }

  /** Python's `s.upper()`. */
  function Upper(s: string): (r: string)
    ensures |r| == |s|
    ensures forall i :: 0 <= i < |s| ==> r[i] == UpperChar(s[i])
  {
    seq(|s|, i requires 0 <= i < |s| => UpperChar(s[i]))
  }

  /** Python's `s.capitalize()` on ASCII letters: the first character upper
      case, the rest lower case. */
  function Capitalize(s: string): (r: string)
    ensures |r| == |s|
  {
    if s == "" then "" else [UpperChar(s[0])] + Lower(s[1..])
  }

  /** Python's `s.title()`: a letter is upper-cased when it follows a
      non-letter (or starts the string) and lower-cased otherwise. */
  function Title(s: string): (r: string)
    ensures |r| == |s|
    ensures forall i :: 0 <= i < |s| && !IsAlpha(s[i]) ==> r[i] == s[i]
    ensures forall i :: 0 <= i < |s| && IsAlpha(s[i]) ==>
      r[i] == if i > 0 && IsAlpha(s[i - 1]) then LowerChar(s[i]) else UpperChar(s[i])
  {
    seq(|s|, i requires 0 <= i < |s| =>
      if !IsAlpha(s[i]) then s[i]
      else if i > 0 && IsAlpha(s[i - 1]) then LowerChar(s[i])
      else UpperChar(s[i]))
  }

  predicate IsLowered(s: string) { forall i :: 0 <= i < |s| ==> !IsUpper(s[i]) }

  lemma LowerIsLowered(s: string)
    ensures IsLowered(Lower(s)) && Lower(Lower(s)) == Lower(s)
  {
  }

  predicate StartsWith(s: string, p: string) { p <= s }

  predicate EndsWith(s: string, p: string) { |p| <= |s| && s[|s| - |p|..] == p }

  /** Python's `p in s`. */
  predicate Contains(s: string, p: string)
    decreases |s|
  {
    p <= s || (|s| > 0 && Contains(s[1..], p))
  }

  /** `s.find(c)` for one character is the first index holding it. */
  lemma {:induction false} FindChar(s: string, c: char, k: nat)
    requires k < |s| && s[k] == c && forall j :: 0 <= j < k ==> s[j] != c
    ensures Find(s, [c]) == Some(k)
    decreases k
  {
    if k > 0 {
      assert s[0] != c;
      FindChar(s[1..], c, k - 1);
    }
  }

  lemma ContainsAt(s: string, p: string, i: nat)
    requires i + |p| <= |s| && s[i..i + |p|] == p
    ensures Contains(s, p)
    decreases i
  {
    if i > 0 {
      assert s[1..][i - 1..i - 1 + |p|] == s[i..i + |p|];
      ContainsAt(s[1..], p, i - 1);
    }
  }

  lemma ContainsPrefixOf(s: string, t: string, p: string)
    requires Contains(s, p)
    ensures Contains(s + t, p)
    decreases |s|
  {
    if p <= s {
      assert p <= s + t;
    } else {
      assert (s + t)[1..] == s[1..] + t;
      ContainsPrefixOf(s[1..], t, p);
    }
  }

  lemma ContainsSuffixOf(s: string, t: string, p: string)
    requires Contains(t, p)
    ensures Contains(s + t, p)
    decreases |s|
  {
    if |s| > 0 {
      assert (s + t)[1..] == s[1..] + t;
      ContainsSuffixOf(s[1..], t, p);
    } else {
      assert s + t == t;
    }
  }

  lemma ContainsLength(s: string, p: string)
    requires Contains(s, p)
    ensures |p| <= |s|
    decreases |s|
  {
    if !(p <= s) { ContainsLength(s[1..], p); }
  }

  lemma NotContainsChar(s: string, c: char)
    requires forall i :: 0 <= i < |s| ==> s[i] != c
    ensures !Contains(s, [c])
    decreases |s|
  {
    if |s| > 0 {
      assert s[0] != c;
      NotContainsChar(s[1..], c);
    }
  }

  lemma ContainsCharIndex(s: string, c: char)
    requires Contains(s, [c])
    ensures exists i :: 0 <= i < |s| && s[i] == c
    decreases |s|
  {
    if !([c] <= s) {
      ContainsCharIndex(s[1..], c);
      var i :| 0 <= i < |s[1..]| && s[1..][i] == c;
      assert s[i + 1] == c;
    } else {
      assert s[0] == c;
    }
  }

  /** Python's `sep.join(parts)`. */
  function Join(sep: string, parts: seq<string>): (r: string)
    ensures |parts| == 1 ==> r == parts[0]
    ensures parts == [] ==> r == ""
  {
    if |parts| == 0 then ""
    else if |parts| == 1 then parts[0]
    else parts[0] + sep + Join(sep, parts[1..])
  }

  /** A join begins with its first part and ends with its last. */
  lemma {:induction false} JoinEnds(sep: string, parts: seq<string>)
    requires |parts| > 0
    ensures StartsWith(Join(sep, parts), parts[0])
    ensures EndsWith(Join(sep, parts), parts[|parts| - 1])
    decreases |parts|
  {
    if |parts| > 1 {
      JoinEnds(sep, parts[1..]);
      var r := Join(sep, parts[1..]);
      var last := parts[|parts| - 1];
      assert (parts[0] + sep + r)[|parts[0] + sep + r| - |last|..] == r[|r| - |last|..];
    }
  }

  /** Joining two non-empty runs of parts puts one separator between them. */
  lemma {:induction false} JoinAppend(sep: string, xs: seq<string>, ys: seq<string>)
    requires |xs| > 0 && |ys| > 0
    ensures Join(sep, xs + ys) == Join(sep, xs) + sep + Join(sep, ys)
    decreases |xs|
  {
    if |xs| == 1 {
      assert (xs + ys)[1..] == ys;
    } else {
      assert (xs + ys)[1..] == xs[1..] + ys;
      JoinAppend(sep, xs[1..], ys);
    }
  }

  /** Python's `s.split(sep)` for a one-character separator. */
  function Split(s: string, sep: char): (r: seq<string>)
    ensures |r| >= 1
    decreases |s|
  {
    if |s| == 0 then [""]
    else if s[0] == sep then [""] + Split(s[1..], sep)
    else
      var t := Split(s[1..], sep);
      [[s[0]] + t[0]] + t[1..]
  }

  lemma {:induction false} SplitJoin(s: string, sep: char)
    ensures Join([sep], Split(s, sep)) == s
    ensures forall k, i :: 0 <= k < |Split(s, sep)| && 0 <= i < |Split(s, sep)[k]| ==> Split(s, sep)[k][i] != sep
    decreases |s|
  {
    if |s| > 0 {
      SplitJoin(s[1..], sep);
      var t := Split(s[1..], sep);
      if s[0] == sep {
        assert Split(s, sep) == [""] + t;
      } else {
        var r := Split(s, sep);
        assert r == [[s[0]] + t[0]] + t[1..];
        if |t| == 1 {
          assert Join([sep], r) == [s[0]] + t[0];
        } else {
          assert r[1..] == t[1..];
          assert Join([sep], t) == t[0] + [sep] + Join([sep], t[1..]);
        }
        forall k, i | 0 <= k < |r| && 0 <= i < |r[k]| ensures r[k][i] != sep {
          if k == 0 {
            if i > 0 { assert r[0][i] == t[0][i - 1]; }
          } else {
            assert r[k] == t[k];
          }
        }
      }
    }
  }

  /** A piece without the separator, followed by the separator, splits off
      as one part. */
  lemma {:induction false} SplitAfterPiece(w: string, rest: string, sep: char)
    requires forall i :: 0 <= i < |w| ==> w[i] != sep
    ensures Split(w + [sep] + rest, sep) == [w] + Split(rest, sep)
    decreases |w|
  {
    var s := w + [sep] + rest;
    if w != [] {
      assert s[1..] == w[1..] + [sep] + rest;
      SplitAfterPiece(w[1..], rest, sep);
      assert w == [w[0]] + w[1..];
    } else {
      assert s[1..] == rest;
    }
  }

  lemma {:induction false} SplitPiece(w: string, sep: char)
    requires forall i :: 0 <= i < |w| ==> w[i] != sep
    ensures Split(w, sep) == [w]
    decreases |w|
  {
    if w != [] {
      SplitPiece(w[1..], sep);
      assert w == [w[0]] + w[1..];
    }
  }

  /** Splitting a join at its separator gives the parts back, when no part
      holds the separator. */
  lemma {:induction false} SplitOfJoin(parts: seq<string>, sep: char)
    requires |parts| >= 1
    requires forall k, i :: 0 <= k < |parts| && 0 <= i < |parts[k]| ==> parts[k][i] != sep
    ensures Split(Join([sep], parts), sep) == parts
    decreases |parts|
  {
    if |parts| == 1 {
      SplitPiece(parts[0], sep);
    } else {
      SplitOfJoin(parts[1..], sep);
      SplitAfterPiece(parts[0], Join([sep], parts[1..]), sep);
      assert parts == [parts[0]] + parts[1..];
    }
  }

  /** Stripping never brings in a character. */
  lemma StripKeepsOut(s: string, c: char)
    requires c !in s
    ensures c !in Strip(s)
  {
    var l := LStrip(s);
    assert l == s[|s| - |l|..];
    assert c !in l;
    var r := RStrip(l);
    assert r == l[..|r|];
  }

  /** Text that neither starts nor ends with whitespace is its own strip. */
  lemma StripUnpadded(s: string)
    requires |s| > 0 && !IsSpace(s[0]) && !IsSpace(s[|s| - 1])
    ensures Strip(s) == s
  {
  }

  /** Stripping twice is stripping once. */
  lemma StripIdempotent(s: string)
    ensures Strip(Strip(s)) == Strip(s)
  {
    var r := Strip(s);
    if r != "" {
      StripUnpadded(r);
    }
  }

  /** Every character of a substring occurs in the string. */
  lemma {:induction false} ContainsMembers(s: string, p: string, c: char)
    requires Contains(s, p) && c in p
    ensures c in s
    decreases |s|
  {
    if p <= s {
      var i :| 0 <= i < |p| && p[i] == c;
      assert s[i] == c;
    } else {
      ContainsMembers(s[1..], p, c);
      var j :| 0 <= j < |s[1..]| && s[1..][j] == c;
      assert s[j + 1] == c;
    }
  }

  /** Splitting at the first separator of `a + [sep] + b`, where `a` holds
      none, gives `a` and `b` back. */
  lemma {:induction false} SplitFirstAt(a: string, b: string, sep: char)
    requires sep !in a
    ensures SplitFirst(a + [sep] + b, sep) == (a, Some(b))
    decreases |a|
  {
    var s := a + [sep] + b;
    if a == "" {
      assert s[1..] == b;
    } else {
      assert s[1..] == a[1..] + [sep] + b;
      SplitFirstAt(a[1..], b, sep);
      assert [a[0]] + a[1..] == a;
    }
  }

  /** A text without the separator does not split. */
  lemma SplitFirstNone(a: string, sep: char)
    requires sep !in a
    ensures SplitFirst(a, sep) == (a, None)
  {
  }

  /** `s.rsplit(c, 1)[-1]`: the text after the last `c`, or all of `s`. */
  function LastAfter(s: string, c: char): (r: string)
    ensures |r| <= |s| && r == s[|s| - |r|..] && c !in r
    ensures |r| < |s| ==> s[|s| - |r| - 1] == c
    decreases |s|
  {
    if s == "" || s[|s| - 1] == c then "" else LastAfter(s[..|s| - 1], c) + [s[|s| - 1]]
  }

  /** What follows the last `c` is read back when it holds no `c`. */
  lemma {:induction false} LastAfterOf(x: string, h: string, c: char)
    requires c !in h
    ensures LastAfter(x + [c] + h, c) == h
    decreases |h|
  {
    var s := x + [c] + h;
    if h == "" {
      assert s[|s| - 1] == c;
    } else {
      var h' := h[..|h| - 1];
      assert s[..|s| - 1] == x + [c] + h';
      assert s[|s| - 1] == h[|h| - 1];
      LastAfterOf(x, h', c);
      assert h' + [h[|h| - 1]] == h;
    }
  }

  /** Python's `s.split(sep, 1)` for a one-character separator: the text
      before the first separator and, if there is one, the text after it. */
  function SplitFirst(s: string, sep: char): (r: (string, Option<string>))
    ensures r.1.None? ==> r.0 == s && forall i :: 0 <= i < |s| ==> s[i] != sep
    ensures r.1.Some? ==> s == r.0 + [sep] + r.1.value
    ensures forall i :: 0 <= i < |r.0| ==> r.0[i] != sep
    decreases |s|
  {
    if |s| == 0 then ("", None)
    else if s[0] == sep then ("", Some(s[1..]))
    else
      var t := SplitFirst(s[1..], sep);
      ([s[0]] + t.0, t.1)
  }

  function LStrip(s: string): (r: string)
    ensures |r| <= |s| && r == s[|s| - |r|..]
    ensures r == "" || !IsSpace(r[0])
    ensures forall i :: 0 <= i < |s| - |r| ==> IsSpace(s[i])
    decreases |s|
  {
    if |s| > 0 && IsSpace(s[0]) then LStrip(s[1..]) else s
  }

  function RStrip(s: string): (r: string)
    ensures |r| <= |s| && r == s[..|r|]
    ensures r == "" || !IsSpace(r[|r| - 1])
    ensures forall i :: |r| <= i < |s| ==> IsSpace(s[i])
    decreases |s|
  {
    if |s| > 0 && IsSpace(s[|s| - 1]) then RStrip(s[..|s| - 1]) else s
  }

  /** Python's `s.strip()`. */
  function Strip(s: string): (r: string)
    ensures |r| <= |s|
    ensures r == "" || (!IsSpace(r[0]) && !IsSpace(r[|r| - 1]))
  {
    RStrip(LStrip(s))
  }

  lemma StripEmpty()
    ensures Strip("") == ""
  {
  }

  /** Python's `s.strip(c)`, `s.lstrip(c)` and `s.rstrip(c)` for one character `c`. */
  function LStripChar(s: string, c: char): (r: string)
    ensures |r| <= |s| && r == s[|s| - |r|..] && (r == "" || r[0] != c)
    decreases |s|
  {
    if |s| > 0 && s[0] == c then LStripChar(s[1..], c) else s
  }

  function RStripChar(s: string, c: char): (r: string)
    ensures |r| <= |s| && r == s[..|r|] && (r == "" || r[|r| - 1] != c)
    decreases |s|
  {
    if |s| > 0 && s[|s| - 1] == c then RStripChar(s[..|s| - 1], c) else s
  }

  function StripChar(s: string, c: char): string {
    RStripChar(LStripChar(s, c), c)
  }

  /** The longest prefix of `s` without whitespace. */
  function Word(s: string): (w: string)
    ensures w <= s
    ensures forall i :: 0 <= i < |w| ==> !IsSpace(s[i])
    ensures |w| < |s| ==> IsSpace(s[|w|])
    decreases |s|
  {
    if |s| == 0 || IsSpace(s[0]) then "" else [s[0]] + Word(s[1..])
  }

  /** Python's `s.split()` with no argument: the maximal runs of non-whitespace. */
  predicate IsToken(w: string) { |w| > 0 && forall i :: 0 <= i < |w| ==> !IsSpace(w[i]) }

  function SplitWs(s: string): (r: seq<string>)
    ensures forall k :: 0 <= k < |r| ==> IsToken(r[k])
    decreases |s|
  {
    var t := LStrip(s);
    if t == "" then []
    else
      var w := Word(t);
      WordToken(t);
      var rest := SplitWs(t[|w|..]);
      TokensCons(w, rest);
      [w] + rest
  }

  /** The first word of a text is the whole of a blank-free prefix that a
      blank, or the end, follows. */
  lemma {:induction false} WordOfPrefix(w: string, x: string)
    requires forall i :: 0 <= i < |w| ==> !IsSpace(w[i])
    requires x == "" || IsSpace(x[0])
    ensures Word(w + x) == w
    decreases |w|
  {
    if w != [] {
      assert (w + x)[1..] == w[1..] + x;
      WordOfPrefix(w[1..], x);
      assert w == [w[0]] + w[1..];
    } else {
      assert w + x == x;
    }
  }

  /** Splitting tokens joined by single blanks gives them back. */
  lemma {:induction false} SplitWsJoin(toks: seq<string>)
    requires forall k :: 0 <= k < |toks| ==> IsToken(toks[k])
    ensures SplitWs(Join(" ", toks)) == toks
    decreases |toks|
  {
    if |toks| <= 1 {
      SplitWsJoinShort(toks);
    } else {
      SplitWsJoin(toks[1..]);
      SplitWsJoinCons(toks);
    }
  }

  lemma SplitWsJoinShort(toks: seq<string>)
    requires |toks| <= 1 && forall k :: 0 <= k < |toks| ==> IsToken(toks[k])
    ensures SplitWs(Join(" ", toks)) == toks
  {
    SplitWsEmpty();
    if |toks| == 1 {
      AppendEmpty(toks[0]);
      SplitWsHead(toks[0], "");
      SeqCons(toks);
    }
  }

  lemma AppendEmpty(w: string)
    ensures w + "" == w
  {
  }

  lemma SeqCons<T>(xs: seq<T>)
    requires xs != []
    ensures xs == [xs[0]] + xs[1..]
  {
  }

  lemma JoinCons(toks: seq<string>)
    requires |toks| > 1
    ensures Join(" ", toks) == toks[0] + (" " + Join(" ", toks[1..]))
  {
    Seqs.AppendAssoc(toks[0], " ", Join(" ", toks[1..]));
  }

  lemma SplitWsEmpty()
    ensures SplitWs("") == []
  {
    assert LStrip("") == "";
  }

  lemma SplitWsJoinCons(toks: seq<string>)
    requires |toks| > 1 && IsToken(toks[0])
    requires SplitWs(Join(" ", toks[1..])) == toks[1..]
    ensures SplitWs(Join(" ", toks)) == toks
  {
    var j := Join(" ", toks[1..]);
    JoinCons(toks);
    SplitWsHead(toks[0], " " + j);
    SplitWsBlank(j);
    SeqCons(toks);
  }

  lemma SplitWsBlank(j: string)
    ensures SplitWs(" " + j) == SplitWs(j)
  {
    assert (" " + j)[1..] == j;
    assert LStrip(" " + j) == LStrip(j);
  }

  /** A token followed by a blank, or by nothing, is split off first. */
  lemma SplitWsHead(w: string, x: string)
    requires IsToken(w) && (x == "" || IsSpace(x[0]))
    ensures SplitWs(w + x) == [w] + SplitWs(x)
  {
    var s := w + x;
    assert !IsSpace(s[0]);
    assert LStrip(s) == s;
    WordOfPrefix(w, x);
    assert s[|w|..] == x;
  }

  /** `w` occurs in `s` at `i` with a blank, or an end of `s`, on each side. */
  predicate AloneAt(s: string, w: string, i: int) {
    0 <= i && i + |w| <= |s| && s[i..i + |w|] == w
    && (i == 0 || IsSpace(s[i - 1])) && (i + |w| == |s| || IsSpace(s[i + |w|]))
  }

  predicate StandsAlone(s: string, w: string) {
    exists i :: 0 <= i <= |s| && AloneAt(s, w, i)
  }

  /** A token is one of the words of `s.split()` exactly when it stands
      alone somewhere in `s`. */
  lemma {:induction false} InSplitWs(s: string, w: string)
    requires IsToken(w)
    ensures w in SplitWs(s) <==> StandsAlone(s, w)
    decreases |s|
  {
    var t := LStrip(s);
    LStripAlone(s, w);
    if t == "" {
      assert !AloneAt(t, w, 0);
    } else {
      var w0 := Word(t);
      WordToken(t);
      var rest := t[|w0|..];
      assert SplitWs(s) == [w0] + SplitWs(rest);
      WordAlone(t, w);
      InSplitWs(rest, w);
    }
  }

  /** Leading blanks do not change which tokens stand alone. */
  lemma LStripAlone(s: string, w: string)
    requires IsToken(w)
    ensures StandsAlone(s, w) <==> StandsAlone(LStrip(s), w)
  {
    if StandsAlone(s, w) {
      LStripAloneOnly(s, w);
    }
    if StandsAlone(LStrip(s), w) {
      LStripAloneIf(s, w);
    }
  }

  lemma LStripAloneOnly(s: string, w: string)
    requires IsToken(w) && StandsAlone(s, w)
    ensures StandsAlone(LStrip(s), w)
  {
    var t := LStrip(s);
    var off := |s| - |t|;
    var i :| 0 <= i <= |s| && AloneAt(s, w, i);
    BlankPrefixAlone(s, t, w, off, i);
    assert AloneAt(t, w, i - off);
  }

  /** A token standing alone in `s` starts past the blanks that lead `s`. */
  lemma BlankPrefixAlone(s: string, t: string, w: string, off: nat, i: nat)
    requires off <= |s| && t == s[off..] && IsToken(w) && AloneAt(s, w, i)
    requires forall j :: 0 <= j < off ==> IsSpace(s[j])
    ensures off <= i && AloneAt(t, w, i - off)
  {
    assert s[i] == s[i..i + |w|][0] == w[0];
    ShiftAlone(s, t, w, off, i - off);
  }

  lemma LStripAloneIf(s: string, w: string)
    requires IsToken(w) && StandsAlone(LStrip(s), w)
    ensures StandsAlone(s, w)
  {
    var t := LStrip(s);
    var off := |s| - |t|;
    var k :| 0 <= k <= |t| && AloneAt(t, w, k);
    ShiftAlone(s, t, w, off, k);
    assert AloneAt(s, w, off + k);
  }

  /** An occurrence in a suffix `t` of `s` at `k` is the occurrence in `s`
      at `off + k`; its sides agree when blanks precede `t`. */
  lemma ShiftAlone(s: string, t: string, w: string, off: nat, k: nat)
    requires off <= |s| && t == s[off..] && IsToken(w)
    requires forall j :: 0 <= j < off ==> IsSpace(s[j])
    ensures AloneAt(t, w, k) <==> AloneAt(s, w, off + k)
  {
    var i := off + k;
    if k + |w| <= |t| {
      assert s[i..i + |w|] == t[k..k + |w|];
      if k > 0 { assert t[k - 1] == s[i - 1]; }
      if k + |w| < |t| { assert t[k + |w|] == s[i + |w|]; }
    }
  }

  /** Past the first word of a text, a token stands alone exactly when it
      is that word or stands alone in the rest. */
  lemma WordAlone(t: string, w: string)
    requires t != "" && !IsSpace(t[0]) && IsToken(w)
    ensures StandsAlone(t, w) <==> w == Word(t) || StandsAlone(t[|Word(t)|..], w)
  {
    if StandsAlone(t, w) {
      WordAloneOnly(t, w);
    }
    if w == Word(t) {
      WordAloneAtStart(t, w);
    }
    if StandsAlone(t[|Word(t)|..], w) {
      RestAlone(t, w);
    }
  }

  lemma WordAloneOnly(t: string, w: string)
    requires t != "" && !IsSpace(t[0]) && IsToken(w) && StandsAlone(t, w)
    ensures w == Word(t) || StandsAlone(t[|Word(t)|..], w)
  {
    var n := |Word(t)|;
    var i :| 0 <= i <= |t| && AloneAt(t, w, i);
    if i == 0 {
      WordAloneAtStart(t, w);
    } else {
      WordNotInside(t, w, i);
      ShiftTail(t, w, n, i - n);
      assert AloneAt(t[n..], w, i - n);
    }
  }

  lemma RestAlone(t: string, w: string)
    requires t != "" && IsToken(w) && StandsAlone(t[|Word(t)|..], w)
    ensures StandsAlone(t, w)
  {
    var n := |Word(t)|;
    var k :| 0 <= k <= |t[n..]| && AloneAt(t[n..], w, k);
    RestStartsBlank(t, w, k);
    ShiftTail(t, w, n, k);
    assert AloneAt(t, w, n + k);
  }

  /** At the start of a text a token stands alone exactly when it is the
      first word. */
  lemma WordAloneAtStart(t: string, w: string)
    requires t != "" && !IsSpace(t[0]) && IsToken(w)
    ensures AloneAt(t, w, 0) <==> w == Word(t)
  {
    var w0 := Word(t);
    var n := |w0|;
    if AloneAt(t, w, 0) {
      assert t[..|w|] == w;
      if |w| < n || |w| > n { assert false; }
      assert t[..n] == w0;
    }
    if w == w0 {
      assert t[..n] == w0;
      assert t[0..n] == t[..n];
    }
  }

  /** No token stands alone from a position inside the first word. */
  lemma WordNotInside(t: string, w: string, i: nat)
    requires t != "" && !IsSpace(t[0]) && IsToken(w) && 0 < i && AloneAt(t, w, i)
    ensures i > |Word(t)|
  {
    var w0 := Word(t);
    if i <= |w0| {
      assert false;
    }
  }

  /** The rest after the first word starts with a blank, so no token stands
      alone at its start. */
  lemma RestStartsBlank(t: string, w: string, k: nat)
    requires t != "" && IsToken(w) && AloneAt(t[|Word(t)|..], w, k)
    ensures k > 0
  {
    var rest := t[|Word(t)|..];
    if k == 0 {
      assert false;
    }
  }

  /** An occurrence in `t[n..]` away from its start is one in `t`. */
  lemma ShiftTail(t: string, w: string, n: nat, k: nat)
    requires n <= |t| && 0 < k && IsToken(w)
    ensures AloneAt(t[n..], w, k) <==> AloneAt(t, w, n + k)
  {
    var rest := t[n..];
    var i := n + k;
    if k + |w| <= |rest| {
      assert t[i..i + |w|] == rest[k..k + |w|];
      assert rest[k - 1] == t[i - 1];
      if k + |w| < |rest| { assert rest[k + |w|] == t[i + |w|]; }
    }
  }

  /** Lowering a character keeps it blank or not, a word character or not. */
  lemma LowerCharKinds(c: char)
    ensures IsSpace(LowerChar(c)) == IsSpace(c)
    ensures IsWordChar(LowerChar(c)) == IsWordChar(c)
  {
  }

  lemma LowerTwice(s: string)
    ensures Lower(Lower(s)) == Lower(s)
  {
  }

  /** An occurrence standing alone stays alone, lowered, in the lowered text. */
  lemma AloneLower(s: string, u: string, i: int)
    requires AloneAt(s, u, i)
    ensures AloneAt(Lower(s), Lower(u), i)
  {
    var l := Lower(s);
    assert l[i..i + |u|] == Lower(u);
    if i > 0 { LowerCharKinds(s[i - 1]); }
    if i + |u| < |s| { LowerCharKinds(s[i + |u|]); }
  }

  /** An occurrence standing alone in the lowered text is the lowering of
      one standing alone in the text. */
  lemma AloneUnlower(s: string, w: string, i: int)
    requires AloneAt(Lower(s), w, i)
    ensures AloneAt(s, s[i..i + |w|], i) && Lower(s[i..i + |w|]) == w
  {
    var l := Lower(s);
    assert Lower(s[i..i + |w|]) == l[i..i + |w|];
    if i > 0 { LowerCharKinds(s[i - 1]); }
    if i + |w| < |s| { LowerCharKinds(s[i + |w|]); }
  }

  /** Two texts with the same tokens have the same tokens once lowered. */
  lemma SameTokensLower(a: string, c: string, w: string)
    requires SplitWs(a) == SplitWs(c) && IsToken(w) && StandsAlone(Lower(a), w)
    ensures StandsAlone(Lower(c), w)
  {
    var i :| 0 <= i <= |Lower(a)| && AloneAt(Lower(a), w, i);
    AloneUnlower(a, w, i);
    var u := a[i..i + |w|];
    forall k | 0 <= k < |u| ensures !IsSpace(u[k]) {
      LowerCharKinds(u[k]);
      assert Lower(u)[k] == w[k];
    }
    assert AloneAt(a, u, i);
    InSplitWs(a, u);
    InSplitWs(c, u);
    var j :| 0 <= j <= |c| && AloneAt(c, u, j);
    AloneLower(c, u, j);
    assert AloneAt(Lower(c), w, j);
  }

  /** What a collapsed text looks like: no blank at either end, and every
      blank is a single space followed by a non-blank. */
  predicate Collapsed(r: string) {
    (r == "" || (!IsSpace(r[0]) && !IsSpace(r[|r| - 1])))
    && forall i :: 0 <= i < |r| && IsSpace(r[i]) ==> r[i] == ' ' && i + 1 < |r| && !IsSpace(r[i + 1])
  }

  lemma {:induction false} JoinCollapsed(toks: seq<string>)
    requires forall k :: 0 <= k < |toks| ==> IsToken(toks[k])
    ensures Collapsed(Join(" ", toks))
    decreases |toks|
  {
    if |toks| > 1 {
      var w := toks[0];
      var j := Join(" ", toks[1..]);
      JoinCollapsed(toks[1..]);
      var s := Join(" ", toks);
      assert s == w + " " + j;
      assert j != "" by { assert IsToken(toks[1]); JoinHead(toks[1..]); }
      forall i | 0 <= i < |s| && IsSpace(s[i]) ensures s[i] == ' ' && i + 1 < |s| && !IsSpace(s[i + 1]) {
        if i < |w| {
          assert false;
        } else if i == |w| {
          assert s[i + 1] == j[0];
        } else {
          var k := i - |w| - 1;
          assert s[i] == j[k];
          assert s[i + 1] == j[k + 1];
        }
      }
      assert s[|s| - 1] == j[|j| - 1];
    }
  }

  /** A join of tokens starts with the first token. */
  lemma JoinHead(toks: seq<string>)
    requires |toks| > 0 && IsToken(toks[0])
    ensures Join(" ", toks) != "" && Join(" ", toks)[0] == toks[0][0]
  {
    if |toks| > 1 {
      assert Join(" ", toks) == toks[0] + " " + Join(" ", toks[1..]);
    }
  }

  lemma TokensCons(w: string, rest: seq<string>)
    requires IsToken(w) && forall k :: 0 <= k < |rest| ==> IsToken(rest[k])
    ensures forall k :: 0 <= k < |[w] + rest| ==> IsToken(([w] + rest)[k])
  {
    forall k | 0 <= k < |[w] + rest| ensures IsToken(([w] + rest)[k]) {
      if k > 0 {
        assert ([w] + rest)[k] == rest[k - 1];
      }
    }
  }

  /** The first word of a text that starts with a non-space is a token. */
  lemma WordToken(t: string)
    requires t != "" && !IsSpace(t[0])
    ensures IsToken(Word(t)) && 0 < |Word(t)| <= |t|
  {
    var w := Word(t);
    assert w[0] == t[0];
  }

  predicate IsLineBreak(c: char) {
    c == '\n' || c == '\r' || c == '\U{000B}' || c == '\U{000C}' || c == '\U{001C}'
    || c == '\U{001D}' || c == '\U{001E}' || c == '\U{0085}' || c == '\U{2028}' || c == '\U{2029}'
  }

  /** The length of the first line of `s`, without its line break. */
  function LineLength(s: string): (n: nat)
    ensures n <= |s|
    ensures forall i :: 0 <= i < n ==> !IsLineBreak(s[i])
    ensures n < |s| ==> IsLineBreak(s[n])
    decreases |s|
  {
    if |s| == 0 || IsLineBreak(s[0]) then 0 else 1 + LineLength(s[1..])
  }

  /** Python's `s.splitlines()`: `\r\n` is one break and no empty last line is produced. */
  function SplitLines(s: string): (r: seq<string>)
    ensures forall k :: 0 <= k < |r| ==> forall i :: 0 <= i < |r[k]| ==> !IsLineBreak(r[k][i])
    decreases |s|
  {
    if s == "" then []
    else
      var n := LineLength(s);
      if n == |s| then [s]
      else
        var next := if s[n] == '\r' && n + 1 < |s| && s[n + 1] == '\n' then n + 2 else n + 1;
        [s[..n]] + SplitLines(s[next..])
  }

  /** The first line of a non-empty text runs up to its first line break. */
  lemma SplitLinesFirst(s: string)
    requires s != ""
    ensures SplitLines(s) != [] && SplitLines(s)[0] == s[..LineLength(s)]
  {
  }

  /** Python's `s.count(p)` for a non-empty `p`: non-overlapping occurrences
      scanning left to right. It is also the length of `re.findall` for a
      pattern that is a plain literal. */
  function CountOcc(s: string, p: string): (n: nat)
    requires |p| > 0
    ensures n > 0 <==> Contains(s, p)
    ensures n <= |s|
    decreases |s|
  {
    if |s| == 0 then (assert !Contains(s, p) by { if p <= s {} } 0)
    else if p <= s then
      ContainsAt(s, p, 0);
      1 + CountOcc(s[|p|..], p)
    else
      var n := CountOcc(s[1..], p);
      if n > 0 then n else 0
  }

  /** Python's `s.replace(old, new)` for a non-empty `old`. */
  function Replace(s: string, pat: string, repl: string): (r: string)
    requires |pat| > 0
    ensures !Contains(s, pat) ==> r == s
    decreases |s|
  {
    if |s| == 0 then ""
    else if pat <= s then repl + Replace(s[|pat|..], pat, repl)
    else [s[0]] + Replace(s[1..], pat, repl)
  }

  function DigitChar(d: nat): char
    requires d < 10
  {
    ('0' as int + d) as char
  }

  /** Python's `str(n)` for a natural number. */
  function NatToString(n: nat): (r: string)
    ensures |r| > 0 && forall i :: 0 <= i < |r| ==> IsDigit(r[i])
    decreases n
  {
    if n < 10 then [DigitChar(n)] else NatToString(n / 10) + [DigitChar(n % 10)]
  }

  /** Python's `str(i)` for an integer. */
  function IntToString(i: int): string {
    if i < 0 then "-" + NatToString(-i) else NatToString(i)
  }

  predicate AllDigits(s: string) { forall i :: 0 <= i < |s| ==> IsDigit(s[i]) }

  function DigitsValue(s: string): (n: nat)
    requires AllDigits(s)
    decreases |s|
  {
    if |s| == 0 then 0 else DigitsValue(s[..|s| - 1]) * 10 + (s[|s| - 1] as int - '0' as int)
  }

  lemma {:induction false} NatToStringValue(n: nat)
    ensures DigitsValue(NatToString(n)) == n
    decreases n
  {
    if n >= 10 {
      NatToStringValue(n / 10);
      var s := NatToString(n);
      assert s[..|s| - 1] == NatToString(n / 10);
    }
  }

  /** Digits, optionally separated by single underscores, as Python's integer
      literal grammar allows: `1_000` but not `_1`, `1_` or `1__0`. */
  predicate IsDigitGroup(s: string) {
    |s| > 0 && IsDigit(s[0]) && IsDigit(s[|s| - 1])
    && (forall i :: 0 <= i < |s| ==> IsDigit(s[i]) || s[i] == '_')
    && (forall i :: 0 <= i < |s| - 1 ==> !(s[i] == '_' && s[i + 1] == '_'))
  }

  function RemoveUnderscores(s: string): (r: string)
    ensures (forall i :: 0 <= i < |s| ==> IsDigit(s[i]) || s[i] == '_') ==> AllDigits(r)
    decreases |s|
  {
    if |s| == 0 then "" else (if s[0] == '_' then "" else [s[0]]) + RemoveUnderscores(s[1..])
  }

  /** Python's `int(s)` for a base-10 string: surrounding whitespace, an
      optional sign and digit groups; `None` where Python raises ValueError. */
  function ParseInt(s: string): (r: Option<int>)
    ensures r.Some? ==> IsDigitGroup(ParseBody(Strip(s)))
  {
    var t := Strip(s);
    var body := ParseBody(t);
    if !IsDigitGroup(body) then None
    else
      var v: int := DigitsValue(RemoveUnderscores(body));
      Some(if |t| > 0 && t[0] == '-' then -v else v)
  }

  /** The text after an optional leading sign. */
  function ParseBody(t: string): string {
    if |t| > 0 && (t[0] == '-' || t[0] == '+') then t[1..] else t
  }

  lemma RemoveUnderscoresDigits(s: string)
    requires AllDigits(s)
    ensures RemoveUnderscores(s) == s
  {
  }

  lemma ParseDigits(s: string)
    requires AllDigits(s) && |s| > 0
    ensures ParseInt(s) == Some(DigitsValue(s))
  {
    StripDigits(s);
    assert ParseBody(s) == s;
    assert IsDigitGroup(s);
    RemoveUnderscoresDigits(s);
  }

  lemma StripDigits(s: string)
    requires AllDigits(s) && |s| > 0
    ensures Strip(s) == s
  {
    assert !IsSpace(s[0]) && !IsSpace(s[|s| - 1]);
    assert LStrip(s) == s;
    assert RStrip(s) == s;
  }

  lemma ParseNat(n: nat)
    ensures ParseInt(NatToString(n)) == Some(n)
  {
    NatToStringValue(n);
    ParseDigits(NatToString(n));
  }

  /** `s.find(p)`: the first index where `p` occurs in `s`. */
  function Find(s: string, p: string): (r: Option<nat>)
    ensures r.Some? ==> r.value + |p| <= |s| && s[r.value..r.value + |p|] == p
    ensures r.Some? ==> forall j :: 0 <= j < r.value ==> !(p <= s[j..])
    ensures r.None? <==> !Contains(s, p)
    decreases |s|
  {
    if p <= s then Some(0)
    else if |s| == 0 then None
    else
      match Find(s[1..], p)
      case None => None
      case Some(i) =>
        assert forall j :: 1 <= j <= i ==> s[j..] == s[1..][j - 1..];
        Some(i + 1)
  }

  /** `Find` reports an occurrence only where there is one. */
  lemma FoundContains(s: string, p: string)
    requires Find(s, p).Some?
    ensures Contains(s, p)
  {
  }

  /** Where the first occurrence of `p`, at `i`, is followed by the single
      character `c`, it is also the first occurrence of `p + c`. */
  lemma FindExtended(s: string, p: string, c: string, i: nat)
    requires |c| == 1
    requires Find(s, p) == Some(i) && i + |p| < |s| && s[i + |p|] == c[0]
    ensures Find(s, p + c) == Some(i)
  {
    FirstExtended(s, p, c, i);
  }

  lemma FirstExtended(s: string, p: string, c: string, i: nat)
    requires |c| == 1 && i + |p| < |s| && s[i..i + |p|] == p && s[i + |p|] == c[0]
    requires forall k :: 0 <= k < i ==> !(p <= s[k..])
    ensures Find(s, p + c) == Some(i)
  {
    SliceExtended(s, p, c, i);
    NoEarlierExtension(s, p, c, i);
    FindAt(s, p + c, i);
  }

  /** `p` at `i` followed by `c` is `p + c` at `i`. */
  lemma SliceExtended(s: string, p: string, c: string, i: nat)
    requires |c| == 1 && i + |p| < |s| && s[i..i + |p|] == p && s[i + |p|] == c[0]
    ensures i + |p + c| <= |s| && s[i..i + |p + c|] == p + c
  {
    assert s[i..i + |p| + 1] == s[i..i + |p|] + [s[i + |p|]];
  }

  /** No `p` before `i` means no `p + c` before `i`. */
  lemma NoEarlierExtension(s: string, p: string, c: string, i: nat)
    requires i <= |s| && forall k :: 0 <= k < i ==> !(p <= s[k..])
    ensures forall k :: 0 <= k < i ==> !(p + c <= s[k..])
  {
  }

  /** An occurrence with none before it is the one `Find` returns. */
  lemma FindAt(s: string, p: string, i: nat)
    requires i + |p| <= |s| && s[i..i + |p|] == p
    requires forall k :: 0 <= k < i ==> !(p <= s[k..])
    ensures Find(s, p) == Some(i)
  {
    ContainsAt(s, p, i);
    var j := Find(s, p).value;
    SliceIsPrefix(s, p, i);
    SliceIsPrefix(s, p, j);
  }

  /** An occurrence at `j` makes `p` a prefix of the text from `j`. */
  lemma SliceIsPrefix(s: string, p: string, j: nat)
    requires j + |p| <= |s| && s[j..j + |p|] == p
    ensures p <= s[j..]
  {
    assert s[j..][..|p|] == s[j..j + |p|];
  }

  /** The index of the last occurrence of `c` in `s`. */
  function RFind(s: string, c: char): (r: Option<nat>)
    ensures r.Some? ==> r.value < |s| && s[r.value] == c && forall j :: r.value < j < |s| ==> s[j] != c
    ensures r.None? ==> forall j :: 0 <= j < |s| ==> s[j] != c
    decreases |s|
  {
    if |s| == 0 then None
    else if s[|s| - 1] == c then Some(|s| - 1)
    else RFind(s[..|s| - 1], c)
  }

  /** `os.path.basename`: everything after the last `/`. */
  function Basename(p: string): (r: string)
    ensures |r| <= |p| && r == p[|p| - |r|..]
    ensures forall i :: 0 <= i < |r| ==> r[i] != '/'
  {
    match RFind(p, '/')
    case None => p
    case Some(i) => p[i + 1..]
  }

  /** `pathlib.PurePosixPath(p).name`: the last component once empty and `.`
      components are dropped. */
  function PathName(p: string): (r: string)
    ensures forall i :: 0 <= i < |r| ==> r[i] != '/'
  {
    var parts := Split(p, '/');
    SplitJoin(p, '/');
    LastComponent(parts)
  }

  function LastComponent(parts: seq<string>): (r: string)
    requires forall k, i :: 0 <= k < |parts| && 0 <= i < |parts[k]| ==> parts[k][i] != '/'
    ensures forall i :: 0 <= i < |r| ==> r[i] != '/'
    decreases |parts|
  {
    if |parts| == 0 then ""
    else
      var last := parts[|parts| - 1];
      if last == "" || last == "." then LastComponent(parts[..|parts| - 1]) else last
  }

  /** `PurePosixPath(p).suffix`: from the last `.` of the name, when that dot
      is neither the first nor the last character. */
  function PathSuffix(p: string): (r: string)
    ensures r == "" || (r[0] == '.' && EndsWith(PathName(p), r) && |r| < |PathName(p)|)
  {
    var name := PathName(p);
    match RFind(name, '.')
    case Some(i) => if 0 < i < |name| - 1 then name[i..] else ""
    case None => ""
  }

  /** `PurePosixPath(p).stem`: the name without its suffix. */
  function PathStem(p: string): (r: string)
    ensures r + PathSuffix(p) == PathName(p)
  {
    var name := PathName(p);
    var suf := PathSuffix(p);
    name[..|name| - |suf|]
  }

  /** Python's `xs[:n]`. */
  function Take<T>(xs: seq<T>, n: nat): (r: seq<T>)
    ensures |r| == if |xs| < n then |xs| else n
    ensures r <= xs
  {
    if |xs| <= n then xs else xs[..n]
  }

  /** Python's `xs[:n]` for any integer `n`: a negative `n` counts from the end. */
  function PySliceTo<T>(xs: seq<T>, n: int): (r: seq<T>)
    ensures r <= xs
    ensures 0 <= n ==> r == Take(xs, n)
    ensures n < 0 ==> |r| == if |xs| + n < 0 then 0 else |xs| + n
  {
    if 0 <= n then Take(xs, n)
    else if |xs| + n < 0 then []
    else xs[..|xs| + n]
  }
}
