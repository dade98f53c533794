/**
 * The parts of Python's `str` behaviour that the data manager relies on:
 * `strip()`, `find()`, `split(sep)`, `sep.join(...)`, `splitlines()`,
 * `int()` and `str()` on integers, and `<=` between strings.
 */
module Strings {
  import opened Wrappers

  /** `c.isspace()`: Python's whitespace characters. */
  predicate IsSpace(c: char) {
    c == ' ' || ('\t' <= c <= '\r') || ('\U{1c}' <= c <= '\U{1f}') || c == '\U{85}' || c == '\U{a0}'
    || c == '\U{1680}' || ('\U{2000}' <= c <= '\U{200a}') || c == '\U{2028}' || c == '\U{2029}'
    || c == '\U{202f}' || c == '\U{205f}' || c == '\U{3000}'
  }

  /** `s.lstrip()` */
  function TrimStart(s: string): (r: string)
    ensures |r| <= |s| && r == s[|s| - |r|..]
    ensures forall i :: 0 <= i < |s| - |r| ==> IsSpace(s[i])
    ensures r == [] || !IsSpace(r[0])
  {
    if s != [] && IsSpace(s[0]) then TrimStart(s[1..]) else s
  }

  /** `s.rstrip()` */
  function TrimEnd(s: string): (r: string)
    ensures |r| <= |s| && r == s[..|r|]
    ensures forall i :: |r| <= i < |s| ==> IsSpace(s[i])
    ensures r == [] || !IsSpace(r[|r| - 1])
  {
    if s != [] && IsSpace(s[|s| - 1]) then TrimEnd(s[..|s| - 1]) else s
  }

  /** `s.strip()`: `s` without its leading and trailing whitespace. */
  function Strip(s: string): (r: string)
    ensures |r| <= |s|
    ensures r == [] || (!IsSpace(r[0]) && !IsSpace(r[|r| - 1]))
  {
    TrimEnd(TrimStart(s))
  }

  /** A string that neither starts nor ends with whitespace is its own `strip()`. */
  lemma StripUnchanged(s: string)
    requires s == [] || (!IsSpace(s[0]) && !IsSpace(s[|s| - 1]))
    ensures Strip(s) == s
  {
  }

  /** Stripping twice is stripping once. */
  lemma StripIdempotent(s: string)
    ensures Strip(Strip(s)) == Strip(s)
  {
    StripUnchanged(Strip(s));
  }

  /** `s.strip()` is empty exactly when `s` is all whitespace. */
  lemma StripEmptyIffBlank(s: string)
    ensures Strip(s) == [] <==> forall i :: 0 <= i < |s| ==> IsSpace(s[i])
  {
    var t := TrimStart(s);
    if Strip(s) == [] {
      assert t == [];
    }
    if forall i :: 0 <= i < |s| ==> IsSpace(s[i]) {
      if t != [] {
        assert t[0] == s[|s| - |t|];
      }
    }
  }

  /** `pat` occurs in `s` at position `i`. */
  predicate OccursAt(s: string, pat: string, i: int) {
    0 <= i && i + |pat| <= |s| && s[i..i + |pat|] == pat
  }

  /** The lowest position at or after `from` where `pat` occurs in `s`, or -1. */
  function FindFrom(s: string, pat: string, from: nat): (r: int)
    requires from <= |s|
    ensures r == -1 || (from <= r && OccursAt(s, pat, r))
    ensures forall i :: from <= i && (r == -1 || i < r) ==> !OccursAt(s, pat, i)
    decreases |s| - from
  {
    if from + |pat| > |s| then -1
    else if s[from..from + |pat|] == pat then from
    else FindFrom(s, pat, from + 1)
  }

  /** `s.find(pat)`: the lowest position where `pat` occurs in `s`, or -1. */
  function Find(s: string, pat: string): (r: int)
    ensures r == -1 || OccursAt(s, pat, r)
    ensures forall i :: 0 <= i && (r == -1 || i < r) ==> !OccursAt(s, pat, i)
  {
    FindFrom(s, pat, 0)
  }

  /** A one-character pattern occurs exactly where that character is. */
  lemma OccursAtChar(s: string, c: char, i: int)
    ensures OccursAt(s, [c], i) <==> 0 <= i < |s| && s[i] == c
  {
    if 0 <= i < |s| && s[i] == c {
      assert s[i..i + 1] == [c];
    }
  }

  /** `sep.join(xs)` */
  function Join(xs: seq<string>, sep: string): string {
    if |xs| == 0 then [] else if |xs| == 1 then xs[0] else xs[0] + sep + Join(xs[1..], sep)
  }

  /** `s.split(sep)` for a non-empty separator: the pieces between the occurrences of `sep`, left to right. */
  function Split(s: string, sep: string): (r: seq<string>)
    requires sep != []
    ensures |r| >= 1
    decreases |s|
  {
    var i := Find(s, sep);
    if i == -1 then [s] else [s[..i]] + Split(s[i + |sep|..], sep)
  }

  /** Joining the pieces of a split with the same separator gives the string back. */
  lemma {:induction false} JoinSplit(s: string, sep: string)
    requires sep != []
    ensures Join(Split(s, sep), sep) == s
    decreases |s|
  {
    var i := Find(s, sep);
    if i != -1 {
      var rest := Split(s[i + |sep|..], sep);
      JoinSplit(s[i + |sep|..], sep);
      assert Split(s, sep) == [s[..i]] + rest;
      assert ([s[..i]] + rest)[1..] == rest;
      calc {
        Join(Split(s, sep), sep);
        s[..i] + sep + Join(rest, sep);
        s[..i] + s[i..i + |sep|] + s[i + |sep|..];
        { assert s == s[..i] + s[i..i + |sep|] + s[i + |sep|..]; }
        s;
      }
    }
  }

  /** No piece of a split contains the separator. */
  lemma {:induction false} SplitPiecesExcludeSep(s: string, sep: string)
    requires sep != []
    ensures forall p :: p in Split(s, sep) ==> Find(p, sep) == -1
    decreases |s|
  {
    var i := Find(s, sep);
    if i != -1 {
      SplitPiecesExcludeSep(s[i + |sep|..], sep);
      var head := s[..i];
      if Find(head, sep) != -1 {
        var j := Find(head, sep);
        assert |head| == i && j + |sep| <= i;
        forall k | j <= k < j + |sep|
          ensures s[k] == head[k]
        {
        }
        assert s[j..j + |sep|] == head[j..j + |sep|];
        assert OccursAt(s, sep, j);
        assert false;
      }
    }
  }

  /**
   * Splitting a join on a one-character separator gives the pieces back,
   * provided no piece contains that character.
   */
  lemma {:induction false} SplitJoin(xs: seq<string>, c: char)
    requires |xs| >= 1
    requires forall k :: 0 <= k < |xs| ==> c !in xs[k]
    ensures Split(Join(xs, [c]), [c]) == xs
    decreases |xs|
  {
    var x := xs[0];
    forall i | 0 <= i
      ensures !OccursAt(x, [c], i)
    {
      OccursAtChar(x, c, i);
      if 0 <= i < |x| {
        assert x[i] in x;
      }
    }
    if |xs| == 1 {
      assert Find(x, [c]) == -1;
    } else {
      var j := Join(xs[1..], [c]);
      var s := x + [c] + j;
      assert Join(xs, [c]) == s;
      forall i | 0 <= i < |x|
        ensures !OccursAt(s, [c], i)
      {
        OccursAtChar(s, c, i);
        OccursAtChar(x, c, i);
      }
      OccursAtChar(s, c, |x|);
      var f := Find(s, [c]);
      assert f == |x|;
      assert s[..f] == x;
      assert s[f + 1..] == j;
      SplitJoin(xs[1..], c);
      assert [x] + xs[1..] == xs;
    }
  }

  /** A line boundary recognised by `str.splitlines()`. */
  predicate IsLineBreak(c: char) {
    c == '\n' || c == '\r' || c == '\U{b}' || c == '\U{c}' || ('\U{1c}' <= c <= '\U{1e}')
    || c == '\U{85}' || c == '\U{2028}' || c == '\U{2029}'
  }

  /** The position of the first line boundary at or after `from`, or `|s|`. */
  function LineContentEnd(s: string, from: nat): (k: nat)
    requires from <= |s|
    ensures from <= k <= |s|
    ensures k == |s| || IsLineBreak(s[k])
    ensures forall i :: from <= i < k ==> !IsLineBreak(s[i])
    decreases |s| - from
  {
    if from == |s| || IsLineBreak(s[from]) then from else LineContentEnd(s, from + 1)
  }

  /** The length of the first line of `s`, its boundary included ("\r\n" is one boundary). */
  function LineEnd(s: string): (k: nat)
    requires s != []
    ensures LineContentEnd(s, 0) < k <= |s| || LineContentEnd(s, 0) == k == |s|
  {
    var c := LineContentEnd(s, 0);
    if c == |s| then c
    else if s[c] == '\r' && c + 1 < |s| && s[c + 1] == '\n' then c + 2
    else c + 1
  }

  /** `s.splitlines(keepends=True)` */
  function SplitLinesKeepEnds(s: string): seq<string>
    decreases |s|
  {
    if s == [] then [] else [s[..LineEnd(s)]] + SplitLinesKeepEnds(s[LineEnd(s)..])
  }

  /** `s.splitlines()`: the lines of `s`, without their boundaries. */
  function SplitLines(s: string): (r: seq<string>)
    ensures |r| == |SplitLinesKeepEnds(s)|
    ensures forall k, i :: 0 <= k < |r| && 0 <= i < |r[k]| ==> !IsLineBreak(r[k][i])
    decreases |s|
  {
    if s == [] then [] else [s[..LineContentEnd(s, 0)]] + SplitLines(s[LineEnd(s)..])
  }

  /** `"".join(xs)` */
  function Concat(xs: seq<string>): string {
    if xs == [] then [] else xs[0] + Concat(xs[1..])
  }

  /** Concatenating one more piece appends it. */
  lemma {:induction false} ConcatAppend(xs: seq<string>, x: string)
    ensures Concat(xs + [x]) == Concat(xs) + x
    decreases |xs|
  {
    if xs == [] {
      assert [x][1..] == [];
    } else {
      assert (xs + [x])[1..] == xs[1..] + [x];
      ConcatAppend(xs[1..], x);
    }
  }

  /** The lines kept with their boundaries add up to the whole string. */
  lemma {:induction false} ConcatSplitLinesKeepEnds(s: string)
    ensures Concat(SplitLinesKeepEnds(s)) == s
    decreases |s|
  {
    if s != [] {
      var k := LineEnd(s);
      ConcatSplitLinesKeepEnds(s[k..]);
      assert ([s[..k]] + SplitLinesKeepEnds(s[k..]))[1..] == SplitLinesKeepEnds(s[k..]);
      assert s[..k] + s[k..] == s;
    }
  }

  /** `"".join(s.splitlines(keepends=True)[1:])`: `s` without its first line. */
  function DropFirstLine(s: string): (r: string)
    ensures s == [] ==> r == []
    ensures s != [] ==> s == s[..LineEnd(s)] + r
  {
    var lines := SplitLinesKeepEnds(s);
    if lines == [] then []
    else
      ConcatSplitLinesKeepEnds(s[LineEnd(s)..]);
      assert lines[1..] == SplitLinesKeepEnds(s[LineEnd(s)..]);
      assert s == s[..LineEnd(s)] + s[LineEnd(s)..];
      Concat(lines[1..])
  }

  predicate IsDigit(c: char) {
    '0' <= c <= '9'
  }

  function DigitValue(c: char): nat
    requires IsDigit(c)
  {
    c as int - '0' as int
  }

  function DigitChar(d: nat): (c: char)
    requires d < 10
    ensures IsDigit(c) && DigitValue(c) == d
  {
    ('0' as int + d) as char
  }

  /**
   * The decimal body `int()` accepts after an optional sign: digits, with
   * single underscores allowed between two digits.
   */
  predicate IsDecimalBody(b: string) {
    && b != []
    && IsDigit(b[0])
    && IsDigit(b[|b| - 1])
    && (forall i :: 0 <= i < |b| ==> IsDigit(b[i]) || b[i] == '_')
    && (forall i :: 0 <= i < |b| - 1 && b[i] == '_' ==> b[i + 1] != '_')
  }

  /** The number a decimal body denotes; underscores carry no value. */
  function BodyValue(b: string): nat
    decreases |b|
  {
    if b == [] then 0
    else if IsDigit(b[|b| - 1]) then BodyValue(b[..|b| - 1]) * 10 + DigitValue(b[|b| - 1])
    else BodyValue(b[..|b| - 1])
  }

  /** `int(s)` in base 10, where `None` stands for the ValueError Python raises. */
  function ParseInt(s: string): Option<int> {
    var t := Strip(s);
    if t != [] && (t[0] == '-' || t[0] == '+') then
      if IsDecimalBody(t[1..]) then
        var v: int := BodyValue(t[1..]);
        Some(if t[0] == '-' then -v else v)
      else None
    else if IsDecimalBody(t) then Some(BodyValue(t))
    else None
  }

  /** The decimal digits of `n`, most significant first, without leading zeros. */
  function NatToString(n: nat): (r: string)
    ensures r != [] && forall i :: 0 <= i < |r| ==> IsDigit(r[i])
    ensures r[0] == '0' ==> n == 0
  {
    if n < 10 then [DigitChar(n)] else NatToString(n / 10) + [DigitChar(n % 10)]
  }

  /** `str(n)` for a Python int. */
  function IntToString(n: int): string {
    if n < 0 then "-" + NatToString(-n) else NatToString(n)
  }

  lemma {:induction false} NatToStringIsBody(n: nat)
    ensures IsDecimalBody(NatToString(n))
    ensures BodyValue(NatToString(n)) == n
  {
    var r := NatToString(n);
    if n >= 10 {
      NatToStringIsBody(n / 10);
      var init := NatToString(n / 10);
      assert r == init + [DigitChar(n % 10)];
      assert r[..|r| - 1] == init;
    }
  }

  /** `int(str(n)) == n`, and `str(n)` carries no surrounding whitespace. */
  lemma IntToStringRoundTrip(n: int)
    ensures Strip(IntToString(n)) == IntToString(n)
    ensures ParseInt(IntToString(n)) == Some(n)
  {
    var s := IntToString(n);
    NatToStringIsBody(if n < 0 then -n else n);
    StripUnchanged(s);
    if n < 0 {
      assert s[1..] == NatToString(-n);
    }
  }

  /**
   * `str(int(v)) == v.strip()` holds exactly when the stripped value is the
   * canonical decimal form of some integer, and that integer is `int(v)`.
   */
  lemma CanonicalIntForm(v: string, n: int)
    ensures (ParseInt(v) == Some(n) && IntToString(n) == Strip(v)) <==> Strip(v) == IntToString(n)
  {
    if Strip(v) == IntToString(n) {
      IntToStringRoundTrip(n);
      ParseIntOfStripped(v);
    }
  }

  /** `int()` only looks at the stripped value. */
  lemma ParseIntOfStripped(v: string)
    ensures ParseInt(v) == ParseInt(Strip(v))
  {
    StripIdempotent(v);
  }

  /** `a <= b` between Python strings: code-point lexicographic order. */
  predicate LexLe(a: string, b: string)
    decreases |a|
  {
    a == [] || (b != [] && (a[0] < b[0] || (a[0] == b[0] && LexLe(a[1..], b[1..]))))
  }

  lemma {:induction false} LexLeTotal(a: string, b: string)
    ensures LexLe(a, b) || LexLe(b, a)
    decreases |a|
  {
    if a != [] && b != [] && a[0] == b[0] {
      LexLeTotal(a[1..], b[1..]);
    }
  }

  lemma {:induction false} LexLeTransitive(a: string, b: string, c: string)
    requires LexLe(a, b) && LexLe(b, c)
    ensures LexLe(a, c)
    decreases |a|
  {
    if a != [] && a[0] == b[0] && b[0] == c[0] {
      LexLeTransitive(a[1..], b[1..], c[1..]);
    }
  }

  lemma {:induction false} LexLeAntisymmetric(a: string, b: string)
    requires LexLe(a, b) && LexLe(b, a)
    ensures a == b
    decreases |a|
  {
    if a != [] {
      LexLeAntisymmetric(a[1..], b[1..]);
      assert a == [a[0]] + a[1..] && b == [b[0]] + b[1..];
    }
  }
}
