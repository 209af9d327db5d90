/**
 * The parts of Python's `str` and `int()` that the schedule parsers rely on:
 * `isspace`, `strip`, `find`/`in`, `split(sep)`, `sep.join`, string ordering
 * (`<`, `>=`, `>` compare code point by code point) and `int(text)`.
 */
module Text {
  import opened Wrappers

  /** Python's `str.isspace` for one character (the full list of whitespace code points). */
  predicate IsSpace(c: char)
  {
    c == ' ' || ('\t' <= c <= '\r') || ('\U{1C}' <= c <= '\U{1F}') ||
    c == '\U{85}' || c == '\U{A0}' || c == '\U{1680}' ||
    ('\U{2000}' <= c <= '\U{200A}') || c == '\U{2028}' || c == '\U{2029}' ||
    c == '\U{202F}' || c == '\U{205F}' || c == '\U{3000}'
  }

  /** `s.lstrip()` */
  function TrimLeft(s: string): string
  {
    if |s| > 0 && IsSpace(s[0]) then TrimLeft(s[1..]) else s
  }

  /** `s.rstrip()` */
  function TrimRight(s: string): string
  {
    if |s| > 0 && IsSpace(s[|s| - 1]) then TrimRight(s[..|s| - 1]) else s
  }

  /** `s.strip()` */
  function Strip(s: string): string
  {
    TrimRight(TrimLeft(s))
  }

  /** `lstrip` removes a prefix made only of whitespace and leaves text that does not start with whitespace. */
  lemma {:induction false} TrimLeftMeaning(s: string)
    ensures var r := TrimLeft(s);
      |r| <= |s| && r == s[|s| - |r|..] && (r == [] || !IsSpace(r[0])) &&
      forall i :: 0 <= i < |s| - |r| ==> IsSpace(s[i])
  {
    if |s| > 0 && IsSpace(s[0]) {
      TrimLeftMeaning(s[1..]);
    }
  }

  /** `rstrip` removes a suffix made only of whitespace and leaves text that does not end with whitespace. */
  lemma {:induction false} TrimRightMeaning(s: string)
    ensures var r := TrimRight(s);
      |r| <= |s| && r == s[..|r|] && (r == [] || !IsSpace(r[|r| - 1])) &&
      forall i :: |r| <= i < |s| ==> IsSpace(s[i])
  {
    if |s| > 0 && IsSpace(s[|s| - 1]) {
      TrimRightMeaning(s[..|s| - 1]);
    }
  }

  /** Stripping removes exactly the surrounding whitespace: text whose ends are not whitespace is unchanged. */
  lemma {:induction false} StripKeeps(s: string)
    requires s == [] || (!IsSpace(s[0]) && !IsSpace(s[|s| - 1]))
    ensures Strip(s) == s
  {
  }

  /** The position of the first occurrence of `c` (`s.find(c)`, with None for -1). */
  function Find(s: string, c: char): (r: Option<nat>)
    ensures r.None? <==> c !in s
    ensures r.Some? ==> r.value < |s| && s[r.value] == c && c !in s[..r.value]
  {
    if |s| == 0 then None
    else if s[0] == c then Some(0)
    else match Find(s[1..], c)
      case None => None
      case Some(k) => (assert s[1..][..k] == s[1..k + 1]; Some(k + 1))
  }

  /** `s.split(c)`: the pieces between occurrences of `c`, empty pieces included; never an empty list. */
  function Split(s: string, c: char): (parts: seq<string>)
    ensures |parts| >= 1
    ensures forall i :: 0 <= i < |parts| ==> c !in parts[i]
    decreases |s|
  {
    match Find(s, c)
    case None => [s]
    case Some(k) => [s[..k]] + Split(s[k + 1..], c)
  }

  /** `c.join(parts)` (with a one-character separator). */
  function Join(parts: seq<string>, c: char): string
    requires |parts| >= 1
  {
    if |parts| == 1 then parts[0] else parts[0] + [c] + Join(parts[1..], c)
  }

  lemma FindAfterPrefix(p: string, c: char, rest: string)
    requires c !in p
    ensures Find(p + [c] + rest, c) == Some(|p|)
  {
    var s := p + [c] + rest;
    assert s[..|p|] == p;
    assert s[|p|] == c;
  }

  /** Splitting a joined list gives the list back when no piece holds the separator. */
  lemma {:induction false} SplitJoin(parts: seq<string>, c: char)
    requires |parts| >= 1
    requires forall i :: 0 <= i < |parts| ==> c !in parts[i]
    ensures Split(Join(parts, c), c) == parts
  {
    if |parts| == 1 {
      assert Find(parts[0], c).None?;
    } else {
      var tail := Join(parts[1..], c);
      var s := parts[0] + [c] + tail;
      assert Join(parts, c) == s;
      FindAfterPrefix(parts[0], c, tail);
      assert s[..|parts[0]|] == parts[0];
      assert s[|parts[0]| + 1..] == tail;
      assert Split(s, c) == [parts[0]] + Split(tail, c);
      SplitJoin(parts[1..], c);
      assert parts == [parts[0]] + parts[1..];
    }
  }

  /** Joining the pieces of a split gives the text back. */
  lemma {:induction false} JoinSplit(s: string, c: char)
    ensures Join(Split(s, c), c) == s
    decreases |s|
  {
    match Find(s, c)
    case None =>
    case Some(k) =>
      var parts := Split(s, c);
      var rest := Split(s[k + 1..], c);
      assert parts == [s[..k]] + rest;
      assert parts[0] == s[..k] && parts[1..] == rest;
      JoinSplit(s[k + 1..], c);
      assert Join(parts, c) == s[..k] + [c] + Join(rest, c);
      assert s == s[..k] + [c] + s[k + 1..];
  }

  // ---- Python string ordering -------------------------------------------

  /** Python's `a < b` on strings: lexicographic by code point, a proper prefix being smaller. */
  predicate Less(a: string, b: string)
  {
    if |a| == 0 then |b| > 0
    else if |b| == 0 then false
    else if a[0] != b[0] then a[0] < b[0]
    else Less(a[1..], b[1..])
  }

  lemma {:induction false} LessIrreflexive(a: string)
    ensures !Less(a, a)
  {
    if |a| > 0 {
      LessIrreflexive(a[1..]);
    }
  }

  lemma {:induction false} LessTransitive(a: string, b: string, c: string)
    requires Less(a, b) && Less(b, c)
    ensures Less(a, c)
  {
    if |a| > 0 && |b| > 0 && |c| > 0 && a[0] == b[0] && b[0] == c[0] {
      LessTransitive(a[1..], b[1..], c[1..]);
    }
  }

  /** Python's string order is total: exactly one of `a < b`, `a == b`, `b < a`. */
  lemma {:induction false} LessTotal(a: string, b: string)
    ensures Less(a, b) || a == b || Less(b, a)
    ensures !(Less(a, b) && Less(b, a))
  {
    if |a| > 0 && |b| > 0 && a[0] == b[0] {
      LessTotal(a[1..], b[1..]);
      if a[1..] == b[1..] {
        assert a == [a[0]] + a[1..] && b == [b[0]] + b[1..];
      }
    }
  }

  /** "Not after" is transitive: `a <= b` and `b <= c` give `a <= c`. */
  lemma NotAfterTransitive(a: string, b: string, c: string)
    requires !Less(b, a) && !Less(c, b)
    ensures !Less(c, a)
  {
    if Less(c, a) {
      LessTotal(a, b);
      LessTotal(b, c);
      if Less(a, b) {
        LessTransitive(c, a, b);
        if Less(b, c) {
          LessTransitive(c, b, c);
          LessIrreflexive(c);
        }
      } else if Less(b, c) {
        LessTransitive(b, c, a);
      }
    }
  }

  /** Comparing texts that start with equal-length prefixes compares the prefixes first. */
  lemma {:induction false} LessConcat(p: string, x: string, q: string, y: string)
    requires |p| == |q|
    ensures Less(p + x, q + y) <==> Less(p, q) || (p == q && Less(x, y))
  {
    if |p| > 0 {
      assert (p + x)[1..] == p[1..] + x && (q + y)[1..] == q[1..] + y;
      LessConcat(p[1..], x, q[1..], y);
      if p[0] == q[0] && p[1..] == q[1..] {
        assert p == [p[0]] + p[1..] && q == [q[0]] + q[1..];
      }
      LessIrreflexive(p);
    } else {
      assert p + x == x && q + y == y;
    }
  }

  // ---- Python int(text) --------------------------------------------------

  predicate IsDigit(c: char)
  {
    '0' <= c <= '9'
  }

  function DigitValue(c: char): (d: nat)
    requires IsDigit(c)
    ensures d < 10
  {
    c as int - '0' as int
  }

  /** The digits of an integer literal as `int()` accepts them: digits, single `_` only between digits. */
  predicate DigitRun(s: string)
  {
    && |s| > 0 && IsDigit(s[0]) && IsDigit(s[|s| - 1])
    && (forall i :: 0 <= i < |s| ==> IsDigit(s[i]) || s[i] == '_')
    && (forall i :: 0 < i < |s| && s[i] == '_' ==> s[i - 1] != '_')
  }

  /** The value of a run of digits, underscores ignored. */
  function RunValue(s: string): nat
  {
    if s == [] then 0
    else if IsDigit(s[|s| - 1]) then 10 * RunValue(s[..|s| - 1]) + DigitValue(s[|s| - 1])
    else RunValue(s[..|s| - 1])
  }

  /** `int(s)` for a `str`: surrounding whitespace, an optional sign, then a digit run; None where Python raises ValueError. */
  function PyInt(s: string): Option<int>
  {
    var t := Strip(s);
    if |t| > 0 && (t[0] == '+' || t[0] == '-') then
      if DigitRun(t[1..]) then
        var v: int := RunValue(t[1..]);
        Some(if t[0] == '-' then -v else v)
      else None
    else if DigitRun(t) then Some(RunValue(t))
    else None
  }

  /** `int()` reads a one- or two-digit numeral as its value. */
  lemma PyIntSmall(s: string)
    requires (|s| == 1 || |s| == 2) && forall i :: 0 <= i < |s| ==> IsDigit(s[i])
    ensures PyInt(s) == Some(if |s| == 1 then DigitValue(s[0]) else 10 * DigitValue(s[0]) + DigitValue(s[1]))
  {
    StripKeeps(s);
    assert Strip(s) == s;
    assert s[0] != '+' && s[0] != '-';
    assert DigitRun(s);
    if |s| == 2 {
      assert s[..1] == [s[0]];
      assert RunValue(s[..1]) == DigitValue(s[0]) by {
        assert s[..1][..0] == [];
      }
    } else {
      assert s[..|s| - 1] == [];
      assert RunValue(s) == DigitValue(s[0]);
    }
  }
}
