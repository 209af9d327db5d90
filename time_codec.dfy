/**
 * Conversion between a wall-clock time of day and seconds since midnight
 * (`_time_to_seconds`, `_seconds_to_time`). Times travel through the program
 * as text; `SecondsToTime` always yields the zero-padded `HH:MM:SS` form.
 */
module TimeCodec {
  import opened Wrappers
  import opened Text

  /** The last second of a day, 23:59:59. */
  const LastSecond := 86399

  /** Two decimal digits of `n` (Python's `f"{n:02d}"` for 0 <= n < 100). */
  function Pad2(n: nat): (s: string)
    requires n < 100
    ensures |s| == 2 && IsDigit(s[0]) && IsDigit(s[1])
    ensures 10 * DigitValue(s[0]) + DigitValue(s[1]) == n
  {
    [('0' as int + n / 10) as char, ('0' as int + n % 10) as char]
  }

  /** The value of the two-digit numeral `a b`. */
  function Pair(a: char, b: char): nat
    requires IsDigit(a) && IsDigit(b)
  {
    10 * DigitValue(a) + DigitValue(b)
  }

  /** Zero-padded `HH:MM:SS` with hours below 24 and minutes and seconds below 60. */
  predicate IsCanonical(s: string)
  {
    && |s| == 8 && s[2] == ':' && s[5] == ':'
    && IsDigit(s[0]) && IsDigit(s[1]) && IsDigit(s[3]) && IsDigit(s[4]) && IsDigit(s[6]) && IsDigit(s[7])
    && Pair(s[0], s[1]) < 24 && Pair(s[3], s[4]) < 60 && Pair(s[6], s[7]) < 60
  }

  /** `_seconds_to_time`: hours, minutes and seconds of `n`, each as two digits. */
  function SecondsToTime(n: int): (s: string)
    requires 0 <= n <= LastSecond
    ensures IsCanonical(s)
  {
    Pad2(n / 3600) + ":" + Pad2(n % 3600 / 60) + ":" + Pad2(n % 60)
  }

  /** One `strptime` directive `%H`, `%M` or `%S`: one or two ASCII digits with a value below `limit`. */
  function Field(p: string, limit: nat): (r: Option<nat>)
    ensures r.Some? ==> r.value < limit
    ensures r.Some? ==> (|p| == 1 || |p| == 2) && forall i :: 0 <= i < |p| ==> IsDigit(p[i])
  {
    if (|p| == 1 || |p| == 2) && (forall i :: 0 <= i < |p| ==> IsDigit(p[i])) then
      var v := if |p| == 1 then DigitValue(p[0]) else Pair(p[0], p[1]);
      if v < limit then Some(v) else None
    else None
  }

  /**
   * `_time_to_seconds`: `strptime(text, "%H:%M:%S")` turned into seconds since
   * midnight; None where Python raises ValueError.
   */
  function TimeToSeconds(s: string): (r: Option<int>)
    ensures r.Some? ==> 0 <= r.value <= LastSecond
    ensures r.Some? ==> |Split(s, ':')| == 3
  {
    var parts := Split(s, ':');
    if |parts| != 3 then None
    else match (Field(parts[0], 24), Field(parts[1], 60), Field(parts[2], 60))
      case (Some(h), Some(m), Some(x)) => Some(h * 3600 + m * 60 + x)
      case _ => None
  }

  /** The pieces of a canonical text split at its colons are its three two-digit fields. */
  lemma SplitCanonical(s: string)
    requires IsCanonical(s)
    ensures Split(s, ':') == [s[..2], s[3..5], s[6..]]
  {
    var parts := [s[..2], s[3..5], s[6..]];
    assert Join(parts[2..], ':') == s[6..];
    assert Join(parts[1..], ':') == s[3..5] + [':'] + s[6..];
    assert Join(parts, ':') == s;
    SplitJoin(parts, ':');
  }

  /** `n` is its hours, minutes and seconds put back together. */
  lemma Decompose(n: int)
    requires 0 <= n <= LastSecond
    ensures n / 3600 < 24 && n % 3600 / 60 < 60
    ensures n == (n / 3600) * 3600 + (n % 3600 / 60) * 60 + n % 60
  {
  }

  /** Hours, minutes and seconds in range make up a second of the day, and are its hours, minutes and seconds. */
  lemma Compose(h: int, m: int, x: int)
    requires 0 <= h < 24 && 0 <= m < 60 && 0 <= x < 60
    ensures var n := h * 3600 + m * 60 + x;
      0 <= n <= LastSecond && n / 3600 == h && n % 3600 / 60 == m && n % 60 == x
  {
    var r := m * 60 + x;
    assert 0 <= r < 3600;
    var n := h * 3600 + r;
    assert n / 3600 == h && n % 3600 == r;
    assert r / 60 == m && r % 60 == x;
    assert n % 60 == x by {
      assert n == (h * 60 + m) * 60 + x;
    }
  }

  /** `f"{h:02d}:{m:02d}:{x:02d}"` */
  function Clock(h: nat, m: nat, x: nat): string
    requires h < 100 && m < 100 && x < 100
  {
    Pad2(h) + ":" + Pad2(m) + ":" + Pad2(x)
  }

  /** The text of the time h:m:x is its three fields written with two digits each. */
  lemma ClockText(h: int, m: int, x: int, n: int)
    requires 0 <= h < 24 && 0 <= m < 60 && 0 <= x < 60 && n == h * 3600 + m * 60 + x
    ensures 0 <= n <= LastSecond
    ensures SecondsToTime(n) == Clock(h, m, x)
  {
    Compose(h, m, x);
  }

  /** `strptime` reads a canonical text as the seconds its three two-digit fields make up. */
  lemma ReadCanonical(s: string)
    requires IsCanonical(s)
    ensures TimeToSeconds(s) == Some(Pair(s[0], s[1]) * 3600 + Pair(s[3], s[4]) * 60 + Pair(s[6], s[7]))
  {
    SplitCanonical(s);
    assert Field(s[..2], 24) == Some(Pair(s[0], s[1]));
    assert Field(s[3..5], 60) == Some(Pair(s[3], s[4]));
    assert Field(s[6..], 60) == Some(Pair(s[6], s[7]));
  }

  /** Writing the value of a two-digit numeral with two digits gives the numeral back. */
  lemma Pad2OfPair(a: char, b: char)
    requires IsDigit(a) && IsDigit(b)
    ensures Pad2(Pair(a, b)) == [a, b]
  {
    var d, e := DigitValue(a), DigitValue(b);
    var n := 10 * d + e;
    assert n / 10 == d && n % 10 == e;
  }

  /** A canonical text is the clock text of its own three fields. */
  lemma CanonicalIsClock(s: string)
    requires IsCanonical(s)
    ensures s == Clock(Pair(s[0], s[1]), Pair(s[3], s[4]), Pair(s[6], s[7]))
  {
    Pad2OfPair(s[0], s[1]);
    Pad2OfPair(s[3], s[4]);
    Pad2OfPair(s[6], s[7]);
    var t := [s[0], s[1]] + ":" + [s[3], s[4]] + ":" + [s[6], s[7]];
    assert |t| == 8;
    assert forall i | 0 <= i < 8 :: s[i] == t[i];
  }

  /** A canonical text is read as a time and written back unchanged. */
  lemma CanonicalRoundTrip(s: string)
    requires IsCanonical(s)
    ensures TimeToSeconds(s).Some?
    ensures SecondsToTime(TimeToSeconds(s).value) == s
  {
    var h, m, x := Pair(s[0], s[1]), Pair(s[3], s[4]), Pair(s[6], s[7]);
    ReadCanonical(s);
    CanonicalIsClock(s);
    ClockText(h, m, x, TimeToSeconds(s).value);
  }

  lemma Pad2Order(x: nat, y: nat)
    requires x < 100 && y < 100
    ensures Less(Pad2(x), Pad2(y)) <==> x < y
    ensures Pad2(x) == Pad2(y) <==> x == y
  {
    var p, q := Pad2(x), Pad2(y);
    assert p[0] as int == '0' as int + x / 10 && q[0] as int == '0' as int + y / 10;
    assert p[1] as int == '0' as int + x % 10 && q[1] as int == '0' as int + y % 10;
    assert p[1..] == [p[1]] && q[1..] == [q[1]];
    assert Less([p[1]], [q[1]]) <==> p[1] < q[1] by {
      assert [p[1]][1..] == [] && [q[1]][1..] == [];
      LessIrreflexive([]);
    }
    assert Less(p, q) <==> p[0] < q[0] || (p[0] == q[0] && p[1] < q[1]);
    assert x == 10 * (x / 10) + x % 10 && y == 10 * (y / 10) + y % 10;
  }

  /** A colon followed by a two-digit field compares as the field. */
  lemma FieldAfterColon(x: nat, y: nat, u: string, v: string)
    requires x < 100 && y < 100
    ensures Less(":" + Pad2(x) + u, ":" + Pad2(y) + v) <==> x < y || (x == y && Less(u, v))
  {
    Pad2Order(x, y);
    LessIrreflexive(":");
    assert ":" + Pad2(x) + u == ":" + (Pad2(x) + u);
    assert ":" + Pad2(y) + v == ":" + (Pad2(y) + v);
    LessConcat(":", Pad2(x) + u, ":", Pad2(y) + v);
    LessConcat(Pad2(x), u, Pad2(y), v);
  }

  /** Clock texts compare as their (hours, minutes, seconds) triples. */
  lemma ClockTextOrder(h1: nat, m1: nat, x1: nat, h2: nat, m2: nat, x2: nat)
    requires h1 < 100 && m1 < 100 && x1 < 100 && h2 < 100 && m2 < 100 && x2 < 100
    ensures Less(Clock(h1, m1, x1), Clock(h2, m2, x2)) <==>
            h1 < h2 || (h1 == h2 && (m1 < m2 || (m1 == m2 && x1 < x2)))
  {
    Pad2Order(h1, h2);
    FieldAfterColon(x1, x2, [], []);
    LessIrreflexive([]);
    assert ":" + Pad2(x1) + [] == ":" + Pad2(x1) && ":" + Pad2(x2) + [] == ":" + Pad2(x2);
    var u, v := ":" + Pad2(x1), ":" + Pad2(x2);
    FieldAfterColon(m1, m2, u, v);
    assert Clock(h1, m1, x1) == Pad2(h1) + (":" + Pad2(m1) + u);
    assert Clock(h2, m2, x2) == Pad2(h2) + (":" + Pad2(m2) + v);
    LessConcat(Pad2(h1), ":" + Pad2(m1) + u, Pad2(h2), ":" + Pad2(m2) + v);
  }

  /** Lexicographic comparison of (hours, minutes, seconds) is comparison of the seconds they make up. */
  lemma ClockOrder(h1: int, m1: int, s1: int, h2: int, m2: int, s2: int)
    requires 0 <= m1 < 60 && 0 <= s1 < 60 && 0 <= m2 < 60 && 0 <= s2 < 60
    ensures h1 * 3600 + m1 * 60 + s1 < h2 * 3600 + m2 * 60 + s2 <==>
            h1 < h2 || (h1 == h2 && (m1 < m2 || (m1 == m2 && s1 < s2)))
  {
    if h1 < h2 {
      assert h1 * 3600 + 3600 <= h2 * 3600;
    } else if h2 < h1 {
      assert h2 * 3600 + 3600 <= h1 * 3600;
    }
  }

  /**
   * Python compares the times as strings; on `_seconds_to_time` output the
   * string order is the order of the seconds.
   */
  lemma TimeOrder(a: int, b: int)
    requires 0 <= a <= LastSecond && 0 <= b <= LastSecond
    ensures Less(SecondsToTime(a), SecondsToTime(b)) <==> a < b
  {
    Decompose(a);
    Decompose(b);
    var ha, ma, sa := a / 3600, a % 3600 / 60, a % 60;
    var hb, mb, sb := b / 3600, b % 3600 / 60, b % 60;
    assert SecondsToTime(a) == Clock(ha, ma, sa);
    assert SecondsToTime(b) == Clock(hb, mb, sb);
    ClockTextOrder(ha, ma, sa, hb, mb, sb);
    ClockOrder(ha, ma, sa, hb, mb, sb);
  }

  /** Reading a time back from its text gives the same number of seconds. */
  lemma TimeRoundTrip(n: int)
    requires 0 <= n <= LastSecond
    ensures TimeToSeconds(SecondsToTime(n)) == Some(n)
  {
    var s := SecondsToTime(n);
    CanonicalRoundTrip(s);
    var v := TimeToSeconds(s).value;
    TimeOrder(v, n);
    TimeOrder(n, v);
    LessIrreflexive(s);
  }
}
