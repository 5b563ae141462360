/** String helpers the draft UI relies on: decimal printing of integers (template
    literals and `toString()`), `padStart`, ASCII `toUpperCase`, and the
    `formatTime` duration display shared by the two map cards. */
module Text {
  import opened Types

  predicate IsDigit(c: char)
  {
    '0' <= c <= '9'
  }

  function DigitChar(d: nat): (c: char)
    requires d < 10
    ensures IsDigit(c)
  {
    (d + '0' as int) as char
  }

  /** The value of a decimal digit character. */
  function DigitValue(c: char): int
  {
    c as int - '0' as int
  }

  /** Decimal digits of a natural number, without leading zeros. */
  function NatToString(n: nat): (r: string)
    ensures 1 <= |r|
    ensures forall i :: 0 <= i < |r| ==> IsDigit(r[i])
    ensures |r| > 1 ==> r[0] != '0'
  {
    (if n < 10 then "" else NatToString(n / 10)) + [DigitChar(n % 10)]
  }

  /** An integer as JavaScript prints it: a minus sign before negative values. */
  function IntToString(n: int): (r: string)
    ensures n >= 0 ==> r == NatToString(n)
    ensures n < 0 ==> r == "-" + NatToString(-n)
  {
    if n >= 0 then NatToString(n) else "-" + NatToString(-n)
  }

  /** The value of a string of decimal digits (leading zeros allowed). */
  function ParseDigits(s: string): int
  {
    if s == [] then 0
    else ParseDigits(s[..|s| - 1]) * 10 + DigitValue(s[|s| - 1])
  }

  /** Printing then reading back a natural number gives it back. */
  lemma {:induction false} ParseNatToString(n: nat)
    ensures ParseDigits(NatToString(n)) == n
  {
    var s := NatToString(n);
    var init := if n < 10 then "" else NatToString(n / 10);
    var d := n % 10;
    assert s == init + [DigitChar(d)];
    assert s[..|s| - 1] == init && s[|s| - 1] == DigitChar(d);
    if n >= 10 {
      ParseNatToString(n / 10);
    }
    assert ParseDigits(init) == n / 10;
    assert ParseDigits(s) == ParseDigits(init) * 10 + DigitValue(DigitChar(d));
    assert DigitValue(DigitChar(d)) == d;
    DivMod10(n);
  }

  lemma DivMod10(n: nat)
    ensures (n / 10) * 10 + n % 10 == n
  {
  }

  /** A leading zero does not change the value read. */
  lemma {:induction false} ParseLeadingZero(s: string)
    ensures ParseDigits("0" + s) == ParseDigits(s)
  {
    if s != [] {
      var t := "0" + s;
      assert t[..|t| - 1] == "0" + s[..|s| - 1];
      ParseLeadingZero(s[..|s| - 1]);
    } else {
      assert ("0" + s)[..0] == "";
    }
  }

  /** `s.padStart(width, fill)` with a one-character fill. */
  function PadStart(s: string, width: nat, fill: char): (r: string)
    ensures |r| == if |s| < width then width else |s|
    ensures r[|r| - |s|..] == s
    ensures forall i :: 0 <= i < |r| - |s| ==> r[i] == fill
    decreases width - |s|
  {
    if |s| < width then
      var longer := [fill] + s;
      var r := PadStart(longer, width, fill);
      assert r[|r| - |s|..] == r[|r| - |longer|..][1..];
      assert r[|r| - |longer|] == fill;
      r
    else s
  }

  /** `s.toUpperCase()` on ASCII letters; every other character is kept. */
  function Upper(s: string): (r: string)
    ensures |r| == |s|
    ensures forall i :: 0 <= i < |s| ==> r[i] == UpperChar(s[i])
  {
    seq(|s|, i requires 0 <= i < |s| => UpperChar(s[i]))
  }

  /** Strings that differ only in letter case have the same capitals. */
  lemma SameUpper(a: string, b: string)
    requires |a| == |b|
    requires forall i :: 0 <= i < |a| ==> UpperChar(a[i]) == UpperChar(b[i])
    ensures Upper(a) == Upper(b)
  {
  }

  /** A lower-case ASCII letter becomes its capital; other characters stay. */
  function UpperChar(c: char): (u: char)
    ensures 'a' <= c <= 'z' ==> u as int == c as int - 32
    ensures !('a' <= c <= 'z') ==> u == c
  {
    if 'a' <= c <= 'z' then (c as int - 32) as char else c
  }

  /** Whole minutes, rounded down. */
  function Minutes(seconds: int): int
  {
    seconds / 60
  }

  /** `seconds % 60`, which in JavaScript takes the sign of `seconds`. */
  function SecondsPart(seconds: int): int
  {
    if seconds >= 0 then seconds % 60 else -((-seconds) % 60)
  }

  /** `formatTime(seconds)`: minutes, a colon, and the seconds padded to two digits. */
  function FormatTime(seconds: int): (r: string)
    // For a non-negative duration: one colon, digits around it, two-digit seconds.
    ensures seconds >= 0 ==>
      && var m := NatToString(seconds / 60);
      && |r| == |m| + 3
      && r[..|m|] == m
      && r[|m|] == ':'
      && (forall i :: |m| < i < |r| ==> IsDigit(r[i]))
  {
    var mins := IntToString(Minutes(seconds));
    var field := PadStart(IntToString(SecondsPart(seconds)), 2, '0');
    SecondsField(seconds);
    ColonShape(mins, field);
    mins + ":" + field
  }

  /** Minutes, a colon and a two-digit field: where each part sits. */
  lemma ColonShape(mins: string, field: string)
    ensures |field| == 2 && AllDigits(field) ==>
      var r := mins + ":" + field;
      && |r| == |mins| + 3
      && r[..|mins|] == mins
      && r[|mins|] == ':'
      && (forall i :: |mins| < i < |r| ==> IsDigit(r[i]))
  {
    var r := mins + ":" + field;
    assert forall i :: |mins| < i < |r| ==> r[i] == field[i - |mins| - 1];
  }

  /** For a non-negative duration the padded seconds field is two digits. */
  lemma SecondsField(seconds: int)
    ensures seconds >= 0 ==>
      var field := PadStart(IntToString(SecondsPart(seconds)), 2, '0');
      |field| == 2 && AllDigits(field)
  {
    if seconds >= 0 {
      var secs := seconds % 60;
      var t := NatToString(secs);
      if secs < 10 {
        assert |t| == 1;
        PadOnce(t);
      } else {
        assert |NatToString(secs / 10)| == 1;
        assert |t| == 2;
      }
    }
  }

  predicate AllDigits(s: string)
  {
    forall k :: 0 <= k < |s| ==> IsDigit(s[k])
  }

  /** `s.indexOf(c)`: the position of the first `c`, if any. */
  function FirstIndex(s: string, c: char): (r: Option<nat>)
    ensures r.Some? ==> r.value < |s| && s[r.value] == c
    ensures r.Some? ==> forall k :: 0 <= k < r.value ==> s[k] != c
    ensures r.None? <==> forall k :: 0 <= k < |s| ==> s[k] != c
  {
    if s == [] then None
    else if s[0] == c then Some(0)
    else match FirstIndex(s[1..], c)
      case None => None
      case Some(i) => Some(i + 1)
  }

  /** The first `c` after a stretch without one is found right there. */
  lemma FirstIndexAfter(a: string, c: char, rest: string)
    requires forall k :: 0 <= k < |a| ==> a[k] != c
    ensures FirstIndex(a + [c] + rest, c) == Some(|a|)
  {
    var r := a + [c] + rest;
    assert r[|a|] == c;
    assert forall k :: 0 <= k < |a| ==> r[k] == a[k];
  }

  /** `s.replace(c, d)` with a one-character pattern: only the first `c` is replaced. */
  function ReplaceFirst(s: string, c: char, d: char): (r: string)
    ensures |r| == |s|
    ensures FirstIndex(s, c).None? ==> r == s
    ensures FirstIndex(s, c).Some? ==>
      var i := FirstIndex(s, c).value;
      r == s[..i] + [d] + s[i + 1..]
  {
    match FirstIndex(s, c)
    case None => s
    case Some(i) => s[i := d]
  }

  /** Reading "m:ss" back: the digits before the first colon are minutes, the
      digits after it seconds. */
  function ParseTime(s: string): (r: Option<int>)
  {
    match FirstIndex(s, ':')
    case None => None
    case Some(i) => ParseFields(s[..i], s[i + 1..])
  }

  /** Minutes and seconds fields, each a non-empty run of digits. */
  function ParseFields(m: string, sec: string): Option<int>
  {
    if m != [] && sec != [] && AllDigits(m) && AllDigits(sec)
    then Some(ParseDigits(m) * 60 + ParseDigits(sec))
    else None
  }

  /** Reading "m:ss" built from two non-empty digit strings. */
  lemma ParseTimeOf(m: string, sec: string, mins: int, secs: int)
    requires m != [] && sec != []
    requires AllDigits(m) && AllDigits(sec)
    requires ParseDigits(m) == mins && ParseDigits(sec) == secs
    ensures ParseTime(m + ":" + sec) == Some(mins * 60 + secs)
  {
    var r := m + ":" + sec;
    FirstIndexAfter(m, ':', sec);
    assert r[..|m|] == m;
    assert r[|m| + 1..] == sec;
    assert ParseTime(r) == ParseFields(m, sec);
    ParseFieldsOf(m, sec);
  }

  lemma ParseFieldsOf(m: string, sec: string)
    requires m != [] && sec != []
    requires AllDigits(m) && AllDigits(sec)
    ensures ParseFields(m, sec) == Some(ParseDigits(m) * 60 + ParseDigits(sec))
  {
  }

  /** The padded seconds field reads back as the seconds value. */
  lemma ParsePadded(secs: nat)
    ensures var p := PadStart(NatToString(secs), 2, '0');
      p != [] && AllDigits(p) && ParseDigits(p) == secs
  {
    var t := NatToString(secs);
    ParseNatToString(secs);
    if |t| < 2 {
      PadOnce(t);
      ParseLeadingZero(t);
    } else {
      assert PadStart(t, 2, '0') == t;
    }
  }

  /** Padding a single character to width two puts one fill character in front. */
  lemma PadOnce(t: string)
    requires |t| == 1
    ensures PadStart(t, 2, '0') == "0" + t
  {
    assert PadStart("0" + t, 2, '0') == "0" + t;
  }

  /** "m:ss" for a minutes value and a seconds value. */
  function Display(mins: nat, secs: nat): string
  {
    NatToString(mins) + ":" + PadStart(NatToString(secs), 2, '0')
  }

  /** Reading back a display built from minutes and seconds values. */
  lemma DisplayRoundTrip(mins: nat, secs: nat)
    ensures ParseTime(Display(mins, secs)) == Some(mins * 60 + secs)
  {
    var m := NatToString(mins);
    var p := PadStart(NatToString(secs), 2, '0');
    ParseNatToString(mins);
    ParsePadded(secs);
    ParseTimeOf(m, p, mins, secs);
  }

  /** For every non-negative duration the seconds field is 00..59, and reading
      the display back gives minutes * 60 + seconds == the duration. */
  lemma FormatTimeRoundTrip(seconds: int)
    requires seconds >= 0
    ensures 0 <= SecondsPart(seconds) < 60
    ensures Minutes(seconds) * 60 + SecondsPart(seconds) == seconds
    ensures ParseTime(FormatTime(seconds)) == Some(seconds)
  {
    var mins, secs := seconds / 60, seconds % 60;
    assert mins * 60 + secs == seconds;
    assert FormatTime(seconds) == Display(mins, secs);
    DisplayRoundTrip(mins, secs);
  }
}
