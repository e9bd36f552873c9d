/** The JavaScript string behaviour the reminder store depends on: `Number.prototype.toString`
    for non-negative integers, `padStart`, `split`, `Number(string)` on a field and `trim`. */
module Text {
  import opened Wrappers

  predicate IsDigit(c: char) { '0' <= c <= '9' }

  predicate AllDigits(s: string) { forall i :: 0 <= i < |s| ==> IsDigit(s[i]) }

  function DigitChar(d: nat): (c: char)
    requires d < 10
    ensures IsDigit(c)
  {
    "0123456789"[d]
  }

  /** The decimal value of a string of digits, read most significant digit first. */
  function DigitsValue(s: string): nat
    requires AllDigits(s)
  {
    if s == [] then 0 else DigitsValue(s[..|s| - 1]) * 10 + (s[|s| - 1] as int - '0' as int)
  }

  /** `n.toString()` for a non-negative integer: its shortest decimal form. */
  function NatToString(n: nat): (r: string)
    ensures 1 <= |r| && AllDigits(r)
    ensures DigitsValue(r) == n
    ensures |r| == 1 <==> n < 10
    ensures r[0] == '0' ==> n == 0
  {
    if n < 10 then
      [DigitChar(n)]
    else
      var r := NatToString(n / 10) + [DigitChar(n % 10)];
      assert r[..|r| - 1] == NatToString(n / 10);
      r
  }

  function Repeat(c: char, k: nat): (r: string)
    ensures |r| == k && forall i :: 0 <= i < k ==> r[i] == c
  {
    if k == 0 then [] else [c] + Repeat(c, k - 1)
  }

  /** `s.padStart(width, fill)`: prefix `fill` until the string is `width` long. */
  function PadStart(s: string, width: nat, fill: char): (r: string)
    ensures |r| == if |s| >= width then |s| else width
    ensures r[|r| - |s|..] == s
    ensures forall i :: 0 <= i < |r| - |s| ==> r[i] == fill
  {
    if |s| >= width then s else Repeat(fill, width - |s|) + s
  }

  /** Leading zeros do not change the value of a digit string. */
  lemma {:induction false} LeadingZeroValue(s: string)
    requires AllDigits(s)
    ensures AllDigits("0" + s) && DigitsValue("0" + s) == DigitsValue(s)
  {
    if s != [] {
      var t := "0" + s;
      assert t[..|t| - 1] == "0" + s[..|s| - 1];
      LeadingZeroValue(s[..|s| - 1]);
    }
  }

  lemma {:induction false} ZerosValue(k: nat, s: string)
    requires AllDigits(s)
    ensures AllDigits(Repeat('0', k) + s) && DigitsValue(Repeat('0', k) + s) == DigitsValue(s)
  {
    if k > 0 {
      var t := Repeat('0', k - 1) + s;
      ZerosValue(k - 1, s);
      assert Repeat('0', k) == ['0'] + Repeat('0', k - 1);
      assert Repeat('0', k) + s == "0" + t;
      LeadingZeroValue(t);
    } else {
      assert Repeat('0', k) + s == s;
    }
  }

  /** Two-digit zero padding, `String(n).padStart(2, '0')` of a non-negative number:
      one leading zero below ten (see `Pad2IsPadStart`). */
  function Pad2(n: nat): string
  {
    if n < 10 then "0" + NatToString(n) else NatToString(n)
  }

  lemma Pad2IsPadStart(n: nat)
    ensures Pad2(n) == PadStart(NatToString(n), 2, '0')
  {
    var d := NatToString(n);
    if n < 10 {
      assert Repeat('0', 1) == "0";
    }
  }

  lemma Pad2Value(n: nat)
    ensures AllDigits(Pad2(n)) && DigitsValue(Pad2(n)) == n
    ensures |Pad2(n)| >= 2 && (n < 100 ==> |Pad2(n)| == 2)
  {
    var d := NatToString(n);
    if n < 10 {
      LeadingZeroValue(d);
    }
    if n >= 10 && n < 100 && |d| > 2 {
      DigitsBound(d);
    }
  }

  /** A digit string of length at least three denotes at least 100. */
  lemma {:induction false} DigitsBound(s: string)
    requires AllDigits(s) && |s| >= 3 && s[0] != '0'
    ensures DigitsValue(s) >= 100
  {
    var p := s[..|s| - 1];
    if |p| >= 3 {
      DigitsBound(p);
    } else {
      assert DigitsValue(p[..1]) == s[0] as int - '0' as int >= 1;
    }
  }

  /** `Number(field)` for the strings a time field can hold: the empty string is 0, a
      run of decimal digits is its value, and anything else is NaN (None). */
  function NumberOf(s: string): (r: Option<int>)
    ensures r.Some? <==> AllDigits(s)
    ensures r.Some? ==> r.value >= 0
  {
    if AllDigits(s) then Some(DigitsValue(s)) else None
  }

  /** `s.split(sep)`: the maximal runs between separators; never empty. */
  function Split(s: string, sep: char): (r: seq<string>)
    ensures |r| >= 1
    ensures |r| == 1 <==> sep !in s
  {
    if s == [] then [""]
    else
      var rest := Split(s[1..], sep);
      if s[0] == sep then [""] + rest else [[s[0]] + rest[0]] + rest[1..]
  }

  lemma {:induction false} SplitNoSeparator(s: string, sep: char)
    requires sep !in s
    ensures Split(s, sep) == [s]
  {
    if s != [] {
      SplitNoSeparator(s[1..], sep);
      assert [s[0]] + s[1..] == s;
    }
  }

  lemma {:induction false} SplitAtFirst(a: string, sep: char, b: string)
    requires sep !in a
    ensures Split(a + [sep] + b, sep) == [a] + Split(b, sep)
  {
    var s := a + [sep] + b;
    if a == [] {
      assert s[0] == sep && s[1..] == b;
    } else {
      assert s[0] == a[0] != sep;
      assert s[1..] == a[1..] + [sep] + b;
      SplitAtFirst(a[1..], sep, b);
      assert [a[0]] + a[1..] == a;
    }
  }

  /** The minute of day denoted by "HH:mm" as `const [h, m] = s.split(':').map(Number); h * 60 + m`
      computes it; None when the result is NaN (a missing or non-numeric field). */
  function ParseTimeOfDay(s: string): (r: Option<int>)
  {
    var fields := Split(s, ':');
    if |fields| < 2 then None
    else
      var h, m := NumberOf(fields[0]), NumberOf(fields[1]);
      if h.Some? && m.Some? then Some(h.value * 60 + m.value) else None
  }

  lemma SplitTwoFields(a: string, b: string)
    requires ':' !in a && ':' !in b
    ensures Split(a + ":" + b, ':') == [a, b]
  {
    SplitAtFirst(a, ':', b);
    SplitNoSeparator(b, ':');
    assert a + ":" + b == a + [':'] + b;
  }

  lemma ParseOfFields(s: string, a: string, b: string)
    requires Split(s, ':') == [a, b] && AllDigits(a) && AllDigits(b)
    ensures ParseTimeOfDay(s) == Some(DigitsValue(a) * 60 + DigitsValue(b))
  {
    var fields := Split(s, ':');
    assert fields[0] == a && fields[1] == b;
    assert NumberOf(a) == Some(DigitsValue(a));
    assert NumberOf(b) == Some(DigitsValue(b));
  }

  /** Two digit strings joined by a colon parse to the minute of day they name. */
  lemma ParseDigitFields(hh: string, mm: string)
    requires AllDigits(hh) && AllDigits(mm)
    ensures ParseTimeOfDay(hh + ":" + mm) == Some(DigitsValue(hh) * 60 + DigitsValue(mm))
  {
    DigitsHaveNoColon(hh);
    DigitsHaveNoColon(mm);
    SplitTwoFields(hh, mm);
    ParseOfFields(hh + ":" + mm, hh, mm);
  }

  /** "HH:mm" written with two-digit fields parses back to the minute it names. */
  lemma ParseTimeOfDayRoundTrip(h: nat, m: nat)
    ensures ParseTimeOfDay(Pad2(h) + ":" + Pad2(m)) == Some(h * 60 + m)
  {
    Pad2Value(h);
    Pad2Value(m);
    ParseDigitFields(Pad2(h), Pad2(m));
  }

  lemma DigitsHaveNoColon(s: string)
    requires AllDigits(s)
    ensures ':' !in s
  {
  }

  /** A well-formed "HH:mm" string (two digits, a colon, two digits) parses to the
      minute of day its fields name. */
  lemma ParseTwoDigitFields(s: string)
    requires |s| == 5 && s[2] == ':'
    requires IsDigit(s[0]) && IsDigit(s[1]) && IsDigit(s[3]) && IsDigit(s[4])
    ensures ParseTimeOfDay(s) == Some(
      ((s[0] as int - '0' as int) * 10 + (s[1] as int - '0' as int)) * 60
      + (s[3] as int - '0' as int) * 10 + (s[4] as int - '0' as int))
  {
    var hh, mm := s[..2], s[3..];
    assert s == hh + [':'] + mm;
    assert ':' !in hh && ':' !in mm;
    SplitAtFirst(hh, ':', mm);
    SplitNoSeparator(mm, ':');
    TwoDigitsValue(hh);
    TwoDigitsValue(mm);
  }

  lemma TwoDigitsValue(s: string)
    requires |s| == 2 && IsDigit(s[0]) && IsDigit(s[1])
    ensures AllDigits(s) && DigitsValue(s) == (s[0] as int - '0' as int) * 10 + (s[1] as int - '0' as int)
  {
    var first := s[..1];
    assert first == [s[0]] && first[..0] == [];
    assert DigitsValue(first) == DigitsValue([]) * 10 + (s[0] as int - '0' as int);
    assert s[..|s| - 1] == first;
  }

  /** The characters `String.prototype.trim` removes: white space and line terminators. */
  predicate IsWhitespace(c: char)
  {
    c == ' ' || c == '\t' || c == '\n' || c == '\r' || c == '\U{B}' || c == '\U{C}'
    || c == '\U{A0}' || c == '\U{1680}' || ('\U{2000}' <= c <= '\U{200A}') || c == '\U{2028}'
    || c == '\U{2029}' || c == '\U{202F}' || c == '\U{205F}' || c == '\U{3000}' || c == '\U{FEFF}'
  }

  function TrimEnd(s: string): (r: string)
    ensures |r| <= |s| && r == s[..|r|]
    ensures r == [] || !IsWhitespace(r[|r| - 1])
    ensures forall i :: |r| <= i < |s| ==> IsWhitespace(s[i])
  {
    if s != [] && IsWhitespace(s[|s| - 1]) then TrimEnd(s[..|s| - 1]) else s
  }

  function TrimStart(s: string): (r: string)
    ensures |r| <= |s| && r == s[|s| - |r|..]
    ensures r == [] || !IsWhitespace(r[0])
    ensures forall i :: 0 <= i < |s| - |r| ==> IsWhitespace(s[i])
  {
    if s != [] && IsWhitespace(s[0]) then TrimStart(s[1..]) else s
  }

  /** `s.trim()`. */
  function Trim(s: string): string
  {
    TrimStart(TrimEnd(s))
  }
}
