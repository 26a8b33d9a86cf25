/**
 * The number formats of the bar labels: Python's format specifications
 * ",.2f" (for a value held in hundredths) and ",.0f" (for a whole value).
 * Digits are grouped in threes from the right with ',' between groups, a
 * negative value is preceded by '-'. ReadSigned is the partner that reads a
 * label back into the number it shows.
 */
module NumberFormat {

  predicate IsDigit(c: char)
  {
    '0' <= c <= '9'
  }

  predicate AllDigits(s: string)
  {
    forall i :: 0 <= i < |s| ==> IsDigit(s[i])
  }

  function DigitValue(c: char): (d: nat)
    requires IsDigit(c)
    ensures d < 10
  {
    c as int - '0' as int
  }

  function DigitChar(d: nat): (c: char)
    requires d < 10
    ensures IsDigit(c) && DigitValue(c) == d
  {
    ('0' as int + d) as char
  }

  function Pow10(k: nat): (r: nat)
    ensures r >= 1
  {
    if k == 0 then 1 else 10 * Pow10(k - 1)
  }

  /** The number of digit characters in s (separators do not count). */
  function CountDigits(s: string): nat
  {
    if s == [] then 0
    else CountDigits(s[..|s| - 1]) + (if IsDigit(s[|s| - 1]) then 1 else 0)
  }

  /** The number the digits of s denote, read left to right; separators are skipped. */
  function ReadDigits(s: string): nat
  {
    if s == [] then 0
    else if IsDigit(s[|s| - 1]) then 10 * ReadDigits(s[..|s| - 1]) + DigitValue(s[|s| - 1])
    else ReadDigits(s[..|s| - 1])
  }

  /** The number a label shows: a leading '-' negates, everything else is read by ReadDigits. */
  function ReadSigned(s: string): int
  {
    if |s| > 0 && s[0] == '-' then 0 - ReadDigits(s[1..]) else ReadDigits(s)
  }

  /** The plain decimal digits of n, most significant first. */
  function Digits(n: nat): string
  {
    if n < 10 then [DigitChar(n)] else Digits(n / 10) + [DigitChar(n % 10)]
  }

  /** Three digits of k < 1000, zero-padded on the left (a group after a separator). */
  function Pad3(k: nat): string
    requires k < 1000
  {
    [DigitChar(k / 100), DigitChar(k / 10 % 10), DigitChar(k % 10)]
  }

  /** A leading group of one to three digits, then any number of ',' followed by exactly three digits. */
  predicate IsGroupSeq(s: string)
    decreases |s|
  {
    if |s| <= 3 then 1 <= |s| && AllDigits(s)
    else |s| >= 5 && s[|s| - 4] == ',' && AllDigits(s[|s| - 3..]) && IsGroupSeq(s[..|s| - 4])
  }

  /**
   * Digits grouped in threes from the right, with no leading zero unless the
   * whole text is the single digit 0.
   */
  predicate IsGrouped(s: string)
  {
    |s| >= 1 && (s[0] == '0' ==> |s| == 1) && IsGroupSeq(s)
  }

  /** The ',' thousands-separated rendering of n. */
  function Grouped(n: nat): string
  {
    if n < 1000 then Digits(n) else Grouped(n / 1000) + [','] + Pad3(n % 1000)
  }

  function Sign(v: int): string
  {
    if v < 0 then "-" else ""
  }

  function Abs(v: int): nat
  {
    if v < 0 then -v else v
  }

  /** The shape of a ",.0f" label: an optional '-', then well-grouped digits. */
  predicate IsWholeLabel(s: string)
  {
    |s| >= 1 && IsGrouped(if s[0] == '-' then s[1..] else s)
  }

  /** The shape of an unsigned ",.2f" label: a well-grouped integral part, '.', exactly two digits. */
  predicate IsUnsignedTwo(u: string)
  {
    |u| >= 4 && IsGrouped(u[..|u| - 3]) && u[|u| - 3] == '.' && IsDigit(u[|u| - 2]) && IsDigit(u[|u| - 1])
  }

  /** The shape of a ",.2f" label: an optional '-', then an unsigned ",.2f" label. */
  predicate IsFixedTwoLabel(s: string)
  {
    IsUnsignedTwo(if |s| > 0 && s[0] == '-' then s[1..] else s)
  }

  /** Python's f"{v:,.0f}" for a whole number v. */
  function WholeGrouped(v: int): (s: string)
    ensures |s| >= 1
    ensures s[0] == '-' <==> v < 0
    ensures IsGrouped(if v < 0 then s[1..] else s)
  {
    GroupedShape(Abs(v));
    var s := Sign(v) + Grouped(Abs(v));
    assert v < 0 ==> s[1..] == Grouped(Abs(v));
    assert v >= 0 ==> s == Grouped(Abs(v));
    s
  }

  /** The unsigned ",.2f" rendering of a / 100: grouped integral part, '.', exactly two decimals. */
  function Unsigned2(a: nat): (s: string)
    ensures |s| >= 4 && s[|s| - 3] == '.' && IsDigit(s[|s| - 2]) && IsDigit(s[|s| - 1])
    ensures IsDigit(s[0])
    ensures IsGrouped(s[..|s| - 3])
  {
    GroupedShape(a / 100);
    var intPart := Grouped(a / 100);
    var s := intPart + ['.', DigitChar(a % 100 / 10), DigitChar(a % 10)];
    assert s[..|s| - 3] == intPart;
    s
  }

  /** Python's f"{x:,.2f}" for x = h / 100, exact because x has at most two decimals. */
  function FixedTwo(h: int): (s: string)
    ensures |s| >= 4 && s[|s| - 3] == '.' && IsDigit(s[|s| - 2]) && IsDigit(s[|s| - 1])
    ensures s[0] == '-' <==> h < 0
  {
    var u := Unsigned2(Abs(h));
    var s := Sign(h) + u;
    assert h < 0 ==> s[1..] == u;
    assert h >= 0 ==> s == u;
    s
  }

  /** A ",.2f" label is well shaped: its integral part is grouped in threes, with no leading zero. */
  lemma FixedTwoShape(h: int)
    ensures IsFixedTwoLabel(FixedTwo(h))
  {
    var u := Unsigned2(Abs(h));
    assert FixedTwo(h) == Sign(h) + u;
    SignedUnsignedTwo(Sign(h), u);
  }

  /** An optional '-' in front of an unsigned ",.2f" label that starts with a digit gives a ",.2f" label. */
  lemma SignedUnsignedTwo(sign: string, u: string)
    requires sign == "" || sign == "-"
    requires IsUnsignedTwo(u) && IsDigit(u[0])
    ensures IsFixedTwoLabel(sign + u)
  {
    if sign == "-" {
      assert (sign + u)[0] == '-' && (sign + u)[1..] == u;
    } else {
      assert sign + u == u;
    }
  }

  /** Digits(n) is one to three digits for n < 1000 (more for larger n), with no leading zero. */
  lemma {:induction false} DigitsShape(n: nat)
    ensures 1 <= |Digits(n)| && AllDigits(Digits(n))
    ensures Digits(n)[0] == '0' <==> n == 0
    ensures n < 10 ==> |Digits(n)| == 1
    ensures n < 100 ==> |Digits(n)| <= 2
    ensures n < 1000 ==> |Digits(n)| <= 3
    decreases n
  {
    if n >= 10 {
      DigitsShape(n / 10);
    }
  }

  /** The grouped rendering is well grouped, starts with a digit, and starts with '0' only for 0. */
  lemma {:induction false} GroupedShape(n: nat)
    ensures IsGrouped(Grouped(n))
    ensures IsDigit(Grouped(n)[0])
    ensures Grouped(n)[0] == '0' <==> n == 0
    decreases n
  {
    if n < 1000 {
      DigitsShape(n);
    } else {
      var g := Grouped(n / 1000);
      var p := Pad3(n % 1000);
      var s := g + [','] + p;
      GroupedShape(n / 1000);
      assert s[..|s| - 4] == g;
      assert s[|s| - 3..] == p;
    }
  }

  /** Texts Python never prints are not well shaped: a leading "0," group, or a zero-padded integral part. */
  lemma MalformedLabelsRejected()
    ensures !IsGrouped("0,123") && !IsGrouped("0,000")
    ensures !IsWholeLabel("0,123") && !IsWholeLabel("-0,123")
    ensures !IsFixedTwoLabel("081.00") && !IsFixedTwoLabel("0,001.23")
  {
  }

  /** Appending one character: a digit shifts the value left and adds itself, anything else is skipped. */
  lemma ReadSnoc(s: string, c: char)
    ensures ReadDigits(s + [c]) == if IsDigit(c) then 10 * ReadDigits(s) + DigitValue(c) else ReadDigits(s)
    ensures CountDigits(s + [c]) == CountDigits(s) + if IsDigit(c) then 1 else 0
  {
    assert (s + [c])[..|s + [c]| - 1] == s;
  }

  /** The digit count of a concatenation is the sum of the parts' counts. */
  lemma {:induction false} CountDigitsAppend(a: string, b: string)
    ensures CountDigits(a + b) == CountDigits(a) + CountDigits(b)
    decreases |b|
  {
    if b == [] {
      assert a + b == a;
    } else {
      var b', c := b[..|b| - 1], b[|b| - 1];
      assert b == b' + [c];
      assert a + b == (a + b') + [c];
      CountDigitsAppend(a, b');
      ReadSnoc(a + b', c);
      ReadSnoc(b', c);
    }
  }

  /** Reading a concatenation: the left part's value is shifted by the digits of the right part. */
  lemma {:induction false} ReadDigitsAppend(a: string, b: string)
    ensures ReadDigits(a + b) == ReadDigits(a) * Pow10(CountDigits(b)) + ReadDigits(b)
    decreases |b|
  {
    if b == [] {
      assert a + b == a;
    } else {
      var b', c := b[..|b| - 1], b[|b| - 1];
      assert b == b' + [c];
      assert a + b == (a + b') + [c];
      ReadDigitsAppend(a, b');
      ReadSnoc(a + b', c);
      ReadSnoc(b', c);
      if IsDigit(c) {
        ShiftLeft(ReadDigits(a), Pow10(CountDigits(b')), ReadDigits(b'), DigitValue(c));
      }
    }
  }

  /** The arithmetic step of ReadDigitsAppend. */
  lemma ShiftLeft(r: int, p: int, t: int, d: int)
    ensures 10 * (r * p + t) + d == r * (10 * p) + (10 * t + d)
  {
  }

  /** The plain digits of n read back as n. */
  lemma {:induction false} DigitsRoundTrip(n: nat)
    ensures ReadDigits(Digits(n)) == n
    decreases n
  {
    if n < 10 {
      ReadOneDigit(DigitChar(n));
    } else {
      ReadSnoc(Digits(n / 10), DigitChar(n % 10));
      DigitsRoundTrip(n / 10);
    }
  }

  /** A single digit character reads as its value and counts as one digit. */
  lemma ReadOneDigit(x: char)
    requires IsDigit(x)
    ensures ReadDigits([x]) == DigitValue(x) && CountDigits([x]) == 1
  {
    assert [x][..0] == [];
  }

  /** Two digit characters read as a two-digit number and count as two digits. */
  lemma ReadTwoDigits(y: char, z: char)
    requires IsDigit(y) && IsDigit(z)
    ensures ReadDigits([y, z]) == 10 * DigitValue(y) + DigitValue(z)
    ensures CountDigits([y, z]) == 2
  {
    assert [y, z][..1] == [y];
    ReadOneDigit(y);
  }

  /** The three padded digits of k read back as k. */
  lemma Pad3RoundTrip(k: nat)
    requires k < 1000
    ensures ReadDigits(Pad3(k)) == k && CountDigits(Pad3(k)) == 3
  {
    var x, y, z := DigitChar(k / 100), DigitChar(k / 10 % 10), DigitChar(k % 10);
    assert Pad3(k) == [x] + [y, z];
    ReadOneDigit(x);
    ReadTwoDigits(y, z);
    ReadDigitsAppend([x], [y, z]);
    CountDigitsAppend([x], [y, z]);
    assert Pow10(2) == 100;
    assert k / 100 == k / 10 / 10;
  }

  /** The separators are skipped: the grouped rendering of n reads back as n. */
  lemma {:induction false} GroupedRoundTrip(n: nat)
    ensures ReadDigits(Grouped(n)) == n
    decreases n
  {
    if n < 1000 {
      DigitsRoundTrip(n);
    } else {
      var g := Grouped(n / 1000);
      GroupedRoundTrip(n / 1000);
      Pad3RoundTrip(n % 1000);
      ReadDigitsAppend(g + [','], Pad3(n % 1000));
      ReadSnoc(g, ',');
      assert Pow10(3) == 1000;
    }
  }

  /** A ",.0f" label reads back as the value it renders; distinct values get distinct labels. */
  lemma WholeGroupedRoundTrip(v: int)
    ensures ReadSigned(WholeGrouped(v)) == v
  {
    var s := WholeGrouped(v);
    GroupedRoundTrip(Abs(v));
    if v < 0 {
      assert s[1..] == Grouped(Abs(v));
    } else {
      assert s == Grouped(Abs(v));
    }
  }

  /** An integral part, '.', and two decimal digits read as the integral part's value in hundredths. */
  lemma ReadTwoDecimals(g: string, y: char, z: char)
    requires IsDigit(y) && IsDigit(z)
    ensures ReadDigits(g + ['.', y, z]) == ReadDigits(g) * 100 + (DigitValue(y) * 10 + DigitValue(z))
  {
    assert g + ['.', y, z] == (g + ['.']) + [y, z];
    ReadSnoc(g, '.');
    ReadTwoDigits(y, z);
    ReadDigitsAppend(g + ['.'], [y, z]);
    assert Pow10(2) == 100;
  }

  /** The unsigned two-decimal rendering of a / 100 reads back as a. */
  lemma Unsigned2RoundTrip(a: nat)
    ensures ReadDigits(Unsigned2(a)) == a
  {
    var g := Grouped(a / 100);
    var y, z := DigitChar(a % 100 / 10), DigitChar(a % 10);
    assert Unsigned2(a) == g + ['.', y, z];
    GroupedRoundTrip(a / 100);
    ReadTwoDecimals(g, y, z);
    HundredthsSplit(a);
  }

  /** A count of hundredths is its whole part, its tenths digit and its hundredths digit. */
  lemma HundredthsSplit(a: nat)
    ensures (a / 100) * 100 + ((a % 100 / 10) * 10 + a % 10) == a
  {
    var q, r := a / 100, a % 100;
    assert a == q * 100 + r;
    assert r == (r / 10) * 10 + r % 10;
    assert r % 10 == a % 10;
  }

  /** A ",.2f" label reads back as the hundredths it renders; distinct values get distinct labels. */
  lemma FixedTwoRoundTrip(h: int)
    ensures ReadSigned(FixedTwo(h)) == h
  {
    var s := FixedTwo(h);
    var u := Unsigned2(Abs(h));
    Unsigned2RoundTrip(Abs(h));
    if h < 0 {
      assert s[1..] == u;
    } else {
      assert s == u;
    }
  }

  /** A digit character is the character of its value. */
  lemma DigitCharValue(c: char)
    requires IsDigit(c)
    ensures DigitChar(DigitValue(c)) == c
  {
  }

  /** A text of plain digits has as many digits as characters and reads below 10 to that power. */
  lemma {:induction false} AllDigitsRead(s: string)
    requires AllDigits(s)
    ensures CountDigits(s) == |s| && ReadDigits(s) < Pow10(|s|)
    decreases |s|
  {
    if s != [] {
      var t, c := s[..|s| - 1], s[|s| - 1];
      assert s == t + [c];
      ReadSnoc(t, c);
      AllDigitsRead(t);
    }
  }

  /** Plain digits with no leading zero (other than "0" itself) are the rendering of the value they read as. */
  lemma {:induction false} DigitsUnique(s: string)
    requires 1 <= |s| && AllDigits(s) && (s[0] == '0' ==> |s| == 1)
    ensures Digits(ReadDigits(s)) == s
    ensures s[0] != '0' ==> ReadDigits(s) >= 1
    decreases |s|
  {
    var t, c := s[..|s| - 1], s[|s| - 1];
    assert s == t + [c];
    ReadSnoc(t, c);
    DigitCharValue(c);
    if |s| > 1 {
      DigitsUnique(t);
      var r := ReadDigits(t);
      assert ReadDigits(s) == 10 * r + DigitValue(c);
      assert ReadDigits(s) / 10 == r && ReadDigits(s) % 10 == DigitValue(c);
    }
  }

  /** The arithmetic of a base-ten place split: a value times a power of ten plus a smaller remainder. */
  lemma PlaceSplit(r: int, q: int, p: int)
    requires r >= 0 && (p == 10 || p == 100 || p == 1000) && 0 <= q < p
    ensures (r * p + q) / p == r && (r * p + q) % p == q
  {
    if p == 10 {
      assert r * p + q == 10 * r + q;
    } else if p == 100 {
      assert r * p + q == 100 * r + q;
    } else {
      assert r * p + q == 1000 * r + q;
    }
  }

  /** Three digit characters are the padded group of the value they read as. */
  lemma Pad3Unique(d: string)
    requires |d| == 3 && AllDigits(d)
    ensures ReadDigits(d) < 1000 && Pad3(ReadDigits(d)) == d
  {
    var x, y, z := d[0], d[1], d[2];
    assert d == [x] + [y, z];
    ReadOneDigit(x);
    ReadTwoDigits(y, z);
    ReadDigitsAppend([x], [y, z]);
    assert Pow10(2) == 100;
    DigitCharValue(x);
    DigitCharValue(y);
    DigitCharValue(z);
    var k := ReadDigits(d);
    var a, b, c := DigitValue(x), DigitValue(y), DigitValue(z);
    assert k == a * 100 + (b * 10 + c);
    PlaceSplit(a, b * 10 + c, 100);
    PlaceSplit(a * 10 + b, c, 10);
    PlaceSplit(a, b, 10);
    assert k / 10 == a * 10 + b;
    assert Pad3(k) == [DigitChar(a), DigitChar(b), DigitChar(c)];
  }

  /** A well-grouped text is exactly the grouped rendering of the value it reads as. */
  lemma {:induction false} GroupedUnique(s: string)
    requires IsGrouped(s)
    ensures Grouped(ReadDigits(s)) == s
    decreases |s|
  {
    if |s| <= 3 {
      AllDigitsRead(s);
      assert Pow10(|s|) <= 1000 by {
        assert Pow10(3) == 1000;
      }
      DigitsUnique(s);
    } else {
      var t, d := s[..|s| - 4], s[|s| - 3..];
      assert s == (t + [',']) + d;
      assert t[0] == s[0];
      GroupedUnique(t);
      GroupedUniqueStep(t, d);
    }
  }

  /** One more group: if t is the grouped rendering of its value, so is t + ',' + d for three digits d. */
  lemma GroupedUniqueStep(t: string, d: string)
    requires |t| >= 1 && t[0] != '0' && Grouped(ReadDigits(t)) == t
    requires |d| == 3 && AllDigits(d)
    ensures Grouped(ReadDigits((t + [',']) + d)) == (t + [',']) + d
  {
    Pad3Unique(d);
    AllDigitsRead(d);
    ReadSnoc(t, ',');
    ReadDigitsAppend(t + [','], d);
    assert Pow10(3) == 1000;
    var r, q := ReadDigits(t), ReadDigits(d);
    GroupedShape(r);
    var n := ReadDigits((t + [',']) + d);
    assert n == r * 1000 + q;
    PlaceSplit(r, q, 1000);
    assert Grouped(n) == Grouped(r) + [','] + Pad3(q);
  }

  /** A ",.0f"-shaped text whose sign is v's and which reads as v is exactly the rendering of v. */
  lemma WholeGroupedUnique(s: string, v: int)
    requires IsWholeLabel(s) && (s[0] == '-' <==> v < 0) && ReadSigned(s) == v
    ensures s == WholeGrouped(v)
  {
    if v < 0 {
      var u := s[1..];
      GroupedUnique(u);
      assert Abs(v) == ReadDigits(u);
      assert s == "-" + u;
      assert WholeGrouped(v) == "-" + Grouped(Abs(v));
    } else {
      GroupedUnique(s);
      assert WholeGrouped(v) == "" + Grouped(v);
    }
  }

  /** The arithmetic of reading back hundredths: the integral part, the tenths digit and the hundredths digit. */
  lemma DecimalSplit(r: int, b: int, c: int)
    requires r >= 0 && 0 <= b < 10 && 0 <= c < 10
    ensures var a := r * 100 + (b * 10 + c); a / 100 == r && a % 100 / 10 == b && a % 10 == c
  {
    var a := r * 100 + (b * 10 + c);
    PlaceSplit(r, b * 10 + c, 100);
    PlaceSplit(b, c, 10);
    assert a == (r * 10 + b) * 10 + c;
    PlaceSplit(r * 10 + b, c, 10);
  }

  /** A text ending in '.' and two characters is its integral part followed by those three. */
  lemma DecimalParts(u: string)
    requires |u| >= 4 && u[|u| - 3] == '.'
    ensures u == u[..|u| - 3] + ['.', u[|u| - 2], u[|u| - 1]]
  {
    assert u == u[..|u| - 3] + u[|u| - 3..];
  }

  /** An unsigned two-decimal text is exactly the rendering of the hundredths it reads as. */
  lemma Unsigned2Unique(u: string)
    requires |u| >= 4 && IsGrouped(u[..|u| - 3]) && u[|u| - 3] == '.'
    requires IsDigit(u[|u| - 2]) && IsDigit(u[|u| - 1])
    ensures Unsigned2(ReadDigits(u)) == u
  {
    var g, y, z := u[..|u| - 3], u[|u| - 2], u[|u| - 1];
    DecimalParts(u);
    ReadTwoDecimals(g, y, z);
    GroupedUnique(g);
    DigitCharValue(y);
    DigitCharValue(z);
    var a, r, b, c := ReadDigits(u), ReadDigits(g), DigitValue(y), DigitValue(z);
    DecimalSplit(r, b, c);
    assert a / 100 == r && a % 100 / 10 == b && a % 10 == c;
    assert Unsigned2(a) == Grouped(r) + ['.', DigitChar(b), DigitChar(c)];
  }

  /** A ",.2f"-shaped text whose sign is h's and which reads as h is exactly the rendering of h. */
  lemma FixedTwoUnique(s: string, h: int)
    requires IsFixedTwoLabel(s) && (s[0] == '-' <==> h < 0) && ReadSigned(s) == h
    ensures s == FixedTwo(h)
  {
    var u := if h < 0 then s[1..] else s;
    Unsigned2Unique(u);
    assert Abs(h) == ReadDigits(u);
    assert FixedTwo(h) == Sign(h) + Unsigned2(Abs(h));
    assert s == Sign(h) + u by {
      if h < 0 {
        assert s == [s[0]] + s[1..];
      }
    }
  }

  /** 90.00, the baseline tonnage label. */
  lemma Render90() ensures Unsigned2(9000) == "90.00" {}

  /** 81.00, the default scenario's valorised tonnage label. */
  lemma Render81() ensures Unsigned2(8100) == "81.00" {}

  /** 20,000, the baseline and default energy label. */
  lemma Render20000() ensures Grouped(20000) == "20,000" {}

  /** 9,000,000, the baseline revenue label. */
  lemma Render9000000() ensures Grouped(9000000) == "9,000,000" {}

  /** 10,000,000, the default scenario's revenue label. */
  lemma Render10000000() ensures Grouped(10000000) == "10,000,000" {}
}
