// Months as the text "YYYY-MM", compared character by character.
module MonthText {
  predicate ValidYear(y: int) { 0 <= y <= 9999 }

  function Digit(d: int): char
    requires 0 <= d <= 9
  {
    (d + 48) as char
  }

  // A number in exactly `width` decimal digits.
  function Digits(v: nat, width: nat): (s: string)
    ensures |s| == width
    decreases width
  {
    if width == 0 then [] else Digits(v / 10, width - 1) + [Digit(v % 10)]
  }

  // `strftime("%Y-%m")` of the month with this index (year * 12 + month - 1).
  function Text(index: nat): string { Digits(index / 12, 4) + "-" + Digits(index % 12 + 1, 2) }

  // The string order: the first different character decides, and a proper prefix comes first.
  predicate Less(a: string, b: string)
    decreases a
  {
    if a == [] || b == [] then a == [] && b != []
    else if a[0] != b[0] then a[0] < b[0]
    else Less(a[1..], b[1..])
  }

  lemma {:induction false} LessOfConcat(a: string, b: string, s: string, t: string)
    requires |a| == |b|
    ensures Less(a + s, b + t) <==> Less(a, b) || (a == b && Less(s, t))
    decreases a
  {
    if a == [] {
      assert a + s == s && b + t == t;
    } else {
      assert (a + s)[1..] == a[1..] + s && (b + t)[1..] == b[1..] + t;
      LessOfConcat(a[1..], b[1..], s, t);
      assert a == [a[0]] + a[1..] && b == [b[0]] + b[1..];
    }
  }

  function Power(width: nat): nat { if width == 0 then 1 else 10 * Power(width - 1) }

  // Equal-width digit strings are ordered as the numbers are, and determine them.
  lemma {:induction false} DigitsOrder(v: nat, u: nat, width: nat)
    requires v < Power(width) && u < Power(width)
    ensures Less(Digits(v, width), Digits(u, width)) <==> v < u
    ensures Digits(v, width) == Digits(u, width) <==> v == u
    decreases width
  {
    if width > 0 {
      DigitsOrder(v / 10, u / 10, width - 1);
      LessOfConcat(Digits(v / 10, width - 1), Digits(u / 10, width - 1), [Digit(v % 10)], [Digit(u % 10)]);
      var a, b := Digits(v, width), Digits(u, width);
      assert a[..width - 1] == Digits(v / 10, width - 1) && b[..width - 1] == Digits(u / 10, width - 1);
      assert a[width - 1] == Digit(v % 10) && b[width - 1] == Digit(u % 10);
      LastDigit(v % 10, u % 10);
    }
  }

  lemma LastDigit(x: nat, y: nat)
    requires x <= 9 && y <= 9
    ensures Less([Digit(x)], [Digit(y)]) <==> x < y
    ensures Digit(x) == Digit(y) <==> x == y
  {
    if x != y { assert Digit(x) != Digit(y); }
    assert [Digit(x)][1..] == [] && [Digit(y)][1..] == [];
  }

  // Comparing months as text is comparing them in the calendar, across years too.
  lemma TextOrder(i: nat, j: nat)
    requires ValidYear(i / 12) && ValidYear(j / 12)
    ensures Less(Text(i), Text(j)) <==> i < j
    ensures Text(i) == Text(j) <==> i == j
  {
    var y, z, m, n := Digits(i / 12, 4), Digits(j / 12, 4), Digits(i % 12 + 1, 2), Digits(j % 12 + 1, 2);
    assert Power(1) == 10 && Power(2) == 100 && Power(3) == 1000 && Power(4) == 10_000;
    DigitsOrder(i / 12, j / 12, 4);
    DigitsOrder(i % 12 + 1, j % 12 + 1, 2);
    LessOfConcat(y + "-", z + "-", m, n);
    LessOfConcat(y, z, "-", "-");
    assert !Less("-", "-") by { assert "-"[1..] == []; }
    assert Text(i) == (y + "-") + m && Text(j) == (z + "-") + n;
    assert Text(i)[..4] == y && Text(j)[..4] == z && Text(i)[5..] == m && Text(j)[5..] == n;
  }

  // ---------- parsing and `_months_before` ----------

  function Value(s: string): nat {
    if s == [] then 0 else 10 * Value(s[..|s| - 1]) + if '0' <= s[|s| - 1] <= '9' then s[|s| - 1] as int - 48 else 0
  }

  lemma {:induction false} ValueOfDigits(v: nat, width: nat)
    requires v < Power(width)
    ensures Value(Digits(v, width)) == v
    decreases width
  {
    if width > 0 {
      ValueOfDigits(v / 10, width - 1);
      var s := Digits(v, width);
      assert s[..|s| - 1] == Digits(v / 10, width - 1);
    }
  }

  // The month number that a text stands for.
  function Index(month: string): int
    requires |month| == 7
  {
    Value(month[..4]) * 12 + Value(month[5..]) - 1
  }

  // The month `count` months earlier, by way of the text.
  function MonthsBefore(month: string, count: nat): string
    requires |month| == 7 && Index(month) >= count
  {
    Text(Index(month) - count)
  }

  lemma TextParts(i: nat)
    ensures |Text(i)| == 7 && Text(i)[..4] == Digits(i / 12, 4) && Text(i)[5..] == Digits(i % 12 + 1, 2)
  {
  }

  lemma IndexOfText(i: nat)
    requires ValidYear(i / 12)
    ensures |Text(i)| == 7 && Index(Text(i)) == i
  {
    TextParts(i);
    hide Text;
    assert Power(1) == 10 && Power(2) == 100 && Power(3) == 1000 && Power(4) == 10_000;
    ValueOfDigits(i / 12, 4);
    ValueOfDigits(i % 12 + 1, 2);
    hide Value, Digits;
  }

  lemma MonthsBeforeIsExact(i: nat, count: nat)
    requires ValidYear(i / 12) && count <= i
    ensures |Text(i)| == 7 && Index(Text(i)) == i && MonthsBefore(Text(i), count) == Text(i - count)
  {
    hide Index, Text;
    IndexOfText(i);
  }

  // So "older than the floor of `count` months" means the same in text and in the calendar.
  lemma FloorAgrees(month: nat, current: nat, count: nat)
    requires ValidYear(month / 12) && ValidYear(current / 12) && count <= current
    ensures |Text(current)| == 7 && Index(Text(current)) == current
    ensures Less(Text(month), MonthsBefore(Text(current), count)) <==> month < current - count
  {
    hide Index, Text, Less, MonthsBefore;
    MonthsBeforeIsExact(current, count);
    EarlierYear(current - count, current);
    TextOrder(month, current - count);
  }

  lemma EarlierYear(i: nat, j: nat)
    requires i <= j
    ensures i / 12 <= j / 12
  {
  }
}
