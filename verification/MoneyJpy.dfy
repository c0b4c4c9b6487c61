/** Integer yen, and the Japanese form it is printed in. */
module MoneyJpy {
  import opened Common

  const MAN: nat := 10_000
  const OKU: nat := 100_000_000

  const OKU_SIGN: char := '\U{5104}'
  const MAN_SIGN: char := '\U{4E07}'
  const YEN_SIGN: char := '\U{5186}'

  datatype Money = Money(amount: nat)

  // ---------------------------------------------------------------------------
  // Printing
  // ---------------------------------------------------------------------------

  function Digit(d: nat): char
    requires d < 10
  {
    '0' + d as char
  }

  function Digits(n: nat): string {
    if n < 10 then [Digit(n)] else Digits(n / 10) + [Digit(n % 10)]
  }

  /** Exactly three digits, with leading zeros. */
  function Three(n: nat): string
    requires n < 1000
  {
    [Digit(n / 100), Digit(n / 10 % 10), Digit(n % 10)]
  }

  /** The decimal numeral with a comma before every third digit from the right. */
  function Grouped(n: nat): string {
    if n < 1000 then Digits(n) else Grouped(n / 1000) + "," + Three(n % 1000)
  }

  /** format_ja. */
  function FormatJa(m: Money): string {
    var yen := m.amount;
    if yen < MAN then Grouped(yen) + [YEN_SIGN]
    else if yen < OKU then
      var man, remainder := yen / MAN, yen % MAN;
      if remainder != 0 then Grouped(man) + [MAN_SIGN] + Grouped(remainder) + [YEN_SIGN]
      else Grouped(man) + [MAN_SIGN, YEN_SIGN]
    else
      var oku, remainder := yen / OKU, yen % OKU;
      if remainder == 0 then Grouped(oku) + [OKU_SIGN, YEN_SIGN]
      else
        var manPart, yenPart := remainder / MAN, remainder % MAN;
        if yenPart == 0 && manPart != 0 then Grouped(oku) + [OKU_SIGN] + Grouped(manPart) + [MAN_SIGN, YEN_SIGN]
        else if yenPart != 0 then
          Grouped(oku) + [OKU_SIGN] + Grouped(manPart) + [MAN_SIGN] + Grouped(yenPart) + [YEN_SIGN]
        else Grouped(oku) + [OKU_SIGN, YEN_SIGN]
  }

  // ---------------------------------------------------------------------------
  // Reading back
  // ---------------------------------------------------------------------------

  /** Read on with a total of finished units and the number in hand; the yen sign must come last. */
  function ReadFrom(s: string, total: nat, current: nat): Option<nat> {
    if s == "" then None
    else if '0' <= s[0] <= '9' then ReadFrom(s[1..], total, 10 * current + (s[0] - '0') as int)
    else if s[0] == ',' then ReadFrom(s[1..], total, current)
    else if s[0] == OKU_SIGN then ReadFrom(s[1..], total + current * OKU, 0)
    else if s[0] == MAN_SIGN then ReadFrom(s[1..], total + current * MAN, 0)
    else if s == [YEN_SIGN] then Some(total + current)
    else None
  }

  function Read(s: string): Option<nat> {
    ReadFrom(s, 0, 0)
  }

  lemma ReadDigit(d: nat, rest: string, total: nat, current: nat)
    requires d < 10
    ensures ReadFrom([Digit(d)] + rest, total, current) == ReadFrom(rest, total, 10 * current + d)
  {
    var text := [Digit(d)] + rest;
    assert text[0] == Digit(d) && text[1..] == rest;
  }

  lemma ReadSign(sign: char, rest: string, total: nat, current: nat)
    ensures sign == ',' ==> ReadFrom([sign] + rest, total, current) == ReadFrom(rest, total, current)
    ensures sign == OKU_SIGN ==> ReadFrom([sign] + rest, total, current) == ReadFrom(rest, total + current * OKU, 0)
    ensures sign == MAN_SIGN ==> ReadFrom([sign] + rest, total, current) == ReadFrom(rest, total + current * MAN, 0)
    ensures ReadFrom([YEN_SIGN], total, current) == Some(total + current)
  {
    var text := [sign] + rest;
    assert text[0] == sign && text[1..] == rest;
  }

  lemma {:induction false} ReadDigits(n: nat, rest: string, total: nat)
    ensures ReadFrom(Digits(n) + rest, total, 0) == ReadFrom(rest, total, n)
  {
    hide ReadFrom, Digit;
    if n < 10 {
      ReadDigit(n, rest, total, 0);
    } else {
      ReadDigits(n / 10, [Digit(n % 10)] + rest, total);
      ReadDigit(n % 10, rest, total, n / 10);
      assert Digits(n) + rest == Digits(n / 10) + ([Digit(n % 10)] + rest);
    }
  }

  lemma ReadThree(n: nat, rest: string, total: nat, current: nat)
    requires n < 1000
    ensures ReadFrom(Three(n) + rest, total, current) == ReadFrom(rest, total, 1000 * current + n)
  {
    hide ReadFrom, Digit;
    var a, b, c := n / 100, n / 10 % 10, n % 10;
    assert Three(n) + rest == [Digit(a)] + ([Digit(b)] + ([Digit(c)] + rest));
    ReadDigit(a, [Digit(b)] + ([Digit(c)] + rest), total, current);
    ReadDigit(b, [Digit(c)] + rest, total, 10 * current + a);
    ReadDigit(c, rest, total, 10 * (10 * current + a) + b);
  }

  lemma {:induction false} ReadGrouped(n: nat, rest: string, total: nat)
    ensures ReadFrom(Grouped(n) + rest, total, 0) == ReadFrom(rest, total, n)
  {
    hide ReadFrom, Digits, Three;
    if n < 1000 {
      ReadDigits(n, rest, total);
    } else {
      var tail := Three(n % 1000) + rest;
      ReadGrouped(n / 1000, "," + tail, total);
      ReadSign(',', tail, total, n / 1000);
      ReadThree(n % 1000, rest, total, n / 1000);
      assert Grouped(n) + rest == Grouped(n / 1000) + ("," + tail);
    }
  }

  lemma ReadSmall(yen: nat, total: nat)
    ensures ReadFrom(Grouped(yen) + [YEN_SIGN], total, 0) == Some(total + yen)
  {
    hide ReadFrom, Grouped;
    ReadGrouped(yen, [YEN_SIGN], total);
    ReadSign(',', "", total, yen);
  }

  /** man units of ten thousand, then whole yen or nothing. */
  lemma ReadMan(man: nat, yen: nat, total: nat)
    ensures ReadFrom(Grouped(man) + [MAN_SIGN] + Grouped(yen) + [YEN_SIGN], total, 0) == Some(total + man * MAN + yen)
    ensures ReadFrom(Grouped(man) + [MAN_SIGN, YEN_SIGN], total, 0) == Some(total + man * MAN)
  {
    hide ReadFrom, Grouped;
    var rest := Grouped(yen) + [YEN_SIGN];
    assert Grouped(man) + [MAN_SIGN] + Grouped(yen) + [YEN_SIGN] == Grouped(man) + ([MAN_SIGN] + rest);
    ReadGrouped(man, [MAN_SIGN] + rest, total);
    ReadSign(MAN_SIGN, rest, total, man);
    ReadSmall(yen, total + man * MAN);
    ReadGrouped(man, [MAN_SIGN, YEN_SIGN], total);
    assert [MAN_SIGN, YEN_SIGN] == [MAN_SIGN] + [YEN_SIGN];
    ReadSign(MAN_SIGN, [YEN_SIGN], total, man);
    ReadSign(',', "", total + man * MAN, 0);
  }

  lemma ReadOku(oku: nat, rest: string)
    ensures ReadFrom(Grouped(oku) + [OKU_SIGN] + rest, 0, 0) == ReadFrom(rest, oku * OKU, 0)
  {
    hide ReadFrom, Grouped;
    assert Grouped(oku) + [OKU_SIGN] + rest == Grouped(oku) + ([OKU_SIGN] + rest);
    ReadGrouped(oku, [OKU_SIGN] + rest, 0);
    ReadSign(OKU_SIGN, rest, 0, oku);
  }

  /** Reading a printed amount gives the amount back, for every amount. */
  lemma ReadInvertsFormat(m: Money)
    ensures Read(FormatJa(m)) == Some(m.amount)
  {
    hide ReadFrom, Grouped;
    var yen := m.amount;
    if yen < MAN {
      ReadSmall(yen, 0);
    } else if yen < OKU {
      ReadMan(yen / MAN, yen % MAN, 0);
    } else {
      var oku, remainder := yen / OKU, yen % OKU;
      var manPart, yenPart := remainder / MAN, remainder % MAN;
      if remainder == 0 {
        assert [OKU_SIGN, YEN_SIGN] == [OKU_SIGN] + [YEN_SIGN];
        assert Grouped(oku) + [OKU_SIGN, YEN_SIGN] == Grouped(oku) + [OKU_SIGN] + [YEN_SIGN];
        ReadOku(oku, [YEN_SIGN]);
        ReadSign(',', "", oku * OKU, 0);
      } else {
        ReadMan(manPart, yenPart, oku * OKU);
        var rest := if yenPart == 0 then Grouped(manPart) + [MAN_SIGN, YEN_SIGN]
                    else Grouped(manPart) + [MAN_SIGN] + Grouped(yenPart) + [YEN_SIGN];
        assert FormatJa(m) == Grouped(oku) + [OKU_SIGN] + rest;
        ReadOku(oku, rest);
      }
    }
  }

  /** No two amounts print the same. */
  lemma FormatIsInjective(a: Money, b: Money)
    requires FormatJa(a) == FormatJa(b)
    ensures a == b
  {
    ReadInvertsFormat(a);
    ReadInvertsFormat(b);
  }

  // ---------------------------------------------------------------------------
  // The grouping
  // ---------------------------------------------------------------------------

  function WithoutCommas(s: string): string {
    if s == "" then ""
    else WithoutCommas(s[..|s| - 1]) + (if s[|s| - 1] == ',' then "" else [s[|s| - 1]])
  }

  /** The commas of s stand exactly at every fourth place from the right. */
  predicate CommasEveryFourth(s: string) {
    forall i :: 0 <= i < |s| ==> (s[i] == ',' <==> (|s| - i) % 4 == 0)
  }

  lemma {:induction false} NoCommaInDigits(n: nat)
    ensures WithoutCommas(Digits(n)) == Digits(n) && ',' !in Digits(n) && Digits(n) != ""
  {
    if n < 10 {
      assert [Digit(n)][..0] == "";
    } else {
      NoCommaInDigits(n / 10);
      hide Digit;
      DigitIsNoComma(n % 10);
      WithoutCommasStep(Digits(n / 10), Digit(n % 10));
    }
  }

  lemma DigitIsNoComma(d: nat)
    requires d < 10
    ensures Digit(d) != ','
  {
  }

  lemma ShortNumeral(n: nat)
    requires n < 1000
    ensures |Digits(n)| <= 3
  {
    hide Digit;
    assert n >= 10 ==> |Digits(n)| == |Digits(n / 10)| + 1;
    assert n / 10 >= 10 ==> |Digits(n / 10)| == |Digits(n / 10 / 10)| + 1;
  }

  lemma WithoutCommasStep(s: string, c: char)
    ensures WithoutCommas(s + [c]) == WithoutCommas(s) + (if c == ',' then "" else [c])
  {
    assert (s + [c])[..|s|] == s;
  }

  lemma NoCommas(s: string)
    requires ',' !in s && |s| <= 3
    ensures CommasEveryFourth(s)
  {
  }

  lemma FourthStep(head: string, a: char, b: char, c: char)
    requires CommasEveryFourth(head) && a != ',' && b != ',' && c != ','
    ensures CommasEveryFourth(head + "," + [a, b, c])
  {
    var s := head + "," + [a, b, c];
    forall i | 0 <= i < |s| ensures s[i] == ',' <==> (|s| - i) % 4 == 0 {
      if i < |head| {
        assert |s| - i == (|head| - i) + 4;
      }
    }
  }

  lemma WithoutCommasGroup(head: string, low: nat)
    requires low < 1000
    ensures WithoutCommas(head + "," + Three(low)) == WithoutCommas(head) + Three(low)
  {
    var a, b, c := Digit(low / 100), Digit(low / 10 % 10), Digit(low % 10);
    WithoutCommasStep(head, ',');
    WithoutCommasStep(head + ",", a);
    WithoutCommasStep(head + "," + [a], b);
    WithoutCommasStep(head + "," + [a] + [b], c);
    hide WithoutCommas;
    assert head + "," + Three(low) == head + "," + [a] + [b] + [c];
  }

  /** A printed number is its decimal numeral with commas at every fourth place from the right. */
  lemma {:induction false} GroupedIsNumeral(n: nat)
    ensures WithoutCommas(Grouped(n)) == Digits(n)
    ensures CommasEveryFourth(Grouped(n)) && Grouped(n) != "" && Grouped(n)[0] != ','
  {
    hide Digits, WithoutCommas, CommasEveryFourth, Digit;
    if n < 1000 {
      NoCommaInDigits(n);
      ShortNumeral(n);
      NoCommas(Digits(n));
    } else {
      var low := n % 1000;
      GroupedIsNumeral(n / 1000);
      WithoutCommasGroup(Grouped(n / 1000), low);
      NumeralSplits(n);
      DigitIsNoComma(low / 100);
      DigitIsNoComma(low / 10 % 10);
      DigitIsNoComma(low % 10);
      FourthStep(Grouped(n / 1000), Digit(low / 100), Digit(low / 10 % 10), Digit(low % 10));
    }
  }

  lemma NumeralSplits(n: nat)
    requires n >= 1000
    ensures Digits(n) == Digits(n / 1000) + Three(n % 1000)
  {
    hide Digit;
    LowDigits(n);
    assert Digits(n) == Digits(n / 10) + [Digit(n % 10)];
    assert Digits(n / 10) == Digits(n / 100) + [Digit(n / 10 % 10)];
    assert Digits(n / 100) == Digits(n / 1000) + [Digit(n / 100 % 10)];
  }

  lemma LowDigits(n: nat)
    requires n >= 1000
    ensures n / 10 / 10 == n / 100 && n / 100 / 10 == n / 1000
    ensures n / 100 % 10 == n % 1000 / 100 && n / 10 % 10 == n % 1000 / 10 % 10 && n % 10 == n % 1000 % 10
    ensures n / 10 >= 10 && n / 100 >= 10
  {
  }
}
