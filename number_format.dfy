/**
 * The number formatting of the population map (`formatNumber`): the decimal
 * numeral of a population with a comma before every block of three digits
 * counted from the right, or "No disponible" for a falsy value.
 */
module NumberFormat {
  import opened Options

  /** What `formatNumber` returns for a missing or zero population. */
  const Unavailable: string := "No disponible"

  predicate IsDigit(c: char) { '0' <= c <= '9' }

  predicate IsDigits(s: string) { forall i :: 0 <= i < |s| ==> IsDigit(s[i]) }

  function DigitChar(d: nat): (c: char)
    requires d < 10
    ensures IsDigit(c) && c as int - '0' as int == d
  {
    ('0' as int + d) as char
  }

  function DigitValue(c: char): (d: nat)
    requires IsDigit(c)
    ensures d < 10 && DigitChar(d) == c
  {
    c as int - '0' as int
  }

  /** The numeral `toString` gives a non-negative integer: digits only, no leading zero. */
  function Decimal(n: nat): (s: string)
    ensures 1 <= |s| && IsDigits(s)
    ensures s[0] == '0' ==> n == 0
  {
    if n < 10 then [DigitChar(n)] else Decimal(n / 10) + [DigitChar(n % 10)]
  }

  /** The number a digit string denotes. */
  function Value(s: string): nat
    requires IsDigits(s)
  {
    if s == [] then 0 else 10 * Value(s[..|s| - 1]) + DigitValue(s[|s| - 1])
  }

  /** A canonical numeral: non-empty, and no leading zero unless it is "0". */
  predicate IsNumeral(s: string)
  {
    1 <= |s| && IsDigits(s) && (s[0] == '0' ==> |s| == 1)
  }

  lemma {:induction false} ValueOfDecimal(n: nat)
    ensures Value(Decimal(n)) == n
  {
    if n >= 10 {
      var s := Decimal(n);
      assert s[..|s| - 1] == Decimal(n / 10);
      ValueOfDecimal(n / 10);
    }
  }

  lemma {:induction false} ValuePositive(s: string)
    requires IsDigits(s) && 1 <= |s| && s[0] != '0'
    ensures Value(s) > 0
  {
    if |s| > 1 {
      ValuePositive(s[..|s| - 1]);
    }
  }

  /** Every canonical numeral is the `toString` of the number it denotes. */
  lemma {:induction false} DecimalOfValue(s: string)
    requires IsNumeral(s)
    ensures Decimal(Value(s)) == s
  {
    if |s| > 1 {
      var p := s[..|s| - 1];
      ValuePositive(p);
      DecimalOfValue(p);
      var v := Value(s);
      assert v / 10 == Value(p) && v % 10 == DigitValue(s[|s| - 1]);
      assert s == p + [s[|s| - 1]];
    }
  }

  function Pow10(k: nat): (p: nat)
    ensures p >= 1
  {
    if k == 0 then 1 else 10 * Pow10(k - 1)
  }

  /** The numeral of n has at most k + 1 digits exactly when n < 10^(k+1). */
  lemma {:induction false} DecimalLength(n: nat, k: nat)
    ensures |Decimal(n)| <= k + 1 <==> n < Pow10(k + 1)
  {
    if n >= 10 && k > 0 {
      DecimalLength(n / 10, k - 1);
    }
  }

  /**
   * The grouping the regular expression performs, as a recursion: the last
   * three digits form a block, and what precedes them is grouped the same way.
   */
  function Group(s: string): (r: string)
    ensures s != [] ==> r != [] && r[0] == s[0] && r[|r| - 1] == s[|s| - 1]
    decreases |s|
  {
    if |s| <= 3 then s else Group(s[..|s| - 3]) + "," + s[|s| - 3..]
  }

  /** Deleting every comma. */
  function Strip(t: string): string
  {
    if t == [] then [] else (if t[0] == ',' then [] else [t[0]]) + Strip(t[1..])
  }

  lemma {:induction false} StripConcat(a: string, b: string)
    ensures Strip(a + b) == Strip(a) + Strip(b)
  {
    if a == [] {
      assert a + b == b;
    } else {
      assert (a + b)[0] == a[0] && (a + b)[1..] == a[1..] + b;
      StripConcat(a[1..], b);
    }
  }

  lemma {:induction false} StripDigits(s: string)
    requires IsDigits(s)
    ensures Strip(s) == s
  {
    if s != [] {
      StripDigits(s[1..]);
    }
  }

  /** Grouping loses nothing: deleting the commas gives the digits back. */
  lemma {:induction false} StripGroup(s: string)
    requires IsDigits(s)
    ensures Strip(Group(s)) == s
  {
    if |s| <= 3 {
      StripDigits(s);
    } else {
      var a, b := s[..|s| - 3], s[|s| - 3..];
      var g := Group(a);
      assert Group(s) == g + "," + b;
      assert Strip(",") == [];
      calc {
        Strip(g + "," + b);
        { StripConcat(g + ",", b); }
        Strip(g + ",") + Strip(b);
        { StripConcat(g, ","); }
        Strip(g) + Strip(b);
        { StripGroup(a); StripDigits(b); }
        a + b;
        { assert s == a + b; }
        s;
      }
    }
  }

  /** Commas exactly at the positions 4, 8, 12, ... counted back from the end; digits elsewhere. */
  predicate CommaEveryFourth(r: string)
  {
    forall i :: 0 <= i < |r| ==>
      (r[i] == ',' <==> 0 < i && (|r| - i) % 4 == 0) && (r[i] != ',' ==> IsDigit(r[i]))
  }

  /** Grouping adds one comma per full block of three digits after the first block. */
  lemma {:induction false} GroupLength(s: string)
    requires s != []
    ensures |Group(s)| == |s| + (|s| - 1) / 3
    decreases |s|
  {
    if |s| > 3 {
      GroupLength(s[..|s| - 3]);
    }
  }

  /** A grouped numeral's length is never a multiple of four. */
  lemma LengthNotMultipleOfFour(n: int)
    requires n >= 1
    ensures (n + (n - 1) / 3) % 4 != 0
  {
  }

  /**
   * The shape of a grouped numeral: commas stand exactly at the positions
   * 4, 8, 12, ... counted back from its end and never at the front; every
   * other character is a digit. Since |r| % 4 is 1, 2 or 3, the first block
   * has one to three digits, and every later block exactly three.
   */
  lemma {:induction false} GroupShape(s: string)
    requires IsDigits(s) && s != []
    ensures |Group(s)| % 4 != 0 && CommaEveryFourth(Group(s))
    decreases |s|
  {
    GroupLength(s);
    LengthNotMultipleOfFour(|s|);
    if |s| <= 3 {
      ShortShape(s);
    } else {
      var a, b := s[..|s| - 3], s[|s| - 3..];
      GroupShape(a);
      assert Group(s) == Group(a) + "," + b;
      AppendBlock(Group(a), b);
    }
  }

  /** One to three digits are a single block with no comma. */
  lemma ShortShape(s: string)
    requires IsDigits(s) && 1 <= |s| <= 3
    ensures CommaEveryFourth(s)
  {
    forall i | 0 <= i < |s|
      ensures (s[i] == ',' <==> 0 < i && (|s| - i) % 4 == 0) && (s[i] != ',' ==> IsDigit(s[i]))
    {
      assert IsDigit(s[i]);
      assert 1 <= |s| - i <= 3;
    }
  }

  /** Appending a comma and a block of three digits keeps the comma pattern. */
  lemma AppendBlock(g: string, b: string)
    requires g != [] && CommaEveryFourth(g) && IsDigits(b) && |b| == 3
    ensures CommaEveryFourth(g + "," + b)
  {
  }

  /**
   * Where `\B(?=(\d{3})+(?!\d))` matches in a string of digits: strictly
   * between two digits, with a positive multiple of three digits after it.
   */
  predicate RegexMatchesAt(s: string, p: int)
  {
    0 < p < |s| && (|s| - p) % 3 == 0
  }

  /** The replacement of every match by "," read left to right, from position p on. */
  function ReplaceFrom(s: string, p: nat): string
    requires p <= |s|
    decreases |s| - p
  {
    if p == |s| then [] else (if RegexMatchesAt(s, p) then "," else "") + [s[p]] + ReplaceFrom(s, p + 1)
  }

  lemma {:induction false} ReplaceFromShort(s: string, p: nat)
    requires p <= |s| <= 3
    ensures ReplaceFrom(s, p) == s[p..]
    decreases |s| - p
  {
    if p < |s| {
      ReplaceFromShort(s, p + 1);
    }
  }

  lemma {:induction false} ReplaceFromSplit(a: string, b: string, p: nat)
    requires |b| == 3 && 1 <= |a| && p <= |a|
    ensures ReplaceFrom(a + b, p) == ReplaceFrom(a, p) + "," + b
    decreases |a| - p
  {
    var s := a + b;
    if p == |a| {
      assert ReplaceFrom(s, p + 3) == [];
      assert ReplaceFrom(s, p + 2) == [b[2]];
      assert ReplaceFrom(s, p + 1) == [b[1], b[2]];
      assert ReplaceFrom(s, p) == [',', b[0], b[1], b[2]];
    } else {
      ReplaceFromSplit(a, b, p + 1);
      assert s[p] == a[p];
      assert RegexMatchesAt(s, p) == RegexMatchesAt(a, p);
    }
  }

  /** The recursive grouping agrees with the global regular-expression replacement. */
  lemma {:induction false} GroupIsRegexReplace(s: string)
    ensures Group(s) == ReplaceFrom(s, 0)
    decreases |s|
  {
    if |s| <= 3 {
      ReplaceFromShort(s, 0);
    } else {
      var a, b := s[..|s| - 3], s[|s| - 3..];
      GroupIsRegexReplace(a);
      ReplaceFromSplit(a, b, 0);
      assert s == a + b;
    }
  }

  /** `formatNumber`: a falsy value (missing or zero) gives "No disponible". */
  function FormatNumber(num: Option<int>): (r: string)
    ensures r == Unavailable <==> num == None || num == Some(0)
    ensures num.Some? && num.value != 0 ==> r != [] && (r[0] == '-' <==> num.value < 0)
  {
    match num
    case None => Unavailable
    case Some(n) =>
      if n == 0 then Unavailable
      else if n > 0 then Group(Decimal(n))
      else
        var g := Group(Decimal(-n));
        assert ("-" + g)[0] == '-' && Unavailable[0] == 'N';
        "-" + g
  }

  /**
   * Deleting the commas from a formatted non-zero integer gives back its
   * sign and numeral, and so the integer itself.
   */
  lemma FormatNumberRoundTrip(n: int)
    requires n != 0
    ensures var r := FormatNumber(Some(n));
      var m := if n > 0 then n else -n;
      var digits := if n > 0 then r else r[1..];
      Strip(digits) == Decimal(m) && Value(Strip(digits)) == m
  {
    var m := if n > 0 then n else -n;
    StripGroup(Decimal(m));
    ValueOfDecimal(m);
    if n < 0 {
      assert FormatNumber(Some(n))[1..] == Group(Decimal(m));
    }
  }

  /** Grouped positive numbers have the shape described by GroupShape. */
  lemma FormatNumberShape(n: int)
    requires n > 0
    ensures |FormatNumber(Some(n))| % 4 != 0 && CommaEveryFourth(FormatNumber(Some(n)))
  {
    GroupShape(Decimal(n));
  }

  /** A comma appears in the formatted form of a positive number exactly when it is at least 1000. */
  lemma FormatNumberHasComma(n: int)
    requires n > 0
    ensures ',' in FormatNumber(Some(n)) <==> n >= 1000
    ensures n < 1000 ==> FormatNumber(Some(n)) == Decimal(n)
  {
    var s := Decimal(n);
    DecimalLength(n, 2);
    assert Pow10(3) == 1000;
    if |s| > 3 {
      GroupHasComma(s);
    } else {
      NoCommaInDigits(s);
    }
  }

  lemma GroupHasComma(s: string)
    requires |s| > 3
    ensures ',' in Group(s)
  {
    var a := s[..|s| - 3];
    assert Group(s) == Group(a) + "," + s[|s| - 3..];
    assert Group(s)[|Group(a)|] == ',';
  }

  lemma NoCommaInDigits(s: string)
    requires IsDigits(s)
    ensures ',' !in s
  {
    assert forall i :: 0 <= i < |s| ==> s[i] != ',';
  }

  /** The three digits of m < 1000, padded with leading zeros. */
  function Block3(m: nat): (b: string)
    requires m < 1000
    ensures |b| == 3 && IsDigits(b)
  {
    [DigitChar(m / 100), DigitChar(m / 10 % 10), DigitChar(m % 10)]
  }

  /** The numeral of 1000 * h + m is the numeral of h followed by the three digits of m. */
  lemma DecimalThousands(h: nat, m: nat)
    requires h >= 1 && m < 1000
    ensures Decimal(1000 * h + m) == Decimal(h) + Block3(m)
  {
    var n0 := 1000 * h + m;
    var n1 := 100 * h + m / 10;
    var n2 := 10 * h + m / 100;
    assert n0 / 10 == n1 && n0 % 10 == m % 10;
    assert n1 / 10 == n2 && n1 % 10 == m / 10 % 10;
    assert n2 / 10 == h && n2 % 10 == m / 100;
    assert Decimal(n0) == Decimal(n1) + [DigitChar(m % 10)];
    assert Decimal(n1) == Decimal(n2) + [DigitChar(m / 10 % 10)];
    assert Decimal(n2) == Decimal(h) + [DigitChar(m / 100)];
  }

  /**
   * Formatting 1000 * h + m puts a comma between the formatted h and the
   * three digits of m: the regex's last insertion point.
   */
  lemma FormatThousands(h: nat, m: nat)
    requires h >= 1 && m < 1000
    ensures FormatNumber(Some(1000 * h + m)) == FormatNumber(Some(h)) + "," + Block3(m)
  {
    DecimalThousands(h, m);
    var d, b := Decimal(h), Block3(m);
    var s := d + b;
    assert s[..|s| - 3] == d && s[|s| - 3..] == b;
  }

  /** Below 1000 the formatted form is the plain numeral. */
  lemma FormatsSmall(h: nat, text: string)
    requires 1 <= h < 1000 && Decimal(h) == text
    ensures FormatNumber(Some(h)) == text
  {
    FormatNumberHasComma(h);
  }

  /** Formatting a whole number of thousands appends ",000" to the formatted count of thousands. */
  lemma FormatsThousands(h: nat, head: string)
    requires h >= 1 && FormatNumber(Some(h)) == head
    ensures FormatNumber(Some(1000 * h)) == head + ",000"
  {
    FormatThousands(h, 0);
    ZeroBlock();
    AppendAssoc(head, ",", Block3(0));
  }

  lemma AppendAssoc(a: string, b: string, c: string)
    ensures a + b + c == a + (b + c)
  {
  }

  lemma ZeroBlock()
    ensures "," + Block3(0) == ",000"
  {
    assert Block3(0) == "000";
  }

  /**
   * The population text of the info panel, tooltip and popup: formatted when
   * truthy, otherwise the caller's sentinel ("No disponible" or "N/A").
   */
  function PopulationText(poblacion: Option<int>, missing: string): (r: string)
    ensures poblacion == None || poblacion == Some(0) ==> r == missing
    ensures poblacion.Some? && poblacion.value != 0 ==> r == FormatNumber(poblacion) && r != Unavailable
  {
    if poblacion == None || poblacion == Some(0) then missing else FormatNumber(poblacion)
  }

  /** In the info panel and the popup the outer guard changes nothing. */
  lemma PanelTextIsFormatNumber(poblacion: Option<int>)
    ensures PopulationText(poblacion, Unavailable) == FormatNumber(poblacion)
  {
  }
}
