/**
 * The access key issued after a successful pairing (generateAccessKey in index.js):
 * three numbers, each written in decimal and left-padded with '0' to two characters,
 * joined as XSTRO_aa_bb_cc. The random draws are parameters.
 */
module AccessKey {
  import opened Wrappers
  import opened Digits

  const Prefix: string := "XSTRO_"

  /** Number.prototype.toString() of a non-negative integer: decimal, no leading zeros. */
  function DecimalString(n: nat): (s: string)
    ensures 1 <= |s| && AllDigits(s)
    ensures |s| == 1 <==> n < 10
    ensures n < 100 ==> |s| <= 2
    ensures |s| > 1 ==> s[0] != '0'
    decreases n
  {
    if n < 10 then [DigitChar(n)] else DecimalString(n / 10) + [DigitChar(n % 10)]
  }

  function Repeat(c: char, k: nat): (s: string)
    ensures |s| == k && forall i :: 0 <= i < k ==> s[i] == c
  {
    if k == 0 then [] else [c] + Repeat(c, k - 1)
  }

  /** String.prototype.padStart(width, pad) with a one-character pad string. */
  function PadStart(s: string, width: nat, pad: char): (r: string)
    ensures |r| == if |s| >= width then |s| else width
    ensures r[|r| - |s|..] == s
    ensures forall i :: 0 <= i < |r| - |s| ==> r[i] == pad
  {
    if |s| >= width then s else Repeat(pad, width - |s|) + s
  }

  /** formatNumber: num.toString().padStart(2, '0'). */
  function FormatNumber(n: nat): (r: string)
    ensures AllDigits(r) && 2 <= |r|
    ensures n < 100 ==> |r| == 2
  {
    PadStart(DecimalString(n), 2, '0')
  }

  /** generateAccessKey with the three draws Math.floor(Math.random() * 100) as inputs. */
  function GenerateAccessKey(r1: nat, r2: nat, r3: nat): (key: string)
    ensures r1 < 100 && r2 < 100 && r3 < 100 ==> IsAccessKey(key)
  {
    var g1, g2, g3 := FormatNumber(r1), FormatNumber(r2), FormatNumber(r3);
    JoinGroupsShape(g1, g2, g3);
    JoinGroups(g1, g2, g3)
  }

  /** The template XSTRO_${r1}_${r2}_${r3}. */
  function JoinGroups(g1: string, g2: string, g3: string): string {
    Prefix + g1 + "_" + g2 + "_" + g3
  }

  lemma JoinGroupsShape(g1: string, g2: string, g3: string)
    ensures |g1| == 2 && |g2| == 2 && |g3| == 2 ==>
      var k := JoinGroups(g1, g2, g3);
      |k| == 14 && k[..6] == Prefix && k[6..8] == g1 && k[8] == '_' &&
      k[9..11] == g2 && k[11] == '_' && k[12..14] == g3
  {
  }

  /** The shape XSTRO_dd_dd_dd: fourteen characters, the prefix, digits in three pairs. */
  predicate IsAccessKey(k: string) {
    |k| == 14 && k[..6] == Prefix && k[8] == '_' && k[11] == '_' &&
    AllDigits(k[6..8]) && AllDigits(k[9..11]) && AllDigits(k[12..14])
  }

  /** The value of a string of decimal digits, leading zeros allowed. */
  function ParseDecimal(s: string): nat
    requires AllDigits(s)
  {
    if s == [] then 0 else ParseDecimal(s[..|s| - 1]) * 10 + DigitValue(s[|s| - 1])
  }

  /** Reads the three numbers back out of a key of the right shape. */
  function ParseAccessKey(k: string): Option<(nat, nat, nat)> {
    if IsAccessKey(k) then
      Some((ParseDecimal(k[6..8]), ParseDecimal(k[9..11]), ParseDecimal(k[12..14])))
    else
      None
  }

  lemma {:induction false} ParseDecimalString(n: nat)
    ensures ParseDecimal(DecimalString(n)) == n
    decreases n
  {
    if n >= 10 {
      var s := DecimalString(n / 10);
      var t := s + [DigitChar(n % 10)];
      assert t[..|t| - 1] == s;
      ParseDecimalString(n / 10);
    }
  }

  lemma {:induction false} ParseZeros(k: nat)
    ensures ParseDecimal(Repeat('0', k)) == 0
  {
    if k > 0 {
      assert Repeat('0', k)[..k - 1] == Repeat('0', k - 1);
      ParseZeros(k - 1);
    }
  }

  /** Leading zeros do not change the value. */
  lemma {:induction false} ParseLeadingZeros(k: nat, s: string)
    requires AllDigits(s)
    ensures ParseDecimal(Repeat('0', k) + s) == ParseDecimal(s)
    decreases |s|
  {
    var t := Repeat('0', k) + s;
    if s == [] {
      assert t == Repeat('0', k);
      ParseZeros(k);
    } else {
      assert t[..|t| - 1] == Repeat('0', k) + s[..|s| - 1];
      ParseLeadingZeros(k, s[..|s| - 1]);
    }
  }

  /** Each padded group, read as decimal, gives back the number it was made from. */
  lemma FormatNumberRoundTrip(n: nat)
    ensures ParseDecimal(FormatNumber(n)) == n
  {
    var s := DecimalString(n);
    ParseDecimalString(n);
    if |s| < 2 {
      ParseLeadingZeros(2 - |s|, s);
    }
  }

  lemma FormatNumberInjective(a: nat, b: nat)
    requires FormatNumber(a) == FormatNumber(b)
    ensures a == b
  {
    FormatNumberRoundTrip(a);
    FormatNumberRoundTrip(b);
  }

  /** Every two-digit group is the padded form of the number it denotes. */
  lemma FormatNumberOfPair(g: string)
    requires |g| == 2 && AllDigits(g)
    ensures ParseDecimal(g) < 100 && FormatNumber(ParseDecimal(g)) == g
  {
    ParsePair(g);
    if g[0] == '0' {
      PairWithLeadingZero(g);
    } else {
      PairWithoutLeadingZero(g);
    }
  }

  lemma PairWithLeadingZero(g: string)
    requires |g| == 2 && AllDigits(g) && g[0] == '0'
    ensures FormatNumber(DigitValue(g[1])) == g
  {
    DigitCharOfValue(g[1]);
    var lo := DigitValue(g[1]);
    assert DecimalString(lo) == [g[1]];
    PadOneDigit(g[1]);
    assert ['0', g[1]] == g;
  }

  lemma PairWithoutLeadingZero(g: string)
    requires |g| == 2 && AllDigits(g) && g[0] != '0'
    ensures FormatNumber(DigitValue(g[0]) * 10 + DigitValue(g[1])) == g
  {
    var hi, lo := DigitValue(g[0]), DigitValue(g[1]);
    var n := hi * 10 + lo;
    assert hi >= 1 by {
      DigitCharOfValue(g[0]);
    }
    DivMod10(hi, lo);
    DecimalTwoDigits(n);
    assert DecimalString(n) == g by {
      DigitCharOfValue(g[0]);
      DigitCharOfValue(g[1]);
      assert DecimalString(n) == [DigitChar(hi), DigitChar(lo)];
    }
  }

  lemma ParsePair(g: string)
    requires |g| == 2 && AllDigits(g)
    ensures ParseDecimal(g) == DigitValue(g[0]) * 10 + DigitValue(g[1])
  {
    var h := g[..1];
    assert h[..0] == [] && h[0] == g[0];
    assert ParseDecimal(h) == DigitValue(g[0]);
    assert g[..|g| - 1] == h;
  }

  lemma PadOneDigit(c: char)
    ensures PadStart([c], 2, '0') == ['0', c]
  {
    assert Repeat('0', 1) == ['0'];
  }

  lemma DecimalTwoDigits(n: nat)
    requires 10 <= n < 100
    ensures DecimalString(n) == [DigitChar(n / 10), DigitChar(n % 10)]
  {
    assert DecimalString(n / 10) == [DigitChar(n / 10)];
  }

  lemma DivMod10(hi: nat, lo: nat)
    requires lo < 10
    ensures (hi * 10 + lo) / 10 == hi && (hi * 10 + lo) % 10 == lo
  {
  }

  /** The three draws are recovered from the key they produce. */
  lemma KeyRoundTrip(r1: nat, r2: nat, r3: nat)
    requires r1 < 100 && r2 < 100 && r3 < 100
    ensures ParseAccessKey(GenerateAccessKey(r1, r2, r3)) == Some((r1, r2, r3))
  {
    JoinGroupsShape(FormatNumber(r1), FormatNumber(r2), FormatNumber(r3));
    FormatNumberRoundTrip(r1);
    FormatNumberRoundTrip(r2);
    FormatNumberRoundTrip(r3);
  }

  /** Different draws give different keys. */
  lemma KeyInjective(a1: nat, a2: nat, a3: nat, b1: nat, b2: nat, b3: nat)
    requires a1 < 100 && a2 < 100 && a3 < 100 && b1 < 100 && b2 < 100 && b3 < 100
    requires GenerateAccessKey(a1, a2, a3) == GenerateAccessKey(b1, b2, b3)
    ensures a1 == b1 && a2 == b2 && a3 == b3
  {
    KeyRoundTrip(a1, a2, a3);
    KeyRoundTrip(b1, b2, b3);
  }

  /** Conversely, every string of the key shape is generated by some draws in [0,100). */
  lemma KeyShapeIsGenerated(k: string)
    requires IsAccessKey(k)
    ensures ParseAccessKey(k).Some?
    ensures var t := ParseAccessKey(k).value;
      t.0 < 100 && t.1 < 100 && t.2 < 100 && GenerateAccessKey(t.0, t.1, t.2) == k
  {
    var g1, g2, g3 := k[6..8], k[9..11], k[12..14];
    assert |g1| == 2 && |g2| == 2 && |g3| == 2;
    assert AllDigits(g1) && AllDigits(g2) && AllDigits(g3);
    FormatNumberOfPair(g1);
    FormatNumberOfPair(g2);
    FormatNumberOfPair(g3);
    var r1, r2, r3 := ParseDecimal(g1), ParseDecimal(g2), ParseDecimal(g3);
    assert ParseAccessKey(k) == Some((r1, r2, r3));
    assert GenerateAccessKey(r1, r2, r3) == k by {
      KeyDecompose(k);
      GenerateFromGroups(r1, r2, r3, g1, g2, g3);
    }
  }

  lemma GenerateFromGroups(r1: nat, r2: nat, r3: nat, g1: string, g2: string, g3: string)
    requires FormatNumber(r1) == g1 && FormatNumber(r2) == g2 && FormatNumber(r3) == g3
    ensures GenerateAccessKey(r1, r2, r3) == JoinGroups(g1, g2, g3)
  {
  }

  /** A string of the key shape is the prefix and its three groups joined by '_'. */
  lemma KeyDecompose(k: string)
    requires IsAccessKey(k)
    ensures k == JoinGroups(k[6..8], k[9..11], k[12..14])
  {
    assert k == k[..6] + k[6..8] + k[8..9] + k[9..11] + k[11..12] + k[12..14];
  }

  /** An example key: draws 7, 42 and 19. */
  lemma ExampleKey()
    ensures GenerateAccessKey(7, 42, 19) == "XSTRO_07_42_19"
  {
    assert FormatNumber(7) == "07";
    assert DecimalString(42) == "42";
    assert DecimalString(19) == "19";
    assert JoinGroups("07", "42", "19") == "XSTRO_07_42_19";
  }
}
