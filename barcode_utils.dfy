/**
 * The home-grown MÍSTICA barcode: "MST", the last six digits of the clock in
 * milliseconds, and the product id left-padded with zeros to four
 * characters: thirteen characters when the id has at most four digits. It
 * carries no check digit and is not EAN-13.
 */
module BarcodeUtils {
  import opened Wrappers
  import Types

  // ---------------------------------------------------------------------------
  // Decimal digits

  function Pow10(k: nat): (p: nat)
    ensures p >= 1
  {
    if k == 0 then 1 else 10 * Pow10(k - 1)
  }

  lemma {:induction false} Pow10Monotone(a: nat, b: nat)
    requires a <= b
    ensures Pow10(a) <= Pow10(b)
  {
    if a < b {
      Pow10Monotone(a, b - 1);
    }
  }

  /** What `\d` matches in a JavaScript regular expression without the `u` flag. */
  predicate IsAsciiDigit(c: char) {
    '0' <= c <= '9'
  }

  predicate AllDigits(s: string) {
    forall i :: 0 <= i < |s| ==> IsAsciiDigit(s[i])
  }

  function DigitChar(d: nat): (c: char)
    requires d < 10
    ensures IsAsciiDigit(c)
  {
    (d + '0' as int) as char
  }

  function DigitValue(c: char): (d: nat)
    requires IsAsciiDigit(c)
    ensures d < 10 && DigitChar(d) == c
  {
    c as int - '0' as int
  }

  /** `parseInt(s, 10)` on a string of ASCII digits. */
  function DigitsValue(s: string): (v: nat)
    requires AllDigits(s)
    ensures v < Pow10(|s|)
  {
    if s == [] then 0
    else
      var v := DigitsValue(s[..|s| - 1]);
      assert v * 10 + 9 < Pow10(|s|) by {
        assert v + 1 <= Pow10(|s| - 1);
        assert (v + 1) * 10 <= Pow10(|s| - 1) * 10;
      }
      v * 10 + DigitValue(s[|s| - 1])
  }

  lemma DigitsValueSnoc(s: string, c: char)
    requires AllDigits(s) && IsAsciiDigit(c)
    ensures AllDigits(s + [c]) && DigitsValue(s + [c]) == DigitsValue(s) * 10 + DigitValue(c)
  {
    assert (s + [c])[..|s|] == s;
  }

  /** The decimal form of a natural number, as `Number.prototype.toString` writes it. */
  function NatToString(n: nat): (s: string)
    ensures |s| >= 1 && AllDigits(s) && DigitsValue(s) == n
    ensures |s| > 1 ==> s[0] != '0'
    ensures |s| > 1 ==> Pow10(|s| - 1) <= n
    decreases n
  {
    if n < 10 then [DigitChar(n)]
    else
      var p := NatToString(n / 10);
      DigitsValueSnoc(p, DigitChar(n % 10));
      assert |p| > 1 ==> Pow10(|p| - 1) * 10 <= n / 10 * 10;
      p + [DigitChar(n % 10)]
  }

  /** A number has at most `k` digits exactly when it is below 10^k. */
  lemma NatToStringLength(n: nat, k: nat)
    requires k >= 1
    ensures |NatToString(n)| <= k <==> n < Pow10(k)
  {
    var s := NatToString(n);
    if |s| <= k {
      Pow10Monotone(|s|, k);
    } else {
      Pow10Monotone(k, |s| - 1);
    }
  }

  /** The text of an integer: a minus sign before a negative one. */
  function IntToString(i: int): (s: string)
    ensures i < 0 ==> |s| > 0 && s[0] == '-'
    ensures i >= 0 ==> s == NatToString(i)
  {
    if i < 0 then "-" + NatToString(-i) else NatToString(i)
  }

  // ---------------------------------------------------------------------------
  // String helpers

  function Zeros(k: nat): (z: string)
    ensures |z| == k && AllDigits(z) && DigitsValue(z) == 0
  {
    if k == 0 then []
    else
      DigitsValueSnoc(Zeros(k - 1), '0');
      Zeros(k - 1) + ['0']
  }

  /** ASCII digits are one UTF-16 code unit each. */
  lemma DigitsInBmp(s: string)
    ensures AllDigits(s) ==> Types.InBmp(s)
  {
  }

  /**
   * `s.padStart(width, '0')`: zeros in front until the JavaScript length
   * (UTF-16 code units) reaches `width`; a longer string is kept whole.
   */
  function PadStart(s: string, width: nat): (r: string)
    ensures Types.Utf16Length(r) == if Types.Utf16Length(s) < width then width else Types.Utf16Length(s)
    ensures |s| <= |r| && r[|r| - |s|..] == s && r[..|r| - |s|] == Zeros(|r| - |s|)
    ensures Types.InBmp(s) ==> |r| == if |s| < width then width else |s|
  {
    var n := Types.Utf16Length(s);
    if n < width then
      var z := Zeros(width - n);
      DigitsInBmp(z);
      Types.Utf16LengthConcat(z, s);
      KeepPrefix(z, s);
      DropPrefix(z, s);
      z + s
    else s
  }

  /** An emoji is two code units, so padding it to four adds only two zeros. */
  lemma AstralTextPadsByCodeUnits()
    ensures PadStart("\U{1F600}", 4) == "00\U{1F600}"
  {
    assert Types.Utf16Length("\U{1F600}") == 2 by {
      assert "\U{1F600}"[1..] == [];
    }
  }

  /** `s.slice(-k)` for `k > 0`: the last `k` characters, or all of a shorter string. */
  function SliceLast(s: string, k: nat): (r: string)
    requires k > 0
    ensures |r| == if |s| < k then |s| else k
    ensures r == s[|s| - |r|..]
  {
    if |s| < k then s else s[|s| - k..]
  }

  lemma AllDigitsConcat(a: string, b: string)
    requires AllDigits(a) && AllDigits(b)
    ensures AllDigits(a + b)
  {
    forall i | 0 <= i < |a + b| ensures IsAsciiDigit((a + b)[i]) {
      if i < |a| { assert (a + b)[i] == a[i]; } else { assert (a + b)[i] == b[i - |a|]; }
    }
  }

  lemma DropPrefix(a: string, c: string)
    ensures (a + c)[|a|..] == c
  {
  }

  lemma KeepPrefix(a: string, c: string)
    ensures (a + c)[..|a|] == a
  {
  }

  /** Leading zeros do not change a decimal value. */
  lemma {:induction false} LeadingZeros(k: nat, s: string)
    requires AllDigits(s)
    ensures AllDigits(Zeros(k) + s) && DigitsValue(Zeros(k) + s) == DigitsValue(s)
  {
    if s == [] {
      assert Zeros(k) + s == Zeros(k);
    } else {
      var n := |s| - 1;
      LeadingZeros(k, s[..n]);
      assert Zeros(k) + s == (Zeros(k) + s[..n]) + [s[n]];
      assert s == s[..n] + [s[n]];
      DigitsValueSnoc(Zeros(k) + s[..n], s[n]);
      DigitsValueSnoc(s[..n], s[n]);
    }
  }

  // ---------------------------------------------------------------------------
  // The barcode

  const Prefix := "MST"
  const BarcodeLength := 13

  /** A product id as the generator accepts it: a number or a string. */
  datatype BarcodeId = NumericId(n: int) | TextId(s: string)

  function IdText(id: BarcodeId): string {
    match id
    case NumericId(n) => IntToString(n)
    case TextId(s) => s
  }

  /** The barcode generated for `id` when the clock reads `now` milliseconds. */
  function GenerateMisticaBarcode(id: BarcodeId, now: nat): (b: string)
    ensures |b| == 3 + |SliceLast(NatToString(now), 6)| + |PadStart(IdText(id), 4)|
    ensures b[..3] == Prefix
  {
    var tail := SliceLast(NatToString(now), 6) + PadStart(IdText(id), 4);
    KeepPrefix(Prefix, tail);
    Prefix + tail
  }

  /** Thirteen characters: "MST" and ten ASCII digits. */
  function ValidateMisticaBarcode(b: string): (ok: bool)
    ensures ok <==> |b| == BarcodeLength && b[..3] == Prefix && AllDigits(b[3..])
  {
    if b == "" then false
    else if |b| != BarcodeLength then false
    else if b[..3] != Prefix then false
    else AllDigits(b[3..])
  }

  /** The numeric value of the last four digits of a valid barcode. */
  function ExtractProductIdFromBarcode(b: string): (r: Option<nat>)
    ensures r.None? <==> !ValidateMisticaBarcode(b)
    ensures r.Some? ==> r.value < 10000
  {
    if !ValidateMisticaBarcode(b) then None
    else
      assert AllDigits(b[9..]) by {
        forall i | 0 <= i < 4 ensures IsAsciiDigit(b[9..][i]) {
          assert b[9..][i] == b[3..][i + 6];
        }
      }
      Some(DigitsValue(b[9..]))
  }

  function IsMisticaBarcode(b: string): (ok: bool)
    ensures ok == ValidateMisticaBarcode(b)
  {
    ValidateMisticaBarcode(b)
  }

  /** The timestamp part of a barcode generated after 1970-01-01T00:01:40Z: six digits. */
  lemma TimestampPart(now: nat)
    requires now >= 100000
    ensures |SliceLast(NatToString(now), 6)| == 6 && AllDigits(SliceLast(NatToString(now), 6))
  {
    NatToStringLength(now, 5);
  }

  /** The id part for a numeric id of at most four digits: four digits worth the id. */
  lemma IdPart(id: nat)
    requires id < 10000
    ensures var p := PadStart(IdText(NumericId(id)), 4);
      |p| == 4 && AllDigits(p) && DigitsValue(p) == id
  {
    NatToStringLength(id, 4);
    var s := NatToString(id);
    LeadingZeros(4 - |s|, s);
  }

  /** For ids 0..9999 and a clock of six digits or more, the generated barcode validates. */
  lemma GeneratedBarcodeValidates(id: nat, now: nat)
    requires id < 10000 && now >= 100000
    ensures ValidateMisticaBarcode(GenerateMisticaBarcode(NumericId(id), now))
  {
    var t := SliceLast(NatToString(now), 6);
    var p := PadStart(IdText(NumericId(id)), 4);
    TimestampPart(now);
    IdPart(id);
    WellFormedParts(t, p);
  }

  /** "MST", six digits and four digits make a valid barcode. */
  lemma WellFormedParts(t: string, p: string)
    requires |t| == 6 && AllDigits(t) && |p| == 4 && AllDigits(p)
    ensures ValidateMisticaBarcode(Prefix + (t + p))
  {
    DropPrefix(Prefix, t + p);
    KeepPrefix(Prefix, t + p);
    AllDigitsConcat(t, p);
  }

  /** Extracting from a generated barcode gives the id back, for ids 0..9999. */
  lemma ExtractInvertsGenerate(id: nat, now: nat)
    requires id < 10000 && now >= 100000
    ensures ExtractProductIdFromBarcode(GenerateMisticaBarcode(NumericId(id), now)) == Some(id)
  {
    var t := SliceLast(NatToString(now), 6);
    var p := PadStart(IdText(NumericId(id)), 4);
    TimestampPart(now);
    IdPart(id);
    ExtractParts(t, p);
  }

  /** The id read back from "MST", six digits and four digits is the value of the four digits. */
  lemma ExtractParts(t: string, p: string)
    requires |t| == 6 && AllDigits(t) && |p| == 4 && AllDigits(p)
    ensures ExtractProductIdFromBarcode(Prefix + (t + p)) == Some(DigitsValue(p))
  {
    WellFormedParts(t, p);
    var b := Prefix + (t + p);
    assert b[9..] == p;
  }

  /**
   * `padStart` never truncates: an id of five digits or more makes the
   * barcode longer than thirteen characters, so it fails validation. This is
   * what happens to every barcode the product form generates, because it
   * passes the clock itself as the id.
   */
  lemma LargeIdFailsValidation(id: nat, now: nat)
    requires id >= 10000 && now >= 100000
    ensures |GenerateMisticaBarcode(NumericId(id), now)| > BarcodeLength
    ensures !ValidateMisticaBarcode(GenerateMisticaBarcode(NumericId(id), now))
  {
    TimestampPart(now);
    NatToStringLength(id, 4);
  }

  /** A minus sign anywhere after "MST" breaks the digit check. */
  lemma MinusBreaksValidation(t: string, p: string, j: nat)
    requires j < |p| && p[j] == '-'
    ensures !ValidateMisticaBarcode(Prefix + (t + p))
  {
    var b := Prefix + (t + p);
    assert b[3..] == t + p;
    assert (t + p)[|t| + j] == p[j];
  }

  /** A negative id is written with a minus sign, which is not a digit. */
  lemma NegativeIdFailsValidation(id: int, now: nat)
    requires id < 0
    ensures !ValidateMisticaBarcode(GenerateMisticaBarcode(NumericId(id), now))
  {
    var t := SliceLast(NatToString(now), 6);
    var s := IntToString(id);
    var p := PadStart(s, 4);
    assert GenerateMisticaBarcode(NumericId(id), now) == Prefix + (t + p);
    var j := |p| - |s|;
    assert p[j] == '-' by {
      assert p[j..] == s;
      assert p[j..][0] == p[j];
    }
    MinusBreaksValidation(t, p, j);
  }

  /**
   * The generator as evidently intended: the id is reduced to its last four
   * digits before padding, so the barcode always has thirteen characters.
   */
  function GenerateMisticaBarcodeFixed(id: nat, now: nat): (b: string)
    ensures |b| >= 3 && b[..3] == Prefix
  {
    var tail := SliceLast(NatToString(now), 6) + PadStart(NatToString(id % 10000), 4);
    KeepPrefix(Prefix, tail);
    Prefix + tail
  }

  /** The corrected generator validates for every id and round-trips the id's last four digits. */
  lemma FixedBarcodeRoundTrips(id: nat, now: nat)
    requires now >= 100000
    ensures ValidateMisticaBarcode(GenerateMisticaBarcodeFixed(id, now))
    ensures ExtractProductIdFromBarcode(GenerateMisticaBarcodeFixed(id, now)) == Some(id % 10000)
  {
    assert IdText(NumericId(id % 10000)) == NatToString(id % 10000);
    assert GenerateMisticaBarcodeFixed(id, now) == GenerateMisticaBarcode(NumericId(id % 10000), now);
    GeneratedBarcodeValidates(id % 10000, now);
    ExtractInvertsGenerate(id % 10000, now);
  }

  /** For the ids the original handles, the correction changes nothing. */
  lemma FixedAgreesOnSmallIds(id: nat, now: nat)
    requires id < 10000
    ensures GenerateMisticaBarcodeFixed(id, now) == GenerateMisticaBarcode(NumericId(id), now)
  {
    var m := id % 10000;
    assert m == id;
    assert IdText(NumericId(id)) == NatToString(m);
  }

  // ---------------------------------------------------------------------------
  // Profit margin

  /**
   * The margin over cost in percent, rounded half up to two decimals; zero
   * when the cost is not positive.
   */
  function CalculateProfitMargin(salePrice: real, costPrice: real): (m: real)
    ensures costPrice <= 0.0 ==> m == 0.0
    ensures costPrice > 0.0 ==>
      var exact := (salePrice - costPrice) / costPrice * 100.0;
      exact - 0.005 < m <= exact + 0.005
  {
    if costPrice <= 0.0 then 0.0
    else
      var exact := (salePrice - costPrice) / costPrice * 100.0;
      (exact * 100.0 + 0.5).Floor as real / 100.0
  }
}
