/** Sizes as text: the formatters of deploy/auto_size.py and the parsers that read them back. */
module Sizes {
  import opened Wrappers
  import opened Text

  const GIB_MIB: nat := 1024
  const MIB: nat := 1024 * 1024
  const GB: nat := 1024 * 1024 * 1024

  /** `int(text)` for plain digits. */
  function ReadNat(text: string): Option<nat> {
    if IsNatural(text) then Some(DigitsValue(text)) else None
  }

  function PowerOfTen(n: nat): (r: nat)
    ensures r >= 1
  {
    if n == 0 then 1 else 10 * PowerOfTen(n - 1)
  }

  /** `Fraction(text)` for digits with an optional decimal part. */
  function ReadNumber(text: string): (r: Option<real>)
    ensures r.Some? ==> r.value >= 0.0
  {
    var dot := IndexOf(text, '.');
    if dot == |text| then
      if IsNatural(text) then Some(DigitsValue(text) as real) else None
    else if IsNatural(text[..dot]) && IsNatural(text[dot + 1..]) then
      Some(Decimal(DigitsValue(text[..dot]), DigitsValue(text[dot + 1..]), |text| - dot - 1))
    else None
  }

  /** `whole.part`, with `places` digits after the dot. */
  function Decimal(whole: nat, part: nat, places: nat): (r: real)
    ensures r >= 0.0
  {
    whole as real + part as real / PowerOfTen(places) as real
  }

  /** `round`: to the nearest integer, halves to the even one. */
  function Round(x: real): (r: int)
    ensures x >= 0.0 ==> r >= 0
  {
    var down := x.Floor;
    var rest := x - down as real;
    if rest < 0.5 || (rest == 0.5 && down % 2 == 0) then down else down + 1
  }

  /** `_fmt_cpus`. */
  function FormatCpus(hundredths: nat): string {
    var whole, frac := hundredths / 100, hundredths % 100;
    if frac == 0 then NatText(whole) + ".0"
    else if frac % 10 == 0 then NatText(whole) + "." + [DigitChar(frac / 10)]
    else NatText(whole) + "." + [DigitChar(frac / 10), DigitChar(frac % 10)]
  }

  function Hundredths(x: real): (r: int)
    ensures x >= 0.0 ==> r >= 0
  {
    Round(x * 100.0)
  }

  /** `_cc`. */
  function ReadCpus(text: string): Option<nat> {
    match ReadNumber(text)
    case Some(x) => Some(Hundredths(x))
    case None => None
  }

  /** `_fmt_mib`. */
  function FormatMib(mib: nat): (r: string)
    ensures r != ""
  {
    if mib % GIB_MIB == 0 then NatText(mib / GIB_MIB) + "g" else NatText(mib) + "m"
  }

  /** `_fmt_redis`. */
  function FormatRedis(mib: nat): string {
    if mib % GIB_MIB == 0 then NatText(mib / GIB_MIB) + "gb" else NatText(mib) + "mb"
  }

  /** `_mib`. The `$` of its pattern also matches before a last line feed. */
  function ReadMib(raw: string): Option<nat> {
    var text := if raw != "" && raw[|raw| - 1] == '\n' then raw[..|raw| - 1] else raw;
    if text == "" || !IsNatural(text[..|text| - 1]) then None
    else if text[|text| - 1] == 'g' then Some(DigitsValue(text[..|text| - 1]) * GIB_MIB)
    else if text[|text| - 1] == 'm' then Some(DigitsValue(text[..|text| - 1]))
    else None
  }

  function Unit(suffix: char): Option<nat> {
    match suffix
    case 'b' => Some(1)
    case 'k' => Some(1024)
    case 'm' => Some(MIB)
    case 'g' => Some(GB)
    case _ => None
  }

  function Scaled(x: real, unit: nat): (r: int)
    ensures x >= 0.0 ==> r >= 0
  {
    (x * unit as real).Floor
  }

  /** `_to_bytes` on stripped lower-case text. */
  function BytesOf(low: string): Option<nat> {
    var cut := if low != "" && low[|low| - 1] == 'b' then low[..|low| - 1] else low;
    var text := if cut == "" then "0" else cut;
    var unit := Unit(text[|text| - 1]);
    var number := ReadNumber(if unit == None then text else text[..|text| - 1]);
    if number == None then None
    else Some(Scaled(number.value, if unit == None then 1 else unit.value))
  }

  /** `_to_bytes`. */
  function ReadBytes(raw: string): Option<nat> {
    BytesOf(Lower(Strip(raw)))
  }

  // ------------------------------------------------------------------ reading back

  lemma DigitsHaveNoDot(text: string)
    requires IsNatural(text)
    ensures IndexOf(text, '.') == |text| && ReadNumber(text) == Some(DigitsValue(text) as real)
  {
    if IndexOf(text, '.') < |text| {
      assert IsDigit(text[IndexOf(text, '.')]);
    }
  }

  lemma SplitAtDot(whole: string, part: string)
    requires IsNatural(whole)
    ensures IndexOf(whole + "." + part, '.') == |whole|
  {
    var text := whole + "." + part;
    assert text[|whole|] == '.';
    assert forall i :: 0 <= i < |whole| ==> text[i] == whole[i] && IsDigit(whole[i]);
  }

  lemma ReadsDecimal(whole: string, part: string)
    requires IsNatural(whole) && IsNatural(part)
    ensures ReadNumber(whole + "." + part)
         == Some(Decimal(DigitsValue(whole), DigitsValue(part), |part|))
  {
    var text := whole + "." + part;
    SplitAtDot(whole, part);
    assert text[..|whole|] == whole && text[|whole| + 1..] == part;
  }

  lemma ValueOfDigits(d: nat, e: nat)
    requires d < 10 && e < 10
    ensures DigitsValue([DigitChar(d)]) == d
    ensures DigitsValue([DigitChar(d), DigitChar(e)]) == 10 * d + e
  {
    var one, two := [DigitChar(d)], [DigitChar(d), DigitChar(e)];
    assert two[..1] == one && one[..0] == "";
    assert DigitsValue("") == 0;
    assert DigitsValue(one) == d;
  }

  lemma DecimalInHundredths(whole: nat, part: nat)
    ensures Hundredths(Decimal(whole, part, 1)) == 100 * whole + 10 * part
    ensures Hundredths(Decimal(whole, part, 2)) == 100 * whole + part
  {
    assert PowerOfTen(0) == 1 && PowerOfTen(1) == 10 && PowerOfTen(2) == 100;
    assert Decimal(whole, part, 1) * 100.0 == (100 * whole + 10 * part) as real;
    assert Decimal(whole, part, 2) * 100.0 == (100 * whole + part) as real;
  }

  /** The digits `_fmt_cpus` writes after the dot. */
  function PartOf(frac: nat): (r: string)
    requires frac < 100
    ensures IsNatural(r)
  {
    if frac == 0 then [DigitChar(0)]
    else if frac % 10 == 0 then [DigitChar(frac / 10)]
    else [DigitChar(frac / 10), DigitChar(frac % 10)]
  }

  lemma PartReads(whole: nat, frac: nat)
    requires frac < 100
    ensures Hundredths(Decimal(whole, DigitsValue(PartOf(frac)), |PartOf(frac)|)) == 100 * whole + frac
  {
    ValueOfDigits(frac / 10, frac % 10);
    ValueOfDigits(0, 0);
    DecimalInHundredths(whole, DigitsValue(PartOf(frac)));
  }

  lemma FormatsAs(hundredths: nat)
    ensures FormatCpus(hundredths)
         == NatText(hundredths / 100) + "." + PartOf(hundredths % 100)
  {
    assert [DigitChar(0)] == "0";
    assert NatText(hundredths / 100) + ".0" == NatText(hundredths / 100) + "." + "0";
  }

  /** No vCPU figure changes when it is written and read back. */
  lemma CpusRoundTrip(hundredths: nat)
    ensures ReadCpus(FormatCpus(hundredths)) == Some(hundredths)
  {
    var whole, part := hundredths / 100, PartOf(hundredths % 100);
    FormatsAs(hundredths);
    NatTextRoundTrip(whole);
    ReadsDecimal(NatText(whole), part);
    PartReads(whole, hundredths % 100);
  }

  lemma MibRoundTrip(mib: nat)
    ensures ReadMib(FormatMib(mib)) == Some(mib)
  {
    var text := FormatMib(mib);
    var number := if mib % GIB_MIB == 0 then mib / GIB_MIB else mib;
    NatTextRoundTrip(number);
    assert text[..|text| - 1] == NatText(number);
  }

  lemma LowerOfDigits(digits: string, suffix: string)
    requires AllDigits(digits) && forall i :: 0 <= i < |suffix| ==> suffix[i] in "bmg"
    ensures Lower(digits + suffix) == digits + suffix
  {
    var text := digits + suffix;
    forall i | 0 <= i < |text| ensures Lower(text)[i] == text[i] {
      assert i < |digits| ==> IsDigit(text[i]);
      assert i >= |digits| ==> text[i] == suffix[i - |digits|];
    }
  }

  lemma TextOfDigits(digits: string, suffix: string)
    requires IsNatural(digits) && suffix != ""
    requires forall i :: 0 <= i < |suffix| ==> suffix[i] in "bmg"
    ensures ReadBytes(digits + suffix) == BytesOf(digits + suffix)
  {
    var text := digits + suffix;
    assert IsDigit(text[0]);
    assert text[|text| - 1] == suffix[|suffix| - 1];
    StripOfBare(text);
    LowerOfDigits(digits, suffix);
  }

  lemma CutOfDigits(digits: string, unit: char)
    requires IsNatural(digits) && unit in "mg"
    ensures BytesOf(digits + [unit])
         == Some(Scaled(DigitsValue(digits) as real, if unit == 'm' then MIB else GB))
    ensures BytesOf(digits + [unit, 'b']) == BytesOf(digits + [unit])
  {
    var text, long := digits + [unit], digits + [unit, 'b'];
    assert text[|text| - 1] == unit && text[..|text| - 1] == digits;
    assert long[..|long| - 1] == text;
    DigitsHaveNoDot(digits);
  }

  lemma GibInMib(mib: nat)
    ensures mib % GIB_MIB == 0 ==> Scaled((mib / GIB_MIB) as real, GB) == mib * MIB
    ensures Scaled(mib as real, MIB) == mib * MIB
  {
    assert mib as real * MIB as real == (mib * MIB) as real;
    if mib % GIB_MIB == 0 {
      var gib := mib / GIB_MIB;
      assert mib == gib * 1024;
      assert gib as real * GB as real == (gib * GB) as real;
    }
  }

  /** A limit is worth the same number of bytes to Compose, and a MAXMEMORY to Redis. */
  lemma BytesRoundTrip(mib: nat)
    ensures ReadBytes(FormatMib(mib)) == Some(mib * MIB)
    ensures ReadBytes(FormatRedis(mib)) == Some(mib * MIB)
  {
    GibInMib(mib);
    var unit := if mib % GIB_MIB == 0 then 'g' else 'm';
    var number := if mib % GIB_MIB == 0 then mib / GIB_MIB else mib;
    NatTextRoundTrip(number);
    TextOfDigits(NatText(number), [unit]);
    TextOfDigits(NatText(number), [unit, 'b']);
    CutOfDigits(NatText(number), unit);
  }

  lemma NaturalRoundTrip(n: nat)
    ensures ReadNat(NatText(n)) == Some(n)
  {
    NatTextRoundTrip(n);
  }
}
