/** Amounts as the owner reads and types them: the decimal text of a base-unit amount, printed
    two ways, and parsed back. */
module Amounts {
  import opened Wrappers
  import opened Domain
  import opened Decimals
  import opened Text

  /** The number `coefficient / 10^scale`. */
  datatype Decimal = Decimal(coefficient: nat, scale: nat)
  {
    /** Products keep twenty significant digits. */
    function Mul(that: Decimal): Decimal {
      Decimal(ToPrecision(coefficient * that.coefficient), scale + that.scale)
    }

    /** Quotients by a power of ten do, too. */
    function DivByPow10(k: nat): Decimal {
      Decimal(ToPrecision(coefficient), scale + k)
    }

    predicate IsInteger() {
      coefficient % Pow10(scale) == 0
    }
  }

  function DecimalsOf(asset: AssetKind): nat {
    match asset
    case CKB => 8
    case ETH => 18
    case USDT => 6
    case USDC => 6
  }

  datatype AmountUnit = Display | Base | Gwei

  /** The decimals of a configured extra unit; only ETH has one. */
  function UnitConfig(asset: AssetKind, unit: AmountUnit): Option<nat> {
    if asset == ETH && unit == Gwei then Some(9) else None
  }

  function GetScaleDecimals(asset: AssetKind, unit: AmountUnit): nat {
    if unit == Display then DecimalsOf(asset) else UnitConfig(asset, unit).GetOr(0)
  }

  // ----------------------------------------------------------------------------- number text

  function PointAt(s: string): (k: nat)
    ensures k <= |s|
    ensures k < |s| ==> s[k] == '.'
    ensures forall i | 0 <= i < k :: s[i] != '.'
  {
    if s == "" then 0 else if s[0] == '.' then 0 else 1 + PointAt(s[1..])
  }

  /** Digits, then possibly a point and more digits. */
  predicate IsNumber(s: string) {
    var k := PointAt(s);
    k > 0 && AllDigits(s[..k]) && (k < |s| ==> k + 1 < |s| && AllDigits(s[k + 1..]))
  }

  function DecimalPlaces(s: string): nat {
    var k := PointAt(s);
    if k < |s| then |s| - k - 1 else 0
  }

  /** The decimal constructor, which is exact. */
  function ParseDecimal(s: string): Decimal
    requires IsNumber(s)
  {
    var k := PointAt(s);
    if k < |s| then Decimal(Value(s[..k] + s[k + 1..]), DecimalPlaces(s)) else Decimal(Value(s), 0)
  }

  // -------------------------------------------------------------------------------- printers

  function PadStart(s: string, width: nat): (r: string)
    ensures |r| == if |s| < width then width else |s|
    decreases width - |s|
  {
    if |s| >= width then s else PadStart("0" + s, width)
  }

  /** `toFixed` for a number with at most `x.scale` decimals, printed with all of them. */
  function ToFixed(x: Decimal): string {
    if x.scale == 0 then Print(x.coefficient)
    else
      var p := PadStart(Print(x.coefficient), x.scale + 1);
      p[..|p| - x.scale] + "." + p[|p| - x.scale..]
  }

  /** The integer an integral decimal is, in digits. */
  function ToFixed0(x: Decimal): string
    requires x.IsInteger()
  {
    Print(x.coefficient / Pow10(x.scale))
  }

  /** Drops the match of `\.?0+$`: all trailing zeros, and the point if they leave it last. */
  function DropZeroTail(s: string): string {
    var r := StripTrailingZeros(s);
    if |r| < |s| && r != "" && r[|r| - 1] == '.' then r[..|r| - 1] else r
  }

  predicate IsBaseValue(s: string) {
    s != "" && AllDigits(s)
  }

  function FormatBaseValueForDisplay(asset: AssetKind, baseValue: string): string
    requires IsBaseValue(baseValue)
  {
    DropZeroTail(ToFixed(Decimal(Value(baseValue), 0).DivByPow10(DecimalsOf(asset))))
  }

  /** Drops the match of `^0+(?=\d)`. */
  function StripLeadingZeros(s: string): string {
    if |s| >= 2 && s[0] == '0' && IsDigit(s[1]) then StripLeadingZeros(s[1..]) else s
  }

  function ToDisplayAmount(amount: string, decimals: nat): string {
    if decimals == 0 then amount
    else
      var padded := PadStart(StripLeadingZeros(amount), decimals + 1);
      var whole := padded[..|padded| - decimals];
      Joined(whole, StripTrailingZeros(padded[|padded| - decimals..]))
  }

  function Joined(whole: string, fraction: string): string {
    if fraction != "" then whole + "." + fraction else whole
  }

  /** The first six digits of a fraction, without trailing zeros. */
  function Cut(fraction: string): string {
    StripTrailingZeros(if |fraction| > 6 then fraction[..6] else fraction)
  }

  /** The display form cut to six decimals, before it is localized. */
  function CompactAmount(amount: string, decimals: nat): string {
    var display := ToDisplayAmount(amount, decimals);
    var k := PointAt(display);
    var whole := display[..k];
    var fraction := if k < |display| then display[k + 1..] else "";
    var compact := Cut(fraction);
    if compact != "" then whole + "." + compact else whole
  }

  // ---------------------------------------------------------------------------------- parser

  datatype AmountInput = AmountInput(value: string, unit: AmountUnit)

  datatype AmountError =
    | Required
    | InvalidNumber
    | BaseNoDecimal
    | MaxDecimals(decimals: nat)
    | PositiveRequired
    | PreciseConversion

  function AllowedDecimals(asset: AssetKind, unit: AmountUnit): Option<nat> {
    if unit == Display then Some(DecimalsOf(asset)) else UnitConfig(asset, unit)
  }

  function BaseAmount(asset: AssetKind, unit: AmountUnit, parsed: Decimal): Decimal {
    if unit == Base then parsed else parsed.Mul(Decimal(Pow10(GetScaleDecimals(asset, unit)), 0))
  }

  function ValidateAmountInput(asset: AssetKind, input: AmountInput, allowEmpty: bool, requirePositive: bool):
    Result<Option<string>, AmountError>
  {
    var raw := Trim(input.value);
    if raw == "" then
      if allowEmpty then Ok(None) else Err(Required)
    else if !IsNumber(raw) then
      Err(InvalidNumber)
    else if input.unit == Base && '.' in raw then
      Err(BaseNoDecimal)
    else if AllowedDecimals(asset, input.unit).Some? && DecimalPlaces(raw) > AllowedDecimals(asset, input.unit).value then
      Err(MaxDecimals(AllowedDecimals(asset, input.unit).value))
    else
      var parsed := ParseDecimal(raw);
      if requirePositive && parsed.coefficient == 0 then
        Err(PositiveRequired)
      else
        var baseAmount := BaseAmount(asset, input.unit, parsed);
        if !baseAmount.IsInteger() then Err(PreciseConversion) else Ok(Some(ToFixed0(baseAmount)))
  }

  function CreateAmountInputFromBaseValue(asset: AssetKind, baseValue: Option<string>): AmountInput
    requires baseValue.Some? ==> baseValue.value == "" || IsBaseValue(baseValue.value)
  {
    match baseValue
    case None => AmountInput("", Display)
    case Some(v) => if v == "" then AmountInput("", Display) else AmountInput(FormatBaseValueForDisplay(asset, v), Display)
  }

  // ------------------------------------------------------------------- what a printed text is

  lemma ZeroInFront(s: string)
    requires AllDigits(s)
    ensures AllDigits("0" + s) && Value("0" + s) == Value(s)
  {
    ValueConcat("0", s);
    assert Value("0") == 0;
    hide Pow10;
  }

  lemma {:induction false} PaddingIsNothing(s: string, width: nat)
    requires AllDigits(s)
    ensures AllDigits(PadStart(s, width)) && Value(PadStart(s, width)) == Value(s)
    decreases width - |s|
  {
    hide Value;
    if |s| < width {
      ZeroInFront(s);
      PaddingIsNothing("0" + s, width);
    }
  }

  lemma {:induction false} StrippedIsPrinted(s: string)
    requires IsBaseValue(s)
    ensures StripLeadingZeros(s) == Print(Value(s))
    decreases |s|
  {
    hide Value, Print;
    if |s| >= 2 && s[0] == '0' {
      ZeroInFront(s[1..]);
      assert s == "0" + s[1..];
      StrippedIsPrinted(s[1..]);
    } else {
      PrintValue(s);
    }
  }

  /** `n / 10^decimals` in its shortest form. */
  function Shortest(n: nat, decimals: nat): string {
    if decimals == 0 then Print(n)
    else
      var p := PadStart(Print(n), decimals + 1);
      Joined(p[..|p| - decimals], StripTrailingZeros(p[|p| - decimals..]))
  }

  lemma ReadJoined(whole: string, fraction: string)
    requires IsBaseValue(whole) && AllDigits(fraction)
    ensures IsNumber(Joined(whole, fraction))
    ensures AllDigits(whole + fraction)
    ensures ParseDecimal(Joined(whole, fraction)) == Decimal(Value(whole + fraction), |fraction|)
    ensures PointAt(Joined(whole, fraction)) == |whole|
  {
    var s := Joined(whole, fraction);
    var k := PointAt(s);
    assert s[..|whole|] == whole;
    assert forall i | 0 <= i < |whole| :: IsDigit(s[i]);
    if fraction == "" {
      assert whole + fraction == whole;
      assert k == |s|;
    } else {
      assert s[|whole|] == '.';
      assert k == |whole|;
      assert s[k + 1..] == fraction;
    }
  }

  /** Its whole and fractional digits: the fraction without trailing zeros, and together the
      digits of the number. */
  lemma ShortestParts(n: nat, decimals: nat) returns (whole: string, fraction: string)
    ensures IsBaseValue(whole) && AllDigits(fraction) && Shortest(n, decimals) == Joined(whole, fraction)
    ensures |fraction| <= decimals && (fraction != "" ==> fraction[|fraction| - 1] != '0')
    ensures AllDigits(whole + fraction) && Value(whole + fraction) * Pow10(decimals - |fraction|) == n
  {
    hide Value, Print, Pow10, PadStart, StripTrailingZeros;
    if decimals == 0 {
      whole, fraction := Print(n), "";
      assert whole + fraction == whole;
      TrailingZeros(whole, 0);
      assert whole + Zeros(0) == whole;
    } else {
      var p := PadStart(Print(n), decimals + 1);
      PaddingIsNothing(Print(n), decimals + 1);
      var digits := p[|p| - decimals..];
      whole, fraction := p[..|p| - decimals], StripTrailingZeros(digits);
      assert AllDigits(fraction) by { assert fraction == digits[..|fraction|]; }
      assert p == whole + digits == whole + fraction + Zeros(decimals - |fraction|);
      TrailingZeros(whole + fraction, decimals - |fraction|);
    }
  }

  /** The shortest form reads back as exactly the number printed, with no more decimals than
      asked for and none of them a trailing zero. */
  lemma ReadShortest(n: nat, decimals: nat)
    ensures var s := Shortest(n, decimals);
            && IsNumber(s)
            && DecimalPlaces(s) == ParseDecimal(s).scale <= decimals
            && ParseDecimal(s).coefficient * Pow10(decimals - DecimalPlaces(s)) == n
            && (DecimalPlaces(s) > 0 ==> s[|s| - 1] != '0')
  {
    hide IsNumber, Pow10, Value, Shortest, PointAt, AllDigits, ParseDecimal, DecimalPlaces, Joined;
    var whole, fraction := ShortestParts(n, decimals);
    ReadJoined(whole, fraction);
    JoinedEnds(whole, fraction);
  }

  lemma JoinedEnds(whole: string, fraction: string)
    requires IsBaseValue(whole) && AllDigits(fraction)
    ensures DecimalPlaces(Joined(whole, fraction)) == |fraction|
    ensures fraction != "" ==> Joined(whole, fraction)[|Joined(whole, fraction)| - 1] == fraction[|fraction| - 1]
  {
    ReadJoined(whole, fraction);
    hide AllDigits, Value, PointAt, IsNumber, ParseDecimal;
  }

  lemma {:induction false} StripAfterPoint(prefix: string, digits: string)
    requires prefix != "" && prefix[|prefix| - 1] != '0'
    ensures StripTrailingZeros(prefix + digits) == prefix + StripTrailingZeros(digits)
    decreases |digits|
  {
    hide Zeros;
    var s := prefix + digits;
    if digits == "" {
      assert s == prefix;
    } else if digits[|digits| - 1] == '0' {
      var init := digits[..|digits| - 1];
      StripAfterPoint(prefix, init);
      assert s[..|s| - 1] == prefix + init;
    }
  }

  lemma LastDigit(digits: string, prefix: string)
    requires AllDigits(digits) && prefix != "" && prefix <= digits
    ensures prefix[|prefix| - 1] != '.'
  {
    assert IsDigit(digits[|prefix| - 1]);
  }

  lemma CutAfterPoint(s: string, whole: string)
    requires StripTrailingZeros(s) == whole + "." && |whole| + 1 < |s|
    ensures DropZeroTail(s) == whole
  {
    hide StripTrailingZeros, Zeros;
    assert (whole + ".")[..|whole|] == whole;
  }

  lemma CutAfterDigit(s: string, r: string)
    requires StripTrailingZeros(s) == r && r != "" && r[|r| - 1] != '.'
    ensures DropZeroTail(s) == r
  {
    hide StripTrailingZeros, Zeros;
  }

  lemma DropZeroTailJoins(whole: string, digits: string)
    requires digits != "" && AllDigits(digits)
    ensures DropZeroTail(whole + "." + digits) == Joined(whole, StripTrailingZeros(digits))
  {
    hide StripTrailingZeros, AllDigits, DropZeroTail, Zeros;
    StripAfterPoint(whole + ".", digits);
    var fraction := StripTrailingZeros(digits);
    if fraction == "" {
      assert whole + "." + "" == whole + ".";
      CutAfterPoint(whole + "." + digits, whole);
    } else {
      LastDigit(digits, fraction);
      CutAfterDigit(whole + "." + digits, whole + "." + fraction);
    }
  }

  lemma SlicesAreDigits(s: string, k: nat)
    requires AllDigits(s) && k <= |s|
    ensures AllDigits(s[..k]) && AllDigits(s[k..])
  {
  }

  /** The decimal printer prints the rounded number in its shortest form. */
  lemma FormatIsShortest(asset: AssetKind, baseValue: string)
    requires IsBaseValue(baseValue)
    ensures FormatBaseValueForDisplay(asset, baseValue) == Shortest(ToPrecision(Value(baseValue)), DecimalsOf(asset))
  {
    hide Value, Print, PadStart, StripTrailingZeros, DropZeroTail, ToPrecision, AllDigits, IsDigit, Zeros;
    var c, d := ToPrecision(Value(baseValue)), DecimalsOf(asset);
    var p := PadStart(Print(c), d + 1);
    PaddingIsNothing(Print(c), d + 1);
    SlicesAreDigits(p, |p| - d);
    DropZeroTailJoins(p[..|p| - d], p[|p| - d..]);
  }

  /** The string printer prints the number itself in its shortest form. */
  lemma DisplayIsShortest(amount: string, decimals: nat)
    requires IsBaseValue(amount) && decimals > 0
    ensures ToDisplayAmount(amount, decimals) == Shortest(Value(amount), decimals)
  {
    hide Value, Print, PadStart, StripTrailingZeros, StripLeadingZeros, AllDigits, Zeros, Joined;
    StrippedIsPrinted(amount);
    var p := PadStart(StripLeadingZeros(amount), decimals + 1);
    assert p == PadStart(Print(Value(amount)), decimals + 1);
  }

  lemma ShortestTellsApart(a: nat, b: nat, decimals: nat)
    requires Shortest(a, decimals) == Shortest(b, decimals)
    ensures a == b
  {
    ReadShortest(a, decimals);
    ReadShortest(b, decimals);
    hide Shortest, IsNumber, ParseDecimal, Pow10, DecimalPlaces;
  }

  // ---------------------------------------------------------------------------- main results

  /** What the owner is shown of a balance is exact for amounts of any length: it reads back as
      the amount, and is as short as possible. */
  lemma DisplayIsExact(amount: string, decimals: nat)
    requires IsBaseValue(amount)
    ensures var s := ToDisplayAmount(amount, decimals);
            && IsNumber(s)
            && DecimalPlaces(s) == ParseDecimal(s).scale <= decimals
            && ParseDecimal(s).coefficient * Pow10(decimals - DecimalPlaces(s)) == Value(amount)
            && (DecimalPlaces(s) > 0 ==> s[|s| - 1] != '0')
  {
    hide Value, Pow10, Shortest, IsNumber, PointAt, ParseDecimal, DecimalPlaces, StripTrailingZeros, PadStart, StripLeadingZeros;
    if decimals == 0 {
      WholeIsExact(amount);
    } else {
      DisplayIsShortest(amount, decimals);
      ReadShortest(Value(amount), decimals);
    }
  }

  lemma WholeIsExact(amount: string)
    requires IsBaseValue(amount)
    ensures IsNumber(amount) && DecimalPlaces(amount) == ParseDecimal(amount).scale == 0
    ensures ParseDecimal(amount).coefficient * Pow10(0) == Value(amount)
  {
    ReadJoined(amount, "");
    assert amount + "" == amount;
    hide Value, IsNumber, PointAt;
  }

  /** The two printers agree on an amount exactly when it has at most twenty significant
      digits. */
  lemma PrintersAgree(asset: AssetKind, amount: string)
    requires IsBaseValue(amount)
    ensures FormatBaseValueForDisplay(asset, amount) == ToDisplayAmount(amount, DecimalsOf(asset)) <==> Fits(Value(amount))
  {
    var n, d := Value(amount), DecimalsOf(asset);
    FormatIsShortest(asset, amount);
    DisplayIsShortest(amount, d);
    FixedExactlyWhenFits(n);
    hide *;
    if Shortest(n, d) == Shortest(ToPrecision(n), d) {
      ShortestTellsApart(n, ToPrecision(n), d);
    }
  }

  // ------------------------------------------------------------------------- what parsing does

  /** The base-unit amount a number stands for, when it has no more decimals than its unit. */
  function ExactAmount(x: Decimal, decimals: nat): nat
    requires x.scale <= decimals
  {
    x.coefficient * Pow10(decimals - x.scale)
  }

  lemma ExactAmountScaled(x: Decimal, decimals: nat)
    requires x.scale <= decimals
    ensures x.coefficient * Pow10(decimals) == ExactAmount(x, decimals) * Pow10(x.scale)
  {
    Pow10Add(decimals - x.scale, x.scale);
    Regroup(x.coefficient, Pow10(decimals - x.scale), Pow10(x.scale));
  }

  /** Multiplying up to the base unit gives a whole number, rounded to twenty digits. */
  lemma ScaledUp(x: Decimal, decimals: nat)
    requires x.scale <= decimals
    ensures var product := x.Mul(Decimal(Pow10(decimals), 0));
            product.IsInteger() && ToFixed0(product) == Print(ToPrecision(ExactAmount(x, decimals)))
  {
    hide Pow10, ToPrecision, Print;
    ExactAmountScaled(x, decimals);
    RoundingScales(ExactAmount(x, decimals), x.scale);
    MultipleDivides(ToPrecision(ExactAmount(x, decimals)), Pow10(x.scale));
  }

  lemma Unscaled(x: Decimal)
    requires x.scale == 0
    ensures x.IsInteger() && ToFixed0(x) == Print(x.coefficient)
    ensures ExactAmount(x, 0) == x.coefficient
  {
    hide Print;
  }

  lemma WholeText(s: string)
    requires s != "" && AllDigits(s)
    ensures IsNumber(s) && DecimalPlaces(s) == 0 && ParseDecimal(s) == Decimal(Value(s), 0)
  {
    ReadJoined(s, "");
    JoinedEnds(s, "");
    hide Value, IsNumber, PointAt, AllDigits, ParseDecimal, DecimalPlaces;
    assert s + "" == s;
  }

  lemma PointText(whole: string, fraction: string)
    requires whole != "" && AllDigits(whole) && fraction != "" && AllDigits(fraction)
    ensures var s := whole + "." + fraction;
            && IsNumber(s) && DecimalPlaces(s) == |fraction|
            && AllDigits(whole + fraction) && ParseDecimal(s) == Decimal(Value(whole + fraction), |fraction|)
  {
    ReadJoined(whole, fraction);
    JoinedEnds(whole, fraction);
    hide Value, IsNumber, PointAt, AllDigits, ParseDecimal, DecimalPlaces;
  }

  /** Digits with a point somewhere between them. */
  ghost predicate HasPoint(s: string, whole: string, fraction: string) {
    s == whole + "." + fraction && whole != "" && AllDigits(whole) && fraction != "" && AllDigits(fraction)
  }

  /** What counts as a number: digits, or digits, a point and digits; and the number it is. */
  lemma NumberText(s: string)
    ensures IsNumber(s) <==> (s != "" && AllDigits(s)) || exists whole, fraction :: HasPoint(s, whole, fraction)
    ensures s != "" && AllDigits(s) ==> DecimalPlaces(s) == 0 && IsNumber(s) && ParseDecimal(s) == Decimal(Value(s), 0)
    ensures forall whole, fraction | HasPoint(s, whole, fraction) ::
      && DecimalPlaces(s) == |fraction| && IsNumber(s)
      && AllDigits(whole + fraction) && ParseDecimal(s) == Decimal(Value(whole + fraction), |fraction|)
  {
    if IsNumber(s) { SplitNumber(s); }
    hide Value, IsNumber, PointAt, AllDigits, ParseDecimal, DecimalPlaces;
    if s != "" && AllDigits(s) { WholeText(s); }
    forall whole, fraction | HasPoint(s, whole, fraction)
      ensures DecimalPlaces(s) == |fraction| && IsNumber(s)
      ensures AllDigits(whole + fraction) && ParseDecimal(s) == Decimal(Value(whole + fraction), |fraction|)
    {
      PointText(whole, fraction);
    }
  }

  lemma SplitNumber(s: string)
    requires IsNumber(s)
    ensures (s != "" && AllDigits(s)) || exists whole, fraction :: HasPoint(s, whole, fraction)
  {
    var k := PointAt(s);
    if k == |s| {
      assert s[..k] == s;
    } else {
      assert s == s[..k] + "." + s[k + 1..];
      assert HasPoint(s, s[..k], s[k + 1..]);
    }
  }

  lemma PointIffDecimals(s: string)
    requires IsNumber(s)
    ensures '.' in s <==> DecimalPlaces(s) > 0
    ensures ParseDecimal(s).scale == DecimalPlaces(s)
  {
    var k := PointAt(s);
    if '.' in s {
      assert k < |s|;
    }
  }

  /** The units the form offers: all but gwei, which is ETH's alone. */
  predicate Offered(asset: AssetKind, unit: AmountUnit) {
    unit != Gwei || asset == ETH
  }

  lemma ParsedInUnit(asset: AssetKind, unit: AmountUnit, x: Decimal)
    requires Offered(asset, unit) && x.scale <= GetScaleDecimals(asset, unit)
    ensures var exact := ExactAmount(x, GetScaleDecimals(asset, unit));
            && BaseAmount(asset, unit, x).IsInteger()
            && ToFixed0(BaseAmount(asset, unit, x)) == Print(if unit == Base then exact else ToPrecision(exact))
            && (exact > 0 <==> x.coefficient > 0)
  {
    hide Print, ToPrecision, Pow10;
    if unit == Base { Unscaled(x); } else { ScaledUp(x, GetScaleDecimals(asset, unit)); }
    Positive(x, GetScaleDecimals(asset, unit));
  }

  lemma Positive(x: Decimal, decimals: nat)
    requires x.scale <= decimals
    ensures ExactAmount(x, decimals) > 0 <==> x.coefficient > 0
  {
    hide Pow10;
    assert x.coefficient > 0 ==> x.coefficient * Pow10(decimals - x.scale) > 0;
  }

  /** What the form accepts: in every unit it offers, a number with at most the unit's decimals
      (and above zero if asked), and it never finds the conversion imprecise. The value is the
      exact amount in base units, typed in base units, and otherwise the amount rounded to
      twenty significant digits. */
  lemma AcceptedAmounts(asset: AssetKind, input: AmountInput, allowEmpty: bool, requirePositive: bool)
    requires Offered(asset, input.unit)
    ensures var raw := Trim(input.value);
            var k := match input.unit
                     case Base => 0
                     case Gwei => 9
                     case Display => (match asset case CKB => 8 case ETH => 18 case USDT => 6 case USDC => 6);
            var result := ValidateAmountInput(asset, input, allowEmpty, requirePositive);
            && (result == Ok(None) <==> raw == "" && allowEmpty)
            && (result == Err(Required) <==> raw == "" && !allowEmpty)
            && (result == Err(InvalidNumber) <==> raw != "" && !IsNumber(raw))
            && (raw != "" && IsNumber(raw) && DecimalPlaces(raw) > k ==>
                  result == if input.unit == Base then Err(BaseNoDecimal) else Err(MaxDecimals(k)))
            && (result == Err(PositiveRequired) <==>
                  raw != "" && IsNumber(raw) && DecimalPlaces(raw) <= k && requirePositive && ParseDecimal(raw).coefficient == 0)
            && (result.Ok? && result.value.Some? <==>
                  raw != "" && IsNumber(raw) && DecimalPlaces(raw) <= k && (requirePositive ==> ParseDecimal(raw).coefficient > 0))
            && (result.Ok? && result.value.Some? ==>
                  && ParseDecimal(raw).scale <= k
                  && var exact := ExactAmount(ParseDecimal(raw), k);
                     result == Ok(Some(Print(if input.unit == Base then exact else ToPrecision(exact)))))
            && result != Err(PreciseConversion)
  {
    var raw := Trim(input.value);
    var k := GetScaleDecimals(asset, input.unit);
    hide Trim, Print, ToPrecision, BaseAmount, ExactAmount, ToFixed0, Decimal.IsInteger;
    if raw != "" && IsNumber(raw) {
      PointIffDecimals(raw);
      hide IsNumber, DecimalPlaces, ParseDecimal;
      if DecimalPlaces(raw) <= k {
        ParsedInUnit(asset, input.unit, ParseDecimal(raw));
      }
    }
  }

  /** Outside base units the typed amount is taken at its exact value if and only if that has at
      most twenty significant digits; in base units it always is. */
  lemma ExactExactlyWhenItFits(asset: AssetKind, input: AmountInput, requirePositive: bool)
    requires Offered(asset, input.unit)
    requires ValidateAmountInput(asset, input, false, requirePositive).Ok?
    ensures var k := GetScaleDecimals(asset, input.unit);
            var x := Trim(input.value);
            && IsNumber(x) && ParseDecimal(x).scale <= k
            && var exact := ExactAmount(ParseDecimal(x), k);
               ValidateAmountInput(asset, input, false, requirePositive) == Ok(Some(Print(exact))) <==>
               input.unit == Base || Fits(exact)
  {
    AcceptedAmounts(asset, input, false, requirePositive);
    var exact := ExactAmount(ParseDecimal(Trim(input.value)), GetScaleDecimals(asset, input.unit));
    FixedExactlyWhenFits(exact);
    PrintTellsApart(exact, ToPrecision(exact));
    hide *;
  }

  lemma PrintTellsApart(a: nat, b: nat)
    ensures Print(a) == Print(b) <==> a == b
  {
    assert Value(Print(a)) == a && Value(Print(b)) == b;
    hide Print, Value;
  }

  /** Gwei on any other asset has no scale of its own: what is typed is rounded to twenty digits
      as it stands, and accepted if that leaves a whole number. */
  lemma GweiElsewhere(asset: AssetKind, value: string, requirePositive: bool)
    requires asset != ETH && IsNumber(Trim(value)) && Trim(value) != ""
    ensures var x := ParseDecimal(Trim(value));
            ValidateAmountInput(asset, AmountInput(value, Gwei), false, requirePositive) ==
            if requirePositive && x.coefficient == 0 then Err(PositiveRequired)
            else if ToPrecision(x.coefficient) % Pow10(x.scale) != 0 then Err(PreciseConversion)
            else Ok(Some(Print(ToPrecision(x.coefficient) / Pow10(x.scale))))
  {
    hide Trim, ToPrecision, Print, IsNumber, ParseDecimal;
    var x := ParseDecimal(Trim(value));
    assert Pow10(0) == 1 && x.coefficient * 1 == x.coefficient;
  }

  // ------------------------------------------------------------------------------ round trip

  lemma NumbersAreTrimmed(s: string)
    requires IsNumber(s)
    ensures s != "" && Trim(s) == s
  {
    var k := PointAt(s);
    assert IsDigit(s[0]) by { assert s[0] == s[..k][0]; }
    if k < |s| {
      assert s[|s| - 1] == s[k + 1..][|s| - k - 2];
    } else {
      assert s[|s| - 1] == s[..k][k - 1];
    }
    hide IsNumber, PointAt;
  }

  lemma PrintedReadsBack(asset: AssetKind, baseValue: string)
    requires IsBaseValue(baseValue)
    ensures var text := FormatBaseValueForDisplay(asset, baseValue);
            && text != "" && Trim(text) == text && IsNumber(text)
            && DecimalPlaces(text) == ParseDecimal(text).scale <= DecimalsOf(asset)
            && ExactAmount(ParseDecimal(text), DecimalsOf(asset)) == ToPrecision(Value(baseValue))
  {
    hide Value, Trim, ToPrecision, FormatBaseValueForDisplay, Pow10, Shortest, DecimalPlaces, ParseDecimal, IsNumber;
    FormatIsShortest(asset, baseValue);
    ReadShortest(ToPrecision(Value(baseValue)), DecimalsOf(asset));
    NumbersAreTrimmed(FormatBaseValueForDisplay(asset, baseValue));
  }

  /** The form shows a stored amount and takes it back rounded to twenty significant digits: the
      same amount exactly when it has no more, and otherwise the nearest one with a unit of the
      twentieth, the larger on a tie. An amount that is missing is shown as nothing. */
  lemma AmountRoundTrip(asset: AssetKind, baseValue: string, allowEmpty: bool)
    requires IsBaseValue(baseValue)
    ensures var n := Value(baseValue);
            var r := ToPrecision(n);
            var back := ValidateAmountInput(asset, CreateAmountInputFromBaseValue(asset, Some(baseValue)), allowEmpty, false);
            && back == Ok(Some(Print(r)))
            && (back == Ok(Some(Print(n))) <==> Fits(n))
            && var p := Pow10(Excess(n));
               r % p == 0 && 2 * n < 2 * r + p && 2 * r <= 2 * n + p
    ensures forall none | none in {None, Some("")} :: CreateAmountInputFromBaseValue(asset, none) == AmountInput("", Display)
  {
    hide ValidateAmountInput, FormatBaseValueForDisplay, ToPrecision, Print, Value, Trim, Fits, Pow10, IsNumber,
      ParseDecimal, DecimalPlaces, ExactAmount, Excess;
    var n := Value(baseValue);
    var text := FormatBaseValueForDisplay(asset, baseValue);
    PrintedReadsBack(asset, baseValue);
    AcceptedAmounts(asset, AmountInput(text, Display), allowEmpty, false);
    RoundedFits(n);
    RoundingError(n);
    FixedExactlyWhenFits(n);
    PrintTellsApart(n, ToPrecision(n));
  }

  // ---------------------------------------------------------------------------- compact form

  /** `fraction` cut to six digits and without trailing zeros: the number of millionths. */
  lemma CutToSix(whole: string, fraction: string)
    requires AllDigits(whole) && AllDigits(fraction)
    ensures var compact := Cut(fraction);
            && AllDigits(compact) && |compact| <= 6
            && AllDigits(whole + compact) && AllDigits(whole + fraction)
            && Value(whole + compact) * Pow10(6 - |compact|) == Value(whole + fraction) * Pow10(6) / Pow10(|fraction|)
  {
    hide Value, Pow10, StripTrailingZeros;
    var cut := if |fraction| > 6 then fraction[..6] else fraction;
    var compact := StripTrailingZeros(cut);
    assert AllDigits(compact) by { assert compact == cut[..|compact|]; }
    var z := |cut| - |compact|;
    assert whole + cut == whole + compact + Zeros(z);
    TrailingZeros(whole + compact, z);
    Pow10Add(z, 6 - |cut|);
    Regroup(Value(whole + compact), Pow10(z), Pow10(6 - |cut|));
    CutDigits(whole, fraction, cut);
  }

  lemma CutDigits(whole: string, fraction: string, cut: string)
    requires AllDigits(whole) && AllDigits(fraction)
    requires cut == if |fraction| > 6 then fraction[..6] else fraction
    ensures AllDigits(whole + cut) && AllDigits(whole + fraction)
    ensures Value(whole + cut) * Pow10(6 - |cut|) == Value(whole + fraction) * Pow10(6) / Pow10(|fraction|)
  {
    assert AllDigits(cut) && (|fraction| > 6 ==> AllDigits(fraction[6..]));
    hide Value, Pow10, AllDigits;
    DigitsConcat(whole, cut);
    DigitsConcat(whole, fraction);
    if |fraction| > 6 {
      LongFractionCut(whole, cut, fraction[6..], fraction);
    } else {
      ShortFractionStays(Value(whole + fraction), |fraction|);
    }
  }

  lemma ShortFractionStays(m: nat, f: nat)
    requires f <= 6
    ensures m * Pow10(6 - f) == m * Pow10(6) / Pow10(f)
  {
    Pow10Add(6 - f, f);
    hide Pow10;
    Regroup(m, Pow10(6 - f), Pow10(f));
    MultipleDivides(m * Pow10(6 - f), Pow10(f));
  }

  lemma LongFractionCut(whole: string, cut: string, rest: string, fraction: string)
    requires AllDigits(whole) && AllDigits(cut) && AllDigits(rest) && |cut| == 6 && fraction == cut + rest
    ensures AllDigits(whole + cut) && AllDigits(whole + fraction)
    ensures Value(whole + cut) * Pow10(0) == Value(whole + fraction) * Pow10(6) / Pow10(|fraction|)
  {
    hide Value, Pow10, AllDigits;
    ValueConcat(whole, cut);
    CutLongFraction(whole + cut, rest);
    Associative(whole, cut, rest);
  }

  lemma Associative(a: string, b: string, c: string)
    ensures a + b + c == a + (b + c)
  {
  }

  lemma CutLongFraction(kept: string, rest: string)
    requires AllDigits(kept) && AllDigits(rest)
    ensures AllDigits(kept + rest)
    ensures Value(kept) * Pow10(0) == Value(kept + rest) * Pow10(6) / Pow10(6 + |rest|)
  {
    hide Value;
    ValueConcat(kept, rest);
    ValueBound(rest);
    Pow10Add(|rest|, 6);
    assert Pow10(0) == 1;
    hide Pow10;
    Cancel(Value(kept + rest), Pow10(|rest|), Pow10(6));
    Quotient(Value(kept + rest), Pow10(|rest|), Value(kept), Value(rest));
  }

  /** Trailing zeros of the fraction do not matter to the cut. */
  lemma SameQuotient(n: nat, m: nat, decimals: nat, f: nat)
    requires f <= decimals && m * Pow10(decimals - f) == n
    ensures n * Pow10(6) / Pow10(decimals) == m * Pow10(6) / Pow10(f)
  {
    Pow10Add(f, decimals - f);
    hide Pow10;
    var z := Pow10(decimals - f);
    assert n * Pow10(6) == m * Pow10(6) * z by {
      Regroup(m, z, Pow10(6));
      Regroup(m, Pow10(6), z);
    }
    Cancel(m * Pow10(6), Pow10(f), z);
  }

  lemma DisplayParts(amount: string, decimals: nat) returns (whole: string, fraction: string)
    requires IsBaseValue(amount)
    ensures IsBaseValue(whole) && AllDigits(fraction) && ToDisplayAmount(amount, decimals) == Joined(whole, fraction)
    ensures AllDigits(whole + fraction) && |fraction| <= decimals
    ensures Value(whole + fraction) * Pow10(decimals - |fraction|) == Value(amount)
  {
    hide Value, Pow10;
    if decimals == 0 {
      whole, fraction := amount, "";
      TrailingZeros(amount, 0);
      assert amount + Zeros(0) == amount == amount + "";
    } else {
      DisplayIsShortest(amount, decimals);
      whole, fraction := ShortestParts(Value(amount), decimals);
    }
  }

  /** The compact form is the amount truncated to six decimals, in its shortest form: it reads
      back as a whole number of millionths, the largest one not above the amount. */
  lemma CompactTruncates(amount: string, decimals: nat)
    requires IsBaseValue(amount)
    ensures var s := CompactAmount(amount, decimals);
            && IsNumber(s)
            && DecimalPlaces(s) == ParseDecimal(s).scale <= 6
            && (DecimalPlaces(s) > 0 ==> s[|s| - 1] != '0')
            && ParseDecimal(s).coefficient * Pow10(6 - ParseDecimal(s).scale) == Value(amount) * Pow10(6) / Pow10(decimals)
  {
    hide Value, Pow10, ToDisplayAmount, StripTrailingZeros, IsNumber, ParseDecimal, PointAt, AllDigits, CompactAmount, Joined, Cut;
    var whole, fraction := DisplayParts(amount, decimals);
    ReadJoined(whole, fraction);
    CompactJoins(amount, decimals, whole, fraction);
    CutToSix(whole, fraction);
    CutEndsInADigit(fraction);
    ReadJoined(whole, Cut(fraction));
    JoinedEnds(whole, Cut(fraction));
    SameQuotient(Value(amount), Value(whole + fraction), decimals, |fraction|);
  }

  lemma CutEndsInADigit(fraction: string)
    ensures Cut(fraction) != "" ==> Cut(fraction)[|Cut(fraction)| - 1] != '0'
  {
    hide StripTrailingZeros;
  }

  lemma CompactJoins(amount: string, decimals: nat, whole: string, fraction: string)
    requires ToDisplayAmount(amount, decimals) == Joined(whole, fraction) && PointAt(Joined(whole, fraction)) == |whole|
    ensures CompactAmount(amount, decimals) == Joined(whole, Cut(fraction))
  {
    hide ToDisplayAmount, StripTrailingZeros, PointAt;
    var s := Joined(whole, fraction);
    assert s[..|whole|] == whole;
    if fraction != "" { assert s[|whole| + 1..] == fraction; }
  }
}
