/** The pure helpers of the create-loan-position form
    (src/app/app/create-loan-position/_components/CreateLoanPositionForm.tsx):
    percentage formatting, image-source validation, token display data, the
    risk-factor graph and option tables, and the default risk factor. */
module LoanForm {
  import opened Outcome
  import opened Decimal
  import JsString
  import CoreConstants

  /** The two fraction digits of a bps value shown as a percentage. */
  function TwoDigits(n: nat): (s: string)
    requires n < 100
    ensures |s| == 2 && IsDigits(s)
  {
    [DigitChar(n / 10), DigitChar(n % 10)]
  }

  /** `value ? (value / 100).toFixed(2) + "%" : 'N/A'`: `undefined` and 0
      are falsy and show "N/A"; a non-zero integer bps value shows its
      percentage with exactly two fraction digits. */
  function FormatPercentage(value: Option<int>): (r: string)
    ensures value.None? || value.value == 0 ==> r == "N/A"
    ensures value.Some? && value.value != 0 ==> ParsePercentage(r) == Some(value.value)
    ensures value.Some? && value.value != 0 ==> |r| >= 5 && r[|r| - 1] == '%' && r[|r| - 4] == '.'
  {
    if value.None? || value.value == 0 then "N/A"
    else
      var v := value.value;
      var m: nat := if v < 0 then -v else v;
      var r := (if v < 0 then "-" else "") + NatToDecimal(m / 100) + "." + TwoDigits(m % 100) + "%";
      PercentageRoundTrip(v < 0, m, r);
      r
  }

  /** Reads back a formatted percentage `[-]D.DD%` (whole part canonical) as
      a bps value; anything else, "N/A" included, reads as `None`. */
  function ParsePercentage(s: string): (r: Option<int>)
    ensures r.Some? ==> |s| >= 5 && s[|s| - 1] == '%' && s[|s| - 4] == '.'
  {
    if |s| < 5 || s[|s| - 1] != '%' || s[|s| - 4] != '.' then None
    else ParseParts(s[..|s| - 4], s[|s| - 3], s[|s| - 2])
  }

  /** The value of a whole part `[-]D` followed by two fraction digits. */
  function ParseParts(whole: string, d1: char, d2: char): Option<int> {
    var negative := |whole| > 0 && whole[0] == '-';
    var digits := if negative then whole[1..] else whole;
    if !IsCanonical(digits) || !IsDigit(d1) || !IsDigit(d2) then None
    else
      var m := ParseDigits(digits) * 100 + DigitValue(d1) * 10 + DigitValue(d2);
      Some(if negative then -m else m)
  }

  lemma DigitRoundTrip(d: nat)
    requires d < 10
    ensures DigitValue(DigitChar(d)) == d
  {
  }

  lemma PercentageRoundTrip(negative: bool, m: nat, r: string)
    requires r == (if negative then "-" else "") + NatToDecimal(m / 100) + "." + TwoDigits(m % 100) + "%"
    ensures ParsePercentage(r) == Option<int>.Some(if negative then 0 - m else m)
  {
    var whole := (if negative then "-" else "") + NatToDecimal(m / 100);
    var f := TwoDigits(m % 100);
    assert r[..|r| - 4] == whole && r[|r| - 3] == f[0] && r[|r| - 2] == f[1];
    PartsRoundTrip(negative, m);
  }

  lemma PartsRoundTrip(negative: bool, m: nat)
    ensures ParseParts((if negative then "-" else "") + NatToDecimal(m / 100),
                       TwoDigits(m % 100)[0], TwoDigits(m % 100)[1])
         == Option<int>.Some(if negative then 0 - m else m)
  {
    var w := NatToDecimal(m / 100);
    var whole := (if negative then "-" else "") + w;
    var isNegative := |whole| > 0 && whole[0] == '-';
    assert isNegative == negative by {
      if !negative {
        assert whole[0] == w[0];
      }
    }
    var digits := if isNegative then whole[1..] else whole;
    assert digits == w;
    ParseOfRender(m / 100);
    DigitRoundTrip((m % 100) / 10);
    DigitRoundTrip((m % 100) % 10);
  }

  /** `src && src.trim() !== '' ? src : null`: a source is kept, untrimmed,
      exactly when it has a non-whitespace character. */
  function GetValidImageSrc(src: Option<string>): (r: Option<string>)
    ensures r.Some? <==> src.Some? && !JsString.IsBlank(src.value)
    ensures r.Some? ==> r.value == src.value
  {
    if src.Some? && src.value != "" then
      JsString.TrimEmptyIffBlank(src.value);
      if JsString.Trim(src.value) != "" then src else None
    else None
  }

  /** The token metadata fields the form reads; each may be missing. */
  datatype TokenMetadata = TokenMetadata(symbol: Option<string>, logoUri: Option<string>)

  datatype TokenData = TokenData(symbol: string, logoUri: Option<string>, assetType: string)

  /** `a || ''` for an optional string. */
  function OrEmpty(s: Option<string>): (r: string)
    ensures s.Some? ==> r == s.value
  {
    if s.Some? then s.value else ""
  }

  /** The display data for a token: symbol and asset type default to '',
      the logo goes through `GetValidImageSrc`. */
  function CreateTokenData(metadata: Option<TokenMetadata>, assetType: Option<string>): (r: TokenData)
    ensures metadata.None? ==> r.symbol == "" && r.logoUri.None?
    ensures metadata.Some? && metadata.value.symbol.Some? ==> r.symbol == metadata.value.symbol.value
    ensures metadata.Some? && metadata.value.symbol.None? ==> r.symbol == ""
    ensures r.logoUri.Some? <==>
      metadata.Some? && metadata.value.logoUri.Some? && !JsString.IsBlank(metadata.value.logoUri.value)
    ensures r.logoUri.Some? ==> r.logoUri == metadata.value.logoUri
    ensures assetType.None? ==> r.assetType == ""
    ensures assetType.Some? ==> r.assetType == assetType.value
  {
    TokenData(
      if metadata.Some? then OrEmpty(metadata.value.symbol) else "",
      GetValidImageSrc(if metadata.Some? then metadata.value.logoUri else None),
      OrEmpty(assetType))
  }

  /** The curve illustrations, one per risk factor 0..3. */
  const RISK_FACTOR_GRAPHS: seq<string> := [
    "/assets/ConservativeGraph.svg",
    "/assets/StandardGraph.svg",
    "/assets/AggressiveGraph.svg",
    "/assets/RestrictiveGraph.svg"
  ]

  /** `RISK_FACTOR_GRAPHS[riskFactor] || RISK_FACTOR_GRAPHS[1]`: an index
      outside the table falls back to the Standard graph. */
  function RiskFactorGraph(riskFactor: int): (r: string)
    ensures 0 <= riskFactor < 4 ==> r == RISK_FACTOR_GRAPHS[riskFactor]
    ensures !(0 <= riskFactor < 4) ==> r == "/assets/StandardGraph.svg"
  {
    if 0 <= riskFactor < |RISK_FACTOR_GRAPHS| && RISK_FACTOR_GRAPHS[riskFactor] != "" then
      RISK_FACTOR_GRAPHS[riskFactor]
    else RISK_FACTOR_GRAPHS[1]
  }

  datatype RiskFactorOption = RiskFactorOption(caption: string, value: nat, level: string, description: string)

  const RISK_FACTOR_OPTIONS: seq<RiskFactorOption> := [
    RiskFactorOption("0.5", 0, "Conservative", "Gradual interest escalation for stable borrowing"),
    RiskFactorOption("1.0", 1, "Standard", "Linear interest increase matching market conditions"),
    RiskFactorOption("1.5", 2, "Aggressive", "Accelerated interest curve to discourage over-borrowing"),
    RiskFactorOption("2.0", 3, "Restrictive", "Steep penalty curve for maximum utilization control")
  ]

  /** The form's initial risk factor. */
  const DEFAULT_RISK_FACTOR: nat := 1

  /** The multiplier `v / BPS` with one fraction digit, as the option
      captions write it. */
  function MultiplierCaption(v: nat): string {
    NatToDecimal(v / CoreConstants.BPS) + "." + [DigitChar((v % CoreConstants.BPS) / 1000)]
  }

  /** The option table lists values 0..3 in order, and the default is the
      Standard option. */
  lemma RiskFactorOptionValues()
    ensures |RISK_FACTOR_OPTIONS| == 4
    ensures forall i :: 0 <= i < |RISK_FACTOR_OPTIONS| ==> RISK_FACTOR_OPTIONS[i].value == i
    ensures RISK_FACTOR_OPTIONS[DEFAULT_RISK_FACTOR].level == "Standard"
  {
  }

  /** Each option's caption is the multiplier at the same index of
      RISK_FACTOR_BFS_VECTOR. */
  lemma RiskFactorCaptions()
    ensures |CoreConstants.RISK_FACTOR_BFS_VECTOR| == |RISK_FACTOR_OPTIONS|
    ensures forall i :: 0 <= i < |RISK_FACTOR_OPTIONS| ==>
      RISK_FACTOR_OPTIONS[i].caption == MultiplierCaption(CoreConstants.RISK_FACTOR_BFS_VECTOR[i])
  {
    var v := CoreConstants.RISK_FACTOR_BFS_VECTOR;
    assert MultiplierCaption(v[0]) == "0.5" by {
      assert NatToDecimal(0) == "0";
    }
    assert MultiplierCaption(v[1]) == "1.0" by {
      assert NatToDecimal(1) == "1";
    }
    assert MultiplierCaption(v[2]) == "1.5" by {
      assert NatToDecimal(1) == "1";
    }
    assert MultiplierCaption(v[3]) == "2.0" by {
      assert NatToDecimal(2) == "2";
    }
  }
}
