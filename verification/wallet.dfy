/**
 * The pure helpers of the wallet library: address elision, fixed-point amount rendering and
 * the ERC-7715 permission request built for a new subscription. The clock reading and the
 * unit parser are parameters.
 */
module Wallet {

  import opened Options
  import opened Text
  import opened Decimal
  import opened Constants
  import opened Types

  // ----- formatAddress -----

  /** `${a.slice(0, 6)}...${a.slice(-4)}`. */
  function FormatAddress(address: string): (r: string)
    ensures var head, tail := Min(6, |address|), Min(4, |address|);
      && |r| == head + 3 + tail
      && r[..head] == address[..head]
      && r[head..head + 3] == "..."
      && r[|r| - tail..] == address[|address| - tail..]
  {
    Take(address, 6) + "..." + TakeLast(address, 4)
  }

  /**
   * For an address of at least 10 characters the display form has 13 characters, and the
   * address is its first six characters, the elided middle and its last four.
   */
  lemma FormatAddressLong(address: string)
    requires |address| >= 10
    ensures |FormatAddress(address)| == 13
    ensures var r := FormatAddress(address);
      address == r[..6] + address[6..|address| - 4] + r[9..]
  {
    var r := FormatAddress(address);
    assert r[9..] == address[|address| - 4..];
    assert address == address[..6] + address[6..|address| - 4] + address[|address| - 4..];
  }

  // ----- formatAmount -----

  /**
   * `formatAmount(amount, decimals)`: the BigInt quotient by 10^decimals, a dot, and the first
   * two characters of the BigInt remainder zero-padded to `decimals` characters. BigInt `/`
   * and `%` truncate toward zero.
   */
  function FormatAmount(amount: int, decimals: nat := USDC_DECIMALS): (r: string)
    ensures decimals >= 2 ==> |r| >= 4 && r[|r| - 3] == '.'
  {
    var divisor := Pow10(decimals);
    var integerPart := TruncDiv(amount, divisor);
    var fractionalPart := TruncRem(amount, divisor);
    IntToString(integerPart) + "." + Take(PadStart(IntToString(fractionalPart), decimals, '0'), 2)
  }

  /** The amount in hundredths of a token, rounded down. */
  function Hundredths(amount: nat, decimals: nat): (h: nat)
    requires decimals >= 2
  {
    DivNat(amount, Pow10(decimals - 2))
  }

  /**
   * For a non-negative amount and at least two decimals the rendering is exactly two
   * fractional digits, truncated rather than rounded: with `h` the amount in hundredths
   * rounded down, it is `h / 100`, a dot, and the two digits of `h % 100`.
   */
  lemma FormatAmountTruncates(amount: nat, decimals: nat)
    requires decimals >= 2
    ensures var h := Hundredths(amount, decimals);
      FormatAmount(amount, decimals) == NatToString(h / 100) + "." + FixedDigits(h % 100, 2)
  {
    var p := Pow10(decimals);
    var i, f := DivNat(amount, p), ModNat(amount, p);
    assert TruncDiv(amount, p) == i;
    assert TruncRem(amount, p) == f;
    PadNumeral(f, decimals);
    FixedDigitsPrefix(f, decimals, 2);
    HundredthsParts(amount, decimals);
  }

  /** The whole part and the two shown digits, as the hundredths' quotient and remainder by 100. */
  lemma HundredthsParts(amount: nat, decimals: nat)
    requires decimals >= 2
    ensures DivNat(amount, Pow10(decimals)) == Hundredths(amount, decimals) / 100
    ensures DivNat(ModNat(amount, Pow10(decimals)), Pow10(decimals - 2)) == Hundredths(amount, decimals) % 100
  {
    var b := Pow10(decimals - 2);
    Pow10Add(decimals - 2, 2);
    assert Pow10(2) == 100;
    DivSplit(amount, b, 100);
  }

  /**
   * Reads a rendering back: digits, a dot and exactly two digits give the value in
   * hundredths; anything else is not a rendering.
   */
  function ParseHundredths(s: string): (r: Option<nat>)
    ensures r.Some? ==> |s| >= 4 && s[|s| - 3] == '.'
  {
    if |s| >= 4 && s[|s| - 3] == '.' && AllDigits(s[..|s| - 3]) && AllDigits(s[|s| - 2..]) then
      Some(100 * ParseDigits(s[..|s| - 3]) + ParseDigits(s[|s| - 2..]))
    else
      None
  }

  /** Reading back the two-decimal rendering of `h` hundredths gives `h`. */
  lemma ParseHundredthsRendering(h: nat)
    ensures ParseHundredths(NatToString(h / 100) + "." + FixedDigits(h % 100, 2)) == Some(h)
  {
    var q, m := h / 100, h % 100;
    ParseRendering(NatToString(q), FixedDigits(m, 2));
    ParseNatToString(q);
    assert Pow10(2) == 100;
    FixedDigitsValue(m, 2);
  }

  /** A numeral, a dot and two digits read back as the numeral's hundredths plus the digits. */
  lemma ParseRendering(whole: string, frac: string)
    requires |whole| >= 1 && AllDigits(whole)
    requires |frac| == 2 && AllDigits(frac)
    ensures ParseHundredths(whole + "." + frac) == Some(100 * ParseDigits(whole) + ParseDigits(frac))
  {
    var r := whole + "." + frac;
    assert r[..|r| - 3] == whole;
    assert r[|r| - 2..] == frac;
    assert r[|r| - 3] == '.';
  }

  /** Round trip: reading a rendering back gives the amount in hundredths, rounded down. */
  lemma FormatAmountRoundTrip(amount: nat, decimals: nat)
    requires decimals >= 2
    ensures ParseHundredths(FormatAmount(amount, decimals)) == Some(Hundredths(amount, decimals))
  {
    FormatAmountTruncates(amount, decimals);
    ParseHundredthsRendering(Hundredths(amount, decimals));
  }

  /** With fewer than two decimals the fraction shows as many digits as there are decimals. */
  lemma FormatAmountFewDecimals(amount: nat)
    ensures FormatAmount(amount, 0) == NatToString(amount) + ".0"
    ensures FormatAmount(amount, 1) == NatToString(amount / 10) + "." + [DigitChar(amount % 10)]
  {
    assert Pow10(0) == 1 && Pow10(1) == 10;
    var q0, r0 := TruncDiv(amount, 1), TruncRem(amount, 1);
    assert q0 == amount && r0 == 0;
    assert Take(PadStart(IntToString(r0), 0, '0'), 2) == "0";
    var q1, r1 := TruncDiv(amount, 10), TruncRem(amount, 10);
    assert q1 == amount / 10 && r1 == amount % 10;
    var digit := IntToString(r1);
    assert digit == [DigitChar(amount % 10)];
    assert Take(PadStart(digit, 1, '0'), 2) == digit;
  }

  /** Five USDC renders as "5.00". */
  lemma FormatAmountFiveUsdc(amount: nat, decimals: nat)
    requires amount == 5000000 && decimals == USDC_DECIMALS
    ensures FormatAmount(amount, decimals) == "5.00"
  {
    assert Pow10(decimals) == 1000000;
    assert TruncDiv(amount, 1000000) == 5 && TruncRem(amount, 1000000) == 0;
    SixDecimalFraction(0);
    TwoDigits(0);
  }

  /** 1.999999 USDC renders as "1.99": the fraction is cut, not rounded up to "2.00". */
  lemma FormatAmountCutsFraction(amount: nat, decimals: nat)
    requires amount == 1999999 && decimals == USDC_DECIMALS
    ensures FormatAmount(amount, decimals) == "1.99"
  {
    assert Pow10(decimals) == 1000000;
    assert TruncDiv(amount, 1000000) == 1 && TruncRem(amount, 1000000) == 999999;
    SixDecimalFraction(999999);
    TwoDigits(99);
  }

  /** The two characters shown for a remainder below 10^6 at six decimals. */
  lemma SixDecimalFraction(f: nat)
    requires f < 1000000
    ensures Take(PadStart(IntToString(f), 6, '0'), 2) == FixedDigits(f / 10000, 2)
  {
    assert Pow10(6) == 1000000 && Pow10(4) == 10000;
    PadNumeral(f, 6);
    FixedDigitsPrefix(f, 6, 2);
  }

  /** The two-digit form of `n < 100`, character by character. */
  lemma TwoDigits(n: nat)
    requires n < 100
    ensures FixedDigits(n, 2) == [DigitChar(n / 10), DigitChar(n % 10)]
  {
    var t := n / 10;
    assert t < 10 && t / 10 == 0 && t % 10 == t;
    assert FixedDigits(n, 2) == FixedDigits(t, 1) + [DigitChar(n % 10)];
    assert FixedDigits(t, 1) == FixedDigits(0, 0) + [DigitChar(t)];
  }

  /**
   * As written, a negative amount renders its sign twice and the fraction wrongly: BigInt `%`
   * keeps the sign of the dividend, so the padded remainder starts with '-', and `slice(0, 2)`
   * keeps that sign and one digit. -1.5 USDC renders as "-1.-5".
   */
  lemma FormatAmountNegative(amount: int, decimals: nat)
    requires amount == -1500000 && decimals == USDC_DECIMALS
    ensures FormatAmount(amount, decimals) == "-1.-5"
  {
    assert Pow10(decimals) == 1000000;
    var q, f := TruncDiv(amount, 1000000), TruncRem(amount, 1000000);
    assert q == -1 && f == -500000;
    NegativeRenderingParts();
  }

  lemma NegativeRenderingParts()
    ensures IntToString(-1) == "-1"
    ensures Take(PadStart(IntToString(-500000), 6, '0'), 2) == "-5"
  {
    assert NatToString(500000) == "500000";
  }

  /**
   * The evident intent: the sign, then the rendering of the magnitude.
   */
  function FormatSignedAmount(amount: int, decimals: nat := USDC_DECIMALS): (r: string)
    ensures amount >= 0 ==> r == FormatAmount(amount, decimals)
    ensures amount < 0 ==> r == "-" + FormatAmount(-amount, decimals)
  {
    if amount < 0 then "-" + FormatAmount(-amount, decimals) else FormatAmount(amount, decimals)
  }

  /**
   * With the sign outside, every amount reads back as its sign and its magnitude in
   * hundredths, rounded toward zero; -1.5 USDC renders as "-1.50".
   */
  lemma FormatSignedAmountRoundTrip(amount: int, decimals: nat)
    requires decimals >= 2
    ensures var r := FormatSignedAmount(amount, decimals);
      && (amount >= 0 ==> ParseHundredths(r) == Some(Hundredths(amount, decimals)))
      && (amount < 0 ==> r[0] == '-' && ParseHundredths(r[1..]) == Some(Hundredths(-amount, decimals)))
  {
    if amount >= 0 {
      FormatAmountRoundTrip(amount, decimals);
    } else {
      FormatAmountRoundTrip(-amount, decimals);
      var r := FormatSignedAmount(amount, decimals);
      assert r[1..] == FormatAmount(-amount, decimals);
    }
  }

  lemma FormatSignedAmountNegative(amount: int, decimals: nat)
    requires amount == -1500000 && decimals == USDC_DECIMALS
    ensures FormatSignedAmount(amount, decimals) == "-1.50"
  {
    var magnitude := -amount;
    assert Pow10(decimals) == 1000000;
    assert TruncDiv(magnitude, 1000000) == 1 && TruncRem(magnitude, 1000000) == 500000;
    SixDecimalFraction(500000);
    TwoDigits(50);
  }

  // ----- buildPermissionRequest -----

  /** `s || fallback` on an optional string: missing and empty strings take the fallback. */
  function OrString(s: Option<string>, fallback: string): (r: string)
    ensures s.Some? && s.value != "" ==> r == s.value
    ensures s.None? || s.value == "" ==> r == fallback
  {
    if s.Some? && s.value != "" then s.value else fallback
  }

  /** `n || fallback` on an optional number: missing and zero take the fallback. */
  function OrNumber(n: Option<int>, fallback: int): (r: int)
    ensures n.Some? && n.value != 0 ==> r == n.value
    ensures n.None? || n.value == 0 ==> r == fallback
  {
    if n.Some? && n.value != 0 then n.value else fallback
  }

  /** The `type` tag the request carries for its terms. */
  function TypeTag(terms: PermissionTerms): (tag: string)
    ensures terms.PeriodicTerms? <==> tag == PERMISSION_TYPE_PERIODIC
    ensures terms.StreamTerms? <==> tag == PERMISSION_TYPE_STREAM
  {
    match terms
    case PeriodicTerms(_, _, _, _) => PERMISSION_TYPE_PERIODIC
    case StreamTerms(_, _, _, _, _, _) => PERMISSION_TYPE_STREAM
  }

  function Justification(params: CreateSubscriptionParams, fallback: string): string {
    "FlowPay: " + params.name + " - " + OrString(params.description, fallback)
  }

  /**
   * buildPermissionRequest. `nowMs` is the clock reading in milliseconds and `parseUnits`
   * converts a decimal string to base units at the given number of decimals.
   */
  function BuildPermissionRequest(
    params: CreateSubscriptionParams,
    sessionAccountAddress: string,
    nowMs: nat,
    parseUnits: (string, nat) -> int): (r: PermissionGrant)
    ensures r.chainId == SEPOLIA_CHAIN_ID && r.isAdjustmentAllowed
    ensures r.signer == Account(sessionAccountAddress)
    ensures r.expiry == nowMs / 1000 + params.durationDays * PERIOD_DAILY
    ensures (TypeTag(r.permission) == PERMISSION_TYPE_PERIODIC) <==> params.paymentType == Periodic
    ensures r.permission.tokenAddress == params.tokenAddress
    ensures r.permission.PeriodicTerms? ==>
      && r.permission.periodAmount == parseUnits(OrString(params.periodAmount, "0"), USDC_DECIMALS)
      && r.permission.periodDuration == OrNumber(params.periodDuration, PERIOD_DAILY)
      && r.permission.periodDuration != 0
      && r.permission.justification == Justification(params, "Recurring payment")
    ensures r.permission.StreamTerms? ==>
      && r.permission.amountPerSecond == parseUnits(OrString(params.amountPerSecond, "0"), USDC_DECIMALS)
      && r.permission.initialAmount == parseUnits(OrString(params.initialAmount, "0"), USDC_DECIMALS)
      && r.permission.maxAmount == parseUnits(OrString(params.maxAmount, "0"), USDC_DECIMALS)
      && r.permission.startTime == nowMs / 1000
      && r.expiry - r.permission.startTime == params.durationDays * PERIOD_DAILY
      && r.permission.justification == Justification(params, "Streaming payment")
  {
    var currentTime := nowMs / 1000;
    var expiry := currentTime + params.durationDays * 86400;
    var terms :=
      if params.paymentType == Periodic then
        PeriodicTerms(
          tokenAddress := params.tokenAddress,
          periodAmount := parseUnits(OrString(params.periodAmount, "0"), USDC_DECIMALS),
          periodDuration := OrNumber(params.periodDuration, 86400),
          justification := Justification(params, "Recurring payment"))
      else
        StreamTerms(
          tokenAddress := params.tokenAddress,
          amountPerSecond := parseUnits(OrString(params.amountPerSecond, "0"), USDC_DECIMALS),
          initialAmount := parseUnits(OrString(params.initialAmount, "0"), USDC_DECIMALS),
          maxAmount := parseUnits(OrString(params.maxAmount, "0"), USDC_DECIMALS),
          startTime := currentTime,
          justification := Justification(params, "Streaming payment"));
    PermissionGrant(
      chainId := SEPOLIA_CHAIN_ID,
      expiry := expiry,
      signer := Account(sessionAccountAddress),
      permission := terms,
      isAdjustmentAllowed := true)
  }
}
