/** The quote engine: two state cells holding the estimate shown for the
    amount being bought, one for each direction (payment to tokens, tokens
    to payment), recomputed through view calls on the sale contract. */
module TokenCalculations {
  import opened Common
  import opened Units

  /** What an estimate cell holds: the literal '0', the empty string, or a
      contract quote shown as `units / 10^decimals`. */
  datatype Estimate = ZeroText | Blank | Quote(units: nat, decimals: nat)

  /** The sale contract's conversion views, each with its scaled argument. */
  datatype ViewCall =
    | TokensForEth(wei: nat)          // getAmountOfTokenForETH
    | TokensForUsdt(units: nat)       // getAmountOfTokenForUSDT
    | EthForTokens(tokenWei: nat)     // getAmountOfETHForToken
    | UsdtForTokens(tokenWei: nat)    // getAmountOfUSDTForToken

  /** The sale contract as the quote engine reaches it: whether
      `getContract()` yields a signer-bound handle, and how each view call
      answers. */
  datatype SaleReader = SaleReader(contract: Result<()>, view: ViewCall -> Result<nat>)

  /** The view that prices a payment of `units` minor units in tokens. */
  function TokensFor(c: Currency, units: nat): (v: ViewCall)
    ensures v.TokensForEth? <==> c == Eth
    ensures v.TokensForUsdt? <==> c == Usdt
  {
    match c
    case Eth => TokensForEth(units)
    case Usdt => TokensForUsdt(units)
  }

  /** The view that prices `tokenWei` token units in the payment currency. */
  function PaymentFor(c: Currency, tokenWei: nat): (v: ViewCall)
    ensures v.EthForTokens? <==> c == Eth
    ensures v.UsdtForTokens? <==> c == Usdt
  {
    match c
    case Eth => EthForTokens(tokenWei)
    case Usdt => UsdtForTokens(tokenWei)
  }

  class TokenCalculator {
    var estimatedTokens: Estimate
    var estimatedPaymentAmount: Estimate

    /** The two directions exclude each other: at most one cell shows a
        contract quote. */
    predicate AtMostOneQuote()
      reads this
    {
      !(estimatedTokens.Quote? && estimatedPaymentAmount.Quote?)
    }

    constructor ()
      ensures estimatedTokens == ZeroText && estimatedPaymentAmount == ZeroText
      ensures AtMostOneQuote()
    {
      estimatedTokens := ZeroText;
      estimatedPaymentAmount := ZeroText;
    }

    /** `calculateTokenAmount(amount, paymentMethod)`: how many tokens the
        payment `amount` buys. Returns the view calls it made. */
    method CalculateTokenAmount(amount: string, c: Currency, sale: SaleReader) returns (calls: seq<ViewCall>)
      modifies this
      // Empty, unreadable or non-positive input: '0', and no contract call.
      ensures !IsPositiveAmount(amount) ==>
        calls == [] && estimatedTokens == ZeroText && estimatedPaymentAmount == old(estimatedPaymentAmount)
      // At most one view is called: the one the currency selects, with the
      // amount scaled to the currency's decimals.
      ensures |calls| <= 1
      ensures calls != [] <==>
        IsPositiveAmount(amount) && sale.contract.Ok? && ParseUnits(amount, Decimals(c)).Some?
      ensures calls != [] ==> calls[0] == TokensFor(c, ParseUnits(amount, Decimals(c)).value)
      // A quote: the token amount in 18-decimal units, and the other
      // direction's cell cleared to ''.
      ensures calls != [] && sale.view(calls[0]).Ok? ==>
        estimatedTokens == Quote(sale.view(calls[0]).value, TokenDecimals) && estimatedPaymentAmount == Blank
      // Any failure: '0' in this cell, the other untouched, nothing thrown.
      ensures !(calls != [] && sale.view(calls[0]).Ok?) ==>
        estimatedTokens == ZeroText && estimatedPaymentAmount == old(estimatedPaymentAmount)
      ensures AtMostOneQuote()
    {
      calls := [];
      if !IsPositiveAmount(amount) {
        estimatedTokens := ZeroText;
        return;
      }
      match sale.contract
      case Fail(_) =>
        estimatedTokens := ZeroText;
      case Ok(_) =>
        var units := ParseUnits(amount, Decimals(c));
        match units
        case None =>
          estimatedTokens := ZeroText;
        case Some(u) =>
          var call := TokensFor(c, u);
          calls := [call];
          match sale.view(call)
          case Ok(tokens) =>
            estimatedTokens := Quote(tokens, TokenDecimals);
            estimatedPaymentAmount := Blank;
          case Fail(_) =>
            estimatedTokens := ZeroText;
    }

    /** `calculatePaymentAmount(tokenAmount, paymentMethod)`: what buying
        `tokenAmount` tokens costs. Returns the view calls it made. */
    method CalculatePaymentAmount(tokenAmount: string, c: Currency, sale: SaleReader) returns (calls: seq<ViewCall>)
      modifies this
      ensures !IsPositiveAmount(tokenAmount) ==>
        calls == [] && estimatedPaymentAmount == ZeroText && estimatedTokens == old(estimatedTokens)
      // The token amount is always scaled to 18 decimals; the currency only
      // selects the view and the scale of the answer.
      ensures |calls| <= 1
      ensures calls != [] <==>
        IsPositiveAmount(tokenAmount) && sale.contract.Ok? && ParseUnits(tokenAmount, TokenDecimals).Some?
      ensures calls != [] ==> calls[0] == PaymentFor(c, ParseUnits(tokenAmount, TokenDecimals).value)
      ensures calls != [] && sale.view(calls[0]).Ok? ==>
        estimatedPaymentAmount == Quote(sale.view(calls[0]).value, Decimals(c)) && estimatedTokens == Blank
      ensures !(calls != [] && sale.view(calls[0]).Ok?) ==>
        estimatedPaymentAmount == ZeroText && estimatedTokens == old(estimatedTokens)
      ensures AtMostOneQuote()
    {
      calls := [];
      if !IsPositiveAmount(tokenAmount) {
        estimatedPaymentAmount := ZeroText;
        return;
      }
      match sale.contract
      case Fail(_) =>
        estimatedPaymentAmount := ZeroText;
      case Ok(_) =>
        var tokenWei := ParseUnits(tokenAmount, TokenDecimals);
        match tokenWei
        case None =>
          estimatedPaymentAmount := ZeroText;
        case Some(t) =>
          var call := PaymentFor(c, t);
          calls := [call];
          match sale.view(call)
          case Ok(paid) =>
            estimatedPaymentAmount := Quote(paid, Decimals(c));
            estimatedTokens := Blank;
          case Fail(_) =>
            estimatedPaymentAmount := ZeroText;
    }
  }

  /** "1" passes the quote engine's guard and scales to 10^18 wei. */
  lemma OneEtherQuotable()
    ensures IsPositiveAmount("1")
    ensures ParseUnits("1", Decimals(Eth)) == Some(Pow10(18))
  {
    OneEther();
    PositiveIffScaledPositive("1", EthDecimals);
  }

  /** One native coin quoted at 1000 tokens (1000 * 10^18 units) shows as
      1000 tokens: the one view call asks for the tokens worth 10^18 wei,
      and the cell holds exactly its answer at 18 decimals. */
  method QuoteOneEther(engine: TokenCalculator, sale: SaleReader) returns (calls: seq<ViewCall>)
    requires sale.contract.Ok?
    requires sale.view(TokensForEth(Pow10(18))) == Ok(1000 * Pow10(18))
    modifies engine
    ensures calls == [TokensForEth(Pow10(18))]
    ensures engine.estimatedTokens == Quote(1000 * Pow10(18), TokenDecimals)
    ensures engine.estimatedPaymentAmount == Blank
  {
    OneEtherQuotable();
    calls := engine.CalculateTokenAmount("1", Eth, sale);
  }
}
