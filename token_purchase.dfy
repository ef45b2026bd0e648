/** The purchase facade: the two purchase flows and the quote engine side
    by side, with one loading flag that is set while either flow runs. */
module TokenPurchase {
  import opened Common
  import opened Units
  import opened Ledger
  import opened TokenCalculations
  import opened TokenPurchaseETH
  import opened TokenPurchaseUSDT

  class TokenPurchase {
    const eth: TokenPurchaseETH
    const usdt: TokenPurchaseUSDT
    const calculator: TokenCalculator

    /** `isLoading`: either flow is in progress. */
    predicate IsLoading()
      reads eth, usdt
    {
      eth.isLoading || usdt.isLoading
    }

    constructor ()
      ensures fresh(eth) && fresh(usdt) && fresh(calculator)
      ensures !IsLoading()
      ensures calculator.estimatedTokens == ZeroText && calculator.estimatedPaymentAmount == ZeroText
    {
      eth := new TokenPurchaseETH();
      usdt := new TokenPurchaseUSDT();
      calculator := new TokenCalculator();
    }

    /** `buyTokensWithETH` through the facade: once it has run for a
        connected account, the facade is loading only if the stable-coin
        flow still is; the quotes are untouched. */
    method BuyTokensWithEth(account: Option<Address>, amount: string, chain: Chain)
      returns (events: seq<Event>, outcome: Outcome)
      modifies eth
      ensures chain.present && HasAccount(account) ==> (IsLoading() <==> usdt.isLoading)
      ensures !(chain.present && HasAccount(account)) ==> IsLoading() == old(IsLoading()) && outcome == NotConnected
      ensures outcome == Purchased ==>
        ParseUnits(amount, EthDecimals).Some? && Confirmed(BuyWithEth(ParseUnits(amount, EthDecimals).value)) in events
    {
      events, outcome := eth.BuyTokensWithEth(account, amount, chain);
      if outcome == Purchased {
        assert events[1] == Confirmed(BuyWithEth(ParseUnits(amount, EthDecimals).value));
      }
    }

    /** `buyTokensWithUSDT` through the facade: once it has run for a
        connected account, the facade is loading only if the native-coin
        flow still is. */
    method BuyTokensWithUsdt(account: Option<Address>, amount: string, chain: Chain)
      returns (events: seq<Event>, outcome: Outcome)
      modifies usdt
      ensures chain.present && HasAccount(account) ==> (IsLoading() <==> eth.isLoading)
      ensures !(chain.present && HasAccount(account)) ==> IsLoading() == old(IsLoading()) && outcome == NotConnected
      ensures outcome == Purchased ==>
        ParseUnits(amount, UsdtDecimals).Some? && Confirmed(BuyWithUsdt(ParseUnits(amount, UsdtDecimals).value)) in events
    {
      events, outcome := usdt.BuyTokensWithUsdt(account, amount, chain);
    }
  }

  /** A fresh facade that completes a purchase in each currency, one after
      the other, is not left loading. */
  method PurchaseBoth(account: Address, chain: Chain) returns (shop: TokenPurchase)
    requires chain.present && account != ""
    ensures fresh(shop) && !shop.IsLoading()
  {
    shop := new TokenPurchase();
    var e1, o1 := shop.BuyTokensWithEth(Some(account), "1", chain);
    var e2, o2 := shop.BuyTokensWithUsdt(Some(account), "50", chain);
  }
}
