/** Buying tokens with the native coin: one payable call on the sale
    contract carrying the amount in wei, then a wait for it to be mined,
    with a loading flag set for the duration. */
module TokenPurchaseETH {
  import opened Common
  import opened Units
  import opened ErrorUtils
  import opened Ledger

  /** A native-coin purchase of `wei` when every step succeeds. */
  function EthPurchasePath(wei: nat): (t: seq<Event>)
  {
    [Submitted(BuyWithEth(wei)), Confirmed(BuyWithEth(wei))]
  }

  /** Wherever a native-coin purchase stops along its path, it has
      submitted at most the one payable call, and confirmed nothing it did
      not submit. */
  lemma EthPurchasePathOrdered(wei: nat, t: seq<Event>)
    requires t <= EthPurchasePath(wei)
    ensures ApprovalsSettleFirst(t) && ConfirmsFollowSubmits(t)
    ensures forall i :: 0 <= i < |t| && t[i].Submitted? ==> i == 0 && t[i].tx == BuyWithEth(wei)
  {
    var path := EthPurchasePath(wei);
    assert forall i :: 0 <= i < |t| ==> t[i] == path[i];
    forall j | 0 <= j < |t| && t[j].Confirmed?
      ensures exists i :: 0 <= i < j && t[i] == Submitted(t[j].tx)
    {
      assert j == 1 && t[0] == Submitted(t[j].tx);
    }
  }

  /** The steps of `buyTokensWithETH` that can throw, in order: getting the
      contract, the parse, sending the payable call and waiting for it. */
  function EthSteps(amount: string, chain: Chain): (steps: seq<Result<()>>)
  {
    [Done(chain.contract), ParseStep(ParseUnits(amount, EthDecimals), chain.parseError),
     chain.buySubmit, chain.buyWait]
  }

  /** The first error among the native-coin purchase steps, case by case. */
  lemma EthStepsFailure(amount: string, chain: Chain)
    ensures chain.contract.Fail? ==> FirstFailure(EthSteps(amount, chain)) == Fail(chain.contract.error)
    ensures chain.contract.Ok? && ParseUnits(amount, EthDecimals).None? ==>
      FirstFailure(EthSteps(amount, chain)) == Fail(chain.parseError)
    ensures chain.contract.Ok? && ParseUnits(amount, EthDecimals).Some? && chain.buySubmit.Fail? ==>
      FirstFailure(EthSteps(amount, chain)) == chain.buySubmit
    ensures chain.contract.Ok? && ParseUnits(amount, EthDecimals).Some? && chain.buySubmit.Ok? && chain.buyWait.Fail? ==>
      FirstFailure(EthSteps(amount, chain)) == chain.buyWait
  {
    var steps := EthSteps(amount, chain);
    assert steps == steps[..1] + steps[1..];
    FirstFailureAppend(steps[..1], steps[1..]);
    if chain.contract.Ok? && ParseUnits(amount, EthDecimals).Some? {
      assert steps == steps[..2] + [chain.buySubmit, chain.buyWait];
      FirstFailureAfterOks(steps[..2], [chain.buySubmit, chain.buyWait]);
      FirstFailureOfTwo(chain.buySubmit, chain.buyWait);
    }
  }

  /** Exactly what `buyTokensWithETH` leaves in the trace against these
      answers: nothing when the contract or the amount cannot be read;
      otherwise the payable call's submission, followed by its confirmation
      only when it was sent and mined. */
  function EthTrace(amount: string, chain: Chain): (t: seq<Event>)
  {
    var wei := ParseUnits(amount, EthDecimals);
    if chain.contract.Fail? || wei.None? then []
    else
      [Submitted(BuyWithEth(wei.value))]
        + (if chain.buySubmit.Ok? && chain.buyWait.Ok? then [Confirmed(BuyWithEth(wei.value))] else [])
  }

  /** The exact trace stays on the path, holds at most the submission when
      a step threw, and confirms the purchase exactly when no step threw,
      in which case it is the whole path. */
  lemma EthTraceSettles(amount: string, chain: Chain)
    ensures chain.contract.Ok? && ParseUnits(amount, EthDecimals).Some? ==>
      EthTrace(amount, chain) <= EthPurchasePath(ParseUnits(amount, EthDecimals).value)
    ensures FirstFailure(EthSteps(amount, chain)).Fail? ==> |EthTrace(amount, chain)| <= 1
    ensures ConfirmsPurchase(EthTrace(amount, chain)) <==> FirstFailure(EthSteps(amount, chain)).Ok?
    ensures FirstFailure(EthSteps(amount, chain)).Ok? ==>
      ParseUnits(amount, EthDecimals).Some?
      && EthTrace(amount, chain) == EthPurchasePath(ParseUnits(amount, EthDecimals).value)
  {
    EthStepsFailure(amount, chain);
    var t := EthTrace(amount, chain);
    if FirstFailure(EthSteps(amount, chain)).Ok? {
      assert t[1].Confirmed? && t[1].tx.IsPurchase();
    } else {
      assert forall i :: 0 <= i < |t| ==> t[i].Submitted?;
    }
  }

  /** The `try` block of `buyTokensWithETH(amount)` for a connected account:
      get the sale contract, scale the amount to 18 decimals, submit the
      payable purchase with that value and wait for it. Stops at the first
      step that throws. */
  method EthPurchaseSteps(amount: string, chain: Chain) returns (events: seq<Event>, r: Result<()>)
    ensures chain.contract.Fail? ==> events == [] && r == Fail(chain.contract.error)
    ensures chain.contract.Ok? && ParseUnits(amount, EthDecimals).None? ==>
      events == [] && r == Fail(chain.parseError)
    // Once the amount is read, exactly one payable call is submitted, and
    // its value is the amount in wei.
    ensures chain.contract.Ok? && ParseUnits(amount, EthDecimals).Some? ==>
      events <= EthPurchasePath(ParseUnits(amount, EthDecimals).value)
      && |events| >= 1
    ensures ApprovalsSettleFirst(events) && ConfirmsFollowSubmits(events)
    ensures SubmitsPurchase(events) <==> chain.contract.Ok? && ParseUnits(amount, EthDecimals).Some?
    ensures r.Ok? <==>
      chain.contract.Ok? && ParseUnits(amount, EthDecimals).Some? && chain.buySubmit.Ok? && chain.buyWait.Ok?
    ensures r.Ok? ==>
      && ParseUnits(amount, EthDecimals).Some?
      && events == EthPurchasePath(ParseUnits(amount, EthDecimals).value)
    // A refused or reverted purchase throws that call's own error.
    ensures chain.contract.Ok? && ParseUnits(amount, EthDecimals).Some? && chain.buySubmit.Fail? ==>
      r == Fail(chain.buySubmit.error)
    ensures chain.contract.Ok? && ParseUnits(amount, EthDecimals).Some? && chain.buySubmit.Ok? && chain.buyWait.Fail? ==>
      r == Fail(chain.buyWait.error)
    ensures r == FirstFailure(EthSteps(amount, chain))
    // The trace is exactly the one the first failing step leaves.
    ensures events == EthTrace(amount, chain)
  {
    EthStepsFailure(amount, chain);
    events := [];
    if chain.contract.Fail? {
      r := Fail(chain.contract.error);
      return;
    }
    var valueInWei := ParseUnits(amount, EthDecimals);
    if valueInWei.None? {
      r := Fail(chain.parseError);
      return;
    }
    var purchase := BuyWithEth(valueInWei.value);
    events := [Submitted(purchase)];
    if chain.buySubmit.Fail? {
      r := Fail(chain.buySubmit.error);
    } else if chain.buyWait.Fail? {
      r := Fail(chain.buyWait.error);
    } else {
      events := events + [Confirmed(purchase)];
      r := Ok(());
    }
    assert events[0] == Submitted(purchase);
    EthPurchasePathOrdered(valueInWei.value, events);
  }

  /** A purchase that reverted on the chain shows the user the contract's
      revert reason. */
  lemma EthRevertShown(amount: string, chain: Chain, reason: string)
    requires chain.contract.Ok? && ParseUnits(amount, EthDecimals).Some?
    requires chain.buySubmit.Ok? && chain.buyWait.Fail?
    requires LeftmostRevertReason(chain.buyWait.error.text, reason)
    ensures Settle(FirstFailure(EthSteps(amount, chain))) == Failed(reason)
  {
    EthStepsFailure(amount, chain);
    GetErrorMessageIsLeftmostReason(chain.buyWait.error.text, reason);
  }

  /** The state of the `useTokenPurchaseETH` hook. */
  class TokenPurchaseETH {
    var isLoading: bool

    constructor ()
      ensures !isLoading
    {
      isLoading := false;
    }

    /** `buyTokensWithETH(amount)`. Without a wallet or a connected account
        it only warns. Otherwise it sets the loading flag, runs the purchase
        steps, turns a thrown error into a message with `getErrorMessage`,
        and clears the flag whatever happened. A call made while the flag is
        still set is not refused. */
    method BuyTokensWithEth(account: Option<Address>, amount: string, chain: Chain)
      returns (events: seq<Event>, outcome: Outcome)
      modifies this
      ensures !(chain.present && HasAccount(account)) ==>
        events == [] && outcome == NotConnected && isLoading == old(isLoading)
      ensures chain.present && HasAccount(account) ==> !isLoading
      // Connected: once the contract and the amount are read, the one
      // payable call is made; the user sees success exactly when no step
      // threw, and otherwise `getErrorMessage` of the first thrown error.
      ensures chain.present && HasAccount(account) && chain.contract.Ok? && ParseUnits(amount, EthDecimals).Some? ==>
        events <= EthPurchasePath(ParseUnits(amount, EthDecimals).value) && |events| >= 1
      ensures chain.present && HasAccount(account) ==>
        && (SubmitsPurchase(events) <==> chain.contract.Ok? && ParseUnits(amount, EthDecimals).Some?)
        && outcome == Settle(FirstFailure(EthSteps(amount, chain)))
        && events == EthTrace(amount, chain)
      ensures chain.present && account.Some? && account.value != "" ==> outcome != NotConnected
      // A purchase is shown as confirmed exactly when it succeeded.
      ensures ConfirmsPurchase(events) <==> outcome == Purchased
      ensures forall i :: 0 <= i < |events| && events[i].Submitted? ==>
        ParseUnits(amount, EthDecimals).Some? && events[i].tx == BuyWithEth(ParseUnits(amount, EthDecimals).value)
      ensures outcome == Purchased ==>
        ParseUnits(amount, EthDecimals).Some? && events == EthPurchasePath(ParseUnits(amount, EthDecimals).value)
    {
      if !chain.present || !HasAccount(account) {
        events, outcome := [], NotConnected;
        return;
      }
      isLoading := true;
      var r;
      events, r := EthPurchaseSteps(amount, chain);
      EthTraceSettles(amount, chain);
      if chain.contract.Ok? && ParseUnits(amount, EthDecimals).Some? {
        EthPurchasePathOrdered(ParseUnits(amount, EthDecimals).value, events);
      }
      outcome := Settle(r);
      isLoading := false;
    }
  }

  /** Buying with "1" sends one payable call carrying 10^18 wei. */
  method BuyOneEther(chain: Chain) returns (events: seq<Event>, r: Result<()>)
    requires chain.contract.Ok? && chain.buySubmit.Ok? && chain.buyWait.Ok?
    ensures r.Ok?
    ensures events == [Submitted(BuyWithEth(Pow10(18))), Confirmed(BuyWithEth(Pow10(18)))]
  {
    OneEther();
    events, r := EthPurchaseSteps("1", chain);
  }
}
