/** Buying tokens with the stable coin: make sure the sale contract may
    spend the amount (approving it first when the allowance falls short and
    waiting for that approval to be mined), then submit the purchase and
    wait for it, with a loading flag set for the duration. */
module TokenPurchaseUSDT {
  import opened Common
  import opened Units
  import opened ErrorUtils
  import opened Ledger

  /** The approval step when it runs to the end: the allowance is read and,
      only if it is below `units`, exactly `units` are approved for the
      spender and the approval is confirmed. */
  function ApprovalPath(owner: Address, spender: Address, units: nat, allowance: nat): (t: seq<Event>)
  {
    [AllowanceRead(owner, spender)]
      + (if allowance < units then [Submitted(Approve(spender, units)), Confirmed(Approve(spender, units))] else [])
  }

  /** A stable-coin purchase when every step succeeds: the approval step,
      then the purchase of `units`, confirmed. */
  function PurchasePath(owner: Address, spender: Address, units: nat, allowance: nat): (t: seq<Event>)
  {
    ApprovalPath(owner, spender, units, allowance)
      + [Submitted(BuyWithUsdt(units)), Confirmed(BuyWithUsdt(units))]
  }

  /** Wherever a purchase stops along its path, every approval it submitted
      was confirmed before the purchase was submitted, and each confirmation
      follows its submission. */
  lemma PurchasePathOrdered(owner: Address, spender: Address, units: nat, allowance: nat, t: seq<Event>)
    requires t <= PurchasePath(owner, spender, units, allowance)
    ensures ApprovalsSettleFirst(t) && ConfirmsFollowSubmits(t)
  {
    var path := PurchasePath(owner, spender, units, allowance);
    assert forall i :: 0 <= i < |t| ==> t[i] == path[i];
    var approval, purchase := Approve(spender, units), BuyWithUsdt(units);
    if allowance < units {
      assert path == [AllowanceRead(owner, spender), Submitted(approval), Confirmed(approval),
                      Submitted(purchase), Confirmed(purchase)];
      forall i, j | 0 <= i < j < |t| && t[i].Submitted? && t[i].tx.Approve? && t[j].Submitted? && t[j].tx.IsPurchase()
        ensures exists k :: i < k < j && t[k] == Confirmed(t[i].tx)
      {
        assert i == 1 && j == 3 && t[2] == Confirmed(t[i].tx);
      }
    } else {
      assert path == [AllowanceRead(owner, spender), Submitted(purchase), Confirmed(purchase)];
    }
    forall j | 0 <= j < |t| && t[j].Confirmed?
      ensures exists i :: 0 <= i < j && t[i] == Submitted(t[j].tx)
    {
      assert t[j - 1] == Submitted(t[j].tx);
    }
  }

  /** The approval step, wherever it stops, submits no purchase. */
  lemma ApprovalSubmitsNoPurchase(owner: Address, spender: Address, units: nat, allowance: nat, t: seq<Event>)
    requires t <= ApprovalPath(owner, spender, units, allowance)
    ensures !SubmitsPurchase(t)
  {
    var path := ApprovalPath(owner, spender, units, allowance);
    forall i | 0 <= i < |t|
      ensures !(t[i].Submitted? && t[i].tx.IsPurchase())
    {
      assert t[i] == path[i];
    }
  }

  /** A purchase stopped after an approval was submitted but before it was
      confirmed has submitted no purchase. */
  lemma NoPurchaseAfterFailedApproval(owner: Address, spender: Address, units: nat, allowance: nat, t: seq<Event>)
    requires t <= PurchasePath(owner, spender, units, allowance)
    requires Submitted(Approve(spender, units)) in t && Confirmed(Approve(spender, units)) !in t
    ensures !SubmitsPurchase(t)
  {
    var path := PurchasePath(owner, spender, units, allowance);
    assert forall i :: 0 <= i < |t| ==> t[i] == path[i];
    assert path[2] == Confirmed(Approve(spender, units));
    assert |t| <= 2;
  }

  /** The steps of `approveUSDT` that can throw, in the order it runs them:
      the runner check, the parse, the allowance read and, only when the
      allowance falls short, sending the approval and waiting for it. */
  function ApprovalSteps(amount: string, handle: SaleHandle, chain: Chain): (steps: seq<Result<()>>)
  {
    var units := ParseUnits(amount, UsdtDecimals);
    [if handle.hasRunner then Ok(()) else Fail(ProviderNotFound),
     ParseStep(units, chain.parseError),
     Done(chain.allowance)]
      + (if units.Some? && chain.allowance.Ok? && chain.allowance.value < units.value
         then [chain.approveSubmit, chain.approveWait] else [])
  }

  /** `approveUSDT` gets as far as sending an approval: the runner is
      there, the amount parses and the allowance read shows it short. */
  predicate ApprovalNeeded(amount: string, handle: SaleHandle, chain: Chain)
  {
    && handle.hasRunner
    && ParseUnits(amount, UsdtDecimals).Some?
    && chain.allowance.Ok?
    && chain.allowance.value < ParseUnits(amount, UsdtDecimals).value
  }

  /** `approveUSDT` returns without throwing: the runner is there, the
      amount parses, the allowance is read and either suffices or the
      approval is sent and mined. */
  predicate ApprovalSucceeds(amount: string, handle: SaleHandle, chain: Chain)
  {
    && handle.hasRunner
    && ParseUnits(amount, UsdtDecimals).Some?
    && chain.allowance.Ok?
    && (chain.allowance.value >= ParseUnits(amount, UsdtDecimals).value
        || (chain.approveSubmit.Ok? && chain.approveWait.Ok?))
  }

  /** Exactly what `approveUSDT` by `owner` leaves in the trace against
      these answers: nothing before the allowance read; the read; and, when
      the allowance falls short, the approval's submission, followed by its
      confirmation only when it was sent and mined. */
  function ApprovalTrace(owner: Address, amount: string, handle: SaleHandle, chain: Chain): (t: seq<Event>)
  {
    var units := ParseUnits(amount, UsdtDecimals);
    if !handle.hasRunner || units.None? then []
    else if !ApprovalNeeded(amount, handle, chain) then [AllowanceRead(owner, handle.target)]
    else
      var approval := Approve(handle.target, units.value);
      [AllowanceRead(owner, handle.target), Submitted(approval)]
        + (if chain.approveSubmit.Ok? && chain.approveWait.Ok? then [Confirmed(approval)] else [])
  }

  /** The first error among the approval steps, case by case. */
  lemma ApprovalStepsFailure(amount: string, handle: SaleHandle, chain: Chain)
    ensures !handle.hasRunner ==> FirstFailure(ApprovalSteps(amount, handle, chain)) == Fail(ProviderNotFound)
    ensures handle.hasRunner && ParseUnits(amount, UsdtDecimals).None? ==>
      FirstFailure(ApprovalSteps(amount, handle, chain)) == Fail(chain.parseError)
    ensures handle.hasRunner && ParseUnits(amount, UsdtDecimals).Some? && chain.allowance.Fail? ==>
      FirstFailure(ApprovalSteps(amount, handle, chain)) == Fail(chain.allowance.error)
    ensures ApprovalNeeded(amount, handle, chain) && chain.approveSubmit.Fail? ==>
      FirstFailure(ApprovalSteps(amount, handle, chain)) == chain.approveSubmit
    ensures ApprovalNeeded(amount, handle, chain) && chain.approveSubmit.Ok? && chain.approveWait.Fail? ==>
      FirstFailure(ApprovalSteps(amount, handle, chain)) == chain.approveWait
    ensures FirstFailure(ApprovalSteps(amount, handle, chain)).Ok? <==>
      && handle.hasRunner
      && ParseUnits(amount, UsdtDecimals).Some?
      && chain.allowance.Ok?
      && (chain.allowance.value >= ParseUnits(amount, UsdtDecimals).value
          || (chain.approveSubmit.Ok? && chain.approveWait.Ok?))
  {
    var steps := ApprovalSteps(amount, handle, chain);
    assert steps == steps[..2] + steps[2..] && steps == steps[..3] + steps[3..];
    FirstFailureAppend(steps[..2], steps[2..]);
    if handle.hasRunner && ParseUnits(amount, UsdtDecimals).Some? && chain.allowance.Ok? {
      FirstFailureAfterOks(steps[..3], steps[3..]);
      FirstFailureOfTwo(chain.approveSubmit, chain.approveWait);
    }
  }

  /** The steps of `buyTokensWithUSDT` that can throw, in order: getting the
      contract, the parse, the approval step, sending the purchase and
      waiting for it. */
  function UsdtSteps(amount: string, chain: Chain): (steps: seq<Result<()>>)
  {
    match chain.contract
    case Fail(e) => [Fail(e)]
    case Ok(handle) =>
      [ParseStep(ParseUnits(amount, UsdtDecimals), chain.parseError)]
        + ApprovalSteps(amount, handle, chain)
        + [chain.buySubmit, chain.buyWait]
  }

  /** The first error among the purchase steps, case by case: the
      approval step's first error when it throws, else the purchase's own. */
  lemma UsdtStepsFailure(amount: string, chain: Chain)
    ensures chain.contract.Fail? ==> FirstFailure(UsdtSteps(amount, chain)) == Fail(chain.contract.error)
    ensures chain.contract.Ok? && ParseUnits(amount, UsdtDecimals).None? ==>
      FirstFailure(UsdtSteps(amount, chain)) == Fail(chain.parseError)
    ensures chain.contract.Ok? && ParseUnits(amount, UsdtDecimals).Some? ==>
      var approval := FirstFailure(ApprovalSteps(amount, chain.contract.value, chain));
      && (approval.Fail? ==> FirstFailure(UsdtSteps(amount, chain)) == approval)
      && (approval.Ok? && chain.buySubmit.Fail? ==> FirstFailure(UsdtSteps(amount, chain)) == chain.buySubmit)
      && (approval.Ok? && chain.buySubmit.Ok? && chain.buyWait.Fail? ==>
            FirstFailure(UsdtSteps(amount, chain)) == chain.buyWait)
  {
    if chain.contract.Ok? {
      var head := [ParseStep(ParseUnits(amount, UsdtDecimals), chain.parseError)];
      var approval := ApprovalSteps(amount, chain.contract.value, chain);
      FirstFailureAppend(head + approval, [chain.buySubmit, chain.buyWait]);
      FirstFailureAppend(head, approval);
      FirstFailureOfTwo(chain.buySubmit, chain.buyWait);
    }
  }

  /** `approveUSDT(amount, contract)`. Needs the handle's runner (throws
      "Provider not found" without one), scales the amount to 6 decimals,
      reads the allowance the owner granted the sale contract and, only if
      it is below the amount, approves exactly the amount and waits for the
      approval to be mined. Returns what it did and whether it threw. */
  method ApproveUsdt(amount: string, handle: SaleHandle, owner: Address, chain: Chain)
    returns (events: seq<Event>, r: Result<()>)
    ensures events == ApprovalTrace(owner, amount, handle, chain)
    ensures !handle.hasRunner ==> events == [] && r == Fail(ProviderNotFound)
    ensures handle.hasRunner && ParseUnits(amount, UsdtDecimals).None? ==>
      events == [] && r == Fail(chain.parseError)
    ensures handle.hasRunner && ParseUnits(amount, UsdtDecimals).Some? && chain.allowance.Fail? ==>
      events == [AllowanceRead(owner, handle.target)] && r == Fail(chain.allowance.error)
    ensures handle.hasRunner && ParseUnits(amount, UsdtDecimals).Some? && chain.allowance.Ok? ==>
      var path := ApprovalPath(owner, handle.target, ParseUnits(amount, UsdtDecimals).value, chain.allowance.value);
      events <= path && (r.Ok? <==> events == path)
    // An approval is submitted exactly when the allowance is below the amount.
    ensures (exists i :: 0 <= i < |events| && events[i].Submitted?) <==>
      && handle.hasRunner
      && ParseUnits(amount, UsdtDecimals).Some?
      && chain.allowance.Ok?
      && chain.allowance.value < ParseUnits(amount, UsdtDecimals).value
    ensures r.Ok? <==>
      && handle.hasRunner
      && ParseUnits(amount, UsdtDecimals).Some?
      && chain.allowance.Ok?
      && (chain.allowance.value >= ParseUnits(amount, UsdtDecimals).value
          || (chain.approveSubmit.Ok? && chain.approveWait.Ok?))
    ensures r.Ok? ==> AllConfirmed(events)
    // A refused or reverted approval throws that call's own error.
    ensures ApprovalNeeded(amount, handle, chain) && chain.approveSubmit.Fail? ==>
      r == Fail(chain.approveSubmit.error)
    ensures ApprovalNeeded(amount, handle, chain) && chain.approveSubmit.Ok? && chain.approveWait.Fail? ==>
      r == Fail(chain.approveWait.error)
  {
    events := [];
    if !handle.hasRunner {
      r := Fail(ProviderNotFound);
      return;
    }
    var units := ParseUnits(amount, UsdtDecimals);
    if units.None? {
      r := Fail(chain.parseError);
      return;
    }
    events := [AllowanceRead(owner, handle.target)];
    if chain.allowance.Fail? {
      r := Fail(chain.allowance.error);
      return;
    }

    if chain.allowance.value < units.value {
      var approval := Approve(handle.target, units.value);
      events := events + [Submitted(approval)];
      assert events[1].Submitted?;
      if chain.approveSubmit.Fail? {
        r := Fail(chain.approveSubmit.error);
        return;
      }
      if chain.approveWait.Fail? {
        r := Fail(chain.approveWait.error);
        return;
      }
      events := events + [Confirmed(approval)];
      assert events[1].Submitted?;
    }
    r := Ok(());
  }

  /** `t` is where a stable-coin purchase by `account` of `amount` can
      stop against these answers: nothing yet, the allowance read alone
      when it threw, or a prefix of the purchase path. */
  ghost predicate FollowsPurchasePath(account: Address, amount: string, chain: Chain, t: seq<Event>)
  {
    || t == []
    || (&& chain.contract.Ok?
        && ParseUnits(amount, UsdtDecimals).Some?
        && var target, units := chain.contract.value.target, ParseUnits(amount, UsdtDecimals).value;
           if chain.allowance.Ok? then t <= PurchasePath(account, target, units, chain.allowance.value)
           else t == [AllowanceRead(account, target)])
  }

  /** Exactly what `buyTokensWithUSDT` by `account` leaves in the trace
      against these answers: nothing when the contract or the amount
      cannot be read; the approval step's trace, ending there when that
      step throws; then the purchase's submission, followed by its
      confirmation only when it was sent and mined. */
  function UsdtTrace(account: Address, amount: string, chain: Chain): (t: seq<Event>)
  {
    match chain.contract
    case Fail(_) => []
    case Ok(handle) =>
      var units := ParseUnits(amount, UsdtDecimals);
      if units.None? then []
      else if !ApprovalSucceeds(amount, handle, chain) then ApprovalTrace(account, amount, handle, chain)
      else
        var purchase := BuyWithUsdt(units.value);
        ApprovalTrace(account, amount, handle, chain) + [Submitted(purchase)]
          + (if chain.buySubmit.Ok? && chain.buyWait.Ok? then [Confirmed(purchase)] else [])
  }

  /** Once the allowance is read, the approval step's trace is a prefix of
      its path, and the whole path when the step went through. */
  lemma ApprovalTraceOnPath(owner: Address, amount: string, handle: SaleHandle, chain: Chain)
    requires handle.hasRunner && ParseUnits(amount, UsdtDecimals).Some? && chain.allowance.Ok?
    ensures ApprovalTrace(owner, amount, handle, chain)
      <= ApprovalPath(owner, handle.target, ParseUnits(amount, UsdtDecimals).value, chain.allowance.value)
    ensures ApprovalSucceeds(amount, handle, chain) ==>
      ApprovalTrace(owner, amount, handle, chain)
      == ApprovalPath(owner, handle.target, ParseUnits(amount, UsdtDecimals).value, chain.allowance.value)
  {
  }

  /** The exact trace stays on the purchase path: wherever the flow
      stops, the trace follows it. */
  lemma UsdtTraceOnPath(account: Address, amount: string, chain: Chain)
    ensures FollowsPurchasePath(account, amount, chain, UsdtTrace(account, amount, chain))
  {
    var t := UsdtTrace(account, amount, chain);
    if chain.contract.Ok? && ParseUnits(amount, UsdtDecimals).Some? && chain.allowance.Ok? && chain.contract.value.hasRunner {
      var handle, units := chain.contract.value, ParseUnits(amount, UsdtDecimals).value;
      var approval := ApprovalPath(account, handle.target, units, chain.allowance.value);
      var purchase := BuyWithUsdt(units);
      var path := approval + [Submitted(purchase), Confirmed(purchase)];
      ApprovalTraceOnPath(account, amount, handle, chain);
      var a := ApprovalTrace(account, amount, handle, chain);
      if ApprovalSucceeds(amount, handle, chain) {
        if chain.buySubmit.Ok? && chain.buyWait.Ok? {
          assert t == path;
        } else {
          assert t == approval + [Submitted(purchase)] == path[..|approval| + 1];
        }
      } else {
        assert t == a == path[..|a|];
      }
    }
  }

  /** The exact trace is the whole purchase path exactly when no step
      threw. */
  lemma UsdtTraceWholePath(account: Address, amount: string, chain: Chain)
    ensures FirstFailure(UsdtSteps(amount, chain)).Ok? <==>
      && chain.contract.Ok? && ParseUnits(amount, UsdtDecimals).Some? && chain.allowance.Ok?
      && UsdtTrace(account, amount, chain)
         == PurchasePath(account, chain.contract.value.target, ParseUnits(amount, UsdtDecimals).value, chain.allowance.value)
  {
    UsdtStepsSucceed(amount, chain);
    var t := UsdtTrace(account, amount, chain);
    if chain.contract.Ok? && ParseUnits(amount, UsdtDecimals).Some? && chain.allowance.Ok? {
      var handle, units := chain.contract.value, ParseUnits(amount, UsdtDecimals).value;
      var path := PurchasePath(account, handle.target, units, chain.allowance.value);
      assert t == path ==> ApprovalSucceeds(amount, handle, chain) by {
        if !ApprovalSucceeds(amount, handle, chain) {
          assert |t| < |path|;
        }
      }
      assert t == path ==> chain.buySubmit.Ok? && chain.buyWait.Ok? by {
        if ApprovalSucceeds(amount, handle, chain) && !(chain.buySubmit.Ok? && chain.buyWait.Ok?) {
          assert |t| < |path|;
        }
      }
    }
  }

  /** The purchase steps all succeed exactly when the approval step does
      and the purchase is then sent and mined. */
  lemma UsdtStepsSucceed(amount: string, chain: Chain)
    ensures FirstFailure(UsdtSteps(amount, chain)).Ok? <==>
      && chain.contract.Ok? && ApprovalSucceeds(amount, chain.contract.value, chain)
      && chain.buySubmit.Ok? && chain.buyWait.Ok?
  {
    UsdtStepsFailure(amount, chain);
    if chain.contract.Ok? {
      ApprovalStepsFailure(amount, chain.contract.value, chain);
    }
  }

  /** The approval step's trace neither submits nor confirms a purchase. */
  lemma ApprovalTraceNoPurchase(owner: Address, amount: string, handle: SaleHandle, chain: Chain)
    ensures !SubmitsPurchase(ApprovalTrace(owner, amount, handle, chain))
    ensures !ConfirmsPurchase(ApprovalTrace(owner, amount, handle, chain))
  {
    var t := ApprovalTrace(owner, amount, handle, chain);
    forall i | 0 <= i < |t|
      ensures t[i].AllowanceRead? || t[i].tx.Approve?
    {
    }
  }

  /** The exact trace submits the purchase exactly when the approval step
      went through. */
  lemma UsdtTraceSubmits(account: Address, amount: string, chain: Chain)
    ensures SubmitsPurchase(UsdtTrace(account, amount, chain)) <==>
      chain.contract.Ok? && ApprovalSucceeds(amount, chain.contract.value, chain)
  {
    var t := UsdtTrace(account, amount, chain);
    if chain.contract.Ok? && ParseUnits(amount, UsdtDecimals).Some? {
      var a := ApprovalTrace(account, amount, chain.contract.value, chain);
      ApprovalTraceNoPurchase(account, amount, chain.contract.value, chain);
      if ApprovalSucceeds(amount, chain.contract.value, chain) {
        assert t[|a|] == Submitted(BuyWithUsdt(ParseUnits(amount, UsdtDecimals).value));
      } else {
        assert t == a;
      }
    }
  }

  /** A purchase that threw, at whatever step, never shows a purchase as
      confirmed: the purchase's confirmation is in the trace exactly when
      no step threw. */
  lemma UsdtTraceConfirmsOnlySuccess(account: Address, amount: string, chain: Chain)
    ensures ConfirmsPurchase(UsdtTrace(account, amount, chain)) <==> FirstFailure(UsdtSteps(amount, chain)).Ok?
  {
    UsdtStepsSucceed(amount, chain);
    var t := UsdtTrace(account, amount, chain);
    if chain.contract.Ok? && ParseUnits(amount, UsdtDecimals).Some? {
      var handle := chain.contract.value;
      var a := ApprovalTrace(account, amount, handle, chain);
      ApprovalTraceNoPurchase(account, amount, handle, chain);
      if ApprovalSucceeds(amount, handle, chain) {
        var purchase := BuyWithUsdt(ParseUnits(amount, UsdtDecimals).value);
        if chain.buySubmit.Ok? && chain.buyWait.Ok? {
          assert t[|t| - 1] == Confirmed(purchase);
        } else {
          assert t == a + [Submitted(purchase)];
          forall i | 0 <= i < |t|
            ensures !(t[i].Confirmed? && t[i].tx.IsPurchase())
          {
            if i < |a| {
              assert t[i] == a[i];
            }
          }
        }
      }
    }
  }

  /** Once the contract has a runner and the amount parses, the allowance
      is read; when it falls short, the approval of exactly the amount is
      submitted, whatever then happens to it. */
  lemma UsdtTraceApproves(account: Address, amount: string, chain: Chain)
    requires chain.contract.Ok? && chain.contract.value.hasRunner && ParseUnits(amount, UsdtDecimals).Some?
    ensures AllowanceRead(account, chain.contract.value.target) in UsdtTrace(account, amount, chain)
    ensures ApprovalNeeded(amount, chain.contract.value, chain) ==>
      Submitted(Approve(chain.contract.value.target, ParseUnits(amount, UsdtDecimals).value))
        in UsdtTrace(account, amount, chain)
  {
    var t := UsdtTrace(account, amount, chain);
    assert t[0] == AllowanceRead(account, chain.contract.value.target);
    if ApprovalNeeded(amount, chain.contract.value, chain) {
      assert t[1] == Submitted(Approve(chain.contract.value.target, ParseUnits(amount, UsdtDecimals).value));
    }
  }

  /** A trace that follows the purchase path keeps the approval order, and
      every purchase it submits is for the amount typed, in 6-decimal
      units. */
  lemma FollowsPurchasePathOrdered(account: Address, amount: string, chain: Chain, t: seq<Event>)
    requires FollowsPurchasePath(account, amount, chain, t)
    ensures ApprovalsSettleFirst(t) && ConfirmsFollowSubmits(t)
    ensures forall i :: 0 <= i < |t| && t[i].Submitted? && t[i].tx.IsPurchase() ==>
      ParseUnits(amount, UsdtDecimals).Some? && t[i].tx == BuyWithUsdt(ParseUnits(amount, UsdtDecimals).value)
  {
    if t != [] && chain.allowance.Ok? {
      var target, units := chain.contract.value.target, ParseUnits(amount, UsdtDecimals).value;
      var path := PurchasePath(account, target, units, chain.allowance.value);
      PurchasePathOrdered(account, target, units, chain.allowance.value, t);
      assert forall i :: 0 <= i < |t| ==> t[i] == path[i];
    }
  }

  /** The whole purchase path confirms everything it submits, the purchase
      last. */
  lemma PurchasePathSettled(owner: Address, spender: Address, units: nat, allowance: nat)
    ensures AllConfirmed(PurchasePath(owner, spender, units, allowance))
    ensures PurchasePath(owner, spender, units, allowance)[|PurchasePath(owner, spender, units, allowance)| - 1]
      == Confirmed(BuyWithUsdt(units))
  {
    var path := PurchasePath(owner, spender, units, allowance);
    forall i | 0 <= i < |path| && path[i].Submitted?
      ensures Confirmed(path[i].tx) in path
    {
      assert path[i + 1] == Confirmed(path[i].tx);
    }
  }

  /** The `try` block of `buyTokensWithUSDT(amount)` for a connected
      `account`: get the sale contract, scale the amount to 6 decimals, run
      the approval step, then submit the purchase of that amount and wait
      for it. Stops at the first step that throws. */
  method PurchaseSteps(account: Address, amount: string, chain: Chain)
    returns (events: seq<Event>, r: Result<()>)
    ensures chain.contract.Fail? ==> events == [] && r == Fail(chain.contract.error)
    ensures chain.contract.Ok? && ParseUnits(amount, UsdtDecimals).None? ==>
      events == [] && r == Fail(chain.parseError)
    ensures chain.contract.Ok? && !chain.contract.value.hasRunner ==> events == []
    ensures chain.contract.Ok? && !chain.contract.value.hasRunner && ParseUnits(amount, UsdtDecimals).Some? ==>
      r == Fail(ProviderNotFound)
    // Whatever happens, the trace is a prefix of the full purchase path:
    // nothing is submitted out of order, nothing for another amount.
    ensures FollowsPurchasePath(account, amount, chain, events)
    // The purchase is submitted exactly when the approval step succeeded.
    ensures SubmitsPurchase(events) <==>
      && chain.contract.Ok?
      && chain.contract.value.hasRunner
      && ParseUnits(amount, UsdtDecimals).Some?
      && chain.allowance.Ok?
      && (chain.allowance.value >= ParseUnits(amount, UsdtDecimals).value
          || (chain.approveSubmit.Ok? && chain.approveWait.Ok?))
    ensures r.Ok? <==> SubmitsPurchase(events) && chain.buySubmit.Ok? && chain.buyWait.Ok?
    // Success is the whole path.
    ensures r.Ok? ==>
      && chain.contract.Ok? && ParseUnits(amount, UsdtDecimals).Some? && chain.allowance.Ok?
      && events == PurchasePath(account, chain.contract.value.target,
                                ParseUnits(amount, UsdtDecimals).value, chain.allowance.value)
    // What it throws is the error of the first step that throws.
    ensures r == FirstFailure(UsdtSteps(amount, chain))
    // The trace is exactly the one the first failing step leaves.
    ensures events == UsdtTrace(account, amount, chain)
  {
    UsdtStepsFailure(amount, chain);
    if chain.contract.Fail? {
      events, r := [], Fail(chain.contract.error);
    } else {
      var contract := chain.contract.value;
      var units := ParseUnits(amount, UsdtDecimals);
      if units.None? {
        events, r := [], Fail(chain.parseError);
      } else {
        events, r := ApproveUsdt(amount, contract, account, chain);
        ApprovalStepsFailure(amount, contract, chain);
        if r.Ok? {
          var purchase := BuyWithUsdt(units.value);
          events := events + [Submitted(purchase)];
          if chain.buySubmit.Fail? {
            r := Fail(chain.buySubmit.error);
          } else if chain.buyWait.Fail? {
            r := Fail(chain.buyWait.error);
          } else {
            events := events + [Confirmed(purchase)];
            r := Ok(());
          }
        }
      }
    }
    UsdtStepsSucceed(amount, chain);
    UsdtTraceOnPath(account, amount, chain);
    UsdtTraceWholePath(account, amount, chain);
    UsdtTraceSubmits(account, amount, chain);
  }

  /** A purchase whose approval step went through but which reverted on
      the chain shows the user the contract's revert reason. */
  lemma PurchaseRevertShown(amount: string, chain: Chain, reason: string)
    requires chain.contract.Ok? && chain.contract.value.hasRunner
    requires ParseUnits(amount, UsdtDecimals).Some? && chain.allowance.Ok?
    requires chain.allowance.value >= ParseUnits(amount, UsdtDecimals).value
             || (chain.approveSubmit.Ok? && chain.approveWait.Ok?)
    requires chain.buySubmit.Ok? && chain.buyWait.Fail?
    requires LeftmostRevertReason(chain.buyWait.error.text, reason)
    ensures Settle(FirstFailure(UsdtSteps(amount, chain))) == Failed(reason)
  {
    UsdtStepsFailure(amount, chain);
    ApprovalStepsFailure(amount, chain.contract.value, chain);
    GetErrorMessageIsLeftmostReason(chain.buyWait.error.text, reason);
  }

  /** An approval that reverted shows the user the token contract's revert
      reason, and the purchase is never sent. */
  lemma ApprovalRevertShown(amount: string, chain: Chain, reason: string)
    requires chain.contract.Ok? && chain.contract.value.hasRunner
    requires ParseUnits(amount, UsdtDecimals).Some? && chain.allowance.Ok?
    requires chain.allowance.value < ParseUnits(amount, UsdtDecimals).value
    requires chain.approveSubmit.Ok? && chain.approveWait.Fail?
    requires LeftmostRevertReason(chain.approveWait.error.text, reason)
    ensures Settle(FirstFailure(UsdtSteps(amount, chain))) == Failed(reason)
  {
    UsdtStepsFailure(amount, chain);
    ApprovalStepsFailure(amount, chain.contract.value, chain);
    GetErrorMessageIsLeftmostReason(chain.approveWait.error.text, reason);
  }

  /** The state of the `useTokenPurchaseUSDT` hook. */
  class TokenPurchaseUSDT {
    var isLoading: bool

    constructor ()
      ensures !isLoading
    {
      isLoading := false;
    }

    /** `buyTokensWithUSDT(amount)`. Without a wallet or a connected account
        it only warns. Otherwise it sets the loading flag, runs the purchase
        steps, turns a thrown error into a message with `getErrorMessage`,
        and clears the flag whatever happened. A call made while the flag is
        still set is not refused. */
    method BuyTokensWithUsdt(account: Option<Address>, amount: string, chain: Chain)
      returns (events: seq<Event>, outcome: Outcome)
      modifies this
      ensures !(chain.present && HasAccount(account)) ==>
        events == [] && outcome == NotConnected && isLoading == old(isLoading)
      ensures chain.present && HasAccount(account) ==> !isLoading
      // Connected: the purchase runs as `PurchaseSteps` states, and the
      // user sees success exactly when no step threw, and otherwise the
      // message `getErrorMessage` makes of the first thrown error.
      ensures chain.present && HasAccount(account) ==>
        && FollowsPurchasePath(account.value, amount, chain, events)
        && (SubmitsPurchase(events) <==>
             && chain.contract.Ok?
             && chain.contract.value.hasRunner
             && ParseUnits(amount, UsdtDecimals).Some?
             && chain.allowance.Ok?
             && (chain.allowance.value >= ParseUnits(amount, UsdtDecimals).value
                 || (chain.approveSubmit.Ok? && chain.approveWait.Ok?)))
        && outcome == Settle(FirstFailure(UsdtSteps(amount, chain)))
        && events == UsdtTrace(account.value, amount, chain)
      ensures chain.present && account.Some? && account.value != "" ==> outcome != NotConnected
      // A purchase is shown as confirmed exactly when it succeeded.
      ensures ConfirmsPurchase(events) <==> outcome == Purchased
      ensures ApprovalsSettleFirst(events) && ConfirmsFollowSubmits(events)
      ensures forall i :: 0 <= i < |events| && events[i].Submitted? && events[i].tx.IsPurchase() ==>
        ParseUnits(amount, UsdtDecimals).Some?
        && events[i].tx == BuyWithUsdt(ParseUnits(amount, UsdtDecimals).value)
      ensures outcome == Purchased ==>
        && chain.contract.Ok? && ParseUnits(amount, UsdtDecimals).Some? && chain.allowance.Ok?
        && events == PurchasePath(account.value, chain.contract.value.target,
                                  ParseUnits(amount, UsdtDecimals).value, chain.allowance.value)
        && AllConfirmed(events)
    {
      if !chain.present || !HasAccount(account) {
        events, outcome := [], NotConnected;
        return;
      }
      isLoading := true;
      var r;
      events, r := PurchaseSteps(account.value, amount, chain);
      FollowsPurchasePathOrdered(account.value, amount, chain, events);
      UsdtTraceConfirmsOnlySuccess(account.value, amount, chain);
      if r.Ok? {
        PurchasePathSettled(account.value, chain.contract.value.target,
                            ParseUnits(amount, UsdtDecimals).value, chain.allowance.value);
      }
      outcome := Settle(r);
      isLoading := false;
    }
  }

  /** A purchase of "50" with no allowance granted yet: the allowance is
      read, 50 * 10^6 units are approved for the sale contract and confirmed,
      and only then is the purchase of 50 * 10^6 units submitted and
      confirmed. */
  method FiftyWithoutAllowance(account: Address, chain: Chain)
    returns (events: seq<Event>, r: Result<()>)
    requires chain.contract.Ok? && chain.contract.value.hasRunner && chain.allowance == Ok(0)
    requires chain.approveSubmit.Ok? && chain.approveWait.Ok? && chain.buySubmit.Ok? && chain.buyWait.Ok?
    ensures r.Ok?
    ensures
      var sale := chain.contract.value.target;
      events == [AllowanceRead(account, sale),
                 Submitted(Approve(sale, 50_000_000)), Confirmed(Approve(sale, 50_000_000)),
                 Submitted(BuyWithUsdt(50_000_000)), Confirmed(BuyWithUsdt(50_000_000))]
  {
    FiftyStableCoins();
    events, r := PurchaseSteps(account, "50", chain);
  }
}
