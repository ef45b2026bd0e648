/** The chain as the purchase flows see it: a trace of what the client did
    against it (allowance reads, transactions submitted, transactions
    confirmed), and the answers it gives. */
module Ledger {
  import opened Common
  import opened ErrorUtils

  /** The state-changing calls a purchase can submit. */
  datatype Tx =
    | Approve(spender: Address, amount: nat)   // stable-coin approve(spender, amount)
    | BuyWithUsdt(amount: nat)                 // sale buyTokensWithUSDT(amount)
    | BuyWithEth(value: nat)                   // sale buyTokensWithETH{value}
  {
    predicate IsPurchase()
    {
      BuyWithUsdt? || BuyWithEth?
    }
  }

  /** What the client did against the chain. `Submitted(tx)` records that
      the call sending `tx` was made, whether or not the wallet then signed
      and sent it; `Confirmed(tx)` that waiting for it to be mined returned. */
  datatype Event =
    | AllowanceRead(owner: Address, spender: Address)
    | Submitted(tx: Tx)
    | Confirmed(tx: Tx)

  /** The sale contract handle `getContract()` yields: its address, and
      whether it has a runner (the signer it sends through). */
  datatype SaleHandle = SaleHandle(target: Address, hasRunner: bool)

  /** The answers the wallet and the chain give during one purchase. */
  datatype Chain = Chain(
    present: bool,                 // an injected wallet exists
    contract: Result<SaleHandle>,  // getContract()
    parseError: Thrown,            // what the amount parser throws on bad input
    allowance: Result<nat>,        // stable-coin allowance(owner, spender)
    approveSubmit: Result<()>,     // the wallet signs and sends the approval
    approveWait: Result<()>,       // the approval is mined without revert
    buySubmit: Result<()>,         // the wallet signs and sends the purchase
    buyWait: Result<()>)           // the purchase is mined without revert

  /** Every transaction confirmed in the trace was submitted before. */
  ghost predicate ConfirmsFollowSubmits(t: seq<Event>)
  {
    forall j :: 0 <= j < |t| && t[j].Confirmed? ==>
      exists i :: 0 <= i < j && t[i] == Submitted(t[j].tx)
  }

  /** No purchase is submitted while an approval submitted before it is
      still unconfirmed: each approval is confirmed in between. */
  ghost predicate ApprovalsSettleFirst(t: seq<Event>)
  {
    forall i, j ::
      (0 <= i < j < |t| && t[i].Submitted? && t[i].tx.Approve? && t[j].Submitted? && t[j].tx.IsPurchase()) ==>
      exists k :: i < k < j && t[k] == Confirmed(t[i].tx)
  }

  /** The trace submits a purchase. */
  ghost predicate SubmitsPurchase(t: seq<Event>)
  {
    exists i :: 0 <= i < |t| && t[i].Submitted? && t[i].tx.IsPurchase()
  }

  /** The trace confirms a purchase. */
  ghost predicate ConfirmsPurchase(t: seq<Event>)
  {
    exists i :: 0 <= i < |t| && t[i].Confirmed? && t[i].tx.IsPurchase()
  }

  /** What `approveUSDT` throws when the sale handle has no runner. */
  const ProviderNotFound: Thrown := Thrown(None, "Error: Provider not found")

  /** Running steps in order until one throws: the first step's error, or
      success when none throws. */
  function FirstFailure(steps: seq<Result<()>>): (r: Result<()>)
    ensures r.Ok? <==> forall i :: 0 <= i < |steps| ==> steps[i].Ok?
    ensures r.Ok? ==> r == Ok(())
    ensures r.Fail? ==>
      exists i :: 0 <= i < |steps| && steps[i] == r && forall k :: 0 <= k < i ==> steps[k].Ok?
  {
    if steps == [] then Ok(())
    else if steps[0].Fail? then steps[0]
    else
      var rest := FirstFailure(steps[1..]);
      assert forall i :: 1 <= i < |steps| ==> steps[i] == steps[1..][i - 1];
      rest
  }

  /** Running two lists of steps one after the other. */
  lemma {:induction false} FirstFailureAppend(a: seq<Result<()>>, b: seq<Result<()>>)
    ensures FirstFailure(a + b) == if FirstFailure(a).Fail? then FirstFailure(a) else FirstFailure(b)
  {
    if a != [] {
      assert (a + b)[1..] == a[1..] + b;
      FirstFailureAppend(a[1..], b);
    } else {
      assert a + b == b;
    }
  }

  /** Steps that all succeed can be skipped. */
  lemma FirstFailureAfterOks(a: seq<Result<()>>, b: seq<Result<()>>)
    requires forall i :: 0 <= i < |a| ==> a[i].Ok?
    ensures FirstFailure(a + b) == FirstFailure(b)
  {
    FirstFailureAppend(a, b);
  }

  /** Two steps: the first one's error, else the second's result. */
  lemma FirstFailureOfTwo(x: Result<()>, y: Result<()>)
    ensures x.Fail? ==> FirstFailure([x, y]) == x
    ensures x.Ok? && y.Fail? ==> FirstFailure([x, y]) == y
  {
    assert [x, y][1..] == [y];
  }

  /** A step that only succeeds or throws, its value dropped. */
  function Done<T>(r: Result<T>): (s: Result<()>)
    ensures s.Ok? <==> r.Ok?
    ensures s.Fail? ==> s.error == r.error
  {
    match r
    case Ok(_) => Ok(())
    case Fail(e) => Fail(e)
  }

  /** Parsing an amount as a step: it throws `e` when the text is refused. */
  function ParseStep(units: Option<nat>, e: Thrown): (s: Result<()>)
    ensures s.Ok? <==> units.Some?
    ensures s.Fail? ==> s.error == e
  {
    if units.None? then Fail(e) else Ok(())
  }

  /** Every transaction the trace submits is also confirmed in it. */
  ghost predicate AllConfirmed(t: seq<Event>)
  {
    forall i :: 0 <= i < |t| && t[i].Submitted? ==> Confirmed(t[i].tx) in t
  }

  /** How a purchase attempt ended for the user. */
  datatype Outcome = NotConnected | Purchased | Failed(message: string)

  /** The end of the `try`/`catch` around a purchase: success, or the
      message `getErrorMessage` makes of the error. */
  function Settle(r: Result<()>): (o: Outcome)
    ensures o.Purchased? <==> r.Ok?
    ensures r.Fail? ==> o == Failed(GetErrorMessage(r.error.text)) && |o.message| > 0
  {
    if r.Ok? then Purchased else Failed(GetErrorMessage(r.error.text))
  }
}
