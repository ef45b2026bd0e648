# blockchain-buy-connector, modelled in Dafny

A model of the decision and state logic of a browser client for a token
sale on the Sepolia test network. The user connects an injected wallet
(MetaMask), gets a quote in either direction between a payment amount and
a token amount, and buys tokens with the native coin (ETH, 18 decimals) or
with the stable coin (USDT, 6 decimals). Stable-coin purchases first make
sure the sale contract may spend the amount.

Every external party is an oracle given as a parameter: the wallet
(`Web3Utils.Wallet`), the sale contract's views (`TokenCalculations.SaleReader`),
and the chain during a purchase (`Ledger.Chain`). Each oracle answers a
request with a value or with a thrown error. What the client does to them
is returned as a trace: the wallet requests it issued, the view calls it
made, or the ledger events of a purchase (allowance read, transaction
submitted, transaction confirmed). Amounts are whole numbers of minor units.

Files and modules:

- `common.dfy` (`Common`): `Option`, `Result` with a thrown error
  (`Thrown(code, text)`), JavaScript truthiness of an account.
- `error_utils.dfy` (`ErrorUtils`): `getErrorMessage`. The pattern
  `execution reverted: "([^"]+)"` is matched over `seq<char>`: the leftmost
  prefix occurrence followed by at least one non-quote character and then a
  closing quote.
- `units.dfy` (`Units`): decimal text and `parseUnits`/`parseEther` as exact
  scaling by 10^decimals, and the positive-amount guard of the quote engine.
- `web3_utils.dfy` (`Web3Utils`): the chain id check, the switch-or-add
  rule of EIP-3326 / EIP-3085, and `getProvider`, as pure functions that
  return the requests they issued with their result.
- `wallet_connection.dfy` (`WalletConnection`): the session with its three
  state cells, as a class.
- `token_calculations.dfy` (`TokenCalculations`): the two estimate cells
  and the two quote operations, as a class.
- `ledger.dfy` (`Ledger`): transactions, trace events, the chain oracle,
  ordering predicates on traces, and how a thrown error becomes the
  message shown to the user.
- `token_purchase_usdt.dfy`, `token_purchase_eth.dfy` (`TokenPurchaseUSDT`,
  `TokenPurchaseETH`): the purchase flows. The `try` body of each is a
  method that returns its trace and result; the hook's class wraps it with
  the connection guard and the `isLoading` flag.
- `token_purchase.dfy` (`TokenPurchase`): the facade whose loading flag is
  the OR of the two flows' flags.

## Model

| member | source | states |
|---|---|---|
| Common.HasAccount | src/hooks/useTokenPurchaseUSDT.ts:35 | the truthiness of `account`, both ways: a present, non-empty account passes the guard; null and the empty string do not |
| ErrorUtils.GetErrorMessage | src/utils/errorUtils.ts:1-6 | the message is never empty; without a revert reason it is exactly "Unknown error occurred"; with one it is the leftmost reason, holds no `"` and occurs in the error text |
| ErrorUtils.FindRevert | src/utils/errorUtils.ts:4 | the search finds a reason at the leftmost position where one starts, and reports none only when there is none anywhere after the start |
| ErrorUtils.RevertReasonUnique | src/utils/errorUtils.ts:4 | the leftmost revert reason of a text is unique, so the match is well defined |
| ErrorUtils.GetErrorMessageIsLeftmostReason | src/utils/errorUtils.ts:4-5 | whenever a text has a leftmost revert reason, that reason is the message |
| ErrorUtils.ProviderNotFoundIsUnknown | src/hooks/useTokenPurchaseUSDT.ts:15 | the missing-runner error carries no revert reason, so the user sees "Unknown error occurred" |
| Units.SplitDecimal | src/hooks/useTokenPurchaseUSDT.ts:23 | a text is read as a decimal only when it is one: the decimal read writes back to the same text |
| Units.SplitDecimalOfText | src/hooks/useTokenPurchaseUSDT.ts:23 | every well-formed decimal is read back from its own text (round trip) |
| Units.ParseUnits | src/hooks/useTokenPurchaseUSDT.ts:23 | parsing succeeds exactly for a plain decimal with at most `decimals` fraction digits |
| Units.ParseUnitsValue | src/hooks/useTokenPurchaseUSDT.ts:43 | a parsed amount is its digits with the point removed times 10^(decimals minus the fraction digits) |
| Units.ParseUnitsRescale | src/hooks/useTokenCalculations.ts:22-28 | the same text at a scale `extra` decimals finer is 10^extra times larger, so native and stable scalings differ by exactly 10^12 |
| Units.ParseUnitsOfInteger | src/hooks/useTokenPurchaseETH.ts:21 | a whole number typed as text parses to that number times 10^decimals |
| Units.IsPositiveAmount | src/hooks/useTokenCalculations.ts:13 | the guard `amount && !isNaN(Number(amount)) && Number(amount) > 0` on plain decimals: a passing amount is non-empty and holds only digits and a point, so no sign |
| Units.PositiveIffScaledPositive | src/hooks/useTokenCalculations.ts:13 | on every amount the parser accepts, the guard passes exactly when the scaled amount is positive |
| Units.FiftyStableCoins | src/hooks/useTokenPurchaseUSDT.ts:43 | "50" in stable-coin units is 50000000 |
| Units.OneEther | src/hooks/useTokenPurchaseETH.ts:21 | "1" in wei is 10^18 |
| Web3Utils.CheckNetwork | src/utils/web3Utils.ts:6-11 | no wallet gives false with no request; otherwise one chain-id query, and true exactly when the reply equals "0xaa36a7"; a failing query propagates its error |
| Web3Utils.SwitchToSepoliaNetwork | src/utils/web3Utils.ts:13-33 | the switch request comes first; the add-chain request is sent exactly when the switch fails with code 4902; at most one add and never a second switch; only a failing add reaches the caller, with its own error |
| Web3Utils.AddedChainIsRequiredChain | src/utils/web3Utils.ts:19-30 | the chain the add request describes is the chain the check requires |
| Web3Utils.GetProvider | src/utils/web3Utils.ts:35-40 | fails, with "MetaMask not found", exactly when no wallet is injected |
| WalletConnection.FirstAccount | src/hooks/useWalletConnection.ts:31-32 | `accounts[0]`: present exactly for a non-empty list, and then the first entry |
| WalletConnection.WalletSession.constructor | src/hooks/useWalletConnection.ts:5-7 | no account, not connecting, dialog closed |
| WalletConnection.WalletSession.Disconnect | src/hooks/useWalletConnection.ts:9-12 | the account is cleared; the other two cells are unchanged |
| WalletConnection.WalletSession.Connect | src/hooks/useWalletConnection.ts:14-42 | no wallet: no request, nothing changes; otherwise the requests are switch, then chain check, then accounts, each only if the previous went through; not connecting on every exit; wrong chain clears the account without asking for accounts; a thrown error keeps account and dialog; granted accounts connect the first and close the dialog |
| WalletConnection.WalletSession.HandleAccountsChanged | src/hooks/useWalletConnection.ts:44-52 | whatever list the event carries, the account is cleared and the dialog opened |
| WalletConnection.WalletSession.HandleChainChanged | src/hooks/useWalletConnection.ts:54-62 | the account is cleared and the dialog opened |
| WalletConnection.WalletSession.SetShowReconnectDialog | src/hooks/useWalletConnection.ts:7 | sets the dialog cell and nothing else |
| WalletConnection.ReconnectAfterChainChange | src/contexts/Web3Context.tsx:76-90 | after a chain change, the dialog's reconnect, once the switch (or the add after code 4902) went through, on the right chain with granted accounts, connects the first account and closes the dialog |
| TokenCalculations.TokensFor | src/hooks/useTokenCalculations.ts:22-28 | the native coin selects the token-for-ETH view and the stable coin the token-for-USDT view |
| TokenCalculations.PaymentFor | src/hooks/useTokenCalculations.ts:54-61 | the native coin selects the ETH-for-token view and the stable coin the USDT-for-token view |
| TokenCalculations.TokenCalculator.constructor | src/hooks/useTokenCalculations.ts:8-9 | both estimates start as '0' |
| TokenCalculations.TokenCalculator.CalculateTokenAmount | src/hooks/useTokenCalculations.ts:12-42 | invalid or non-positive input: '0', no call, other cell unchanged; at most one call, made exactly when the contract and the parse succeed, to the currency's view with the amount scaled to its decimals; a quote is kept at 18 decimals and clears the other cell to ''; any failure gives '0' and leaves the other cell; at most one cell holds a quote |
| TokenCalculations.TokenCalculator.CalculatePaymentAmount | src/hooks/useTokenCalculations.ts:44-74 | the same, with the token amount always scaled to 18 decimals and the quote kept at the currency's decimals |
| TokenCalculations.OneEtherQuotable | src/hooks/useTokenCalculations.ts:13-23 | "1" passes the quote guard and scales to 10^18 wei |
| TokenCalculations.QuoteOneEther | src/hooks/useTokenCalculations.ts:22-32 | quoting "1" ETH makes exactly one view call, `getAmountOfTokenForETH` with 10^18 wei, and shows its answer as tokens at 18 decimals |
| Ledger.FirstFailure | src/hooks/useTokenPurchaseUSDT.ts:40-55 | awaited steps inside one `try`: the result is success exactly when every step succeeds, and otherwise the error of a failing step all of whose predecessors succeeded |
| Ledger.FirstFailureAppend | src/hooks/useTokenPurchaseUSDT.ts:46 | running the approval's steps inside the purchase's: the first failure of the whole is that of the first part, else that of the second |
| Ledger.Settle | src/hooks/useTokenPurchaseUSDT.ts:53-55 | success exactly when nothing was thrown; otherwise the message is `getErrorMessage` of the error and is never empty |
| TokenPurchaseUSDT.ApproveUsdt | src/hooks/useTokenPurchaseUSDT.ts:13-32 | no runner: "Provider not found" before any request; a refused parse throws the parser's error; a failed allowance read throws its error after the read; the trace is a prefix of the approval path; an approval is submitted exactly when the allowance is below the amount in 6-decimal units, for exactly that amount, to the sale contract; a refused or reverted approval throws that call's own error; success means every approval was confirmed; the trace is exactly `ApprovalTrace`: the approval's confirmation appears only when it was sent and mined |
| TokenPurchaseUSDT.ApprovalStepsFailure | src/hooks/useTokenPurchaseUSDT.ts:13-32 | the first error of the approval steps, case by case (runner, parse, allowance, sending, mining), and success exactly when the allowance suffices or the approval is sent and mined |
| TokenPurchaseUSDT.UsdtStepsFailure | src/hooks/useTokenPurchaseUSDT.ts:40-52 | the first error of the purchase steps: the contract's, the parser's, the approval step's first error, then the purchase's sending or mining error |
| TokenPurchaseUSDT.UsdtStepsSucceed | src/hooks/useTokenPurchaseUSDT.ts:40-52 | no purchase step throws exactly when the approval step goes through and the purchase is sent and mined |
| TokenPurchaseUSDT.ApprovalTraceNoPurchase | src/hooks/useTokenPurchaseUSDT.ts:13-32 | the approval step's exact trace neither submits nor confirms a purchase |
| TokenPurchaseUSDT.ApprovalTraceOnPath | src/hooks/useTokenPurchaseUSDT.ts:24-31 | once the allowance is read, the approval step's exact trace is a prefix of its path, and the whole path when the step goes through |
| TokenPurchaseUSDT.UsdtTraceOnPath | src/hooks/useTokenPurchaseUSDT.ts:40-50 | the purchase's exact trace follows the purchase path wherever the flow stops |
| TokenPurchaseUSDT.UsdtTraceWholePath | src/hooks/useTokenPurchaseUSDT.ts:40-52 | the exact trace is the whole purchase path exactly when no step threw |
| TokenPurchaseUSDT.UsdtTraceSubmits | src/hooks/useTokenPurchaseUSDT.ts:46-49 | the exact trace submits the purchase exactly when the approval step went through |
| TokenPurchaseUSDT.UsdtTraceConfirmsOnlySuccess | src/hooks/useTokenPurchaseUSDT.ts:49-53 | a purchase is confirmed in the exact trace exactly when no step threw: a refused or reverted purchase is never recorded as confirmed |
| TokenPurchaseUSDT.UsdtTraceApproves | src/hooks/useTokenPurchaseUSDT.ts:24-28 | with a runner and a parsed amount the allowance read is in the trace, and an approval of exactly the amount whenever the allowance falls short |
| TokenPurchaseUSDT.ApprovalSubmitsNoPurchase | src/hooks/useTokenPurchaseUSDT.ts:13-32 | the approval step never submits a purchase |
| TokenPurchaseUSDT.PurchasePathOrdered | src/hooks/useTokenPurchaseUSDT.ts:26-50 | wherever a purchase stops, each approval was confirmed before the purchase was submitted, and each confirmation follows its submission |
| TokenPurchaseUSDT.NoPurchaseAfterFailedApproval | src/hooks/useTokenPurchaseUSDT.ts:28-49 | an approval submitted and never confirmed means no purchase was submitted |
| TokenPurchaseUSDT.FollowsPurchasePathOrdered | src/hooks/useTokenPurchaseUSDT.ts:40-52 | every trace the flow can leave keeps the approval order, and every purchase in it is for the typed amount in 6-decimal units |
| TokenPurchaseUSDT.PurchasePathSettled | src/hooks/useTokenPurchaseUSDT.ts:46-50 | the full path confirms every transaction it submits, ending with the purchase's confirmation |
| TokenPurchaseUSDT.PurchaseSteps | src/hooks/useTokenPurchaseUSDT.ts:40-52 | contract or parse failure: nothing submitted, and that step's error; no runner: "Provider not found"; the trace is exactly `UsdtTrace`, the prefix of the purchase path the first throwing step leaves; the purchase is submitted exactly when the approval step succeeded; success exactly when it was also sent and mined, and then the trace is the whole path; what it throws is the first error among the steps in source order |
| TokenPurchaseUSDT.PurchaseRevertShown | src/hooks/useTokenPurchaseUSDT.ts:49-55 | a purchase that reverts after a successful approval step shows the user the contract's revert reason |
| TokenPurchaseUSDT.ApprovalRevertShown | src/hooks/useTokenPurchaseUSDT.ts:28-55 | an approval that reverts shows the user the token contract's revert reason |
| TokenPurchaseUSDT.TokenPurchaseUSDT.constructor | src/hooks/useTokenPurchaseUSDT.ts:10 | not loading |
| TokenPurchaseUSDT.TokenPurchaseUSDT.BuyTokensWithUsdt | src/hooks/useTokenPurchaseUSDT.ts:34-59 | no wallet or account: nothing submitted and the flag untouched; a wallet and a non-empty account always get past the guard; then not loading at the end whatever happened, whatever the flag was before; the trace is exactly `UsdtTrace`; the purchase is submitted exactly when the approval step succeeds; approvals settle first; purchases are for the typed amount; the outcome is success exactly when no step threw, else `getErrorMessage` of the first thrown error; a purchase is confirmed in the trace exactly when the outcome is success, and success is the whole path |
| TokenPurchaseUSDT.FiftyWithoutAllowance | src/hooks/useTokenPurchaseUSDT.ts:43-50 | buying "50" with no allowance reads it, approves and confirms 50000000 units, then submits and confirms the purchase of 50000000 |
| TokenPurchaseETH.EthPurchasePathOrdered | src/hooks/useTokenPurchaseETH.ts:23-24 | wherever the flow stops, at most the one payable call was submitted, first, and nothing unsubmitted was confirmed |
| TokenPurchaseETH.EthStepsFailure | src/hooks/useTokenPurchaseETH.ts:18-29 | the first error of the native-coin steps, case by case: contract, parse, sending, mining |
| TokenPurchaseETH.EthTraceSettles | src/hooks/useTokenPurchaseETH.ts:18-29 | the exact trace is a prefix of the path; when a step threw it holds at most the submission; it confirms the purchase exactly when no step threw, and is then the whole path |
| TokenPurchaseETH.EthPurchaseSteps | src/hooks/useTokenPurchaseETH.ts:18-24 | contract or parse failure: nothing submitted, and that step's error; otherwise exactly one payable call with value the amount in wei; a refused or reverted call throws its own error; the trace is exactly `EthTrace`, so the call is confirmed only when it was sent and mined; success exactly then |
| TokenPurchaseETH.EthRevertShown | src/hooks/useTokenPurchaseETH.ts:23-29 | a purchase that reverts shows the user the contract's revert reason |
| TokenPurchaseETH.TokenPurchaseETH.constructor | src/hooks/useTokenPurchaseETH.ts:9 | not loading |
| TokenPurchaseETH.TokenPurchaseETH.BuyTokensWithEth | src/hooks/useTokenPurchaseETH.ts:12-33 | no wallet or account: nothing submitted and the flag untouched; a wallet and a non-empty account always get past the guard; then not loading at the end; the trace is exactly `EthTrace`, the one payable call for the amount in wei once contract and amount are read; the outcome is success exactly when no step threw, else `getErrorMessage` of the first thrown error; the purchase is confirmed in the trace exactly when the outcome is success |
| TokenPurchaseETH.BuyOneEther | src/hooks/useTokenPurchaseETH.ts:21-23 | buying "1" sends 10^18 wei and confirms it |
| TokenPurchase.TokenPurchase.constructor | src/hooks/useTokenPurchase.ts:7-18 | not loading, and both estimates '0' |
| TokenPurchase.TokenPurchase.BuyTokensWithEth | src/hooks/useTokenPurchase.ts:18 | after a connected native-coin purchase the facade is loading exactly when the stable-coin flow is |
| TokenPurchase.TokenPurchase.BuyTokensWithUsdt | src/hooks/useTokenPurchase.ts:18 | after a connected stable-coin purchase the facade is loading exactly when the native-coin flow is |
| TokenPurchase.PurchaseBoth | src/hooks/useTokenPurchase.ts:18 | a purchase in each currency, one after the other, leaves the facade not loading |

## Left out

- Asynchronous interleaving: each operation runs to completion before the next starts, so wallet events arriving during `connect`, or a second purchase started while one is awaiting, are not modelled.
- Toasts and console logging: they have no effect on state. Only the message text of a failed purchase is kept.
- Units.IsPositiveAmount: replaces the JavaScript guard `!amount || isNaN(Number(amount)) || Number(amount) <= 0` for plain decimal text only. Exponents, hexadecimal, surrounding whitespace, `Infinity` and a sign are not read as numbers, and a positive amount that rounds to zero in floating point is still positive.
- Units.ParseUnits: the ethers parser is not part of this model. It is taken to accept exactly the plain decimals with at most `decimals` fraction digits. Signed amounts are refused here. Extra fraction digits that are all zeros are refused here too, where ethers accepts them: "1.0000000" at 6 decimals quotes and buys 1000000 units in the program, but shows '0' or fails in the model.
- Estimates: `Number(x) / 10**d` and `toString()` are floating point. A quote is kept as the exact pair (units, decimals).
- A round-trip law between the two quote directions is not stated: it depends on the sale contract's pricing, which is not part of this model.
- `useContract` is not part of this model: `getContract()` is the `contract` field of the oracles, and a handle's runner is a flag.
- `useTokenPrice`, `Index.tsx`, `ICOStatus.tsx` and the context's event wiring are not modelled: they fetch or display values without decisions of their own.
- The native-coin flow does not check the handle's runner itself. A purchase sent without one fails inside the contract call, which the model counts as a failed submission.
- `connect` does not retry the switch after adding the chain, and a refused switch with another code is swallowed. The chain check then decides, and a wrong chain disconnects (with the "Disconnected" toast) without reporting an error. The model follows this code.
- Any `accountsChanged` event, with a non-empty list too, disconnects and opens the dialog, as the code does.
- `accounts[0]` of an empty list is `undefined`, modelled as no account.
