/** The wallet session: the connected account, whether a connect is in
    progress, and whether the "reconnect" dialog is open, changed by
    `connect`, `disconnect` and the handlers of the wallet's
    `accountsChanged` and `chainChanged` events. */
module WalletConnection {
  import opened Common
  import opened Web3Utils

  /** `accounts[0]`: the first account, or nothing (`undefined`) for an
      empty list. */
  function FirstAccount(accounts: seq<Address>): (r: Option<Address>)
    ensures r.Some? <==> |accounts| > 0
    ensures r.Some? ==> r.value == accounts[0]
  {
    if |accounts| > 0 then Some(accounts[0]) else None
  }

  class WalletSession {
    var account: Option<Address>
    var isConnecting: bool
    var showReconnectDialog: bool

    /** Between operations no connect is in progress, and the reconnect
        dialog is only ever open while no account is connected. */
    predicate Settled()
      reads this
    {
      !isConnecting && (showReconnectDialog ==> account == None)
    }

    constructor ()
      ensures account == None && !isConnecting && !showReconnectDialog
      ensures Settled()
    {
      account := None;
      isConnecting := false;
      showReconnectDialog := false;
    }

    /** `disconnect`: forgets the account locally; nothing is sent to the
        wallet and the other two cells are left alone. */
    method Disconnect()
      modifies this
      ensures account == None
      ensures isConnecting == old(isConnecting) && showReconnectDialog == old(showReconnectDialog)
      ensures old(Settled()) ==> Settled()
    {
      account := None;
    }

    /** `connect`. Without a wallet it returns at once. Otherwise it marks a
        connect in progress, switches to Sepolia, checks the chain (a wrong
        chain disconnects and stops), requests the accounts and takes the
        first. Anything thrown on the way is caught, and in every case the
        in-progress mark is cleared at the end. */
    method Connect(w: Wallet) returns (issued: seq<WalletRequest>)
      modifies this
      // No wallet: no request, and not one state cell changes.
      ensures !w.present ==>
        && issued == []
        && account == old(account)
        && isConnecting == old(isConnecting)
        && showReconnectDialog == old(showReconnectDialog)
      // Every exit past that guard clears the in-progress mark.
      ensures w.present ==> !isConnecting
      // The requests: the switch first, then the chain check, then the
      // accounts, each only if everything before it went through.
      ensures w.present ==>
        var switched := SwitchToSepoliaNetwork(w);
        var checked := CheckNetwork(w);
        issued == switched.issued
          + (if switched.result.Fail? then [] else checked.issued)
          + (if switched.result.Ok? && checked.result == Ok(true) then [RequestAccounts] else [])
      // The switch failed (the wallet would not add the chain): the error is
      // caught and neither the account nor the dialog changes.
      ensures w.present && SwitchToSepoliaNetwork(w).result.Fail? ==>
        account == old(account) && showReconnectDialog == old(showReconnectDialog)
      // The chain query threw: likewise.
      ensures w.present && SwitchToSepoliaNetwork(w).result.Ok? && CheckNetwork(w).result.Fail? ==>
        account == old(account) && showReconnectDialog == old(showReconnectDialog)
      // Wrong chain: disconnected, no accounts requested, dialog untouched.
      ensures w.present && SwitchToSepoliaNetwork(w).result.Ok? && CheckNetwork(w).result == Ok(false) ==>
        account == None && showReconnectDialog == old(showReconnectDialog) && RequestAccounts !in issued
      // Accounts requested and refused: the previous account stays.
      ensures RequestAccounts in issued && w.accountsReply.Fail? ==>
        account == old(account) && showReconnectDialog == old(showReconnectDialog)
      // Accounts granted: the first one is connected and the dialog closes.
      ensures RequestAccounts in issued && w.accountsReply.Ok? ==>
        account == FirstAccount(w.accountsReply.value) && !showReconnectDialog
      ensures old(Settled()) ==> Settled()
    {
      issued := [];
      if !w.present {
        return;
      }
      isConnecting := true;
      var switched := SwitchToSepoliaNetwork(w);
      issued := switched.issued;
      if switched.result.Ok? {
        var checked := CheckNetwork(w);
        issued := issued + checked.issued;
        if checked.result == Ok(false) {
          Disconnect();
        } else if checked.result == Ok(true) {
          // getProvider() cannot throw here: the wallet was found above.
          var provider := GetProvider(w.present);
          assert provider.Ok?;
          issued := issued + [RequestAccounts];
          match w.accountsReply
          case Ok(accounts) =>
            account := FirstAccount(accounts);
            showReconnectDialog := false;
          case Fail(_) =>
        }
      }
      isConnecting := false;
    }

    /** The wallet's `accountsChanged` event, whatever list it carries (a
        non-empty one included): the account is dropped and the user is
        asked to reconnect. */
    method HandleAccountsChanged(accounts: seq<Address>)
      modifies this
      ensures account == None && showReconnectDialog
      ensures isConnecting == old(isConnecting)
      ensures old(Settled()) ==> Settled()
    {
      Disconnect();
      showReconnectDialog := true;
    }

    /** The wallet's `chainChanged` event: the account is dropped and the
        user is asked to reconnect. */
    method HandleChainChanged()
      modifies this
      ensures account == None && showReconnectDialog
      ensures isConnecting == old(isConnecting)
      ensures old(Settled()) ==> Settled()
    {
      Disconnect();
      showReconnectDialog := true;
    }

    /** `setShowReconnectDialog`, the setter handed to the dialog, which
        calls it to close itself. */
    method SetShowReconnectDialog(open: bool)
      modifies this
      ensures showReconnectDialog == open
      ensures account == old(account) && isConnecting == old(isConnecting)
      ensures old(Settled()) && (open ==> account == None) ==> Settled()
    {
      showReconnectDialog := open;
    }
  }

  /** The reconnect dialog's button calls `connect`: when the wallet grants
      accounts on the right chain the session is connected and the dialog
      closed, whatever the event that opened it. */
  method ReconnectAfterChainChange(session: WalletSession, w: Wallet, accounts: seq<Address>)
    requires w.present && SwitchToSepoliaNetwork(w).result.Ok?
    requires w.chainIdReply == Ok(RequiredChainId) && w.accountsReply == Ok(accounts) && |accounts| > 0
    modifies session
    ensures session.account == Some(accounts[0]) && !session.showReconnectDialog && !session.isConnecting
  {
    session.HandleChainChanged();
    assert session.showReconnectDialog;
    var issued := session.Connect(w);
  }
}
