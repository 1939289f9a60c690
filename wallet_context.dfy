/**
 * The wallet session (src/contexts/WalletContext.tsx): the connected account,
 * its displayed balance and the connecting flag, changed by connecting,
 * disconnecting, the start-up check and the provider's `accountsChanged`
 * event (EIP-1193). Provider replies are parameters of the methods.
 */
module WalletContext {
  import opened Wrappers
  import opened HexQuantity

  /**
   * The displayed balance: the literal "0" the session starts with and resets
   * to, `ether.toFixed(4)` of a converted reply (the text itself is not
   * modelled), or "NaN" when no hex digit follows the optional "0x" prefix
   * (so "0x" and "0xz1" both give "NaN").
   */
  datatype Balance = Reset | Fixed4(ether: real) | NotANumber

  /** A provider `request`: resolved with a value, or rejected (the `catch` branch). */
  datatype Reply<T> = Returned(value: T) | Threw

  /** The balance shown for an `eth_getBalance` reply: hex string to wei to ether. */
  function BalanceFromHex(balanceHex: string): (b: Balance)
    ensures b.NotANumber? <==> ParseIntHex(balanceHex).None?
    ensures b.Fixed4? ==> b.ether * WeiPerEther as real == ParseIntHex(balanceHex).value as real
    ensures ParseIntHex(balanceHex).Some? ==> b == Fixed4(WeiToEther(ParseIntHex(balanceHex).value))
  {
    match ParseIntHex(balanceHex)
    case None => NotANumber
    case Some(wei) => Fixed4(WeiToEther(wei))
  }

  /** A well-formed reply carrying `wei` shows exactly `wei / 10^18` ether. */
  lemma BalanceOfQuantity(wei: nat)
    ensures BalanceFromHex(ToQuantity(wei)) == Fixed4(WeiToEther(wei))
  {
    ParseQuantityRoundTrip(wei);
  }

  /** `!!account`: a missing account and the empty string both read as disconnected. */
  function IsConnectedAccount(account: Option<string>): (connected: bool)
    ensures connected ==> account.Some?
    ensures account.Some? && account.value != "" ==> connected
    ensures account == Some("") ==> !connected
  {
    account.Some? && account.value != ""
  }

  class Wallet {
    var account: Option<string>
    var balance: Balance
    var isConnecting: bool

    constructor ()
      ensures account == None && balance == Reset && !isConnecting
    {
      account := None;
      balance := Reset;
      isConnecting := false;
    }

    /** The `isConnected` the context exposes. */
    function IsConnected(): bool
      reads this
    {
      IsConnectedAccount(account)
    }

    /**
     * What the connect and start-up paths do with the accounts a provider
     * returned: adopt the first one and then show its balance; with no account
     * nothing changes, and a failed balance request keeps the old balance.
     */
    method AdoptAccounts(accounts: seq<string>, balanceReply: Reply<string>)
      modifies this`account, this`balance
      ensures |accounts| == 0 ==> account == old(account) && balance == old(balance)
      ensures |accounts| > 0 ==> account == Some(accounts[0])
      ensures |accounts| > 0 ==>
                balance == if balanceReply.Threw? then old(balance) else BalanceFromHex(balanceReply.value)
    {
      if |accounts| > 0 {
        account := Some(accounts[0]);
        match balanceReply {
          case Threw =>
          case Returned(balanceHex) =>
            balance := BalanceFromHex(balanceHex);
        }
      }
    }

    /**
     * `connectWallet`. Without a provider nothing changes at all; otherwise the
     * `eth_requestAccounts` reply is adopted and `isConnecting` is false again
     * when the call finishes, whatever happened.
     */
    method ConnectWallet(hasProvider: bool, accountsReply: Reply<seq<string>>, balanceReply: Reply<string>)
      modifies this
      ensures !hasProvider ==> unchanged(this)
      ensures hasProvider ==> !isConnecting
      ensures hasProvider && accountsReply.Returned? && |accountsReply.value| > 0 ==>
                account == Some(accountsReply.value[0]) &&
                balance == if balanceReply.Threw? then old(balance) else BalanceFromHex(balanceReply.value)
      ensures accountsReply.Threw? || |accountsReply.value| == 0 ==>
                account == old(account) && balance == old(balance)
    {
      if !hasProvider {
        return;
      }
      isConnecting := true;
      match accountsReply {
        case Threw =>
        case Returned(accounts) =>
          AdoptAccounts(accounts, balanceReply);
      }
      isConnecting := false;
    }

    /** `checkConnection` at start-up: like connecting, but with `eth_accounts` and without the connecting flag. */
    method CheckConnection(hasProvider: bool, accountsReply: Reply<seq<string>>, balanceReply: Reply<string>)
      modifies this`account, this`balance
      ensures hasProvider && accountsReply.Returned? && |accountsReply.value| > 0 ==>
                account == Some(accountsReply.value[0]) &&
                balance == if balanceReply.Threw? then old(balance) else BalanceFromHex(balanceReply.value)
      ensures !hasProvider || accountsReply.Threw? || |accountsReply.value| == 0 ==>
                account == old(account) && balance == old(balance)
    {
      if hasProvider && accountsReply.Returned? {
        AdoptAccounts(accountsReply.value, balanceReply);
      }
    }

    /** `disconnectWallet`: forget the account and reset the balance, nothing else. */
    method DisconnectWallet()
      modifies this`account, this`balance
      ensures account == None && balance == Reset && !IsConnected()
    {
      account := None;
      balance := Reset;
    }

    /**
     * The `accountsChanged` listener: an empty list disconnects and resets the
     * balance; otherwise the first account becomes current and the balance is
     * left as it was (it is not re-read).
     */
    method OnAccountsChanged(accounts: seq<string>)
      modifies this`account, this`balance
      ensures |accounts| == 0 ==> account == None && balance == Reset && !IsConnected()
      ensures |accounts| > 0 ==> account == Some(accounts[0]) && balance == old(balance)
      ensures |accounts| > 0 ==> (IsConnected() <==> accounts[0] != "")
    {
      if |accounts| > 0 {
        account := Some(accounts[0]);
      } else {
        account := None;
        balance := Reset;
      }
    }
  }
}
