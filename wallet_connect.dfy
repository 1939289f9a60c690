/**
 * The wallet button of the navigation bar (src/components/WalletConnect.tsx):
 * the shortened address and which of its two views shows.
 */
module WalletConnect {
  import opened Wrappers
  import opened WalletContext

  function Min(a: int, b: int): int {
    if a <= b then a else b
  }

  /** A `slice` bound: negative counts from the end, and the result is clamped to the string. */
  function SliceBound(len: nat, i: int): (b: nat)
    ensures b <= len
  {
    if i < 0 then (if len + i < 0 then 0 else len + i) else Min(i, len)
  }

  /** JavaScript's `s.slice(start, end)`. */
  function JsSlice(s: string, start: int, end: int): (r: string)
    ensures |r| <= |s|
    ensures 0 <= start <= end <= |s| ==> r == s[start..end]
    ensures -|s| <= start < 0 && end == |s| ==> r == s[|s| + start..]
  {
    var from, to := SliceBound(|s|, start), SliceBound(|s|, end);
    if from >= to then "" else s[from..to]
  }

  /** `shortenAddress`: the first six characters, an ellipsis, and the last four, each cut with `slice`. */
  function ShortenAddress(address: string): (r: string)
    ensures |r| == Min(6, |address|) + 3 + Min(4, |address|)
    ensures r[..Min(6, |address|)] == address[..Min(6, |address|)]
    ensures r[Min(6, |address|)..Min(6, |address|) + 3] == "..."
    ensures r[|r| - Min(4, |address|)..] == address[|address| - Min(4, |address|)..]
  {
    JsSlice(address, 0, 6) + "..." + JsSlice(address, -4, |address|)
  }

  /** A 42-character address ("0x" and 40 hex digits) shortens to 13 characters, keeping its first 6 and last 4. */
  lemma ShortenStandardAddress(address: string)
    requires |address| == 42
    ensures |ShortenAddress(address)| == 13
    ensures ShortenAddress(address) == address[..6] + "..." + address[38..]
  {
  }

  /** The text under the button: `shortenAddress(account || '')`; a missing account gives "...". */
  function DisplayedAddress(account: Option<string>): (r: string)
    ensures account.None? ==> r == "..."
  {
    ShortenAddress(account.GetOr(""))
  }

  /** The caption inside the connect button. */
  datatype ConnectLabel = Connecting | ConnectWallet

  /** What the component shows: the account with its balance and a Disconnect button, or the connect button. */
  datatype WalletView =
    | AccountView(address: string, balance: Balance)
    | ConnectButton(disabled: bool, caption: ConnectLabel)

  /** The component's render for the wallet context's values. */
  function View(account: Option<string>, balance: Balance, isConnecting: bool): (v: WalletView)
    ensures v.AccountView? <==> IsConnectedAccount(account)
    ensures v.ConnectButton? ==> (v.disabled <==> isConnecting)
  {
    if IsConnectedAccount(account) then AccountView(DisplayedAddress(account), balance)
    else ConnectButton(isConnecting, if isConnecting then Connecting else ConnectWallet)
  }

  /**
   * The account view shows exactly when connected, with the shortened account;
   * otherwise the connect button is disabled and reads "Connecting..." exactly
   * while connecting.
   */
  lemma ViewSelection(account: Option<string>, balance: Balance, isConnecting: bool)
    ensures View(account, balance, isConnecting).AccountView? <==> IsConnectedAccount(account)
    ensures IsConnectedAccount(account) ==>
              View(account, balance, isConnecting) == AccountView(ShortenAddress(account.value), balance)
    ensures !IsConnectedAccount(account) ==>
              (View(account, balance, isConnecting).disabled <==> isConnecting) &&
              (View(account, balance, isConnecting).caption == Connecting <==> isConnecting)
  {
  }
}
