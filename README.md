# Ether-loan lending front end: a Dafny model

This project models the logic inside the demo lending front end: the health
factor and its colour buckets, the validators of the deposit and borrow
dialogs, the wallet session and its balance conversion, the shortened address
of the wallet button, and the market and dashboard totals. Amounts, prices and
rates are exact `real`s. Inputs are taken as already parsed. The provider's
replies, the wallet's connection state and each transaction's outcome are
method parameters.

Modules, one per source file plus shared pieces:

- `EthereumUtils` (`src/utils/ethereumUtils.ts`): the token table and mock positions, `tokens.find`,
  `calculateHealthFactor` returning `Finite(x) | Inf`, `getHealthFactorColor` as four `Color`s, and `formatHealthFactor`.
- `ModalForm`: the numeric input (`Empty | Number(x)`), the transaction outcome, the submit result
  and the yearly-yield expression. Both dialogs use these.
- `BorrowModal` and `DepositModal`: derived values, the guard chain as a function, the button's
  `disabled` predicate, and a class per dialog whose `HandleSubmit` updates the inputs and `isSubmitting`.
- `HexQuantity`: `parseInt(hex, 16)`, the QUANTITY encoding of the Ethereum JSON-RPC API, and wei to ether.
- `WalletContext`: the `Wallet` class holding `account`, `balance` and `isConnecting`, with its four transitions.
- `WalletConnect`: `shortenAddress` over JavaScript's `slice`, and the two views.
- `MarketInfo` and `Dashboard`: `reduce` sums (module `Reduce`), utilization, and the page's view selection.

Where the code departs from the usual conventions of a lending protocol's risk model, the model follows the code:

- The collateral factor is a percentage (80, 75), not a fraction.
- The lowest bucket starts below 1.2, not below 1.0.
- `isConnected` is `!!account`, so an empty-string account also counts as disconnected.
- There is no supply/withdraw/borrow/repay ledger in the code.

The mock borrow stores health factor 150, which the position card shows as 1.5.
The formula gives 1.2 for the same data. `MockBorrowHealthFactor` states both values.

## Model

| member | source | states |
|---|---|---|
| EthereumUtils.FindToken | src/components/BorrowModal.tsx:32 | `find` returns None exactly when no row has the symbol; otherwise it returns the first row carrying that symbol |
| EthereumUtils.CalculateHealthFactor | src/utils/ethereumUtils.ts:79-82 | Infinity exactly when the borrow value is 0; otherwise h × borrow × 100 = collateral × factor |
| EthereumUtils.HealthFactorAsSingleRatio | src/utils/ethereumUtils.ts:81 | for a nonzero borrow value the result is collateral × factor / (100 × borrow): the factor is a percentage |
| EthereumUtils.HealthFactorAntitoneInBorrow | src/utils/ethereumUtils.ts:81 | with non-negative collateral and factor, a larger positive borrow value never gives a larger health factor |
| EthereumUtils.HealthFactorMonotoneInCollateral | src/utils/ethereumUtils.ts:81 | with a non-negative factor and a positive borrow value, more collateral value never lowers the health factor |
| EthereumUtils.HealthFactorMonotoneInFactor | src/utils/ethereumUtils.ts:81 | with non-negative collateral and a positive borrow value, a larger factor never lowers the health factor |
| EthereumUtils.HealthFactorScaleInvariant | src/utils/ethereumUtils.ts:80-81 | scaling collateral and borrow value by the same positive k leaves the result unchanged, Infinity included |
| EthereumUtils.HealthFactorColor | src/utils/ethereumUtils.ts:91-96 | four disjoint buckets: green for Infinity or ≥ 2, yellow [1.5, 2), orange [1.2, 1.5), red for a finite value < 1.2 |
| EthereumUtils.ClassNamesDistinct | src/utils/ethereumUtils.ts:92-95 | the four CSS class names returned are pairwise different |
| EthereumUtils.HealthFactorColorMonotone | src/utils/ethereumUtils.ts:92-94 | a larger health factor (Infinity on top) never gets a less safe colour |
| EthereumUtils.FormatHealthFactor | src/utils/ethereumUtils.ts:85-88 | Infinity is printed as "∞" |
| EthereumUtils.FormatHealthFactorInfinityIff | src/utils/ethereumUtils.ts:85-88 | when the finite formatting prints only numerals (sign, digits, point, or the exponent form such as "1e+21" that `toFixed(2)` gives from 10^21 up), "∞" is printed exactly for Infinity |
| EthereumUtils.MockBorrowHealthFactor | src/utils/ethereumUtils.ts:65-76 | the formula on the mock borrow (2.5 ETH, 5000 USDC) gives 1.2, while the stored 150 / 100 is 1.5 |
| ModalForm.ValidAmountIsPositive | src/components/DepositModal.tsx:37 | an input passes `!a \|\| parseFloat(a) <= 0` exactly when its value is positive |
| ModalForm.Amount.OrZero | src/components/DepositModal.tsx:97 | `parseFloat(amount \|\| '0')`: an empty input reads as 0, a number as itself |
| ModalForm.Amount.IsInvalid | src/components/DepositModal.tsx:37 | `!amount \|\| parseFloat(amount) <= 0` holds exactly when the value read is at most 0; `ValidAmountIsPositive` states the same fact from the accepting side |
| ModalForm.YearlyYield | src/components/DepositModal.tsx:97 | yield × 100 = amount × rate; an empty input yields 0 |
| ModalForm.YearlyYieldMonotone | src/components/BorrowModal.tsx:123 | with a non-negative rate, a larger amount never shows a smaller yearly figure |
| BorrowModal.BorrowValue | src/components/BorrowModal.tsx:35 | an empty borrow input is worth 0 |
| BorrowModal.CollateralValue | src/components/BorrowModal.tsx:36 | a collateral symbol not in the table contributes value 0 |
| BorrowModal.CollateralFactorOf | src/components/BorrowModal.tsx:40 | a collateral symbol not in the table contributes factor 0 |
| BorrowModal.HealthFactorOf | src/components/BorrowModal.tsx:32-41 | the dialog's health factor is Infinity exactly when the borrow input is worth 0, and 0 for a collateral symbol not in the table; `UnknownCollateralIsWorthless` and `MaxBorrowIsRejected` are about it |
| BorrowModal.UnknownCollateralIsWorthless | src/components/BorrowModal.tsx:32-41 | with an unknown collateral symbol, any nonzero borrow has health factor 0 and is below the 1.2 floor |
| BorrowModal.FirstRejection | src/components/BorrowModal.tsx:46-65 | the checks run in order (wallet, borrow amount ≤ 0, collateral amount ≤ 0, health factor < 1.2); each reason is returned exactly when it is the first that fails |
| BorrowModal.SubmitDisabled | src/components/BorrowModal.tsx:199-206 | the button is disabled while submitting, and otherwise exactly when the guard chain would reject for a connected wallet |
| BorrowModal.SubmitEnabledIffAccepted | src/components/BorrowModal.tsx:199-206 | with nothing in flight and a connected wallet, the button is enabled exactly when the handler reaches the transaction; it is always disabled while submitting |
| BorrowModal.TooLowIffRed | src/components/BorrowModal.tsx:62 | with valid amounts, the health-factor rejection happens exactly when the colour is red |
| BorrowModal.MaxBorrow | src/components/BorrowModal.tsx:180 | max × price × 100 = collateral value × collateral factor: the borrow whose value is the discounted collateral |
| BorrowModal.MaxBorrowIsRejected | src/components/BorrowModal.tsx:180 | with positive collateral value, factor and price, borrowing exactly "Max Borrow" gives health factor 1.0 and is rejected |
| BorrowModal.YearlyInterest | src/components/BorrowModal.tsx:123 | interest × 100 = borrow amount × borrow rate |
| BorrowModal.CollateralOptions | src/components/BorrowModal.tsx:138 | the options are exactly the table rows whose symbol differs from the borrowed token |
| BorrowModal.InitialCollateralNotOfferedForEth | src/components/BorrowModal.tsx:26 | when ETH is borrowed, the initial collateral "ETH" is missing from the options, yet it is still found in the table |
| BorrowModal.BorrowForm.constructor | src/components/BorrowModal.tsx:25-28 | the dialog starts with empty amounts, collateral "ETH" and nothing in flight |
| BorrowModal.BorrowForm.SetBorrowAmount | src/components/BorrowModal.tsx:111 | the borrow input takes the new value |
| BorrowModal.BorrowForm.SetCollateralToken | src/components/BorrowModal.tsx:132 | the collateral selection takes the new symbol |
| BorrowModal.BorrowForm.SetCollateralAmount | src/components/BorrowModal.tsx:158 | the collateral input takes the new value |
| BorrowModal.BorrowForm.HandleSubmit | src/components/BorrowModal.tsx:43-86 | a rejected submit returns the first failing check and changes nothing; otherwise the transaction is sent, as it always is when the button was enabled and the wallet connected. Both amounts clear exactly when the result closes the dialog (a confirmed transaction), and `isSubmitting` is false afterwards |
| DepositModal.FirstRejection | src/components/DepositModal.tsx:31-40 | wallet check first, then the amount check; no rejection exactly when connected with a positive amount |
| DepositModal.SubmitDisabled | src/components/DepositModal.tsx:115 | the button is disabled while submitting, and otherwise exactly when the guard chain would reject for a connected wallet |
| DepositModal.SubmitEnabledIffAccepted | src/components/DepositModal.tsx:115 | with nothing in flight and a connected wallet, the button is enabled exactly when the handler sends the transaction |
| DepositModal.YearlyEarnings | src/components/DepositModal.tsx:97 | earnings × 100 = amount × deposit rate |
| DepositModal.DepositForm.constructor | src/components/DepositModal.tsx:24-25 | the dialog starts with an empty amount and nothing in flight |
| DepositModal.DepositForm.SetAmount | src/components/DepositModal.tsx:85 | the amount input takes the new value |
| DepositModal.DepositForm.HandleSubmit | src/components/DepositModal.tsx:28-60 | a rejected submit changes nothing; with the button enabled and the wallet connected the transaction is always sent; the amount clears exactly when the result closes the dialog (a confirmed transaction), and `isSubmitting` is false afterwards |
| HexQuantity.DigitValue | src/contexts/WalletContext.tsx:55 | a hex digit of either case is worth less than 16 |
| HexQuantity.HexDigit | src/contexts/WalletContext.tsx:55 | the digit written for a value below 16 reads back as that value |
| HexQuantity.HexValue | src/contexts/WalletContext.tsx:55 | the value of k hex digits, most significant first, is below 16^k; `HexValueOfEncode` and `EncodeHexOfValue` make it the inverse of `EncodeHex` |
| HexQuantity.HexRunLength | src/contexts/WalletContext.tsx:55 | `parseInt` reads the longest prefix of hex digits and stops at the first other character |
| HexQuantity.ParseIntHex | src/contexts/WalletContext.tsx:55 | `parseInt(s, 16)` is NaN exactly when no hex digit follows the optional 0x prefix; otherwise it is the value of the longest run of hex digits after the prefix (so "0x1g" reads as 1), the full value when only hex digits follow |
| HexQuantity.EncodeHex | src/contexts/WalletContext.tsx:55 | the encoding is a non-empty run of hex digits with no leading zero |
| HexQuantity.ToQuantity | src/contexts/WalletContext.tsx:55 | the encoding is a QUANTITY: "0x" and hex digits without a leading zero; `ParseQuantityRoundTrip` reads it back |
| HexQuantity.HexValueOfEncode | src/contexts/WalletContext.tsx:55 | reading the encoded digits of n gives n |
| HexQuantity.HexRunOfDigits | src/contexts/WalletContext.tsx:55 | a string made only of hex digits is read to its end |
| HexQuantity.ParsePrefixedDigits | src/contexts/WalletContext.tsx:55 | `parseInt("0x" + digits, 16)` is the digits' value, the sum of dᵢ·16ⁱ |
| HexQuantity.ParseQuantityRoundTrip | src/contexts/WalletContext.tsx:55 | every QUANTITY "0x…" encoding of n parses back to n |
| HexQuantity.EncodeHexOfValue | src/contexts/WalletContext.tsx:55 | lower-case digits without a leading zero are exactly the encoding of their value |
| HexQuantity.WeiToEther | src/contexts/WalletContext.tsx:56 | ether × 10^18 = wei, and it is never negative |
| WalletContext.BalanceFromHex | src/contexts/WalletContext.tsx:55-57 | the reply shows NaN exactly when no hex digit follows the optional 0x prefix (so "0x" and "0xz1" show NaN); otherwise it shows exactly the parsed wei / 10^18 ether (so ether × 10^18 = the parsed wei) |
| WalletContext.BalanceOfQuantity | src/contexts/WalletContext.tsx:49-57 | a well-formed reply for `wei` shows exactly wei / 10^18 ether |
| WalletContext.IsConnectedAccount | src/contexts/WalletContext.tsx:128 | connected implies an account is present, any non-empty account counts as connected, and the empty-string account counts as disconnected |
| WalletContext.Wallet.constructor | src/contexts/WalletContext.tsx:29-31 | the session starts with no account, balance "0" and not connecting |
| WalletContext.Wallet.AdoptAccounts | src/contexts/WalletContext.tsx:44-57 | a non-empty list sets the account to its first entry; then the balance is set from the reply, or kept if the balance request failed. An empty list changes nothing |
| WalletContext.Wallet.ConnectWallet | src/contexts/WalletContext.tsx:33-67 | without a provider nothing changes, not even `isConnecting`. Otherwise the first account is adopted with its balance, a failed or empty accounts reply keeps account and balance, and `isConnecting` is false at the end |
| WalletContext.Wallet.CheckConnection | src/contexts/WalletContext.tsx:77-98 | at start-up the first existing account is adopted with its balance; otherwise nothing changes |
| WalletContext.Wallet.DisconnectWallet | src/contexts/WalletContext.tsx:69-73 | the account becomes null and the balance "0"; nothing else changes |
| WalletContext.Wallet.OnAccountsChanged | src/contexts/WalletContext.tsx:104-111 | an empty list clears the account and resets the balance; otherwise the first entry becomes the account and the balance is kept |
| WalletConnect.ShortenAddress | src/components/WalletConnect.tsx:10-12 | length min(6,n) + 3 + min(4,n); the result starts with the first min(6,n) characters, then "...", and ends with the last min(4,n) characters |
| WalletConnect.JsSlice | src/components/WalletConnect.tsx:11 | `slice` never lengthens the string, returns `s[start..end]` for in-range bounds, and the last -start characters for -|s| ≤ start < 0 with end = |s| (`slice(start)` with no end) |
| WalletConnect.ShortenStandardAddress | src/components/WalletConnect.tsx:11 | a 42-character address shortens to 13 characters: its first 6, "...", its last 4 |
| WalletConnect.DisplayedAddress | src/components/WalletConnect.tsx:19 | a null account shortens, via the empty string, to "..." |
| WalletConnect.View | src/components/WalletConnect.tsx:16-47 | the account view shows exactly when connected; the connect button is disabled exactly while connecting |
| WalletConnect.ViewSelection | src/components/WalletConnect.tsx:16-47 | the account view shows exactly when connected; otherwise the connect button is disabled, and reads "Connecting...", exactly while connecting |
| MarketInfo.TotalDeposited | src/components/MarketInfo.tsx:8 | the `reduce` of amount × price from 0: 0 for no rows, the row's own value for one; `TotalsOrdered` and `MockMarketTotals` state its properties |
| MarketInfo.TotalBorrowed | src/components/MarketInfo.tsx:9 | the same sum over the borrowed amounts: 0 for no rows, the row's own value for one |
| Reduce.SumOf | src/components/MarketInfo.tsx:8-9 | `reduce((acc, x) => acc + f(x), 0)`: 0 for an empty list, f(x) for one element; `SumOfNonNegative`, `SumOfMonotone` and `SumOfCongruent` are its properties |
| Reduce.SumOfNonNegative | src/components/MarketInfo.tsx:8-9 | a sum of non-negative terms is non-negative |
| Reduce.SumOfMonotone | src/components/MarketInfo.tsx:8-9 | summing pointwise smaller terms gives a smaller sum |
| Reduce.SumOfCongruent | src/pages/Dashboard.tsx:17-18 | sequences whose terms agree position by position have equal sums |
| MarketInfo.UtilizationRate | src/components/MarketInfo.tsx:10 | rate × total supplied = total borrowed × 100 |
| MarketInfo.TotalsOrdered | src/components/MarketInfo.tsx:8-9 | if every row has a non-negative price and 0 ≤ borrowed ≤ deposited, then 0 ≤ total borrowed ≤ total supplied |
| MarketInfo.UtilizationIsPercentage | src/components/MarketInfo.tsx:8-10 | in such a market the utilization lies in [0, 100], as the caption "Percentage of supplied assets being borrowed" says |
| MarketInfo.MockMarketTotals | src/components/MarketInfo.tsx:8-10 | for the token table: 16,750,000 supplied, 11,750,000 borrowed, utilization 11.75 / 16.75 × 100 |
| Dashboard.TotalSupplied | src/pages/Dashboard.tsx:17 | the `reduce` of the deposits' stored values from 0: 0 without deposits, the one value for one; `TotalsReadOnlyValues` and `MockDashboardTotals` state its properties |
| Dashboard.TotalBorrowed | src/pages/Dashboard.tsx:18 | the same sum over the borrows: 0 without borrows, the one value for one |
| Dashboard.TotalsReadOnlyValues | src/pages/Dashboard.tsx:17-18 | the totals depend only on each position's stored `value`, not on amount, token or price |
| Dashboard.Render | src/pages/Dashboard.tsx:21-118 | the connect prompt shows exactly when disconnected, and the overview carries the two totals |
| Dashboard.RenderSelection | src/pages/Dashboard.tsx:21-118 | disconnected shows the prompt whatever the positions; "No Positions Yet" shows exactly when both lists are empty; each section shows exactly when its list is non-empty |
| Dashboard.MockDashboardTotals | src/pages/Dashboard.tsx:17-18 | for the mock positions the page shows 25,000 supplied and 5,000 borrowed |

## Left out

- `simulateTransaction` (random outcome after a 2-second timer) is not modelled. The outcome is the `tx` parameter of each `HandleSubmit`.
- Floating point is not modelled: every amount is an exact real. So is all text formatting: `toFixed`, `toLocaleString`, `formatCurrency`, `formatPercentage`, the `toFixed(4)` of the balance, and the finite branch of `formatHealthFactor`. The finite branch is a parameter of `FormatHealthFactor`.
- `parseFloat` returning `NaN` is not modelled. An input is either empty or a parsed number.
- Precision loss of `parseInt(hex) / 1e18` above 2^53 wei is not modelled. The conversion is exact.
- HexQuantity.ParseIntHex: leading white space and a sign, which `parseInt` also accepts, are not modelled. A provider's QUANTITY never has them.
- Provider I/O is not modelled: the `request` calls, listener registration and removal, and the page reload on `chainChanged`. Provider replies are method parameters.
- Each handler is modelled as one atomic step. So the model does not show `isConnecting` or `isSubmitting` being true while a reply is awaited, and it does not show other events interleaving then.
- BorrowModal.BorrowForm.HandleSubmit: the `connectWallet()` call on a disconnected submit and the `onClose()` call after a confirmed one are reported, not performed. They show up as `Rejected(WalletDisconnected)` and `ClosesModal()` on the result.
- DepositModal.DepositForm.HandleSubmit: the same applies to its `connectWallet()` and `onClose()` calls.
- MarketInfo.UtilizationRate: requires a positive total supplied. The source has no guard and would show `NaN` or `Infinity` for an empty market.
- Toasts and console logging are not modelled. They are side effects only.
- Token icons are left out of `Token`. They are display only.
- Presentation and routing are not modelled. This covers the dialog's open flag, `App`, `Navbar`, `Index`, `MarketsPage`, `AssetCard` and `PositionCard`; apart from its `/100` rescale, which `MockBorrowHealthFactor` uses, `PositionCard` is display only.
- The fixed `netAPY = 0.5` and the withdraw and repay handlers of the dashboard are not modelled. The handlers only show a toast.
- The deployment script, the network configuration and the empty `LendingProtocol` contract are not part of this model.
- Supply, withdraw, borrow and repay bookkeeping, liquidation and interest accrual are not modelled. The front end has none of these.
