# YouStockExchange ledger and order book in Dafny

YouStockExchange is an on-chain exchange for the native currency (asset
`0x0`, ether) and ERC-20 tokens. For every (asset, account) pair it keeps two
balances:

- an **available** balance (`balanceOf`), which is credited by `fund` and by
  token transfers to the exchange, and debited by `redeem`;
- a **committed** balance (`commitmentsOf`), which is locked by the account's
  active orders.

`createOrder(give, get, amount, num, den)` commits `amount` of `give` to a
new order. The order is priced at `num/den` units of `get` per unit of `give`
and gets the next consecutive id. Only its maker may `cancelOrder` it; that
releases what the order still offers.

Any other account may `executeOrder(id, consumed)`. The taker then:

- pays `floor(consumed*num/den)` of the get-asset to the maker;
- receives `consumed - floor(consumed/1000)` of the give-asset.

The maker keeps `floor(consumed/1000)` as a fee. The order shrinks by
`consumed` and is filled once nothing remains. Every call either applies all
of its effects or reverts and changes nothing.

The exchange contract's own source is not part of this model. Its behaviour
is taken from the contract's test suite, `test/YouStock.js`, lines 22-638.
The fee is inferred from the asserted numbers at lines 222-225, 268-271,
447-449 and 545-546.

The project has five modules:

- `ledger.dfy` (`Ledger`): assets, the (asset, account) slots, and the
  per-asset totals of a ledger column.
- `pricing.dfy` (`Pricing`): the integer price conversion and the fee, with
  lemmas on rounding.
- `exchange.dfy` (`YouStock`): the exchange.
  - `Exchange` is a class. Its fields are the two balance maps, the order
    table and the id counter.
  - Every entry point is a method that returns a result or a named error.
  - The class invariant `Valid` says three things: ids are below the counter;
    orders are well formed; each committed balance equals what its owner's
    active orders in that asset still offer.
  - Every method also states that it conserves what the ledger records of
    each asset (`Held`), apart from deposits and redemptions.
- `scenarios.dfy` (`Scenarios`): each test of the suite, replayed on a fresh
  exchange, with the values the test asserts proved as postconditions.
- `properties.dfy` (`Properties`): round trips over every state. A deposit
  followed by a redeem, or a create followed by a cancel, restores every
  balance.

## Model

| member | source | states |
|---|---|---|
| Pricing.Fee | test/YouStock.js:222-225 | the maker's share of a fill is the largest f with 1000*f <= consumed: one unit per thousand consumed, rounded down |
| Pricing.Convert | test/YouStock.js:213-225 | the get-amount a taker pays for a fill of consumed give-units at price num/den; its partner ConvertIsFloor pins it to consumed*num/den rounded down |
| Pricing.ConvertIsFloor | test/YouStock.js:213-225 | the get-amount paid for a fill is exactly consumed*num/den rounded down: r*den <= consumed*num < (r+1)*den |
| Pricing.ConvertMonotone | test/YouStock.js:441-459 | a fill of more give-units never costs the taker less |
| Pricing.ConvertSplit | test/YouStock.js:441-459 | two partial fills together cost no more than one fill of their sum, and at most one get-unit less |
| Pricing.FeeSplit | test/YouStock.js:441-459 | two partial fills leave the maker no more fee than one fill of their sum, and at most one unit less |
| Pricing.FeeBounds | test/YouStock.js:447-459 | a fill of fewer than 1000 units carries no fee and vice versa; the fee never exceeds the fill, and a non-empty fill always gives the taker something |
| Pricing.ConvertWholePrices | test/YouStock.js:336-371 | at price k/1 a fill is paid exactly k-fold, and at price 1/k a fill of amount*k costs exactly amount |
| Ledger.AdjustTotal | test/YouStock.js:40-53 | crediting or debiting one slot changes that asset's ledger total by exactly that amount and no other asset's total |
| YouStock.TracksAfterStore | test/YouStock.js:392-421 | storing an order while moving its maker's commitment by the change in what it offers keeps every committed balance equal to what the owner's active orders still offer, and keeps every active order covered |
| YouStock.TracksBacks | test/YouStock.js:155-160 | when commitments track the orders, every active order's remaining amount is covered by its maker's committed balance |
| YouStock.PayOut | test/YouStock.js:215-225 | a fill's available balances: the taker's get-asset drops and the maker's rises by the converted price; the taker's give-asset rises by consumed less the fee, the maker's by the fee; every other slot is unchanged |
| YouStock.PayOutTotal | test/YouStock.js:259-271 | settling a fill leaves the get-asset's total unchanged and adds exactly the consumed units to the give-asset's total |
| YouStock.FillConserves | test/YouStock.js:441-459 | per asset, available plus committed totals are the same before and after a fill: the consumed units leave the commitments and reappear as available balance |
| YouStock.Exchange.RedeemError | test/YouStock.js:44-49 | redeem reports no error exactly when 0 < amount <= the available balance; any error it reports names a condition that fails (zero amount, or more than available) |
| YouStock.Exchange.CreateError | test/YouStock.js:593-621 | createOrder reports no error exactly when the assets differ, amount, num and den are positive, the converted amount is positive and the maker's available balance covers amount; any error names a failing condition |
| YouStock.Exchange.CancelError | test/YouStock.js:180-185 | cancelOrder reports no error exactly when the order exists, the caller is its maker and it is active; any error names a failing condition |
| YouStock.Exchange.FillError | test/YouStock.js:336-390 | executeOrder reports no error exactly when the order exists and is active, 0 < consumed <= remaining, the caller is not the maker and the taker can pay a positive converted price; any error names a failing condition |
| YouStock.Exchange.BalanceOf | test/YouStock.js:37-42 | balanceOf reads one account's available balance in one asset; a slot never written reads 0; how each operation changes it is stated by Deposit, Redeem, CreateOrder, CancelOrder and ExecuteOrder |
| YouStock.Exchange.CommitmentsOf | test/YouStock.js:399-411 | in a valid exchange, commitmentsOf is exactly the sum of what the account's active orders giving that asset still offer |
| YouStock.Exchange.HoldingsWithinHeld | test/YouStock.js:399-411 | one account's available plus committed balance in an asset never exceeds the exchange's total of that asset |
| YouStock.Exchange.constructor | test/YouStock.js:22 | a freshly deployed exchange has no balances, no commitments and no orders, the first id is 0, and the invariant holds |
| YouStock.Exchange.Deposit | test/YouStock.js:56-62 | fund or a token transfer credits exactly amount to the account's available balance and nothing else; the asset's recorded total rises by amount; a zero deposit changes nothing |
| YouStock.Exchange.Redeem | test/YouStock.js:40-53 | redeem succeeds exactly when 0 < amount <= available; it then lowers exactly that balance by amount and the asset's recorded total by amount; otherwise it fails with a true reason and changes nothing; commitments are never touched |
| YouStock.Exchange.CreateOrder | test/YouStock.js:140-153 | createOrder succeeds exactly when its conditions hold; it then stores a new active order under the counter's value (an unused id), advances the counter by one and moves exactly amount from available to committed; totals are conserved; on failure nothing changes |
| YouStock.Exchange.CancelOrder | test/YouStock.js:162-169 | only the maker can cancel an active order; the order is kept, marked Cancelled, and its remaining amount moves from committed back to available; on failure nothing changes |
| YouStock.Exchange.ExecuteOrder | test/YouStock.js:215-225 | a fill succeeds exactly when its conditions hold; the order's remaining amount drops by consumed (Filled when it reaches 0), the maker's commitment drops by consumed, and the available balances become PayOut's; per-asset totals are conserved; on failure nothing changes |
| Scenarios.ReceiveAndRedeemTokens | test/YouStock.js:28-54 | after a deposit of 1234 tokens the balance reads 1234, then 34 after redeeming 1200; redeeming 500 is refused; after redeeming 34 it reads 0 |
| Scenarios.ReceiveAndRedeemEther | test/YouStock.js:56-78 | the same for ether: 42, then 22, a refused redeem of 500, then 0 |
| Scenarios.OthersCannotRedeem | test/YouStock.js:80-114 | a second account cannot redeem the first account's ether or tokens, and the owner can redeem them all |
| Scenarios.CannotOrderUnfunded | test/YouStock.js:116-126 | an order without an available balance is refused |
| Scenarios.CreateAndCancel | test/YouStock.js:128-170 | two orders get consecutive ids, cancelling both releases their funds for redemption, and the balance ends at 0 |
| Scenarios.OfferTwice | test/YouStock.js:136-160 | of 12000 deposited tokens, orders of 10000 and 2000 commit all of them; a second order of 10000 and a redeem of the committed tokens are refused |
| Scenarios.OthersCannotCancel | test/YouStock.js:172-192 | a non-maker's cancel is refused; the maker's cancel and a full redeem succeed and the balance ends at 0 |
| Scenarios.TradeTokensForEther | test/YouStock.js:194-240 | after a 10000-token fill at 1.1e14 wei each, the balances read 10 and 9990 tokens, 0 and 1.1e18 wei, and all are redeemable to 0 |
| Scenarios.SellTokens | test/YouStock.js:202-225 | the trade of that test leaves the maker 10 tokens and 1.1e18 wei and the taker 9990 tokens and no wei |
| Scenarios.TradeEtherForTokens | test/YouStock.js:242-286 | after a fill of 1.1e18 wei at price 1/1.1e14, the balances read 0 and 10000 tokens, 1.1e15 and 1.0989e18 wei, and all are redeemable to 0 |
| Scenarios.BuyTokens | test/YouStock.js:250-271 | the trade of that test leaves the maker 10000 tokens and a 1.1e15 wei fee, and the taker 1.0989e18 wei |
| Scenarios.TakerNeedsEther | test/YouStock.js:336-352 | a taker without the ether to pay cannot fill; the maker can still cancel and redeem |
| Scenarios.TakerNeedsTokens | test/YouStock.js:354-371 | a taker without the tokens to pay cannot fill; the maker can still cancel and redeem |
| Scenarios.CapacityExceeded | test/YouStock.js:373-390 | a fill of more than the order offers is refused; the maker can still cancel and redeem |
| Scenarios.CommitmentsTracked | test/YouStock.js:392-421 | balance and commitment read 1234/0 after the deposit, 0/1234 after the order, and 0/0 after the cancel and redeem |
| Scenarios.FillUntilExhausted | test/YouStock.js:423-474 | a fill of 1200 then one of 34 exhaust an order of 1234 at 1/1; the maker's ether, commitment and the taker's tokens read 1234/0/1234, then 1/34/34, then 1/0/0, and all balances are redeemable to 0 |
| Scenarios.FillOnce | test/YouStock.js:430-449 | the first fill of that test leaves the order active with 34 remaining, the maker a fee of 1 wei and 34 committed, and the taker 1199 wei |
| Scenarios.SameAssetRejected | test/YouStock.js:476-490 | an order trading a token for itself is refused and the deposit stays redeemable |
| Scenarios.UnknownOrderRejected | test/YouStock.js:492-509 | a fill of an id never created is refused |
| Scenarios.WorthlessOrderRejected | test/YouStock.js:511-525 | an order of 1234 units at price 1/100000, worth 0 of the get-asset, is refused |
| Scenarios.FilledCannotBeCancelled | test/YouStock.js:527-547 | a completely filled order cannot be cancelled; the maker redeems 1234 wei and the 1-token fee, the taker 1233 tokens |
| Scenarios.SelfTradeRejected | test/YouStock.js:549-569 | a maker's fill of its own order is refused |
| Scenarios.ZeroFillRejected | test/YouStock.js:571-591 | a fill of 0 units is refused |
| Scenarios.DegenerateOrdersRejected | test/YouStock.js:593-621 | orders of amount 0, numerator 0 or denominator 0 are refused |
| Scenarios.RedeemNothingRejected | test/YouStock.js:623-637 | a redeem of 0 is refused |
| Properties.DepositThenRedeem | test/YouStock.js:56-78 | in every state, a non-zero deposit can always be redeemed again, and then every available balance, every commitment and every order are as before |
| Properties.CreateThenCancel | test/YouStock.js:392-421 | in every state, an order that was created can always be cancelled by its maker, and then every available and committed balance is as before; the order stays on record, Cancelled |

## Left out

- The `YouStockToken` test (`test/YouStock.js:6-19`). It exercises the ERC-20 token, not the exchange.
- The transfers of ether and tokens themselves:
  - the payable `fund`;
  - the token transfer that the exchange is notified of;
  - the payout inside `redeem`.
  Each is modelled only as a credit to or a debit from the ledger, in `Deposit` and `Redeem`. How the contract learns of a token transfer is not modelled.
- Events and the order id read from the event log. `CreateOrder` returns the id directly.
- Prices built from floating-point numbers with the JavaScript `Fraction` library (lines 138, 213, 257, 307). The model takes `num` and `den` as the integers that construction yields, with one exception: `Scenarios.OfferTwice` uses the price 110000000000000/1 for line 138, whose floating-point product is 110000000000000.02 (as the comment at lines 208-212 notes), so the fraction the test actually builds has a different numerator and denominator. This is harmless: that test never fills its orders, so no asserted value depends on the price; only the stored order in `OfferTwice`'s ensures carries it.
- The tokens-for-tokens test (lines 288-334). Its two tokens are the same deployed contract, so it contradicts the same-asset rejection of lines 476-490. No property is drawn from it.
- 256-bit overflow. Amounts and products are unbounded naturals.
- The order in which the contract checks its failure conditions. The tests never observe it; for example, the capacity test's fill is also a self-trade. Each error the model reports is only guaranteed to name a condition that really fails.
- State shared between tests. The suite runs against one deployed contract, so its balances and ids carry over from test to test. Each scenario here starts from a fresh exchange. The asserted values are the same, because every modelled test redeems what it deposited. The tokens-for-tokens test (lines 288-334), which is not modelled, would not: under the same-asset rule its order at line 308 is refused, so its deposits at lines 300-301 would stay on the shared ledger.
- Rules the tests leave open, which the model fixes:
  - a deposit of 0 is refused; the tests never deposit 0;
  - a fill whose converted price rounds down to 0 is refused, following the rule for worthless orders (lines 511-525); the tests never make such a fill;
  - the first order id is 0; the tests only observe that consecutive orders get consecutive ids.
