/**
 * The exchange's behaviour on the concrete runs of test/YouStock.js, each on a
 * freshly deployed exchange. `Account0` and `Account1` are the first two test
 * accounts; `Yst` is the YouStockToken contract (the tests' `yst` and `stn`).
 * In each method `succeeded` says that every call the test expects to go
 * through did, `refused` that every call it expects to revert did, and
 * `observed` lists the balanceOf/commitmentsOf readings the test asserts, in
 * order.
 */
module Scenarios {
  import opened Ledger
  import opened YouStock

  const Account0: Address := 1
  const Account1: Address := 2
  const Yst: Asset := Token(100)

  /** 1.1 ether in wei. */
  const EtherAmount: nat := 1100000000000000000

  /** Lines 28-54: a token deposit is credited and can be redeemed, but not beyond it. */
  method ReceiveAndRedeemTokens() returns (observed: seq<nat>, succeeded: bool, refused: bool)
    ensures observed == [1234, 34, 0] && succeeded && refused
  {
    var ex := new Exchange();
    var d := ex.Deposit(Yst, Account0, 1234);
    var seen := [ex.BalanceOf(Yst, Account0)];
    var r1 := ex.Redeem(Yst, Account0, 1200);
    seen := seen + [ex.BalanceOf(Yst, Account0)];
    var r2 := ex.Redeem(Yst, Account0, 500);
    var r3 := ex.Redeem(Yst, Account0, 34);
    observed := seen + [ex.BalanceOf(Yst, Account0)];
    succeeded := d.Done? && r1.Done? && r3.Done?;
    refused := r2.Fail?;
  }

  /** Lines 56-78: the same for the native currency. */
  method ReceiveAndRedeemEther() returns (observed: seq<nat>, succeeded: bool, refused: bool)
    ensures observed == [42, 22, 0] && succeeded && refused
  {
    var ex := new Exchange();
    var d := ex.Deposit(Native, Account0, 42);
    var seen := [ex.BalanceOf(Native, Account0)];
    var r1 := ex.Redeem(Native, Account0, 20);
    seen := seen + [ex.BalanceOf(Native, Account0)];
    var r2 := ex.Redeem(Native, Account0, 500);
    var r3 := ex.Redeem(Native, Account0, 22);
    observed := seen + [ex.BalanceOf(Native, Account0)];
    succeeded := d.Done? && r1.Done? && r3.Done?;
    refused := r2.Fail?;
  }

  /** Lines 80-114: an account with no balance cannot redeem another account's funds. */
  method OthersCannotRedeem() returns (observed: seq<nat>, succeeded: bool, refused: bool)
    ensures observed == [42, 1234, 0, 0] && succeeded && refused
  {
    var ex := new Exchange();
    var d1 := ex.Deposit(Native, Account0, 42);
    var seen := [ex.BalanceOf(Native, Account0)];
    var d2 := ex.Deposit(Yst, Account0, 1234);
    seen := seen + [ex.BalanceOf(Yst, Account0)];
    var s1 := ex.Redeem(Native, Account1, 1);
    var s2 := ex.Redeem(Yst, Account1, 1);
    var r1 := ex.Redeem(Native, Account0, 42);
    var r2 := ex.Redeem(Yst, Account0, 1234);
    observed := seen + [ex.BalanceOf(Native, Account0), ex.BalanceOf(Yst, Account0)];
    succeeded := d1.Done? && d2.Done? && r1.Done? && r2.Done?;
    refused := s1.Fail? && s2.Fail?;
  }

  /** Lines 116-126: no order without the funds to commit. */
  method CannotOrderUnfunded() returns (refused: bool)
    ensures refused
  {
    var ex := new Exchange();
    var c := ex.CreateOrder(Account0, Yst, Native, 10, 11, 12);
    refused := c.Err?;
  }

  /**
   * Lines 128-170: two orders get consecutive ids, committed funds cannot be
   * committed twice or redeemed, and cancelling releases them.
   */
  method CreateAndCancel() returns (observed: seq<nat>, succeeded: bool, refused: bool, consecutive: bool)
    ensures observed == [0] && succeeded && refused && consecutive
  {
    var ex, first, second, offered;
    ex, first, second, offered, refused := OfferTwice();
    consecutive := second == first + 1;
    var c2 := ex.CancelOrder(Account0, second);
    var r2 := ex.Redeem(Yst, Account0, 2000);
    var c1 := ex.CancelOrder(Account0, first);
    var r1 := ex.Redeem(Yst, Account0, 10000);
    observed := [ex.BalanceOf(Yst, Account0)];
    succeeded := offered && c2.Done? && r2.Done? && c1.Done? && r1.Done?;
  }

  /** The first half of lines 128-170: 12000 tokens deposited, all of them committed to two orders. */
  method OfferTwice() returns (ex: Exchange, first: OrderId, second: OrderId, succeeded: bool, refused: bool)
    ensures fresh(ex) && ex.Valid()
    ensures first in ex.orders && ex.orders[first] == Order(Account0, Yst, Native, 10000, 110000000000000, 1, Active)
    ensures second in ex.orders && ex.orders[second] == Order(Account0, Yst, Native, 2000, 110000000000000, 1, Active)
    ensures second == first + 1
    ensures ex.BalanceOf(Yst, Account0) == 0 && ex.CommitmentsOf(Yst, Account0) == 12000
    ensures succeeded && refused
  {
    ex := new Exchange();
    var d := ex.Deposit(Yst, Account0, 12000);
    var c1 := ex.CreateOrder(Account0, Yst, Native, 10000, 110000000000000, 1);
    var again := ex.CreateOrder(Account0, Yst, Native, 10000, 110000000000000, 1);
    var c2 := ex.CreateOrder(Account0, Yst, Native, 2000, 110000000000000, 1);
    var locked := ex.Redeem(Yst, Account0, 1);
    first, second := c1.value, c2.value;
    succeeded := d.Done? && c1.Ok? && c2.Ok?;
    refused := again.Err? && locked.Fail?;
  }

  /** Lines 172-192: only the maker may cancel. */
  method OthersCannotCancel() returns (observed: seq<nat>, succeeded: bool, refused: bool)
    ensures observed == [0] && succeeded && refused
  {
    var ex := new Exchange();
    var d := ex.Deposit(Yst, Account0, 1234);
    var c := ex.CreateOrder(Account0, Yst, Native, 1000, 1, 1);
    var stranger := ex.CancelOrder(Account1, c.value);
    var owner := ex.CancelOrder(Account0, c.value);
    var r := ex.Redeem(Yst, Account0, 1234);
    observed := [ex.BalanceOf(Yst, Account0)];
    succeeded := d.Done? && c.Ok? && owner.Done? && r.Done?;
    refused := stranger.Fail?;
  }

  /**
   * Lines 194-240: tokens for ether. The taker pays the full price; of the
   * 10000 tokens the maker keeps the fee of 10 and the taker gets 9990.
   */
  method TradeTokensForEther() returns (funded: nat, traded: seq<nat>, redeemed: seq<nat>, succeeded: bool)
    ensures funded == EtherAmount
    ensures traded == [10, 9990, 0, EtherAmount]
    ensures redeemed == [0, 0, 0, 0]
    ensures succeeded
  {
    var ex, done;
    ex, funded, done := SellTokens();
    traded := [ex.BalanceOf(Yst, Account0), ex.BalanceOf(Yst, Account1),
               ex.BalanceOf(Native, Account1), ex.BalanceOf(Native, Account0)];
    var r1 := ex.Redeem(Yst, Account0, 10);
    var r2 := ex.Redeem(Native, Account0, EtherAmount);
    var r3 := ex.Redeem(Yst, Account1, 9990);
    redeemed := [ex.BalanceOf(Yst, Account0), ex.BalanceOf(Yst, Account1),
                 ex.BalanceOf(Native, Account1), ex.BalanceOf(Native, Account0)];
    succeeded := done && r1.Done? && r2.Done? && r3.Done?;
  }

  /** The trade of lines 194-240, up to the balances it leaves. */
  method SellTokens() returns (ex: Exchange, funded: nat, succeeded: bool)
    ensures fresh(ex) && ex.Valid()
    ensures funded == EtherAmount
    ensures ex.BalanceOf(Yst, Account0) == 10 && ex.BalanceOf(Yst, Account1) == 9990
    ensures ex.BalanceOf(Native, Account1) == 0 && ex.BalanceOf(Native, Account0) == EtherAmount
    ensures succeeded
  {
    ex := new Exchange();
    var d1 := ex.Deposit(Yst, Account0, 10000);
    var d2 := ex.Deposit(Native, Account1, EtherAmount);
    funded := ex.BalanceOf(Native, Account1);
    var c := ex.CreateOrder(Account0, Yst, Native, 10000, 110000000000000, 1);
    var e := ex.ExecuteOrder(Account1, c.value, 10000);
    succeeded := d1.Done? && d2.Done? && c.Ok? && e.Done?;
  }

  /**
   * Lines 242-286: ether for tokens, at the inverted price. The maker keeps
   * the fee of 1.1e15 wei, the taker gets the rest of the 1.1 ether.
   */
  method TradeEtherForTokens() returns (traded: seq<nat>, redeemed: seq<nat>, succeeded: bool)
    ensures traded == [0, 10000, 1100000000000000, 1098900000000000000]
    ensures redeemed == [0, 0, 0, 0]
    ensures succeeded
  {
    var ex, done;
    ex, done := BuyTokens();
    traded := [ex.BalanceOf(Yst, Account0), ex.BalanceOf(Yst, Account1),
               ex.BalanceOf(Native, Account1), ex.BalanceOf(Native, Account0)];
    var r1 := ex.Redeem(Yst, Account1, 10000);
    var r2 := ex.Redeem(Native, Account1, 1100000000000000);
    var r3 := ex.Redeem(Native, Account0, 1098900000000000000);
    redeemed := [ex.BalanceOf(Yst, Account0), ex.BalanceOf(Yst, Account1),
                 ex.BalanceOf(Native, Account1), ex.BalanceOf(Native, Account0)];
    succeeded := done && r1.Done? && r2.Done? && r3.Done?;
  }

  /** The trade of lines 242-286, up to the balances it leaves. */
  method BuyTokens() returns (ex: Exchange, succeeded: bool)
    ensures fresh(ex) && ex.Valid()
    ensures ex.BalanceOf(Yst, Account0) == 0 && ex.BalanceOf(Yst, Account1) == 10000
    ensures ex.BalanceOf(Native, Account1) == 1100000000000000
    ensures ex.BalanceOf(Native, Account0) == 1098900000000000000
    ensures succeeded
  {
    ex := new Exchange();
    var d1 := ex.Deposit(Yst, Account0, 10000);
    var d2 := ex.Deposit(Native, Account1, EtherAmount);
    var c := ex.CreateOrder(Account1, Native, Yst, EtherAmount, 1, 110000000000000);
    var e := ex.ExecuteOrder(Account0, c.value, EtherAmount);
    succeeded := d1.Done? && d2.Done? && c.Ok? && e.Done?;
  }

  /** Lines 336-352: a taker without enough ether cannot fill. */
  method TakerNeedsEther() returns (succeeded: bool, refused: bool)
    ensures succeeded && refused
  {
    var ex := new Exchange();
    var d := ex.Deposit(Yst, Account0, 1234);
    var c := ex.CreateOrder(Account0, Yst, Native, 1234, 1000000, 1);
    var e := ex.ExecuteOrder(Account1, c.value, 1234);
    var x := ex.CancelOrder(Account0, c.value);
    var r := ex.Redeem(Yst, Account0, 1234);
    succeeded := d.Done? && c.Ok? && x.Done? && r.Done?;
    refused := e.Fail?;
  }

  /** Lines 354-371: a taker without enough tokens cannot fill. */
  method TakerNeedsTokens() returns (succeeded: bool, refused: bool)
    ensures succeeded && refused
  {
    var ex := new Exchange();
    var d := ex.Deposit(Native, Account0, 12345678);
    var c := ex.CreateOrder(Account0, Native, Yst, 12345678, 1, 1);
    var e := ex.ExecuteOrder(Account1, c.value, 12345678);
    var x := ex.CancelOrder(Account0, c.value);
    var r := ex.Redeem(Native, Account0, 12345678);
    succeeded := d.Done? && c.Ok? && x.Done? && r.Done?;
    refused := e.Fail?;
  }

  /** Lines 373-390: no fill beyond what the order still offers. */
  method CapacityExceeded() returns (succeeded: bool, refused: bool)
    ensures succeeded && refused
  {
    var ex := new Exchange();
    var d := ex.Deposit(Native, Account0, 1234000000);
    var c := ex.CreateOrder(Account0, Native, Yst, 1234, 1000000, 1);
    var e := ex.ExecuteOrder(Account0, c.value, 9000);
    var x := ex.CancelOrder(Account0, c.value);
    var r := ex.Redeem(Native, Account0, 1234000000);
    succeeded := d.Done? && c.Ok? && x.Done? && r.Done?;
    refused := e.Fail?;
  }

  /** Lines 392-421: an order moves its amount from balance to commitments, cancelling moves it back. */
  method CommitmentsTracked() returns (observed: seq<nat>, succeeded: bool)
    ensures observed == [1234, 0, 0, 1234, 0, 0] && succeeded
  {
    var ex := new Exchange();
    var d := ex.Deposit(Native, Account0, 1234);
    var seen := [ex.BalanceOf(Native, Account0), ex.CommitmentsOf(Native, Account0)];
    var c := ex.CreateOrder(Account0, Native, Yst, 1234, 10, 1);
    seen := seen + [ex.BalanceOf(Native, Account0), ex.CommitmentsOf(Native, Account0)];
    var x := ex.CancelOrder(Account0, c.value);
    var r := ex.Redeem(Native, Account0, 1234);
    observed := seen + [ex.BalanceOf(Native, Account0), ex.CommitmentsOf(Native, Account0)];
    succeeded := d.Done? && c.Ok? && x.Done? && r.Done?;
  }

  /**
   * Lines 423-474: partial fills until the order is used up. The first fill
   * of 1200 leaves the maker a fee of 1 wei; the second, of 34, none.
   * `funded`, `firstFill` and `secondFill` hold the maker's ether, the maker's
   * committed ether and the taker's tokens before and after each fill.
   */
  method FillUntilExhausted() returns (funded: seq<nat>, firstFill: seq<nat>, secondFill: seq<nat>, redeemed: seq<nat>, succeeded: bool)
    ensures funded == [1234, 0, 1234]
    ensures firstFill == [1, 34, 34]
    ensures secondFill == [1, 0, 0]
    ensures redeemed == [0, 0, 0, 0]
    ensures succeeded
  {
    var ex, id, done;
    ex, id, funded, done := FillOnce();
    firstFill := [ex.BalanceOf(Native, Account1), ex.CommitmentsOf(Native, Account1), ex.BalanceOf(Yst, Account0)];
    var e := ex.ExecuteOrder(Account0, id, 34);
    secondFill := [ex.BalanceOf(Native, Account1), ex.CommitmentsOf(Native, Account1), ex.BalanceOf(Yst, Account0)];
    var r1 := ex.Redeem(Native, Account1, 1);
    var r2 := ex.Redeem(Yst, Account1, 1234);
    var r3 := ex.Redeem(Native, Account0, 1233);
    redeemed := [ex.BalanceOf(Yst, Account0), ex.BalanceOf(Yst, Account1),
                 ex.BalanceOf(Native, Account1), ex.BalanceOf(Native, Account0)];
    succeeded := done && e.Done? && r1.Done? && r2.Done? && r3.Done?;
  }

  /** Lines 423-474 up to the first fill, which leaves 34 wei on offer. */
  method FillOnce() returns (ex: Exchange, id: OrderId, funded: seq<nat>, succeeded: bool)
    ensures fresh(ex) && ex.Valid()
    ensures funded == [1234, 0, 1234]
    ensures id in ex.orders && ex.orders[id] == Order(Account1, Native, Yst, 34, 1, 1, Active)
    ensures ex.BalanceOf(Native, Account1) == 1 && ex.CommitmentsOf(Native, Account1) == 34
    ensures ex.BalanceOf(Native, Account0) == 1199
    ensures ex.BalanceOf(Yst, Account0) == 34 && ex.BalanceOf(Yst, Account1) == 1200
    ensures succeeded
  {
    ex := new Exchange();
    var d1 := ex.Deposit(Native, Account1, 1234);
    var d2 := ex.Deposit(Yst, Account0, 1234);
    funded := [ex.BalanceOf(Native, Account1), ex.CommitmentsOf(Native, Account1), ex.BalanceOf(Yst, Account0)];
    var c := ex.CreateOrder(Account1, Native, Yst, 1234, 1, 1);
    var e := ex.ExecuteOrder(Account0, c.value, 1200);
    id := c.value;
    succeeded := d1.Done? && d2.Done? && c.Ok? && e.Done?;
  }

  /** Lines 476-490: no order trading an asset for itself. */
  method SameAssetRejected() returns (succeeded: bool, refused: bool)
    ensures succeeded && refused
  {
    var ex := new Exchange();
    var d := ex.Deposit(Yst, Account0, 1234);
    var c := ex.CreateOrder(Account0, Yst, Yst, 1234, 1, 1);
    var r := ex.Redeem(Yst, Account0, 1234);
    succeeded := d.Done? && r.Done?;
    refused := c.Err?;
  }

  /** Lines 492-509: no fill of an id that was never created. */
  method UnknownOrderRejected() returns (succeeded: bool, refused: bool)
    ensures succeeded && refused
  {
    var ex := new Exchange();
    var d := ex.Deposit(Yst, Account0, 1234);
    var c := ex.CreateOrder(Account0, Yst, Native, 1234, 1, 1);
    var e := ex.ExecuteOrder(Account1, c.value + 2, 1234);
    var x := ex.CancelOrder(Account0, c.value);
    var r := ex.Redeem(Yst, Account0, 1234);
    succeeded := d.Done? && c.Ok? && x.Done? && r.Done?;
    refused := e.Fail?;
  }

  /** Lines 511-525: no order whose whole amount is worth nothing at its price. */
  method WorthlessOrderRejected() returns (succeeded: bool, refused: bool)
    ensures succeeded && refused
  {
    var ex := new Exchange();
    var d := ex.Deposit(Yst, Account0, 1234);
    var c := ex.CreateOrder(Account0, Yst, Native, 1234, 1, 100000);
    var r := ex.Redeem(Yst, Account0, 1234);
    succeeded := d.Done? && r.Done?;
    refused := c.Err?;
  }

  /** Lines 527-547: a filled order cannot be cancelled; the maker's fee of 1 token stays redeemable. */
  method FilledCannotBeCancelled() returns (succeeded: bool, refused: bool)
    ensures succeeded && refused
  {
    var ex := new Exchange();
    var d1 := ex.Deposit(Yst, Account0, 1234);
    var d2 := ex.Deposit(Native, Account1, 1234);
    var c := ex.CreateOrder(Account0, Yst, Native, 1234, 1, 1);
    var e := ex.ExecuteOrder(Account1, c.value, 1234);
    var x := ex.CancelOrder(Account0, c.value);
    var r1 := ex.Redeem(Native, Account0, 1234);
    var r2 := ex.Redeem(Yst, Account1, 1233);
    var r3 := ex.Redeem(Yst, Account0, 1);
    succeeded := d1.Done? && d2.Done? && c.Ok? && e.Done? && r1.Done? && r2.Done? && r3.Done?;
    refused := x.Fail?;
  }

  /** Lines 549-569: a maker cannot fill its own order. */
  method SelfTradeRejected() returns (succeeded: bool, refused: bool)
    ensures succeeded && refused
  {
    var ex := new Exchange();
    var d1 := ex.Deposit(Yst, Account0, 1234);
    var d2 := ex.Deposit(Native, Account0, 1234);
    var c := ex.CreateOrder(Account0, Yst, Native, 1234, 1, 1);
    var e := ex.ExecuteOrder(Account0, c.value, 1234);
    var x := ex.CancelOrder(Account0, c.value);
    var r1 := ex.Redeem(Native, Account0, 1234);
    var r2 := ex.Redeem(Yst, Account0, 1234);
    succeeded := d1.Done? && d2.Done? && c.Ok? && x.Done? && r1.Done? && r2.Done?;
    refused := e.Fail?;
  }

  /** Lines 571-591: no fill of zero units. */
  method ZeroFillRejected() returns (succeeded: bool, refused: bool)
    ensures succeeded && refused
  {
    var ex := new Exchange();
    var d1 := ex.Deposit(Yst, Account0, 1234);
    var d2 := ex.Deposit(Native, Account1, 1234);
    var c := ex.CreateOrder(Account0, Yst, Native, 1234, 1, 1);
    var e := ex.ExecuteOrder(Account1, c.value, 0);
    var x := ex.CancelOrder(Account0, c.value);
    var r1 := ex.Redeem(Yst, Account0, 1234);
    var r2 := ex.Redeem(Native, Account1, 1234);
    succeeded := d1.Done? && d2.Done? && c.Ok? && x.Done? && r1.Done? && r2.Done?;
    refused := e.Fail?;
  }

  /** Lines 593-621: no order of zero amount, zero price or infinite price. */
  method DegenerateOrdersRejected() returns (succeeded: bool, refused: bool)
    ensures succeeded && refused
  {
    var ex := new Exchange();
    var d := ex.Deposit(Yst, Account0, 1234);
    var c1 := ex.CreateOrder(Account0, Yst, Native, 0, 1, 1);
    var c2 := ex.CreateOrder(Account0, Yst, Native, 1234, 0, 1);
    var c3 := ex.CreateOrder(Account0, Yst, Native, 1234, 1, 0);
    var r := ex.Redeem(Yst, Account0, 1234);
    succeeded := d.Done? && r.Done?;
    refused := c1.Err? && c2.Err? && c3.Err?;
  }

  /** Lines 623-637: redeeming nothing is refused. */
  method RedeemNothingRejected() returns (succeeded: bool, refused: bool)
    ensures succeeded && refused
  {
    var ex := new Exchange();
    var d := ex.Deposit(Yst, Account0, 1234);
    var z := ex.Redeem(Yst, Account0, 0);
    var r := ex.Redeem(Yst, Account0, 1234);
    succeeded := d.Done? && r.Done?;
    refused := z.Fail?;
  }
}
