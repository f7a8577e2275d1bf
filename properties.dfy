/**
 * Round trips of the exchange, for every state and every argument: what one
 * operation does, its partner undoes.
 */
module Properties {
  import opened Ledger
  import opened YouStock

  /**
   * Creating an order and cancelling it straight away leaves every available
   * and every committed balance as it was; only the order table (which keeps
   * the order, cancelled) and the id counter move.
   */
  method CreateThenCancel(ex: Exchange, maker: Address, give: Asset, get: Asset, amount: nat, num: nat, den: nat)
    returns (created: Result<OrderId>, cancelled: Outcome)
    requires ex.Valid()
    modifies ex
    ensures ex.Valid()
    ensures created.Ok? ==> cancelled.Done?
    ensures created.Ok? ==> ex.orders == old(ex.orders)[created.value := Order(maker, give, get, amount, num, den, Cancelled)]
    ensures forall t :: Get(ex.balance, t) == old(Get(ex.balance, t))
    ensures forall t :: Get(ex.commitments, t) == old(Get(ex.commitments, t))
  {
    cancelled := Fail(OrderNotFound);
    created := ex.CreateOrder(maker, give, get, amount, num, den);
    if created.Ok? {
      cancelled := ex.CancelOrder(maker, created.value);
    }
  }

  /** Depositing an amount and redeeming it again leaves every available balance as it was. */
  method DepositThenRedeem(ex: Exchange, asset: Asset, account: Address, amount: nat)
    returns (deposited: Outcome, redeemed: Outcome)
    requires ex.Valid()
    modifies ex
    ensures ex.Valid()
    ensures deposited.Done? <==> amount > 0
    ensures deposited.Done? ==> redeemed.Done?
    ensures forall t :: Get(ex.balance, t) == old(Get(ex.balance, t))
    ensures ex.commitments == old(ex.commitments) && ex.orders == old(ex.orders)
  {
    redeemed := Fail(ZeroAmount);
    deposited := ex.Deposit(asset, account, amount);
    if deposited.Done? {
      redeemed := ex.Redeem(asset, account, amount);
    }
  }
}
