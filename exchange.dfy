/**
 * The YouStockExchange contract: a ledger of available and committed balances
 * per (asset, account), and a book of limit orders that a counterparty fills
 * explicitly by id. Every entry point either applies all of its effects or
 * fails with a named error and changes nothing.
 */
module YouStock {
  import opened Ledger
  import opened Pricing

  type OrderId = nat

  /** Active until cancelled by its maker or filled completely; both ends are terminal. */
  datatype Status = Active | Cancelled | Filled

  /**
   * A standing offer by `maker` to give up to `remaining` units of `give` for
   * `get`, at num/den get-units per give-unit.
   */
  datatype Order = Order(maker: Address, give: Asset, get: Asset, remaining: nat, num: nat, den: nat, status: Status)

  datatype Error =
    | InsufficientBalance
    | ZeroAmount
    | InvalidPrice
    | SameAssetOrder
    | OrderNotFound
    | OrderNotActive
    | UnauthorizedCancel
    | OrderCapacityExceeded
    | SelfTrade

  /** Outcome of an entry point that returns nothing on success. */
  datatype Outcome = Done | Fail(error: Error)

  /** Outcome of an entry point that returns a value on success. */
  datatype Result<T> = Ok(value: T) | Err(error: Error)

  datatype Option<T> = None | Some(value: T)

  /** What holds of every order the contract ever stored. */
  predicate WellFormed(o: Order)
  {
    && o.give != o.get
    && o.num > 0
    && o.den > 0
    && (o.status == Active ==> o.remaining > 0)
    && (o.status == Filled ==> o.remaining == 0)
  }

  /** What an order still offers: its remaining amount while active, nothing once ended. */
  function Offered(o: Order): nat
  {
    if o.status == Active then o.remaining else 0
  }

  /** What order `o` still locks in slot `s`. */
  function LockedShare(s: Slot, o: Order): nat
  {
    if o.give == s.asset && o.maker == s.account then Offered(o) else 0
  }

  /** What the orders of `s.account` still lock of asset `s.asset`. */
  ghost function Locked(orders: map<OrderId, Order>, s: Slot): nat
    decreases |orders|
  {
    if orders == map[] then 0
    else
      assert orders.Keys != {};
      var id :| id in orders;
      assert |orders - {id}| < |orders| by { assert (orders - {id}).Keys == orders.Keys - {id}; }
      LockedShare(s, orders[id]) + Locked(orders - {id}, s)
  }

  /** Any order can be taken out of the sum first. */
  lemma {:induction false} LockedRemove(orders: map<OrderId, Order>, id: OrderId, s: Slot)
    requires id in orders
    ensures Locked(orders, s) == LockedShare(s, orders[id]) + Locked(orders - {id}, s)
    decreases |orders|
  {
    var j :| j in orders && Locked(orders, s) == LockedShare(s, orders[j]) + Locked(orders - {j}, s);
    if j != id {
      assert (orders - {j}).Keys == orders.Keys - {j};
      assert (orders - {id}).Keys == orders.Keys - {id};
      LockedRemove(orders - {j}, id, s);
      LockedRemove(orders - {id}, j, s);
      assert orders - {j} - {id} == orders - {id} - {j};
    }
  }

  /** Storing `o` under `id` changes what is locked by the change in that one order's share. */
  lemma LockedUpdate(orders: map<OrderId, Order>, id: OrderId, o: Order, s: Slot)
    ensures Locked(orders[id := o], s)
         == Locked(orders, s) - (if id in orders then LockedShare(s, orders[id]) else 0) + LockedShare(s, o)
  {
    LockedRemove(orders[id := o], id, s);
    if id in orders {
      LockedRemove(orders, id, s);
      assert orders[id := o] - {id} == orders - {id};
    } else {
      assert orders[id := o] - {id} == orders;
    }
  }

  /** Every stored order is well formed and has an id below the counter. */
  ghost predicate Catalogued(orders: map<OrderId, Order>, nextId: OrderId)
  {
    forall id :: id in orders ==> id < nextId && WellFormed(orders[id])
  }

  /** Storing a well-formed order under an id below the (possibly advanced) counter keeps the catalogue. */
  lemma CataloguedAfterStore(orders: map<OrderId, Order>, nextId: OrderId, id: OrderId, o: Order, nextId': OrderId)
    requires Catalogued(orders, nextId)
    requires WellFormed(o) && id < nextId' && nextId <= nextId'
    ensures Catalogued(orders[id := o], nextId')
  {
  }

  /** Every committed balance is exactly what its owner's orders in that asset still offer. */
  ghost predicate Tracks(commitments: Balances, orders: map<OrderId, Order>)
  {
    forall s {:trigger Locked(orders, s)} :: Get(commitments, s) == Locked(orders, s)
  }

  /** Every active order is covered by its maker's committed balance. */
  ghost predicate Backed(commitments: Balances, orders: map<OrderId, Order>)
  {
    forall id :: id in orders && orders[id].status == Active ==>
      orders[id].remaining <= Get(commitments, Slot(orders[id].give, orders[id].maker))
  }

  /** An active order's remaining amount is part of what its maker has locked. */
  lemma {:induction false} TracksBacks(commitments: Balances, orders: map<OrderId, Order>)
    requires Tracks(commitments, orders)
    ensures Backed(commitments, orders)
  {
    forall id | id in orders && orders[id].status == Active
      ensures orders[id].remaining <= Get(commitments, Slot(orders[id].give, orders[id].maker))
    {
      var o := orders[id];
      assert Get(commitments, Slot(o.give, o.maker)) == Locked(orders, Slot(o.give, o.maker));
      LockedRemove(orders, id, Slot(o.give, o.maker));
    }
  }

  /**
   * Storing order `o` under `id` (new, or replacing one with the same maker
   * and give-asset) while moving the maker's committed balance by the change
   * in what is offered keeps commitments tracking the orders.
   */
  lemma TracksAfterStore(commitments: Balances, orders: map<OrderId, Order>, id: OrderId, o: Order, delta: int)
    requires Tracks(commitments, orders)
    requires id in orders ==> orders[id].give == o.give && orders[id].maker == o.maker
    requires delta == Offered(o) - (if id in orders then Offered(orders[id]) else 0)
    requires Get(commitments, Slot(o.give, o.maker)) + delta >= 0
    ensures Tracks(Adjust(commitments, Slot(o.give, o.maker), delta), orders[id := o])
    ensures Backed(Adjust(commitments, Slot(o.give, o.maker), delta), orders[id := o])
  {
    var c' := Adjust(commitments, Slot(o.give, o.maker), delta);
    forall s ensures Get(c', s) == Locked(orders[id := o], s) {
      LockedUpdate(orders, id, o, s);
    }
    TracksBacks(c', orders[id := o]);
  }

  /**
   * The four transfers of a fill: `pays` of the get-asset from the taker to
   * the maker, then `receives` and `keeps` of the give-asset credited to the
   * taker and the maker.
   */
  function Transfers(b: Balances, o: Order, taker: Address, pays: nat, receives: nat, keeps: nat): (r: Balances)
    requires o.give != o.get && taker != o.maker
    requires pays <= Get(b, Slot(o.get, taker))
    ensures Get(r, Slot(o.get, taker)) == Get(b, Slot(o.get, taker)) - pays
    ensures Get(r, Slot(o.get, o.maker)) == Get(b, Slot(o.get, o.maker)) + pays
    ensures Get(r, Slot(o.give, taker)) == Get(b, Slot(o.give, taker)) + receives
    ensures Get(r, Slot(o.give, o.maker)) == Get(b, Slot(o.give, o.maker)) + keeps
    ensures forall t: Slot :: t.asset != o.give && t.asset != o.get ==> Get(r, t) == Get(b, t)
    ensures forall t: Slot :: t.account != taker && t.account != o.maker ==> Get(r, t) == Get(b, t)
  {
    var paid := Adjust(b, Slot(o.get, taker), -(pays as int));
    var received := Adjust(paid, Slot(o.get, o.maker), pays);
    var delivered := Adjust(received, Slot(o.give, taker), receives);
    Adjust(delivered, Slot(o.give, o.maker), keeps)
  }

  /** The transfers of a fill change only the give-asset's total, by the two credits. */
  lemma TransfersTotal(b: Balances, o: Order, taker: Address, pays: nat, receives: nat, keeps: nat, a: Asset)
    requires o.give != o.get && taker != o.maker
    requires pays <= Get(b, Slot(o.get, taker))
    ensures AssetTotal(Transfers(b, o, taker, pays, receives, keeps), a)
         == AssetTotal(b, a) + (if a == o.give then receives + keeps else 0)
  {
    var paid := Adjust(b, Slot(o.get, taker), -(pays as int));
    var received := Adjust(paid, Slot(o.get, o.maker), pays);
    var delivered := Adjust(received, Slot(o.give, taker), receives);
    var final := Adjust(delivered, Slot(o.give, o.maker), keeps);
    assert final == Transfers(b, o, taker, pays, receives, keeps);
    AdjustTotal(b, Slot(o.get, taker), -(pays as int), a);
    AdjustTotal(paid, Slot(o.get, o.maker), pays, a);
    assert AssetTotal(received, a) == AssetTotal(b, a);
    AdjustTotal(received, Slot(o.give, taker), receives, a);
    AdjustTotal(delivered, Slot(o.give, o.maker), keeps, a);
    if a == o.give {
      assert AssetTotal(final, a) == AssetTotal(b, a) + receives + keeps;
    } else {
      assert AssetTotal(final, a) == AssetTotal(b, a);
    }
  }

  /**
   * The available balances once `taker` fills `consumed` give-units of order
   * `o`: the taker pays the converted price to the maker and receives the
   * consumed units less the fee, which the maker keeps.
   */
  function PayOut(b: Balances, o: Order, taker: Address, consumed: nat): (r: Balances)
    requires o.give != o.get && taker != o.maker && o.den > 0
    requires Convert(consumed, o.num, o.den) <= Get(b, Slot(o.get, taker))
    ensures Get(r, Slot(o.get, taker)) == Get(b, Slot(o.get, taker)) - Convert(consumed, o.num, o.den)
    ensures Get(r, Slot(o.get, o.maker)) == Get(b, Slot(o.get, o.maker)) + Convert(consumed, o.num, o.den)
    ensures Get(r, Slot(o.give, taker)) == Get(b, Slot(o.give, taker)) + (consumed - Fee(consumed))
    ensures Get(r, Slot(o.give, o.maker)) == Get(b, Slot(o.give, o.maker)) + Fee(consumed)
    ensures forall t: Slot :: t.asset != o.give && t.asset != o.get ==> Get(r, t) == Get(b, t)
    ensures forall t: Slot :: t.account != taker && t.account != o.maker ==> Get(r, t) == Get(b, t)
  {
    Transfers(b, o, taker, Convert(consumed, o.num, o.den), consumed - Fee(consumed), Fee(consumed))
  }

  /** Settling a fill moves the get-asset between accounts and adds the consumed give-asset. */
  lemma PayOutTotal(b: Balances, o: Order, taker: Address, consumed: nat, a: Asset)
    requires o.give != o.get && taker != o.maker && o.den > 0
    requires Convert(consumed, o.num, o.den) <= Get(b, Slot(o.get, taker))
    ensures AssetTotal(PayOut(b, o, taker, consumed), a) == AssetTotal(b, a) + (if a == o.give then consumed else 0)
  {
    TransfersTotal(b, o, taker, Convert(consumed, o.num, o.den), consumed - Fee(consumed), Fee(consumed), a);
  }

  /**
   * A fill moves value and creates none: per asset, what the available and
   * committed columns hold together is the same before and after.
   */
  lemma FillConserves(b: Balances, c: Balances, o: Order, taker: Address, consumed: nat)
    requires o.give != o.get && taker != o.maker && o.den > 0
    requires Convert(consumed, o.num, o.den) <= Get(b, Slot(o.get, taker))
    requires consumed <= Get(c, Slot(o.give, o.maker))
    ensures forall a ::
      AssetTotal(PayOut(b, o, taker, consumed), a) + AssetTotal(Adjust(c, Slot(o.give, o.maker), -(consumed as int)), a)
      == AssetTotal(b, a) + AssetTotal(c, a)
  {
    forall a
      ensures AssetTotal(PayOut(b, o, taker, consumed), a) + AssetTotal(Adjust(c, Slot(o.give, o.maker), -(consumed as int)), a)
           == AssetTotal(b, a) + AssetTotal(c, a)
    {
      PayOutTotal(b, o, taker, consumed, a);
      AdjustTotal(c, Slot(o.give, o.maker), -(consumed as int), a);
    }
  }

  class Exchange {
    /** Available balance per (asset, account): free to commit or redeem. */
    var balance: Balances
    /** Committed balance per (asset, account): locked by active orders. */
    var commitments: Balances
    /** Every order ever created, kept after it ends. */
    var orders: map<OrderId, Order>
    /** The id the next order will get. */
    var nextId: OrderId

    /**
     * Ids below the counter, orders well formed, and each committed balance
     * exactly what the owner's active orders in that asset still offer.
     */
    ghost predicate Valid()
      reads this
    {
      && Catalogued(orders, nextId)
      && Tracks(commitments, orders)
      && Backed(commitments, orders)
    }

    /** balanceOf(asset, account): what the account can still redeem or commit; never more than the exchange holds. */
    function BalanceOf(asset: Asset, account: Address): (r: nat)
      reads this
    {
      Get(balance, Slot(asset, account))
    }

    /**
     * commitmentsOf(asset, account): in a valid exchange, exactly what the
     * account's active orders giving that asset still offer.
     */
    function CommitmentsOf(asset: Asset, account: Address): (r: nat)
      reads this
      ensures Valid() ==> r == Locked(orders, Slot(asset, account))
    {
      Get(commitments, Slot(asset, account))
    }

    /** All of asset `a` the ledger records, available and committed, over all accounts. */
    ghost function Held(a: Asset): nat
      reads this
    {
      AssetTotal(balance, a) + AssetTotal(commitments, a)
    }

    /** What one account has at the exchange, available and committed, never exceeds what the exchange holds. */
    lemma HoldingsWithinHeld(asset: Asset, account: Address)
      ensures BalanceOf(asset, account) + CommitmentsOf(asset, account) <= Held(asset)
    {
      SlotWithinTotal(balance, Slot(asset, account));
      SlotWithinTotal(commitments, Slot(asset, account));
    }

    /** The conditions under which redeem succeeds. */
    predicate CanRedeem(asset: Asset, account: Address, amount: nat)
      reads this
    {
      0 < amount <= BalanceOf(asset, account)
    }

    /** `e` names a condition of redeem that does not hold. */
    predicate RedeemRefusal(e: Error, asset: Asset, account: Address, amount: nat)
      reads this
    {
      match e
      case ZeroAmount => amount == 0
      case InsufficientBalance => amount > BalanceOf(asset, account)
      case _ => false
    }

    /** The conditions under which createOrder succeeds. */
    predicate CanCreate(maker: Address, give: Asset, get: Asset, amount: nat, num: nat, den: nat)
      reads this
    {
      && give != get
      && amount > 0
      && num > 0
      && den > 0
      && Convert(amount, num, den) > 0
      && amount <= BalanceOf(give, maker)
    }

    /** `e` names a condition of createOrder that does not hold. */
    predicate CreateRefusal(e: Error, maker: Address, give: Asset, get: Asset, amount: nat, num: nat, den: nat)
      reads this
    {
      match e
      case SameAssetOrder => give == get
      case ZeroAmount => amount == 0 || (den > 0 && Convert(amount, num, den) == 0)
      case InvalidPrice => num == 0 || den == 0
      case InsufficientBalance => amount > BalanceOf(give, maker)
      case _ => false
    }

    /** The conditions under which cancelOrder succeeds. */
    predicate CanCancel(caller: Address, id: OrderId)
      reads this
    {
      id in orders && orders[id].maker == caller && orders[id].status == Active
    }

    /** `e` names a condition of cancelOrder that does not hold. */
    predicate CancelRefusal(e: Error, caller: Address, id: OrderId)
      reads this
    {
      match e
      case OrderNotFound => id !in orders
      case UnauthorizedCancel => id in orders && orders[id].maker != caller
      case OrderNotActive => id in orders && orders[id].status != Active
      case _ => false
    }

    /** The conditions under which executeOrder succeeds. */
    predicate CanFill(caller: Address, id: OrderId, consumed: nat)
      reads this
    {
      && id in orders
      && orders[id].status == Active
      && 0 < consumed <= orders[id].remaining
      && caller != orders[id].maker
      && orders[id].den > 0
      && 0 < Convert(consumed, orders[id].num, orders[id].den) <= BalanceOf(orders[id].get, caller)
    }

    /** `e` names a condition of executeOrder that does not hold. */
    predicate FillRefusal(e: Error, caller: Address, id: OrderId, consumed: nat)
      reads this
    {
      match e
      case OrderNotFound => id !in orders
      case OrderNotActive => id in orders && orders[id].status != Active
      case ZeroAmount =>
        consumed == 0 || (id in orders && orders[id].den > 0 && Convert(consumed, orders[id].num, orders[id].den) == 0)
      case OrderCapacityExceeded => id in orders && consumed > orders[id].remaining
      case SelfTrade => id in orders && caller == orders[id].maker
      case InsufficientBalance =>
        id in orders && orders[id].den > 0 && Convert(consumed, orders[id].num, orders[id].den) > BalanceOf(orders[id].get, caller)
      case _ => false
    }

    /** The error redeem reports, if any. */
    function RedeemError(asset: Asset, account: Address, amount: nat): (e: Option<Error>)
      reads this
      ensures e.None? <==> CanRedeem(asset, account, amount)
      ensures e.Some? ==> RedeemRefusal(e.value, asset, account, amount)
    {
      if amount == 0 then Some(ZeroAmount)
      else if BalanceOf(asset, account) < amount then Some(InsufficientBalance)
      else None
    }

    /** The error createOrder reports, if any. */
    function CreateError(maker: Address, give: Asset, get: Asset, amount: nat, num: nat, den: nat): (e: Option<Error>)
      reads this
      ensures e.None? <==> CanCreate(maker, give, get, amount, num, den)
      ensures e.Some? ==> CreateRefusal(e.value, maker, give, get, amount, num, den)
    {
      if give == get then Some(SameAssetOrder)
      else if amount == 0 then Some(ZeroAmount)
      else if num == 0 || den == 0 then Some(InvalidPrice)
      else if Convert(amount, num, den) == 0 then Some(ZeroAmount)
      else if BalanceOf(give, maker) < amount then Some(InsufficientBalance)
      else None
    }

    /** The error cancelOrder reports, if any. */
    function CancelError(caller: Address, id: OrderId): (e: Option<Error>)
      reads this
      ensures e.None? <==> CanCancel(caller, id)
      ensures e.Some? ==> CancelRefusal(e.value, caller, id)
    {
      if id !in orders then Some(OrderNotFound)
      else if orders[id].maker != caller then Some(UnauthorizedCancel)
      else if orders[id].status != Active then Some(OrderNotActive)
      else None
    }

    /** The error executeOrder reports, if any. */
    function FillError(caller: Address, id: OrderId, consumed: nat): (e: Option<Error>)
      reads this
      requires id in orders ==> orders[id].den > 0
      ensures e.None? <==> CanFill(caller, id, consumed)
      ensures e.Some? ==> FillRefusal(e.value, caller, id, consumed)
    {
      if id !in orders then Some(OrderNotFound)
      else
        var o := orders[id];
        if o.status != Active then Some(OrderNotActive)
        else if consumed == 0 then Some(ZeroAmount)
        else if consumed > o.remaining then Some(OrderCapacityExceeded)
        else if caller == o.maker then Some(SelfTrade)
        else if Convert(consumed, o.num, o.den) == 0 then Some(ZeroAmount)
        else if BalanceOf(o.get, caller) < Convert(consumed, o.num, o.den) then Some(InsufficientBalance)
        else None
    }

    /** A freshly deployed exchange: no balances, no orders. */
    constructor ()
      ensures Valid()
      ensures balance == map[] && commitments == map[] && orders == map[] && nextId == 0
    {
      balance, commitments, orders, nextId := map[], map[], map[], 0;
    }

    /**
     * fund, and a token transfer to the exchange: credits `amount` of `asset`
     * to `account`'s available balance.
     */
    method Deposit(asset: Asset, account: Address, amount: nat) returns (r: Outcome)
      requires Valid()
      modifies this
      ensures Valid()
      ensures r.Done? <==> amount > 0
      ensures r.Fail? ==> r.error == ZeroAmount && unchanged(this)
      ensures r.Done? ==> balance == Adjust(old(balance), Slot(asset, account), amount)
      ensures commitments == old(commitments) && orders == old(orders) && nextId == old(nextId)
      ensures forall a :: Held(a) == old(Held(a)) + (if r.Done? && a == asset then amount else 0)
    {
      if amount == 0 {
        return Fail(ZeroAmount);
      }
      ghost var b0 := balance;
      balance := Adjust(balance, Slot(asset, account), amount);
      forall a ensures Held(a) == old(Held(a)) + (if a == asset then amount else 0) {
        AdjustTotal(b0, Slot(asset, account), amount, a);
      }
      r := Done;
    }

    /** redeem: takes `amount` of `asset` out of `account`'s available balance. */
    method Redeem(asset: Asset, account: Address, amount: nat) returns (r: Outcome)
      requires Valid()
      modifies this
      ensures Valid()
      ensures r.Done? <==> old(CanRedeem(asset, account, amount))
      ensures r.Fail? ==> old(RedeemRefusal(r.error, asset, account, amount)) && unchanged(this)
      ensures r.Done? ==> balance == Adjust(old(balance), Slot(asset, account), -(amount as int))
      ensures commitments == old(commitments) && orders == old(orders) && nextId == old(nextId)
      ensures forall a :: Held(a) == old(Held(a)) - (if r.Done? && a == asset then amount else 0)
    {
      var e := RedeemError(asset, account, amount);
      if e.Some? {
        return Fail(e.value);
      }
      ghost var b0 := balance;
      balance := Adjust(balance, Slot(asset, account), -(amount as int));
      forall a ensures Held(a) == old(Held(a)) - (if a == asset then amount else 0) {
        AdjustTotal(b0, Slot(asset, account), -(amount as int), a);
      }
      r := Done;
    }

    /**
     * createOrder: commits `amount` of `give` from the maker's available
     * balance to a new active order priced num/den, under the next id.
     */
    method CreateOrder(maker: Address, give: Asset, get: Asset, amount: nat, num: nat, den: nat)
      returns (r: Result<OrderId>)
      requires Valid()
      modifies this
      ensures Valid()
      ensures r.Ok? <==> old(CanCreate(maker, give, get, amount, num, den))
      ensures r.Err? ==> old(CreateRefusal(r.error, maker, give, get, amount, num, den)) && unchanged(this)
      ensures r.Ok? ==>
        && r.value == old(nextId)
        && nextId == old(nextId) + 1
        && r.value !in old(orders)
        && orders == old(orders)[r.value := Order(maker, give, get, amount, num, den, Active)]
        && balance == Adjust(old(balance), Slot(give, maker), -(amount as int))
        && commitments == Adjust(old(commitments), Slot(give, maker), amount)
      ensures forall a :: Held(a) == old(Held(a))
    {
      var e := CreateError(maker, give, get, amount, num, den);
      if e.Some? {
        return Err(e.value);
      }
      var id := nextId;
      var order := Order(maker, give, get, amount, num, den, Active);
      ghost var b0, c0, o0 := balance, commitments, orders;
      var slot := Slot(give, maker);
      balance := Adjust(balance, slot, -(amount as int));
      commitments := Adjust(commitments, slot, amount);
      orders := orders[id := order];
      nextId := nextId + 1;
      CataloguedAfterStore(o0, id, id, order, nextId);
      TracksAfterStore(c0, o0, id, order, amount);
      forall a ensures Held(a) == old(Held(a)) {
        AdjustTotal(b0, slot, -(amount as int), a);
        AdjustTotal(c0, slot, amount, a);
      }
      r := Ok(id);
    }

    /**
     * cancelOrder: the maker ends an active order; what it still offered goes
     * back from committed to available. The order is kept, marked Cancelled.
     */
    method CancelOrder(caller: Address, id: OrderId) returns (r: Outcome)
      requires Valid()
      modifies this
      ensures Valid()
      ensures r.Done? <==> old(CanCancel(caller, id))
      ensures r.Fail? ==> old(CancelRefusal(r.error, caller, id)) && unchanged(this)
      ensures r.Done? ==>
        var o := old(orders[id]);
        && orders == old(orders)[id := o.(status := Cancelled)]
        && balance == Adjust(old(balance), Slot(o.give, o.maker), o.remaining)
        && commitments == Adjust(old(commitments), Slot(o.give, o.maker), -(o.remaining as int))
      ensures nextId == old(nextId)
      ensures forall a :: Held(a) == old(Held(a))
    {
      var e := CancelError(caller, id);
      if e.Some? {
        return Fail(e.value);
      }
      var o := orders[id];
      var slot := Slot(o.give, caller);
      var cancelled := o.(status := Cancelled);
      ghost var b0, c0, o0 := balance, commitments, orders;
      balance := Adjust(balance, slot, o.remaining);
      commitments := Adjust(commitments, slot, -(o.remaining as int));
      orders := orders[id := cancelled];
      CataloguedAfterStore(o0, nextId, id, cancelled, nextId);
      TracksAfterStore(c0, o0, id, cancelled, -(o.remaining as int));
      forall a ensures Held(a) == old(Held(a)) {
        AdjustTotal(b0, slot, o.remaining, a);
        AdjustTotal(c0, slot, -(o.remaining as int), a);
      }
      r := Done;
    }

    /**
     * executeOrder: `caller` takes `consumed` give-units of order `id`. The
     * taker pays the converted price in the get-asset to the maker, receives
     * the consumed units less the fee, and the maker keeps the fee; the order
     * shrinks by `consumed` and is Filled once nothing remains.
     */
    method ExecuteOrder(caller: Address, id: OrderId, consumed: nat) returns (r: Outcome)
      requires Valid()
      modifies this
      ensures Valid()
      ensures r.Done? <==> old(CanFill(caller, id, consumed))
      ensures r.Fail? ==> old(FillRefusal(r.error, caller, id, consumed)) && unchanged(this)
      ensures r.Done? ==>
        var o := old(orders[id]);
        && orders == old(orders)[id := o.(remaining := o.remaining - consumed,
                                          status := if consumed == o.remaining then Filled else Active)]
        && balance == PayOut(old(balance), o, caller, consumed)
        && commitments == Adjust(old(commitments), Slot(o.give, o.maker), -(consumed as int))
      ensures nextId == old(nextId)
      ensures forall a :: Held(a) == old(Held(a))
    {
      var e := FillError(caller, id, consumed);
      if e.Some? {
        return Fail(e.value);
      }
      var o := orders[id];
      ghost var b0, c0, o0 := balance, commitments, orders;
      balance := PayOut(balance, o, caller, consumed);
      commitments := Adjust(commitments, Slot(o.give, o.maker), -(consumed as int));
      var left := o.remaining - consumed;
      var filled := o.(remaining := left, status := if left == 0 then Filled else Active);
      orders := orders[id := filled];
      CataloguedAfterStore(o0, nextId, id, filled, nextId);
      TracksAfterStore(c0, o0, id, filled, -(consumed as int));
      FillConserves(b0, c0, o, caller, consumed);
      r := Done;
    }
  }
}
