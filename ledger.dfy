/**
 * The exchange's ledger vocabulary: assets, accounts, the (asset, account)
 * slots that balances are kept in, and per-asset totals over a map of slots.
 */
module Ledger {

  /** An on-chain address (accounts and token contracts alike). */
  type Address = nat

  /** A token contract's address: never 0x0, which stands for the native currency. */
  type TokenAddress = a: Address | a != 0 witness 1

  /** Address 0x0 stands for the native currency; any other asset is a token contract. */
  datatype Asset = Native | Token(contract: TokenAddress)

  /** One ledger cell: the balance one account holds in one asset. */
  datatype Slot = Slot(asset: Asset, account: Address)

  /** A ledger column: absent slots read as 0. */
  type Balances = map<Slot, nat>

  function Get(b: Balances, s: Slot): nat
  {
    if s in b then b[s] else 0
  }

  /** `b` with the amount at `s` moved by `delta` (a credit when positive, a debit when negative). */
  function Adjust(b: Balances, s: Slot, delta: int): Balances
    requires Get(b, s) + delta >= 0
  {
    b[s := Get(b, s) + delta]
  }

  /** The total of asset `a` recorded in a ledger column, over all accounts. */
  ghost function AssetTotal(b: Balances, a: Asset): nat
    decreases |b|
  {
    if b == map[] then 0
    else
      assert b.Keys != {};
      var k :| k in b;
      assert |b - {k}| < |b| by { assert (b - {k}).Keys == b.Keys - {k}; }
      (if k.asset == a then b[k] else 0) + AssetTotal(b - {k}, a)
  }

  /** Any slot can be taken out of the sum first. */
  lemma {:induction false} AssetTotalRemove(b: Balances, k: Slot, a: Asset)
    requires k in b
    ensures AssetTotal(b, a) == (if k.asset == a then b[k] else 0) + AssetTotal(b - {k}, a)
    decreases |b|
  {
    var j :| j in b && AssetTotal(b, a) == (if j.asset == a then b[j] else 0) + AssetTotal(b - {j}, a);
    if j != k {
      assert (b - {j}).Keys == b.Keys - {j};
      assert (b - {k}).Keys == b.Keys - {k};
      AssetTotalRemove(b - {j}, k, a);
      AssetTotalRemove(b - {k}, j, a);
      assert b - {j} - {k} == b - {k} - {j};
    }
  }

  /** No single slot holds more of an asset than the column's total of it. */
  lemma SlotWithinTotal(b: Balances, s: Slot)
    ensures Get(b, s) <= AssetTotal(b, s.asset)
  {
    if s in b {
      AssetTotalRemove(b, s, s.asset);
    }
  }

  /** Moving the amount at one slot changes the asset's total by that move, and no other asset's. */
  lemma AdjustTotal(b: Balances, s: Slot, delta: int, a: Asset)
    requires Get(b, s) + delta >= 0
    ensures AssetTotal(Adjust(b, s, delta), a) == AssetTotal(b, a) + (if s.asset == a then delta else 0)
  {
    var b' := Adjust(b, s, delta);
    AssetTotalRemove(b', s, a);
    if s in b {
      AssetTotalRemove(b, s, a);
      assert b' - {s} == b - {s};
    } else {
      assert b' - {s} == b;
    }
  }
}
