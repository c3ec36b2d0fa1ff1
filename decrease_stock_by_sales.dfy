/**
 * `decreaseStockBySales`: a new stock list in which every item's quantity is
 * lowered by the units its transactions sold, never below zero. The input
 * lists are values and are left as they were.
 */
module DecreaseStockBySales {
  import opened Common
  import opened Types

  /** The transactions that sell item `id`. */
  function Sells(id: string): FinancialTransaction -> bool
  {
    (tx: FinancialTransaction) => tx.itemId == id
  }

  function TxQuantity(tx: FinancialTransaction): int
  {
    tx.quantity
  }

  /** `transactions.filter(tx => tx.itemId === id).reduce((sum, tx) => sum + tx.quantity, 0)`. */
  function TotalSold(txs: seq<FinancialTransaction>, id: string): int
  {
    SumOf(Filter(txs, Sells(id)), TxQuantity)
  }

  /** The item with its quantity lowered by its sales, clamped at zero. */
  function Decrease(item: Item, txs: seq<FinancialTransaction>): Item
  {
    item.(quantity := Max(0, item.quantity - TotalSold(txs, item.id)))
  }

  function DecreaseStockBySales(items: seq<Item>, txs: seq<FinancialTransaction>): (r: seq<Item>)
    ensures |r| == |items|
    ensures forall k :: 0 <= k < |r| ==>
      && r[k].quantity >= 0
      && r[k].quantity == Max(0, items[k].quantity - TotalSold(txs, items[k].id))
      && r[k] == items[k].(quantity := r[k].quantity)
  {
    seq(|items|, k requires 0 <= k < |items| => Decrease(items[k], txs))
  }

  // ---------------------------------------------------------------------
  // Lemmas

  /** The quantity taken off an item is exactly what its transactions sold, unless that empties it. */
  lemma DecreaseExact(items: seq<Item>, txs: seq<FinancialTransaction>, k: nat)
    requires k < |items| && TotalSold(txs, items[k].id) <= items[k].quantity
    ensures DecreaseStockBySales(items, txs)[k].quantity == items[k].quantity - TotalSold(txs, items[k].id)
  {
  }

  /** An oversold item is emptied, not driven negative. */
  lemma DecreaseOversold(items: seq<Item>, txs: seq<FinancialTransaction>, k: nat)
    requires k < |items| && TotalSold(txs, items[k].id) >= items[k].quantity
    ensures DecreaseStockBySales(items, txs)[k].quantity == 0
  {
  }

  /** Sales of other items do not count towards `id`. */
  lemma {:induction false} TotalSoldNone(txs: seq<FinancialTransaction>, id: string)
    requires forall i :: 0 <= i < |txs| ==> txs[i].itemId != id
    ensures TotalSold(txs, id) == 0
  {
    if txs != [] {
      var n := |txs| - 1;
      TotalSoldNone(txs[..n], id);
      FilterSnoc(txs[..n], txs[n], Sells(id));
      assert txs == txs[..n] + [txs[n]];
    }
  }

  /** An item that no transaction sells keeps its (non-negative) quantity and all its fields. */
  lemma UnsoldUnchanged(items: seq<Item>, txs: seq<FinancialTransaction>, k: nat)
    requires k < |items| && items[k].quantity >= 0
    requires forall i :: 0 <= i < |txs| ==> txs[i].itemId != items[k].id
    ensures DecreaseStockBySales(items, txs)[k] == items[k]
  {
    TotalSoldNone(txs, items[k].id);
  }

  /** Sales split into two batches add up. */
  lemma TotalSoldAppend(a: seq<FinancialTransaction>, b: seq<FinancialTransaction>, id: string)
    ensures TotalSold(a + b, id) == TotalSold(a, id) + TotalSold(b, id)
  {
    FilterAppend(a, b, Sells(id));
    SumOfAppend(Filter(a, Sells(id)), Filter(b, Sells(id)), TxQuantity);
  }

  /** A transaction for an item that is not in the list has no effect. */
  lemma UnmatchedIgnored(items: seq<Item>, txs: seq<FinancialTransaction>, tx: FinancialTransaction)
    requires forall k :: 0 <= k < |items| ==> items[k].id != tx.itemId
    ensures DecreaseStockBySales(items, txs + [tx]) == DecreaseStockBySales(items, txs)
  {
    forall k | 0 <= k < |items|
      ensures TotalSold(txs + [tx], items[k].id) == TotalSold(txs, items[k].id)
    {
      TotalSoldAppend(txs, [tx], items[k].id);
      TotalSoldNone([tx], items[k].id);
    }
  }

  /** The units sold of an item do not depend on the order of the transactions. */
  lemma TotalSoldPermutation(a: seq<FinancialTransaction>, b: seq<FinancialTransaction>, id: string)
    requires multiset(a) == multiset(b)
    ensures TotalSold(a, id) == TotalSold(b, id)
  {
    FilterPermutation(a, b, Sells(id));
    SumOfPermutation(Filter(a, Sells(id)), Filter(b, Sells(id)), TxQuantity);
  }

  /** The result does not depend on the order of the transactions. */
  lemma OrderIndependent(items: seq<Item>, a: seq<FinancialTransaction>, b: seq<FinancialTransaction>)
    requires multiset(a) == multiset(b)
    ensures DecreaseStockBySales(items, a) == DecreaseStockBySales(items, b)
  {
    forall k | 0 <= k < |items|
      ensures TotalSold(a, items[k].id) == TotalSold(b, items[k].id)
    {
      TotalSoldPermutation(a, b, items[k].id);
    }
  }

  /**
   * Applying two batches of sales one after the other is the same as
   * applying them together, provided no sale has a negative quantity.
   */
  lemma Batches(items: seq<Item>, a: seq<FinancialTransaction>, b: seq<FinancialTransaction>)
    requires forall i :: 0 <= i < |a| ==> a[i].quantity >= 0
    requires forall i :: 0 <= i < |b| ==> b[i].quantity >= 0
    ensures DecreaseStockBySales(DecreaseStockBySales(items, a), b) == DecreaseStockBySales(items, a + b)
  {
    forall k | 0 <= k < |items|
      ensures DecreaseStockBySales(DecreaseStockBySales(items, a), b)[k] == DecreaseStockBySales(items, a + b)[k]
    {
      var id := items[k].id;
      TotalSoldAppend(a, b, id);
      TotalSoldNonNegative(a, id);
      TotalSoldNonNegative(b, id);
    }
  }

  lemma TotalSoldNonNegative(txs: seq<FinancialTransaction>, id: string)
    requires forall i :: 0 <= i < |txs| ==> txs[i].quantity >= 0
    ensures TotalSold(txs, id) >= 0
  {
    var sold := Filter(txs, Sells(id));
    forall tx | tx in sold ensures TxQuantity(tx) >= 0 {
      var i :| 0 <= i < |sold| && sold[i] == tx;
    }
    SumOfNonNegative(sold, TxQuantity);
  }
}
