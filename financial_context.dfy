/**
 * The shared ledger: a list of transactions, empty at start, that grows by
 * one entry, with a fresh id, on each `addTransaction`.
 */
module FinancialContext {
  import opened Types

  /** `[...prev, { ...fields, id }]`. */
  function AppendTransaction(txs: seq<FinancialTransaction>, f: TransactionFields, id: string): (r: seq<FinancialTransaction>)
    ensures |r| == |txs| + 1
    ensures r[..|txs|] == txs
    ensures r[|txs|].id == id && FieldsOf(r[|txs|]) == f
  {
    txs + [WithId(f, id)]
  }

  /** The ledger after a run of additions holds their fields, in order, after what was there. */
  function AppendAll(txs: seq<FinancialTransaction>, fs: seq<TransactionFields>, ids: seq<string>): seq<FinancialTransaction>
    requires |fs| == |ids|
  {
    if fs == [] then txs
    else AppendTransaction(AppendAll(txs, fs[..|fs| - 1], ids[..|ids| - 1]), fs[|fs| - 1], ids[|ids| - 1])
  }

  /** Every addition is recorded, in the order made, and nothing recorded earlier changes. */
  lemma {:induction false} AppendAllRecords(txs: seq<FinancialTransaction>, fs: seq<TransactionFields>, ids: seq<string>)
    requires |fs| == |ids|
    ensures var r := AppendAll(txs, fs, ids);
      && |r| == |txs| + |fs| && r[..|txs|] == txs
      && forall k :: 0 <= k < |fs| ==> r[|txs| + k].id == ids[k] && FieldsOf(r[|txs| + k]) == fs[k]
  {
    if fs != [] {
      var n := |fs| - 1;
      AppendAllRecords(txs, fs[..n], ids[..n]);
      var prev := AppendAll(txs, fs[..n], ids[..n]);
      var r := AppendTransaction(prev, fs[n], ids[n]);
      forall k | 0 <= k < |fs| ensures r[|txs| + k].id == ids[k] && FieldsOf(r[|txs| + k]) == fs[k] {
        if k < n {
          assert r[|txs| + k] == prev[|txs| + k];
        }
      }
      assert r[..|txs|] == prev[..|prev|][..|txs|];
    }
  }

  class FinancialStore {
    var transactions: seq<FinancialTransaction>

    constructor()
      ensures transactions == []
    {
      transactions := [];
    }

    /** Records a transaction; `freshId` stands for the clock reading the provider uses as id. */
    method AddTransaction(f: TransactionFields, freshId: string)
      modifies this
      ensures transactions == AppendTransaction(old(transactions), f, freshId)
    {
      transactions := transactions + [WithId(f, freshId)];
    }
  }
}
