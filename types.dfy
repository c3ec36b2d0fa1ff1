/**
 * The entities of the inventory dashboard. Prices and money amounts are
 * integer cents (R$ 5.50 is 550); quantities are integers.
 */
module Types {
  import opened Common

  /** A stock-keeping unit; `category` is the optional property. */
  datatype Item = Item(
    id: string,
    name: string,
    quantity: int,
    minQuantity: int,
    unit: string,
    unitPrice: int,
    lastPurchaseDate: string,
    category: Option<string>)

  /** One line of a basket model: how many units of an item one basket needs. */
  datatype BasketItem = BasketItem(itemId: string, quantity: int)

  datatype BasketModel = BasketModel(id: string, name: string, items: seq<BasketItem>)

  /** A ledger entry. The description is optional in the ledger context and always present in the finance page. */
  datatype FinancialTransaction = FinancialTransaction(
    id: string,
    date: string,
    itemId: string,
    quantity: int,
    totalPrice: int,
    description: Option<string>)

  /**
   * A transaction without its id: what the entry form collects and what
   * `Omit<FinancialTransaction, 'id'>` describes.
   */
  datatype TransactionFields = TransactionFields(
    date: string,
    itemId: string,
    quantity: int,
    totalPrice: int,
    description: Option<string>)

  function FieldsOf(t: FinancialTransaction): TransactionFields
  {
    TransactionFields(t.date, t.itemId, t.quantity, t.totalPrice, t.description)
  }

  /** `{ ...fields, id }`: the fields completed with an id; `FieldsOf` takes it off again. */
  function WithId(f: TransactionFields, id: string): (t: FinancialTransaction)
    ensures t.id == id && FieldsOf(t) == f
  {
    FinancialTransaction(id, f.date, f.itemId, f.quantity, f.totalPrice, f.description)
  }

  /**
   * `stock.find(i => i.id === id)`: the FIRST item with that id, or None
   * when no item carries it.
   */
  function FindItem(stock: seq<Item>, id: string): (r: Option<Item>)
    ensures r.None? <==> forall k :: 0 <= k < |stock| ==> stock[k].id != id
    ensures r.Some? ==> r.value in stock && r.value.id == id
  {
    if stock == [] then None
    else if stock[0].id == id then Some(stock[0])
    else FindItem(stock[1..], id)
  }

  /** The item found is the first one that carries the id. */
  lemma {:induction false} FindItemFirst(stock: seq<Item>, id: string)
    requires FindItem(stock, id).Some?
    ensures exists k :: 0 <= k < |stock| && stock[k] == FindItem(stock, id).value
                        && forall j :: 0 <= j < k ==> stock[j].id != id
  {
    if stock[0].id != id {
      FindItemFirst(stock[1..], id);
      var k :| 0 <= k < |stock[1..]| && stock[1..][k] == FindItem(stock, id).value
               && forall j :: 0 <= j < k ==> stock[1..][j].id != id;
      assert stock[k + 1] == FindItem(stock, id).value;
      forall j | 0 <= j < k + 1 ensures stock[j].id != id {
        if j > 0 { assert stock[j] == stock[1..][j - 1]; }
      }
    }
  }

  /** The item at any index whose id is unique in the stock is what `FindItem` returns. */
  lemma FindItemAt(stock: seq<Item>, k: nat)
    requires k < |stock|
    requires forall j :: 0 <= j < k ==> stock[j].id != stock[k].id
    ensures FindItem(stock, stock[k].id) == Some(stock[k])
  {
    var r := FindItem(stock, stock[k].id);
    FindItemFirst(stock, stock[k].id);
    var k' :| 0 <= k' < |stock| && stock[k'] == r.value && r.value.id == stock[k].id
              && forall j :: 0 <= j < k' ==> stock[j].id != stock[k].id;
    assert k' == k;
  }
}
