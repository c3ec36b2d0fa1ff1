/**
 * The item register: case-insensitive search by name, add, edit and delete
 * through a form, quantity updates (also by the -/+ buttons), and the stock
 * status colouring of each quantity.
 *
 * Loading from and saving to the browser's storage is not modelled: the
 * loaded list is the constructor's argument. Fresh ids and today's date
 * come from the clock in the page and are parameters.
 */
module ItemsList {
  import opened Common
  import opened Types
  import StockOverview

  // ---------------------------------------------------------------------
  // Search

  /** Upper-case letters of ASCII and of Latin-1 (À..Þ except ×) map to lower case; other characters stay. */
  function LowerChar(c: char): char
  {
    if 'A' <= c <= 'Z' || ('À' <= c <= 'Þ' && c != '×') then (c as int + 32) as char else c
  }

  predicate IsUpper(c: char)
  {
    'A' <= c <= 'Z' || ('À' <= c <= 'Þ' && c != '×')
  }

  /** `toLowerCase`, on the characters listed in `LowerChar`. */
  function ToLower(s: string): (r: string)
    ensures |r| == |s|
    ensures forall i :: 0 <= i < |s| ==> r[i] == LowerChar(s[i]) && !IsUpper(r[i])
  {
    seq(|s|, i requires 0 <= i < |s| => LowerChar(s[i]))
  }

  /** Whether an item's lower-cased name contains the lower-cased search term. */
  function Matches(term: string): Item -> bool
  {
    (item: Item) => Contains(ToLower(item.name), ToLower(term))
  }

  /** `filteredItems`: the items whose name contains the term, ignoring case, in list order. */
  function FilteredItems(items: seq<Item>, term: string): seq<Item>
  {
    Filter(items, Matches(term))
  }

  /** Lower-casing twice is lower-casing once. */
  lemma ToLowerIdempotent(s: string)
    ensures ToLower(ToLower(s)) == ToLower(s)
  {
  }

  /** An empty search shows every item. */
  lemma EmptySearchKeepsAll(items: seq<Item>)
    ensures FilteredItems(items, "") == items
  {
    forall i | 0 <= i < |items| ensures Matches("")(items[i]) {
      assert ToLower("") <= ToLower(items[i].name)[0..];
    }
    FilterAll(items, Matches(""));
  }

  /** The case of the search term does not matter. */
  lemma SearchIgnoresTermCase(items: seq<Item>, term: string)
    ensures FilteredItems(items, ToLower(term)) == FilteredItems(items, term)
  {
    ToLowerIdempotent(term);
    assert Matches(ToLower(term)) == Matches(term);
  }

  /** Searching the search result again with the same term changes nothing. */
  lemma SearchIdempotent(items: seq<Item>, term: string)
    ensures FilteredItems(FilteredItems(items, term), term) == FilteredItems(items, term)
  {
    FilterAll(FilteredItems(items, term), Matches(term));
  }

  /**
   * An item is shown exactly when it is in the list and its lower-cased name
   * contains the lower-cased term as a substring.
   */
  lemma SearchMembership(items: seq<Item>, term: string, x: Item)
    ensures x in FilteredItems(items, term) <==> x in items && Contains(ToLower(x.name), ToLower(term))
  {
    var r := FilteredItems(items, term);
    if x in r {
      var i :| 0 <= i < |r| && r[i] == x;
    }
    if x in items && Matches(term)(x) {
      var k :| 0 <= k < |items| && items[k] == x;
    }
  }

  // ---------------------------------------------------------------------
  // The form

  /**
   * The form's contents. `origin` is the item copied into the form by its
   * edit button, if any: that copy also carries the item's id, purchase
   * date and category, which the spreads below then pass on.
   */
  datatype ItemDraft = ItemDraft(
    name: string,
    quantity: int,
    minQuantity: int,
    unit: string,
    unitPrice: int,
    origin: Option<Item>)

  /** The blank form. */
  const EmptyDraft := ItemDraft("", 0, 0, "un", 0, None)

  /** The form as the edit button fills it: a copy of the item. */
  function DraftOf(item: Item): ItemDraft
  {
    ItemDraft(item.name, item.quantity, item.minQuantity, item.unit, item.unitPrice, Some(item))
  }

  /** The add and save buttons' check: a name and a unit. */
  predicate CanSaveItem(d: ItemDraft)
  {
    d.name != "" && d.unit != ""
  }

  /** `{ ...item, ...draft }`: the form's fields written over the item. */
  function Overwrite(item: Item, d: ItemDraft): (r: Item)
    ensures r.name == d.name && r.quantity == d.quantity && r.minQuantity == d.minQuantity
    ensures r.unit == d.unit && r.unitPrice == d.unitPrice
    ensures d.origin.None? ==> r.id == item.id && r.lastPurchaseDate == item.lastPurchaseDate && r.category == item.category
    ensures d.origin.Some? ==> r.id == d.origin.value.id && r.lastPurchaseDate == d.origin.value.lastPurchaseDate
                               && r.category == d.origin.value.category
  {
    var base := match d.origin case Some(o) => o case None => item;
    Item(base.id, d.name, d.quantity, d.minQuantity, d.unit, d.unitPrice, base.lastPurchaseDate, base.category)
  }

  /** `{ ...draft, id, lastPurchaseDate }`: a new item from the form. */
  function NewItem(d: ItemDraft, freshId: string, today: string): (r: Item)
    ensures r.id == freshId && r.lastPurchaseDate == today
    ensures r.name == d.name && r.quantity == d.quantity && r.minQuantity == d.minQuantity
    ensures r.unit == d.unit && r.unitPrice == d.unitPrice
    ensures r.category == if d.origin.Some? then d.origin.value.category else None
  {
    var category := match d.origin case Some(o) => o.category case None => None;
    Item(freshId, d.name, d.quantity, d.minQuantity, d.unit, d.unitPrice, today, category)
  }

  /** True when `current` (null as None) is the item's id. */
  predicate IsCurrent(item: Item, current: Option<string>)
  {
    current == Some(item.id)
  }

  /** The list after "save" in the edit form: the current item overwritten by the form. */
  function EditItems(items: seq<Item>, current: Option<string>, d: ItemDraft): (r: seq<Item>)
    ensures |r| == |items|
    ensures forall k :: 0 <= k < |r| ==> r[k] == if IsCurrent(items[k], current) then Overwrite(items[k], d) else items[k]
  {
    seq(|items|, k requires 0 <= k < |items| => if IsCurrent(items[k], current) then Overwrite(items[k], d) else items[k])
  }

  /** The list after "delete": every item with the current id removed. */
  function DeleteItems(items: seq<Item>, current: Option<string>): seq<Item>
  {
    Filter(items, (item: Item) => !IsCurrent(item, current))
  }

  /** `handleUpdateQuantity`: a negative quantity is ignored; otherwise the items with that id get it. */
  function UpdateQuantity(items: seq<Item>, id: string, q: int): (r: seq<Item>)
    ensures |r| == |items|
    ensures q < 0 ==> r == items
    ensures q >= 0 ==> forall k :: 0 <= k < |r| ==> r[k] == if items[k].id == id then items[k].(quantity := q) else items[k]
  {
    if q < 0 then items
    else seq(|items|, k requires 0 <= k < |items| => if items[k].id == id then items[k].(quantity := q) else items[k])
  }

  /** No item holds a negative quantity. */
  predicate NonNegativeQuantities(items: seq<Item>)
  {
    forall k :: 0 <= k < |items| ==> items[k].quantity >= 0
  }

  /** Editing through the form keeps the length, keeps every other item, and keeps the edited item's id. */
  lemma EditKeepsOthers(items: seq<Item>, item: Item, d: ItemDraft)
    requires d == DraftOf(item).(name := d.name, quantity := d.quantity, minQuantity := d.minQuantity,
                                 unit := d.unit, unitPrice := d.unitPrice)
    ensures var r := EditItems(items, Some(item.id), d);
      forall k :: 0 <= k < |r| ==> r[k].id == items[k].id && (items[k].id != item.id ==> r[k] == items[k])
  {
  }

  /** With no current item, edit and delete change nothing. */
  lemma NoCurrentNoChange(items: seq<Item>, d: ItemDraft)
    ensures EditItems(items, None, d) == items
    ensures DeleteItems(items, None) == items
  {
    FilterAll(items, (item: Item) => !IsCurrent(item, None));
  }

  /** Deleting removes every item with the id and keeps every other item with its multiplicity. */
  lemma DeleteExact(items: seq<Item>, id: string, x: Item)
    ensures multiset(DeleteItems(items, Some(id)))[x] == if x.id == id then 0 else multiset(items)[x]
  {
    FilterCount(items, (item: Item) => !IsCurrent(item, Some(id)), x);
  }

  /** Quantity updates, including the -/+ buttons, never make a quantity negative. */
  lemma UpdateKeepsNonNegative(items: seq<Item>, id: string, q: int)
    requires NonNegativeQuantities(items)
    ensures NonNegativeQuantities(UpdateQuantity(items, id, q))
  {
  }

  /** The - button on an empty item is ignored: 0 - 1 is rejected. */
  lemma DecrementAtZero(items: seq<Item>, k: nat)
    requires k < |items| && items[k].quantity == 0
    ensures UpdateQuantity(items, items[k].id, items[k].quantity - 1) == items
  {
  }

  /** The - and + buttons undo each other on an item with a unique id and a positive quantity. */
  lemma DecrementIncrement(items: seq<Item>, k: nat)
    requires k < |items| && items[k].quantity > 0
    requires forall j :: 0 <= j < |items| && j != k ==> items[j].id != items[k].id
    ensures var down := UpdateQuantity(items, items[k].id, items[k].quantity - 1);
      UpdateQuantity(down, items[k].id, down[k].quantity + 1) == items
  {
    var id := items[k].id;
    var down := UpdateQuantity(items, id, items[k].quantity - 1);
    var up := UpdateQuantity(down, id, down[k].quantity + 1);
    forall j | 0 <= j < |items| ensures up[j] == items[j] {
      if items[j].id == id {
        assert up[j] == items[j].(quantity := items[k].quantity);
      }
    }
  }

  /** An added item goes at the end and carries the form's fields, the fresh id and today's date. */
  lemma AddAppends(items: seq<Item>, d: ItemDraft, freshId: string, today: string)
    requires CanSaveItem(d)
    ensures var r := items + [NewItem(d, freshId, today)];
      |r| == |items| + 1 && r[..|items|] == items && r[|items|].id == freshId && r[|items|].name == d.name
  {
    assert (items + [NewItem(d, freshId, today)])[..|items|] == items;
  }

  // ---------------------------------------------------------------------
  // Stock status

  datatype StockStatus = LowStock | OutOfStock | InStock

  /** The colouring of a quantity: low stock first, then out of stock, otherwise plain. */
  function Status(item: Item): StockStatus
  {
    if item.quantity < item.minQuantity then LowStock
    else if item.quantity == 0 then OutOfStock
    else InStock
  }

  /** "Low stock" here is exactly the dashboard's low-stock test. */
  lemma StatusMatchesDashboard(item: Item)
    ensures Status(item) == LowStock <==> StockOverview.IsLow(item)
  {
  }

  /** An empty item shows as out of stock only when its minimum is at most 0; otherwise it shows as low stock. */
  lemma EmptyItemStatus(item: Item)
    requires item.quantity == 0
    ensures Status(item) == (if item.minQuantity > 0 then LowStock else OutOfStock)
  {
  }

  /** A plain (in-stock) item has a positive quantity at or above its minimum. */
  lemma InStockMeans(item: Item)
    ensures Status(item) == InStock <==> item.quantity >= item.minQuantity && item.quantity != 0
  {
  }

  // ---------------------------------------------------------------------
  // The page state

  class ItemsPage {
    var items: seq<Item>
    var searchTerm: string
    var draft: ItemDraft
    var currentItemId: Option<string>
    var addOpen: bool
    var editOpen: bool
    var deleteOpen: bool

    constructor(loaded: seq<Item>)
      ensures items == loaded && searchTerm == "" && draft == EmptyDraft && currentItemId == None
      ensures !addOpen && !editOpen && !deleteOpen
    {
      items := loaded;
      searchTerm := "";
      draft := EmptyDraft;
      currentItemId := None;
      addOpen, editOpen, deleteOpen := false, false, false;
    }

    /** The items on screen. */
    function Shown(): seq<Item>
      reads this
    {
      FilteredItems(items, searchTerm)
    }

    method HandleAddItem(freshId: string, today: string)
      modifies this
      ensures CanSaveItem(old(draft)) ==>
                items == old(items) + [NewItem(old(draft), freshId, today)] && draft == EmptyDraft && !addOpen
      ensures !CanSaveItem(old(draft)) ==> items == old(items) && draft == old(draft) && addOpen == old(addOpen)
      ensures searchTerm == old(searchTerm) && currentItemId == old(currentItemId)
      ensures editOpen == old(editOpen) && deleteOpen == old(deleteOpen)
    {
      if draft.name == "" || draft.unit == "" {
        return;
      }
      items := items + [NewItem(draft, freshId, today)];
      draft := EmptyDraft;
      addOpen := false;
    }

    /** The edit button of an item: the form gets a copy of it. */
    method HandleEditClick(item: Item)
      modifies this
      ensures draft == DraftOf(item) && currentItemId == Some(item.id) && editOpen
      ensures items == old(items) && searchTerm == old(searchTerm)
      ensures addOpen == old(addOpen) && deleteOpen == old(deleteOpen)
    {
      draft := DraftOf(item);
      currentItemId := Some(item.id);
      editOpen := true;
    }

    method HandleEditItem()
      modifies this
      ensures CanSaveItem(old(draft)) ==>
                items == EditItems(old(items), old(currentItemId), old(draft))
                && draft == EmptyDraft && currentItemId == None && !editOpen
      ensures !CanSaveItem(old(draft)) ==>
                items == old(items) && draft == old(draft) && currentItemId == old(currentItemId) && editOpen == old(editOpen)
      ensures searchTerm == old(searchTerm) && addOpen == old(addOpen) && deleteOpen == old(deleteOpen)
    {
      if draft.name == "" || draft.unit == "" {
        return;
      }
      items := EditItems(items, currentItemId, draft);
      draft := EmptyDraft;
      currentItemId := None;
      editOpen := false;
    }

    method HandleDeleteClick(id: string)
      modifies this
      ensures currentItemId == Some(id) && deleteOpen
      ensures items == old(items) && draft == old(draft) && searchTerm == old(searchTerm)
      ensures addOpen == old(addOpen) && editOpen == old(editOpen)
    {
      currentItemId := Some(id);
      deleteOpen := true;
    }

    /** The confirm button of the delete dialog. */
    method HandleDeleteItem()
      modifies this
      ensures items == DeleteItems(old(items), old(currentItemId))
      ensures currentItemId == None && !deleteOpen
      ensures draft == old(draft) && searchTerm == old(searchTerm)
      ensures addOpen == old(addOpen) && editOpen == old(editOpen)
    {
      items := DeleteItems(items, currentItemId);
      currentItemId := None;
      deleteOpen := false;
    }

    method HandleUpdateQuantity(id: string, q: int)
      modifies this
      ensures items == UpdateQuantity(old(items), id, q)
      ensures draft == old(draft) && searchTerm == old(searchTerm) && currentItemId == old(currentItemId)
      ensures addOpen == old(addOpen) && editOpen == old(editOpen) && deleteOpen == old(deleteOpen)
    {
      if q < 0 {
        return;
      }
      items := UpdateQuantity(items, id, q);
    }

    method SetSearchTerm(term: string)
      modifies this
      ensures searchTerm == term
      ensures items == old(items) && draft == old(draft) && currentItemId == old(currentItemId)
      ensures addOpen == old(addOpen) && editOpen == old(editOpen) && deleteOpen == old(deleteOpen)
    {
      searchTerm := term;
    }

    /** Typing in the form: any of its five fields. */
    method SetDraftFields(name: string, quantity: int, minQuantity: int, unit: string, unitPrice: int)
      modifies this
      ensures draft == old(draft).(name := name, quantity := quantity, minQuantity := minQuantity,
                                   unit := unit, unitPrice := unitPrice)
      ensures items == old(items) && searchTerm == old(searchTerm) && currentItemId == old(currentItemId)
      ensures addOpen == old(addOpen) && editOpen == old(editOpen) && deleteOpen == old(deleteOpen)
    {
      draft := draft.(name := name, quantity := quantity, minQuantity := minQuantity, unit := unit, unitPrice := unitPrice);
    }
  }
}
