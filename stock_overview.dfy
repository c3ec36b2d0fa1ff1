/**
 * The stock dashboard's figures: total units, the low-stock list and its
 * share of the stock, the stock value, the value per keyword category, the
 * "critical" panel, and the five most valuable items. The last one sorts
 * the component's stock array in place.
 */
module StockOverview {
  import opened Common
  import opened Types
  import opened StableSort

  function ItemQuantity(item: Item): int
  {
    item.quantity
  }

  /** What an item's stock is worth: quantity × unit price. */
  function ItemValue(item: Item): int
  {
    item.quantity * item.unitPrice
  }

  predicate IsLow(item: Item)
  {
    item.quantity < item.minQuantity
  }

  /** `totalItems`: all units in stock. */
  function TotalItems(items: seq<Item>): int
  {
    SumOf(items, ItemQuantity)
  }

  /** `lowStockItems`: the items below their minimum, in stock order. */
  function LowStockItems(items: seq<Item>): (r: seq<Item>)
    ensures |r| <= |items|
    ensures forall i :: 0 <= i < |r| ==> r[i] in items && r[i].quantity < r[i].minQuantity
    ensures forall k :: 0 <= k < |items| && items[k].quantity < items[k].minQuantity ==> items[k] in r
  {
    Filter(items, IsLow)
  }

  /** `lowStockPercentage`: the share of low items, in percent, and 0 for an empty stock. */
  function LowStockPercentage(items: seq<Item>): (r: real)
    ensures 0.0 <= r <= 100.0
    ensures items == [] ==> r == 0.0
  {
    if |items| > 0 then
      RatioBounds(|LowStockItems(items)|, |items|);
      (|LowStockItems(items)| as real / |items| as real) * 100.0
    else 0.0
  }

  /** A share of a positive whole, in percent, lies in [0, 100] and is 100 only for the whole. */
  lemma RatioBounds(n: nat, d: nat)
    requires n <= d && d > 0
    ensures 0.0 <= (n as real / d as real) * 100.0 <= 100.0
    ensures (n as real / d as real) * 100.0 == 100.0 <==> n == d
  {
    var q := n as real / d as real;
    assert q * (d as real) == n as real;
    assert (1.0 - q) * (d as real) == (d - n) as real;
  }

  /** `totalValue`. */
  function TotalValue(items: seq<Item>): int
  {
    SumOf(items, ItemValue)
  }

  // ---------------------------------------------------------------------
  // Categories

  predicate IsFood(item: Item)
  {
    Contains(item.name, "Arroz") || Contains(item.name, "Feijão")
  }

  predicate IsCleaning(item: Item)
  {
    Contains(item.name, "Detergente") || Contains(item.name, "Sabão")
  }

  /** "Outros" also excludes "Sabonete", which no other category takes in. */
  predicate IsOther(item: Item)
  {
    && !Contains(item.name, "Arroz") && !Contains(item.name, "Feijão")
    && !Contains(item.name, "Sabonete")
    && !Contains(item.name, "Detergente") && !Contains(item.name, "Sabão")
  }

  datatype CategoryEntry = CategoryEntry(name: string, value: int)

  /** The value of the items a category takes in. */
  function CategoryValue(items: seq<Item>, inCategory: Item -> bool): int
  {
    SumOf(Filter(items, inCategory), ItemValue)
  }

  /** `categoryData`: the pie chart's three slices, in this order. */
  function CategoryData(items: seq<Item>): (r: seq<CategoryEntry>)
    ensures |r| == 3
    ensures r[0].name == "Alimentos" && r[1].name == "Limpeza" && r[2].name == "Outros"
  {
    [ CategoryEntry("Alimentos", CategoryValue(items, IsFood)),
      CategoryEntry("Limpeza", CategoryValue(items, IsCleaning)),
      CategoryEntry("Outros", CategoryValue(items, IsOther)) ]
  }

  // ---------------------------------------------------------------------
  // The critical panel

  /** The low-stock items listed by name: the first three. */
  function CriticalShown(items: seq<Item>): (r: seq<Item>)
    ensures |r| == Min(3, |LowStockItems(items)|)
    ensures r <= LowStockItems(items)
  {
    var low := LowStockItems(items);
    low[..Min(3, |low|)]
  }

  /** The "+N itens críticos" line: present only when more than three items are low. */
  function CriticalOverflow(items: seq<Item>): (r: Option<int>)
    ensures r.Some? <==> |LowStockItems(items)| > 3
    ensures r.Some? ==> r.value > 0
  {
    var n := |LowStockItems(items)|;
    if n > 3 then Some(n - 3) else None
  }

  // ---------------------------------------------------------------------
  // The most valuable items

  /** The sort key of `(a, b) => value(b) - value(a)`: descending value is ascending negated value. */
  function NegatedValue(item: Item): int
  {
    -ItemValue(item)
  }

  /**
   * `stockItems.sort(byDescendingValue).slice(0, 5)`: sorts the stock array
   * itself, then takes at most five items from its front.
   */
  method TopValuable(stock: array<Item>) returns (top: seq<Item>)
    modifies stock
    ensures stock[..] == SortByKey(old(stock[..]), NegatedValue)
    ensures top == stock[..Min(5, stock.Length)]
  {
    SortInPlace(stock, NegatedValue);
    top := stock[..Min(5, stock.Length)];
  }

  /** The top list of a stock, as `TopValuable` leaves it. */
  function TopOf(items: seq<Item>): (r: seq<Item>)
    ensures |r| == Min(5, |items|)
  {
    SortByKey(items, NegatedValue)[..Min(5, |items|)]
  }

  // ---------------------------------------------------------------------
  // Lemmas

  /** Over a non-negative stock the total is at least any one item's quantity. */
  lemma {:induction false} TotalItemsBound(items: seq<Item>, k: nat)
    requires k < |items| && forall i :: 0 <= i < |items| ==> items[i].quantity >= 0
    ensures 0 <= items[k].quantity <= TotalItems(items)
  {
    var n := |items| - 1;
    assert forall x :: x in items[..n] ==> x in items;
    SumOfNonNegative(items[..n], ItemQuantity);
    if k < n {
      TotalItemsBound(items[..n], k);
    }
  }

  /** The percentage is 100 exactly when the stock is non-empty and every item is low. */
  lemma FullPercentage(items: seq<Item>)
    ensures LowStockPercentage(items) == 100.0 <==> items != [] && forall k :: 0 <= k < |items| ==> IsLow(items[k])
  {
    FilterLength(items, IsLow);
    if items != [] {
      RatioBounds(|LowStockItems(items)|, |items|);
    }
  }

  /** A filter keeps every element exactly when every element passes. */
  lemma {:induction false} FilterLength<T>(s: seq<T>, p: T -> bool)
    ensures |Filter(s, p)| == |s| <==> forall k :: 0 <= k < |s| ==> p(s[k])
  {
    if s != [] {
      var n := |s| - 1;
      FilterLength(s[..n], p);
      FilterSnoc(s[..n], s[n], p);
      assert s == s[..n] + [s[n]];
      assert |Filter(s[..n], p)| <= n;
      if forall k :: 0 <= k < |s| ==> p(s[k]) {
        assert forall k :: 0 <= k < n ==> p(s[..n][k]);
      }
    }
  }

  /** The panel lists every low item, or three of them plus a "+N" line for the rest. */
  lemma CriticalAccounting(items: seq<Item>)
    ensures |CriticalShown(items)| + (if CriticalOverflow(items).Some? then CriticalOverflow(items).value else 0)
            == |LowStockItems(items)|
  {
  }

  /** How a category's value grows by one more item. */
  lemma CategoryValueSnoc(items: seq<Item>, y: Item, inCategory: Item -> bool)
    ensures CategoryValue(items + [y], inCategory)
            == CategoryValue(items, inCategory) + (if inCategory(y) then ItemValue(y) else 0)
  {
    FilterSnoc(items, y, inCategory);
    SumOfAppend(Filter(items, inCategory), if inCategory(y) then [y] else [], ItemValue);
  }

  /**
   * The three slices add up to the stock value when no name contains
   * "Sabonete" and no name carries both a food and a cleaning keyword.
   */
  lemma {:induction false} CategoriesCoverValue(items: seq<Item>)
    requires forall k :: 0 <= k < |items| ==> !Contains(items[k].name, "Sabonete")
    requires forall k :: 0 <= k < |items| ==> !(IsFood(items[k]) && IsCleaning(items[k]))
    ensures CategoryValue(items, IsFood) + CategoryValue(items, IsCleaning) + CategoryValue(items, IsOther)
            == TotalValue(items)
  {
    if items != [] {
      var n := |items| - 1;
      var y := items[n];
      CategoriesCoverValue(items[..n]);
      assert items == items[..n] + [y];
      CategoryValueSnoc(items[..n], y, IsFood);
      CategoryValueSnoc(items[..n], y, IsCleaning);
      CategoryValueSnoc(items[..n], y, IsOther);
    }
  }

  /** An item named "Sabonete" belongs to no slice. */
  lemma SoapInNoCategory(item: Item)
    requires item.name == "Sabonete"
    ensures !IsFood(item) && !IsCleaning(item) && !IsOther(item)
  {
    MissingChar(item.name, "Arroz", 'A');
    MissingChar(item.name, "Feijão", 'F');
    MissingChar(item.name, "Detergente", 'D');
    MissingChar(item.name, "Sabão", 'ã');
    assert "Sabonete" <= item.name[0..];
  }

  /** So a stock of one "Sabonete" shows an empty chart, whatever its value. */
  lemma SoapIsDropped(item: Item)
    requires item.name == "Sabonete"
    ensures CategoryValue([item], IsFood) + CategoryValue([item], IsCleaning) + CategoryValue([item], IsOther) == 0
    ensures TotalValue([item]) == item.quantity * item.unitPrice
  {
    SoapInNoCategory(item);
    CategoryValueSnoc([], item, IsFood);
    CategoryValueSnoc([], item, IsCleaning);
    CategoryValueSnoc([], item, IsOther);
    assert [item][..0] == [];
  }

  /** A string that lacks one of a word's characters does not contain the word. */
  lemma MissingChar(s: string, sub: string, c: char)
    requires c in sub && c !in s
    ensures !Contains(s, sub)
  {
    ContainsChars(s, sub);
  }

  /** A name can be both food and cleaning, counting its value twice. */
  lemma OverlapCountsTwice(item: Item)
    requires item.name == "Arroz e Sabão"
    ensures IsFood(item) && IsCleaning(item)
  {
    assert "Arroz" <= item.name[0..];
    assert "Sabão" <= item.name[8..];
  }

  /** Sorting the stock array in place keeps the unit total and the stock value. */
  lemma SortKeepsTotals(items: seq<Item>)
    ensures TotalItems(SortByKey(items, NegatedValue)) == TotalItems(items)
    ensures TotalValue(SortByKey(items, NegatedValue)) == TotalValue(items)
  {
    SortByKeySorted(items, NegatedValue);
    SumOfPermutation(SortByKey(items, NegatedValue), items, ItemQuantity);
    SumOfPermutation(SortByKey(items, NegatedValue), items, ItemValue);
  }

  /**
   * The top list is in descending value, every entry comes from the stock,
   * and no item left out is worth more than any item listed.
   */
  lemma TopOfRanked(items: seq<Item>)
    ensures forall i, j :: 0 <= i < j < |TopOf(items)| ==> ItemValue(TopOf(items)[i]) >= ItemValue(TopOf(items)[j])
    ensures forall i :: 0 <= i < |TopOf(items)| ==> TopOf(items)[i] in items
    ensures forall i, j :: 0 <= i < |TopOf(items)| <= j < |SortByKey(items, NegatedValue)| ==>
      ItemValue(TopOf(items)[i]) >= ItemValue(SortByKey(items, NegatedValue)[j])
  {
    var r := SortByKey(items, NegatedValue);
    SortByKeySorted(items, NegatedValue);
    forall i | 0 <= i < |TopOf(items)| ensures TopOf(items)[i] in items {
      assert r[i] in multiset(items);
    }
  }

  /**
   * The top-five sort reorders the component's own stock array, so every
   * later render computes the low-stock figures from the sorted array: the
   * same low items with the same count and share, now listed by descending
   * value, so the critical panel names the most valuable low items.
   */
  lemma LowStockAfterSort(items: seq<Item>)
    ensures var sorted := SortByKey(items, NegatedValue);
      && multiset(LowStockItems(sorted)) == multiset(LowStockItems(items))
      && LowStockPercentage(sorted) == LowStockPercentage(items)
      && CriticalOverflow(sorted) == CriticalOverflow(items)
      && forall i, j :: 0 <= i < j < |LowStockItems(sorted)| ==>
           ItemValue(LowStockItems(sorted)[i]) >= ItemValue(LowStockItems(sorted)[j])
  {
    var sorted := SortByKey(items, NegatedValue);
    SortByKeySorted(items, NegatedValue);
    LowStockPermuted(sorted, items);
    FilterSorted(sorted, IsLow, NegatedValue);
  }

  /** Reordering the stock reorders its low items and keeps their count. */
  lemma LowStockPermuted(a: seq<Item>, b: seq<Item>)
    requires multiset(a) == multiset(b)
    ensures multiset(LowStockItems(a)) == multiset(LowStockItems(b))
    ensures |LowStockItems(a)| == |LowStockItems(b)|
  {
    FilterPermutation(a, b, IsLow);
    assert |LowStockItems(a)| == |multiset(LowStockItems(a))|;
  }

  /** Items of equal value keep their stock order in the sorted array. */
  lemma TopTiesStable(items: seq<Item>, v: int)
    ensures Filter(SortByKey(items, NegatedValue), HasKey(NegatedValue, -v))
            == Filter(items, HasKey(NegatedValue, -v))
  {
    SortByKeyStable(items, NegatedValue, -v);
  }
}
