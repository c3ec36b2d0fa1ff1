/**
 * Basket feasibility: how many complete baskets of one model the stock
 * allows, and which items are (nearly) the bottleneck.
 */
module BasketCalculator {
  import opened Common
  import opened Types
  import DummyData

  /** What the model editor guarantees of a saved model: at least one line, every need positive. */
  predicate WellFormed(model: BasketModel)
  {
    |model.items| >= 1 && PositiveNeeds(model.items)
  }

  predicate PositiveNeeds(lines: seq<BasketItem>)
  {
    forall k :: 0 <= k < |lines| ==> lines[k].quantity > 0
  }

  /** The stock invariant of the dashboard: no quantity below zero. */
  predicate NonNegativeStock(stock: seq<Item>)
  {
    forall k :: 0 <= k < |stock| ==> stock[k].quantity >= 0
  }

  /** Baskets one line alone allows: the floor of stock over need, or 0 when the item is unknown. */
  function LineCapacity(stock: seq<Item>, line: BasketItem): int
    requires line.quantity > 0
  {
    match FindItem(stock, line.itemId)
    case None => 0
    case Some(item) => item.quantity / line.quantity
  }

  /** `Math.min(...capacities)` over a non-empty list of lines. */
  function MinCapacity(stock: seq<Item>, lines: seq<BasketItem>): (r: int)
    requires |lines| >= 1 && PositiveNeeds(lines)
    ensures forall k :: 0 <= k < |lines| ==> r <= LineCapacity(stock, lines[k])
    ensures exists k :: 0 <= k < |lines| && r == LineCapacity(stock, lines[k])
  {
    if |lines| == 1 then LineCapacity(stock, lines[0])
    else
      var rest := MinCapacity(stock, lines[1..]);
      assert forall k :: 1 <= k < |lines| ==> lines[k] == lines[1..][k - 1];
      Min(LineCapacity(stock, lines[0]), rest)
  }

  /**
   * `calculatePossibleBaskets`: 0 when no model is selected, otherwise the
   * smallest line capacity.
   */
  function PossibleBaskets(stock: seq<Item>, selected: Option<BasketModel>): (r: int)
    requires selected.Some? ==> WellFormed(selected.value)
    ensures selected.None? ==> r == 0
    ensures selected.Some? ==>
      (forall k :: 0 <= k < |selected.value.items| ==> r <= LineCapacity(stock, selected.value.items[k])) &&
      (exists k :: 0 <= k < |selected.value.items| && r == LineCapacity(stock, selected.value.items[k]))
  {
    match selected
    case None => 0
    case Some(model) => MinCapacity(stock, model.items)
  }

  /** `basketModels.find(b => b.id === selectedBasketId)`: the FIRST model with the id, or None. */
  function FindModel(models: seq<BasketModel>, id: string): (r: Option<BasketModel>)
    ensures r.None? <==> forall k :: 0 <= k < |models| ==> models[k].id != id
    ensures r.Some? ==> exists k :: 0 <= k < |models| && models[k] == r.value && r.value.id == id
                                    && forall j :: 0 <= j < k ==> models[j].id != id
  {
    match FirstIndex(models, (m: BasketModel) => m.id == id)
    case None => None
    case Some(k) => Some(models[k])
  }

  // ---------------------------------------------------------------------
  // Limiting items

  /** A resolved line whose capacity is within 10% of the maximum: `cap <= max * 1.1`. */
  predicate IsLimiting(stock: seq<Item>, line: BasketItem, possible: int)
    requires line.quantity > 0
  {
    FindItem(stock, line.itemId).Some? && 10 * LineCapacity(stock, line) <= 11 * possible
  }

  /** The items the `forEach` pushes, in line order. */
  function LimitingCandidates(stock: seq<Item>, lines: seq<BasketItem>, possible: int): seq<Item>
    requires PositiveNeeds(lines)
  {
    if lines == [] then []
    else
      var last := lines[|lines| - 1];
      LimitingCandidates(stock, lines[..|lines| - 1], possible)
        + (if IsLimiting(stock, last, possible) then [FindItem(stock, last.itemId).value] else [])
  }

  /** `limitingItems.slice(0, 3)`. */
  function LimitingItems(stock: seq<Item>, lines: seq<BasketItem>, possible: int): (r: seq<Item>)
    requires PositiveNeeds(lines)
    ensures |r| == Min(3, |LimitingCandidates(stock, lines, possible)|)
    ensures r <= LimitingCandidates(stock, lines, possible)
  {
    var c := LimitingCandidates(stock, lines, possible);
    c[..Min(3, |c|)]
  }

  /** `findLimitingItems`: a loop that pushes every limiting item, then keeps the first three. */
  method FindLimitingItems(stock: seq<Item>, model: BasketModel, possible: int) returns (r: seq<Item>)
    requires PositiveNeeds(model.items)
    ensures r == LimitingItems(stock, model.items, possible)
  {
    var limiting: seq<Item> := [];
    var i := 0;
    while i < |model.items|
      invariant 0 <= i <= |model.items|
      invariant limiting == LimitingCandidates(stock, model.items[..i], possible)
    {
      var line := model.items[i];
      assert model.items[..i + 1][..i] == model.items[..i];
      var found := FindItem(stock, line.itemId);
      if found.Some? {
        var cap := found.value.quantity / line.quantity;
        if 10 * cap <= 11 * possible {
          limiting := limiting + [found.value];
        }
      }
      i := i + 1;
    }
    assert model.items[..i] == model.items;
    r := limiting[..Min(3, |limiting|)];
  }

  /**
   * The component body: look the selected model up, compute the baskets it
   * allows, and its limiting items only when a model was found.
   */
  method Calculate(stock: seq<Item>, models: seq<BasketModel>, selectedId: string)
    returns (possible: int, limiting: seq<Item>)
    requires forall m :: m in models ==> WellFormed(m)
    ensures FindModel(models, selectedId).None? ==> possible == 0 && limiting == []
    ensures FindModel(models, selectedId).Some? ==>
      var m := FindModel(models, selectedId).value;
      && WellFormed(m)
      && (forall k :: 0 <= k < |m.items| ==> possible <= LineCapacity(stock, m.items[k]))
      && (exists k :: 0 <= k < |m.items| && possible == LineCapacity(stock, m.items[k]))
      && limiting == LimitingItems(stock, m.items, possible)
  {
    var selected := FindModel(models, selectedId);
    possible := PossibleBaskets(stock, selected);
    if selected.Some? {
      limiting := FindLimitingItems(stock, selected.value, possible);
    } else {
      limiting := [];
    }
  }

  // ---------------------------------------------------------------------
  // Lemmas

  lemma DivNonNegative(q: int, n: int)
    requires q >= 0 && n > 0
    ensures q / n >= 0
  {
  }

  /** Floor division gives the largest multiple below the dividend. */
  lemma DivLowerBound(d: int, q: int, n: int)
    requires n > 0 && d * n <= q
    ensures d <= q / n
  {
    var e := q / n;
    assert q < e * n + n;
    assert (d - e - 1) * n < 0;
  }

  /** Floor division by a positive number is monotone in the dividend. */
  lemma DivMonotoneDividend(q1: int, q2: int, n: int)
    requires q1 <= q2 && n > 0
    ensures q1 / n <= q2 / n
  {
    DivLowerBound(q1 / n, q2, n);
  }

  /** For a non-negative dividend, floor division is antitone in a positive divisor. */
  lemma DivAntitoneDivisor(q: int, n1: int, n2: int)
    requires q >= 0 && 0 < n1 <= n2
    ensures q / n2 <= q / n1
  {
    var d2 := q / n2;
    assert d2 >= 0 && d2 * n2 <= q;
    assert d2 * n1 <= d2 * n2;
    DivLowerBound(d2, q, n1);
  }

  /** A line's capacity is never negative over a non-negative stock. */
  lemma LineCapacityNonNegative(stock: seq<Item>, line: BasketItem)
    requires NonNegativeStock(stock) && line.quantity > 0
    ensures LineCapacity(stock, line) >= 0
  {
    match FindItem(stock, line.itemId)
    case None =>
    case Some(item) =>
      var k :| 0 <= k < |stock| && stock[k] == item;
      DivNonNegative(item.quantity, line.quantity);
  }

  /** Over a non-negative stock the basket count is never negative. */
  lemma PossibleBasketsNonNegative(stock: seq<Item>, model: BasketModel)
    requires WellFormed(model) && NonNegativeStock(stock)
    ensures PossibleBaskets(stock, Some(model)) >= 0
  {
    var r := PossibleBaskets(stock, Some(model));
    var k :| 0 <= k < |model.items| && r == LineCapacity(stock, model.items[k]);
    LineCapacityNonNegative(stock, model.items[k]);
  }

  /** A line whose item is missing from the stock blocks assembly entirely. */
  lemma UnresolvedLineBlocks(stock: seq<Item>, model: BasketModel, k: nat)
    requires WellFormed(model) && NonNegativeStock(stock)
    requires k < |model.items| && FindItem(stock, model.items[k].itemId).None?
    ensures PossibleBaskets(stock, Some(model)) == 0
  {
    PossibleBasketsNonNegative(stock, model);
  }

  /** The basket count is monotone in every line's capacity. */
  lemma MinCapacityMonotone(stock1: seq<Item>, lines1: seq<BasketItem>, stock2: seq<Item>, lines2: seq<BasketItem>)
    requires |lines1| >= 1 && PositiveNeeds(lines1) && |lines2| == |lines1| && PositiveNeeds(lines2)
    requires forall k :: 0 <= k < |lines1| ==> LineCapacity(stock1, lines1[k]) <= LineCapacity(stock2, lines2[k])
    ensures MinCapacity(stock1, lines1) <= MinCapacity(stock2, lines2)
  {
    var r2 := MinCapacity(stock2, lines2);
    var k :| 0 <= k < |lines2| && r2 == LineCapacity(stock2, lines2[k]);
    assert MinCapacity(stock1, lines1) <= LineCapacity(stock1, lines1[k]);
  }

  /** Raising one line's need never increases the number of baskets. */
  lemma RaisingNeedNeverHelps(stock: seq<Item>, model: BasketModel, k: nat, need: int)
    requires WellFormed(model) && NonNegativeStock(stock)
    requires k < |model.items| && need >= model.items[k].quantity
    ensures var raised := model.(items := model.items[k := model.items[k].(quantity := need)]);
            WellFormed(raised) && PossibleBaskets(stock, Some(raised)) <= PossibleBaskets(stock, Some(model))
  {
    var lines := model.items;
    var raised := lines[k := lines[k].(quantity := need)];
    forall j | 0 <= j < |lines|
      ensures LineCapacity(stock, raised[j]) <= LineCapacity(stock, lines[j])
    {
      if j == k {
        match FindItem(stock, lines[k].itemId)
        case None =>
        case Some(item) =>
          var i :| 0 <= i < |stock| && stock[i] == item;
          DivAntitoneDivisor(item.quantity, lines[k].quantity, need);
      }
    }
    MinCapacityMonotone(stock, raised, stock, lines);
  }

  /** Raising the stock of one entry changes a lookup at most by returning the raised entry. */
  lemma {:induction false} FindItemRaised(stock: seq<Item>, j: nat, more: int, id: string)
    requires j < |stock| && more >= stock[j].quantity
    ensures var raised := stock[j := stock[j].(quantity := more)];
            FindItem(raised, id) == FindItem(stock, id) ||
            (FindItem(stock, id) == Some(stock[j]) && FindItem(raised, id) == Some(raised[j]))
  {
    var raised := stock[j := stock[j].(quantity := more)];
    if stock[0].id != id && j > 0 {
      assert raised[1..] == stock[1..][j - 1 := stock[j].(quantity := more)];
      FindItemRaised(stock[1..], j - 1, more, id);
    } else if stock[0].id != id {
      assert raised[1..] == stock[1..];
    }
  }

  /** Raising one item's stock never decreases the number of baskets. */
  lemma RaisingStockNeverHurts(stock: seq<Item>, model: BasketModel, j: nat, more: int)
    requires WellFormed(model)
    requires j < |stock| && more >= stock[j].quantity
    ensures var raised := stock[j := stock[j].(quantity := more)];
            PossibleBaskets(stock, Some(model)) <= PossibleBaskets(raised, Some(model))
  {
    var raised := stock[j := stock[j].(quantity := more)];
    var lines := model.items;
    forall k | 0 <= k < |lines|
      ensures LineCapacity(stock, lines[k]) <= LineCapacity(raised, lines[k])
    {
      FindItemRaised(stock, j, more, lines[k].itemId);
      if FindItem(raised, lines[k].itemId) != FindItem(stock, lines[k].itemId) {
        DivMonotoneDividend(stock[j].quantity, more, lines[k].quantity);
      }
    }
    MinCapacityMonotone(stock, lines, raised, lines);
  }

  /** Every candidate is the resolved item of a limiting line. */
  lemma {:induction false} CandidatesSound(stock: seq<Item>, lines: seq<BasketItem>, possible: int, x: Item)
    requires PositiveNeeds(lines)
    requires x in LimitingCandidates(stock, lines, possible)
    ensures exists k :: 0 <= k < |lines| && IsLimiting(stock, lines[k], possible)
                        && FindItem(stock, lines[k].itemId) == Some(x)
  {
    var n := |lines| - 1;
    if x in LimitingCandidates(stock, lines[..n], possible) {
      CandidatesSound(stock, lines[..n], possible, x);
      var k :| 0 <= k < n && IsLimiting(stock, lines[..n][k], possible)
               && FindItem(stock, lines[..n][k].itemId) == Some(x);
      assert lines[..n][k] == lines[k];
    } else {
      assert IsLimiting(stock, lines[n], possible);
    }
  }

  /** Every listed limiting item is the resolved item of a line whose capacity is within 10% of the maximum. */
  lemma LimitingItemsSound(stock: seq<Item>, lines: seq<BasketItem>, possible: int, x: Item)
    requires PositiveNeeds(lines)
    requires x in LimitingItems(stock, lines, possible)
    ensures exists k :: 0 <= k < |lines| && FindItem(stock, lines[k].itemId) == Some(x)
                        && 10 * LineCapacity(stock, lines[k]) <= 11 * possible
  {
    CandidatesSound(stock, lines, possible, x);
  }

  /** Every limiting line's item is collected. */
  lemma {:induction false} CandidatesComplete(stock: seq<Item>, lines: seq<BasketItem>, possible: int, k: nat)
    requires PositiveNeeds(lines)
    requires k < |lines| && IsLimiting(stock, lines[k], possible)
    ensures FindItem(stock, lines[k].itemId).value in LimitingCandidates(stock, lines, possible)
  {
    var n := |lines| - 1;
    if k < n {
      assert lines[..n][k] == lines[k];
      CandidatesComplete(stock, lines[..n], possible, k);
    }
  }

  /** The candidates of a concatenation are the two groups of candidates in line order. */
  lemma {:induction false} CandidatesAppend(stock: seq<Item>, a: seq<BasketItem>, b: seq<BasketItem>, possible: int)
    requires PositiveNeeds(a) && PositiveNeeds(b)
    ensures PositiveNeeds(a + b)
    ensures LimitingCandidates(stock, a + b, possible)
            == LimitingCandidates(stock, a, possible) + LimitingCandidates(stock, b, possible)
  {
    if b == [] {
      assert a + b == a;
    } else {
      var n := |b| - 1;
      assert (a + b)[..|a + b| - 1] == a + b[..n];
      CandidatesAppend(stock, a, b[..n], possible);
    }
  }

  /**
   * A resolved line that attains the minimum is always limiting; with at
   * most three candidates, its item is therefore listed.
   */
  lemma BottleneckListed(stock: seq<Item>, model: BasketModel, k: nat)
    requires WellFormed(model) && NonNegativeStock(stock)
    requires k < |model.items| && FindItem(stock, model.items[k].itemId).Some?
    requires LineCapacity(stock, model.items[k]) == PossibleBaskets(stock, Some(model))
    requires |LimitingCandidates(stock, model.items, PossibleBaskets(stock, Some(model)))| <= 3
    ensures FindItem(stock, model.items[k].itemId).value
            in LimitingItems(stock, model.items, PossibleBaskets(stock, Some(model)))
  {
    var possible := PossibleBaskets(stock, Some(model));
    PossibleBasketsNonNegative(stock, model);
    assert IsLimiting(stock, model.items[k], possible);
    CandidatesComplete(stock, model.items, possible, k);
    var c := LimitingCandidates(stock, model.items, possible);
    assert LimitingItems(stock, model.items, possible) == c;
  }

  // ---------------------------------------------------------------------
  // Stock and lines in the same order

  /**
   * The lines name the stock's items one for one, in stock order, and the
   * stock ids are distinct; the fixture models have this shape.
   */
  predicate Aligned(stock: seq<Item>, lines: seq<BasketItem>)
  {
    && |lines| == |stock| && PositiveNeeds(lines)
    && (forall k :: 0 <= k < |lines| ==> lines[k].itemId == stock[k].id)
    && (forall j, k :: 0 <= j < k < |stock| ==> stock[j].id != stock[k].id)
  }

  /** Over aligned data every line resolves to the item at its own index. */
  lemma AlignedCapacity(stock: seq<Item>, lines: seq<BasketItem>)
    requires Aligned(stock, lines)
    ensures forall k :: 0 <= k < |lines| ==>
      FindItem(stock, lines[k].itemId) == Some(stock[k])
      && LineCapacity(stock, lines[k]) == stock[k].quantity / lines[k].quantity
  {
    forall k | 0 <= k < |lines|
      ensures FindItem(stock, lines[k].itemId) == Some(stock[k])
    {
      FindItemAt(stock, k);
    }
  }

  /** Over aligned data the basket count is the quotient of the line with the smallest quotient. */
  lemma AlignedMin(stock: seq<Item>, lines: seq<BasketItem>, k: nat)
    requires Aligned(stock, lines) && k < |lines|
    requires forall j :: 0 <= j < |lines| ==>
      stock[k].quantity / lines[k].quantity <= stock[j].quantity / lines[j].quantity
    ensures MinCapacity(stock, lines) == stock[k].quantity / lines[k].quantity
  {
    AlignedCapacity(stock, lines);
    var r := MinCapacity(stock, lines);
    var i :| 0 <= i < |lines| && r == LineCapacity(stock, lines[i]);
    assert r <= LineCapacity(stock, lines[k]);
  }

  /** The first `n` stock items whose quotient passes the 10% test, in order. */
  ghost function AlignedPicks(stock: seq<Item>, lines: seq<BasketItem>, possible: int, n: nat): seq<Item>
    requires n <= |lines| <= |stock| && PositiveNeeds(lines)
  {
    if n == 0 then [] else
      AlignedPicks(stock, lines, possible, n - 1)
      + (if 10 * (stock[n - 1].quantity / lines[n - 1].quantity) <= 11 * possible then [stock[n - 1]] else [])
  }

  /** One step of the `forEach`: the candidates of a prefix one line longer. */
  lemma CandidatesStep(stock: seq<Item>, lines: seq<BasketItem>, n: nat, possible: int)
    requires PositiveNeeds(lines) && n < |lines|
    ensures LimitingCandidates(stock, lines[..n + 1], possible)
            == LimitingCandidates(stock, lines[..n], possible)
               + (if IsLimiting(stock, lines[n], possible) then [FindItem(stock, lines[n].itemId).value] else [])
  {
    assert lines[..n + 1][..n] == lines[..n];
  }

  /** One step of the `forEach` over aligned data. */
  lemma AlignedStep(stock: seq<Item>, lines: seq<BasketItem>, k: nat, possible: int)
    requires Aligned(stock, lines) && k < |lines|
    ensures LimitingCandidates(stock, lines[..k + 1], possible) == LimitingCandidates(stock, lines[..k], possible)
      + (if 10 * (stock[k].quantity / lines[k].quantity) <= 11 * possible then [stock[k]] else [])
  {
    CandidatesStep(stock, lines, k, possible);
    FindItemAt(stock, k);
  }

  /** Over aligned data the candidates are the stock items whose own quotient passes the test. */
  lemma {:induction false} AlignedCandidates(stock: seq<Item>, lines: seq<BasketItem>, possible: int, n: nat)
    requires Aligned(stock, lines) && n <= |lines|
    ensures LimitingCandidates(stock, lines[..n], possible) == AlignedPicks(stock, lines, possible, n)
  {
    if n > 0 {
      AlignedCandidates(stock, lines, possible, n - 1);
      AlignedStep(stock, lines, n - 1, possible);
    }
  }

  lemma AlignedCandidatesAll(stock: seq<Item>, lines: seq<BasketItem>, possible: int)
    requires Aligned(stock, lines)
    ensures LimitingCandidates(stock, lines, possible) == AlignedPicks(stock, lines, possible, |lines|)
  {
    AlignedCandidates(stock, lines, possible, |lines|);
    assert lines[..|lines|] == lines;
  }

  // ---------------------------------------------------------------------
  // The fixture models

  /** The quotients of "Cesta Premium" on the fixture stock: 10, 10, 6, 4, 13, 30, 11, 17. */
  lemma PremiumQuotients(stock: seq<Item>, lines: seq<BasketItem>)
    requires stock == DummyData.Items && lines == DummyData.CestaPremium.items
    ensures Aligned(stock, lines) && |lines| == 8
    ensures forall k :: 0 <= k < 8 ==>
      stock[k].quantity / lines[k].quantity == [10, 10, 6, 4, 13, 30, 11, 17][k]
  {
  }

  /** The quotients of "Cesta Gold" on the fixture stock: 12, 15, 8, 8, 20, 30, 15, 17. */
  lemma GoldQuotients(stock: seq<Item>, lines: seq<BasketItem>)
    requires stock == DummyData.Items && lines == DummyData.CestaGold.items
    ensures Aligned(stock, lines) && |lines| == 8
    ensures forall k :: 0 <= k < 8 ==>
      stock[k].quantity / lines[k].quantity == [12, 15, 8, 8, 20, 30, 15, 17][k]
  {
  }

  lemma PremiumPicks(stock: seq<Item>, lines: seq<BasketItem>)
    requires |stock| == 8 == |lines| && PositiveNeeds(lines)
    requires forall k :: 0 <= k < 8 ==>
      stock[k].quantity / lines[k].quantity == [10, 10, 6, 4, 13, 30, 11, 17][k]
    ensures AlignedPicks(stock, lines, 4, 8) == [stock[3]]
  {
    assert AlignedPicks(stock, lines, 4, 1) == [];
    assert AlignedPicks(stock, lines, 4, 2) == [];
    assert AlignedPicks(stock, lines, 4, 3) == [];
    assert AlignedPicks(stock, lines, 4, 4) == [stock[3]];
    assert AlignedPicks(stock, lines, 4, 5) == [stock[3]];
    assert AlignedPicks(stock, lines, 4, 6) == [stock[3]];
    assert AlignedPicks(stock, lines, 4, 7) == [stock[3]];
  }

  lemma GoldPicks(stock: seq<Item>, lines: seq<BasketItem>)
    requires |stock| == 8 == |lines| && PositiveNeeds(lines)
    requires forall k :: 0 <= k < 8 ==>
      stock[k].quantity / lines[k].quantity == [12, 15, 8, 8, 20, 30, 15, 17][k]
    ensures AlignedPicks(stock, lines, 8, 8) == [stock[2], stock[3]]
  {
    assert AlignedPicks(stock, lines, 8, 1) == [];
    assert AlignedPicks(stock, lines, 8, 2) == [];
    assert AlignedPicks(stock, lines, 8, 3) == [stock[2]];
    assert AlignedPicks(stock, lines, 8, 4) == [stock[2], stock[3]];
    assert AlignedPicks(stock, lines, 8, 5) == [stock[2], stock[3]];
    assert AlignedPicks(stock, lines, 8, 6) == [stock[2], stock[3]];
    assert AlignedPicks(stock, lines, 8, 7) == [stock[2], stock[3]];
  }

  /** On the fixture stock, "Cesta Premium" allows 4 baskets and only coffee limits it. */
  lemma CestaPremiumOutcome(stock: seq<Item>, lines: seq<BasketItem>)
    requires Aligned(stock, lines) && |lines| == 8
    requires forall k :: 0 <= k < 8 ==> stock[k].quantity / lines[k].quantity == [10, 10, 6, 4, 13, 30, 11, 17][k]
    ensures MinCapacity(stock, lines) == 4
    ensures LimitingCandidates(stock, lines, 4) == [stock[3]]
  {
    AlignedMin(stock, lines, 3);
    AlignedCandidatesAll(stock, lines, 4);
    PremiumPicks(stock, lines);
  }

  lemma CestaPremiumFixture(stock: seq<Item>, model: BasketModel)
    requires stock == DummyData.Items && model == DummyData.CestaPremium
    ensures WellFormed(model)
    ensures PossibleBaskets(stock, Some(model)) == 4
    ensures LimitingItems(stock, model.items, 4) == [DummyData.Cafe]
  {
    PremiumQuotients(stock, model.items);
    CestaPremiumOutcome(stock, model.items);
  }

  /** On the fixture stock, "Cesta Gold" allows 8 baskets, limited by sugar and coffee. */
  lemma CestaGoldOutcome(stock: seq<Item>, lines: seq<BasketItem>)
    requires Aligned(stock, lines) && |lines| == 8
    requires forall k :: 0 <= k < 8 ==> stock[k].quantity / lines[k].quantity == [12, 15, 8, 8, 20, 30, 15, 17][k]
    ensures MinCapacity(stock, lines) == 8
    ensures LimitingCandidates(stock, lines, 8) == [stock[2], stock[3]]
  {
    AlignedMin(stock, lines, 2);
    AlignedCandidatesAll(stock, lines, 8);
    GoldPicks(stock, lines);
  }

  lemma CestaGoldFixture(stock: seq<Item>, model: BasketModel)
    requires stock == DummyData.Items && model == DummyData.CestaGold
    ensures WellFormed(model)
    ensures PossibleBaskets(stock, Some(model)) == 8
    ensures LimitingItems(stock, model.items, 8) == [DummyData.Acucar, DummyData.Cafe]
  {
    GoldQuotients(stock, model.items);
    CestaGoldOutcome(stock, model.items);
  }
}
