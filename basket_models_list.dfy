/**
 * The basket-model editor: a draft model (name and lines) built one line at
 * a time, where adding an item already in the draft raises that line's
 * quantity; saving appends the draft to the list of models. Also the cost of
 * one basket and the display name of a line's item.
 *
 * The item catalogue the page reads is a parameter; fresh ids come from the
 * clock in the page and are parameters too.
 */
module BasketModelsList {
  import opened Common
  import opened Types
  import BasketCalculator

  // ---------------------------------------------------------------------
  // Draft lines

  /** The line editor's check: an item chosen and a quantity above zero. */
  predicate AcceptsLine(line: BasketItem)
  {
    line.itemId != "" && line.quantity > 0
  }

  /** `items.findIndex(item => item.itemId === itemId)`, or None for -1. */
  function FindLine(lines: seq<BasketItem>, itemId: string): Option<nat>
  {
    FirstIndex(lines, (line: BasketItem) => line.itemId == itemId)
  }

  /** The draft lines after "add item": unchanged if rejected, merged into an existing line, or appended. */
  function AddLine(lines: seq<BasketItem>, line: BasketItem): seq<BasketItem>
  {
    if !AcceptsLine(line) then lines
    else match FindLine(lines, line.itemId)
      case Some(k) => lines[k := lines[k].(quantity := lines[k].quantity + line.quantity)]
      case None => lines + [line]
  }

  /** `items.filter(item => item.itemId !== itemId)`. */
  function RemoveLine(lines: seq<BasketItem>, itemId: string): seq<BasketItem>
  {
    Filter(lines, (l: BasketItem) => l.itemId != itemId)
  }

  /** What the editor keeps true of the draft: chosen items, each once, each with a positive quantity. */
  predicate ValidLines(lines: seq<BasketItem>)
  {
    && (forall k :: 0 <= k < |lines| ==> lines[k].itemId != "" && lines[k].quantity > 0)
    && (forall i, j :: 0 <= i < j < |lines| ==> lines[i].itemId != lines[j].itemId)
  }

  /** A rejected line leaves the draft as it was. */
  lemma AddLineRejected(lines: seq<BasketItem>, line: BasketItem)
    requires line.itemId == "" || line.quantity <= 0
    ensures AddLine(lines, line) == lines
  {
  }

  /** An item already in the draft has its quantity raised by the amount added; nothing else changes. */
  lemma AddLineMerges(lines: seq<BasketItem>, line: BasketItem, k: nat)
    requires ValidLines(lines) && AcceptsLine(line)
    requires k < |lines| && lines[k].itemId == line.itemId
    ensures AddLine(lines, line) == lines[k := BasketItem(line.itemId, lines[k].quantity + line.quantity)]
  {
    var f := FindLine(lines, line.itemId);
    assert f == Some(k);
  }

  /** A new item is appended as one more line at the end. */
  lemma AddLineAppends(lines: seq<BasketItem>, line: BasketItem)
    requires AcceptsLine(line)
    requires forall k :: 0 <= k < |lines| ==> lines[k].itemId != line.itemId
    ensures AddLine(lines, line) == lines + [line]
  {
  }

  /** Adding a line keeps the draft valid. */
  lemma AddLineValid(lines: seq<BasketItem>, line: BasketItem)
    requires ValidLines(lines)
    ensures ValidLines(AddLine(lines, line))
  {
  }

  /** Removing drops exactly the line of that item and keeps the others, in order. */
  lemma RemoveLineExact(lines: seq<BasketItem>, itemId: string, k: nat)
    requires ValidLines(lines) && k < |lines| && lines[k].itemId == itemId
    ensures RemoveLine(lines, itemId) == lines[..k] + lines[k + 1..]
  {
    var p := (l: BasketItem) => l.itemId != itemId;
    var before, after := lines[..k], lines[k + 1..];
    assert lines == (before + [lines[k]]) + after;
    forall i | 0 <= i < |before| ensures p(before[i]) {
      assert before[i] == lines[i];
    }
    forall i | 0 <= i < |after| ensures p(after[i]) {
      assert after[i] == lines[k + 1 + i];
    }
    FilterAll(before, p);
    FilterAll(after, p);
    FilterSnoc(before, lines[k], p);
    assert Filter(before + [lines[k]], p) == before;
    FilterAppend(before + [lines[k]], after, p);
  }

  /** Removing keeps the draft valid. */
  lemma RemoveLineValid(lines: seq<BasketItem>, itemId: string)
    requires ValidLines(lines)
    ensures ValidLines(RemoveLine(lines, itemId))
  {
    match FindLine(lines, itemId)
    case None =>
      FilterAll(lines, (l: BasketItem) => l.itemId != itemId);
    case Some(k) =>
      RemoveLineExact(lines, itemId, k);
      DropKeepsValid(lines, k);
  }

  /** Dropping the line at one position keeps a draft valid. */
  lemma DropKeepsValid(lines: seq<BasketItem>, k: nat)
    requires ValidLines(lines) && k < |lines|
    ensures ValidLines(lines[..k] + lines[k + 1..])
  {
    var r := lines[..k] + lines[k + 1..];
    forall i | 0 <= i < |r| ensures r[i].itemId != "" && r[i].quantity > 0 {
      var a := if i < k then i else i + 1;
      assert r[i] == lines[a];
    }
    forall i, j | 0 <= i < j < |r| ensures r[i].itemId != r[j].itemId {
      var a := if i < k then i else i + 1;
      var b := if j < k then j else j + 1;
      assert r[i] == lines[a] && r[j] == lines[b] && a < b;
    }
  }

  // ---------------------------------------------------------------------
  // Saving

  /** The save button's check: a name and at least one line. */
  predicate CanSaveModel(name: string, lines: seq<BasketItem>)
  {
    name != "" && |lines| > 0
  }

  /** The models after "save": the draft appended under a fresh id, or unchanged when rejected. */
  function SaveModel(models: seq<BasketModel>, name: string, lines: seq<BasketItem>, freshId: string): seq<BasketModel>
  {
    if CanSaveModel(name, lines) then models + [BasketModel(freshId, name, lines)] else models
  }

  /**
   * A model saved from a valid draft has at least one line and only
   * positive needs: what the basket calculator requires of a model.
   */
  lemma SavedModelWellFormed(models: seq<BasketModel>, name: string, lines: seq<BasketItem>, freshId: string)
    requires ValidLines(lines) && CanSaveModel(name, lines)
    ensures var r := SaveModel(models, name, lines, freshId);
      && |r| == |models| + 1 && r[..|models|] == models
      && r[|models|] == BasketModel(freshId, name, lines)
      && BasketCalculator.WellFormed(r[|models|])
  {
    var r := SaveModel(models, name, lines, freshId);
    assert r[..|models|] == models;
  }

  // ---------------------------------------------------------------------
  // Cost and names

  /** One line's share of a basket's cost: unit price times quantity, or 0 for an unknown item. */
  function LineCost(catalogue: seq<Item>): BasketItem -> int
  {
    (line: BasketItem) =>
      match FindItem(catalogue, line.itemId)
        case Some(item) => item.unitPrice * line.quantity
        case None => 0
  }

  /** `calculateModelCost`: what one basket of the model costs. */
  function ModelCost(catalogue: seq<Item>, model: BasketModel): int
  {
    SumOf(model.items, LineCost(catalogue))
  }

  /** `getItemName`: the item's name, or "Item desconhecido" when the id is not in the catalogue. */
  function ItemName(catalogue: seq<Item>, itemId: string): (r: string)
    ensures FindItem(catalogue, itemId).Some? ==> r == FindItem(catalogue, itemId).value.name
    ensures FindItem(catalogue, itemId).None? ==> r == "Item desconhecido"
  {
    match FindItem(catalogue, itemId)
      case Some(item) => item.name
      case None => "Item desconhecido"
  }

  /** Lines whose item is unknown add nothing to the cost. */
  lemma {:induction false} UnknownLinesFree(catalogue: seq<Item>, lines: seq<BasketItem>)
    requires forall k :: 0 <= k < |lines| ==> FindItem(catalogue, lines[k].itemId).None?
    ensures ModelCost(catalogue, BasketModel("", "", lines)) == 0
  {
    if lines != [] {
      UnknownLinesFree(catalogue, lines[..|lines| - 1]);
    }
  }

  /** The cost of a line is linear in its quantity. */
  lemma LineCostSplit(catalogue: seq<Item>, itemId: string, a: int, b: int)
    ensures LineCost(catalogue)(BasketItem(itemId, a + b))
            == LineCost(catalogue)(BasketItem(itemId, a)) + LineCost(catalogue)(BasketItem(itemId, b))
  {
    match FindItem(catalogue, itemId) {
      case Some(item) =>
        assert item.unitPrice * (a + b) == item.unitPrice * a + item.unitPrice * b;
      case None =>
    }
  }

  /**
   * Adding a line to the draft raises the cost of one basket by that line's
   * cost, whether the line is merged into an existing one or appended.
   */
  lemma AddLineCost(catalogue: seq<Item>, lines: seq<BasketItem>, line: BasketItem)
    requires ValidLines(lines) && AcceptsLine(line)
    ensures SumOf(AddLine(lines, line), LineCost(catalogue)) == SumOf(lines, LineCost(catalogue)) + LineCost(catalogue)(line)
  {
    var c := LineCost(catalogue);
    match FindLine(lines, line.itemId)
    case Some(k) =>
      var merged := BasketItem(line.itemId, lines[k].quantity + line.quantity);
      AddLineMerges(lines, line, k);
      LineCostSplit(catalogue, line.itemId, lines[k].quantity, line.quantity);
      assert lines[k] == BasketItem(line.itemId, lines[k].quantity);
      SumOfUpdate(lines, k, merged, c);
    case None =>
      AddLineAppends(lines, line);
      SumOfAppend(lines, [line], c);
      assert SumOf([line], c) == c(line) by {
        assert [line][..0] == [];
      }
  }

  /** Removing the line of an item lowers the cost by exactly that line's cost. */
  lemma RemoveLineCost(catalogue: seq<Item>, lines: seq<BasketItem>, k: nat)
    requires ValidLines(lines) && k < |lines|
    ensures SumOf(RemoveLine(lines, lines[k].itemId), LineCost(catalogue))
            == SumOf(lines, LineCost(catalogue)) - LineCost(catalogue)(lines[k])
  {
    RemoveLineExact(lines, lines[k].itemId, k);
    SumOfRemove(lines, k, LineCost(catalogue));
  }

  // ---------------------------------------------------------------------
  // The page state

  class BasketModelsPage {
    var models: seq<BasketModel>
    var draftName: string
    var draftLines: seq<BasketItem>
    var newLine: BasketItem
    var dialogOpen: bool

    ghost predicate Valid()
      reads this
    {
      ValidLines(draftLines)
    }

    constructor(initial: seq<BasketModel>)
      ensures Valid()
      ensures models == initial && draftName == "" && draftLines == []
      ensures newLine == BasketItem("", 1) && !dialogOpen
    {
      models := initial;
      draftName := "";
      draftLines := [];
      newLine := BasketItem("", 1);
      dialogOpen := false;
    }

    /** "Add item": rejected with a message, or the line merged or appended and the line editor reset. */
    method HandleAddItemToModel()
      requires Valid()
      modifies this
      ensures Valid()
      ensures draftLines == AddLine(old(draftLines), old(newLine))
      ensures newLine == if AcceptsLine(old(newLine)) then BasketItem("", 1) else old(newLine)
      ensures models == old(models) && draftName == old(draftName) && dialogOpen == old(dialogOpen)
    {
      if newLine.itemId == "" || newLine.quantity <= 0 {
        return;
      }
      AddLineValid(draftLines, newLine);
      var k := 0;
      while k < |draftLines| && draftLines[k].itemId != newLine.itemId
        invariant 0 <= k <= |draftLines|
        invariant forall j :: 0 <= j < k ==> draftLines[j].itemId != newLine.itemId
      {
        k := k + 1;
      }
      if k < |draftLines| {
        assert FindLine(draftLines, newLine.itemId) == Some(k);
        draftLines := draftLines[k := draftLines[k].(quantity := draftLines[k].quantity + newLine.quantity)];
      } else {
        draftLines := draftLines + [newLine];
      }
      newLine := BasketItem("", 1);
    }

    /** The remove button of a draft line. */
    method HandleRemoveItemFromModel(itemId: string)
      requires Valid()
      modifies this
      ensures Valid()
      ensures draftLines == RemoveLine(old(draftLines), itemId)
      ensures models == old(models) && draftName == old(draftName)
      ensures newLine == old(newLine) && dialogOpen == old(dialogOpen)
    {
      RemoveLineValid(draftLines, itemId);
      draftLines := RemoveLine(draftLines, itemId);
    }

    /** "Save": rejected with a message, or the draft appended as a model and the editor cleared and closed. */
    method HandleSaveModel(freshId: string)
      requires Valid()
      modifies this
      ensures Valid()
      ensures models == SaveModel(old(models), old(draftName), old(draftLines), freshId)
      ensures CanSaveModel(old(draftName), old(draftLines)) ==> draftName == "" && draftLines == [] && !dialogOpen
      ensures !CanSaveModel(old(draftName), old(draftLines)) ==>
                draftName == old(draftName) && draftLines == old(draftLines) && dialogOpen == old(dialogOpen)
      ensures newLine == old(newLine)
    {
      if draftName == "" || |draftLines| == 0 {
        return;
      }
      models := models + [BasketModel(freshId, draftName, draftLines)];
      draftName := "";
      draftLines := [];
      dialogOpen := false;
    }

    method SetDraftName(name: string)
      modifies this
      ensures draftName == name
      ensures models == old(models) && draftLines == old(draftLines)
      ensures newLine == old(newLine) && dialogOpen == old(dialogOpen)
    {
      draftName := name;
    }

    /** The line editor's item picker and quantity field. */
    method SetNewLine(line: BasketItem)
      modifies this
      ensures newLine == line
      ensures models == old(models) && draftName == old(draftName)
      ensures draftLines == old(draftLines) && dialogOpen == old(dialogOpen)
    {
      newLine := line;
    }
  }
}
