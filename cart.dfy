/**
 * The shopping cart of the visitor lecture: shipping, tax and the packing
 * list, first as three `instanceof` loops inside the cart
 * (`PreVisitorCartMain`), then as visitors that accumulate into their own
 * fields while the cart walks its items (`PostVisitorCartMain`). Money and
 * weight are `real`.
 */
module Cart {

  /**
   * The item classes. `Other` stands for a `CartItem` of none of the three
   * kinds, which the `instanceof` chains of the first version must handle.
   */
  datatype CartItem =
    | Book(name: string, price: real, weight: real, isbn: string)
    | Electronics(name: string, price: real, weight: real, requiresExtraInsurance: bool)
    | Grocery(name: string, price: real, weight: real, isTaxExempt: bool)
    | Other(name: string, price: real, weight: real)

  /** The items a visitor can visit: each has an `accept` for its own overload. */
  type VisitableItem = i: CartItem | !i.Other? witness Book("", 0.0, 0.0, "")

  const BASE_RATE_PER_KG: real := 1.5
  const ELECTRONICS_INSURANCE_FEE: real := 5.0
  const STANDARD_TAX_RATE: real := 0.08
  const BOOK_TAX_RATE: real := 0.05

  /** The shipping of one item, the same in both versions: weight at the base rate, plus the fee for insured electronics. */
  function ItemShipping(i: CartItem): (r: real)
    ensures i.Electronics? && i.requiresExtraInsurance ==> r == i.weight * BASE_RATE_PER_KG + ELECTRONICS_INSURANCE_FEE
    ensures !(i.Electronics? && i.requiresExtraInsurance) ==> r == i.weight * BASE_RATE_PER_KG
  {
    i.weight * BASE_RATE_PER_KG + (if i.Electronics? && i.requiresExtraInsurance then ELECTRONICS_INSURANCE_FEE else 0.0)
  }

  /** The tax of one item as `TaxCalculationVisitor` computes it. */
  function ItemTax(i: VisitableItem): (r: real)
    ensures i.price >= 0.0 ==> 0.0 <= r <= i.price * STANDARD_TAX_RATE
    ensures i.Grocery? && i.isTaxExempt ==> r == 0.0
    ensures i.Book? ==> r == i.price * BOOK_TAX_RATE
  {
    match i
    case Book(_, price, _, _) => price * BOOK_TAX_RATE
    case Electronics(_, price, _, _) => price * STANDARD_TAX_RATE
    case Grocery(_, price, _, isTaxExempt) => if isTaxExempt then 0.0 else price * STANDARD_TAX_RATE
  }

  /** The tax of one item as `calculateTotalTax` computes it: the book rate is written as 0.08 - 0.03. */
  function PreItemTax(i: CartItem): (r: real)
    ensures i.Book? ==> r == i.price * BOOK_TAX_RATE
    ensures i.Other? || i.Electronics? ==> r == i.price * STANDARD_TAX_RATE
    ensures i.Grocery? ==> r == if i.isTaxExempt then 0.0 else i.price * STANDARD_TAX_RATE
  {
    if i.Grocery? then (if i.isTaxExempt then 0.0 else i.price * STANDARD_TAX_RATE)
    else if i.Book? then i.price * (STANDARD_TAX_RATE - 0.03)
    else i.price * STANDARD_TAX_RATE
  }

  /** The packing instruction of each kind. */
  function PackingTag(i: VisitableItem): string
  {
    match i
    case Book(_, _, _, _) => "Standard box"
    case Electronics(_, _, _, _) => "Use bubble wrap and anti-static bag"
    case Grocery(_, _, _, _) => "Check for temperature sensitivity"
  }

  /** The line `PackingListVisitor` appends for one item. */
  function PackingLine(i: VisitableItem): (r: string)
    ensures |r| >= |i.name| + 3 && r[..2] == "- " && r[2..2 + |i.name|] == i.name && r[|r| - 1] == '\n'
  {
    "- " + i.name + " [PACKING: " + PackingTag(i) + "]\n"
  }

  /** The line `generatePackingList` appends for one item: no tag for an item of none of the three kinds. */
  function PrePackingLine(i: CartItem): (r: string)
    ensures |r| >= |i.name| + 3 && r[..2] == "- " && r[2..2 + |i.name|] == i.name && r[|r| - 1] == '\n'
    ensures i.Other? ==> |r| == |i.name| + 3
  {
    "- " + i.name + (if i.Other? then "" else " [PACKING: " + PackingTag(i) + "]") + "\n"
  }

  /** The heading `generatePackingList` starts from. */
  const PACKING_HEADER: string := "Packing List:\n"

  /** `calculateTotalShipping` and `ShippingCostVisitor`'s total: the item shippings added from the first. */
  function TotalShipping(items: seq<CartItem>): real
  {
    if items == [] then 0.0 else TotalShipping(items[..|items| - 1]) + ItemShipping(items[|items| - 1])
  }

  /** What `calculateTotalTax` adds up. */
  function PreTotalTax(items: seq<CartItem>): real
  {
    if items == [] then 0.0 else PreTotalTax(items[..|items| - 1]) + PreItemTax(items[|items| - 1])
  }

  /** What `TaxCalculationVisitor` adds up. */
  function TotalTax(items: seq<VisitableItem>): real
  {
    if items == [] then 0.0 else TotalTax(items[..|items| - 1]) + ItemTax(items[|items| - 1])
  }

  /** The lines `generatePackingList` appends after its heading. */
  function PrePackingLines(items: seq<CartItem>): string
  {
    if items == [] then "" else PrePackingLines(items[..|items| - 1]) + PrePackingLine(items[|items| - 1])
  }

  /** The lines `PackingListVisitor` appends. */
  function PackingLines(items: seq<VisitableItem>): string
  {
    if items == [] then "" else PackingLines(items[..|items| - 1]) + PackingLine(items[|items| - 1])
  }

  /** The cart of `PreVisitorCartMain`: one loop per operation, none of which changes the items. */
  class PreShoppingCart {
    var items: seq<CartItem>

    constructor ()
      ensures items == []
    {
      items := [];
    }

    /** `addItem`: appends. */
    method AddItem(item: CartItem)
      modifies this
      ensures items == old(items) + [item]
    {
      items := items + [item];
    }

    /** `calculateTotalShipping`. */
    method CalculateTotalShipping() returns (totalShippingCost: real)
      ensures totalShippingCost == TotalShipping(items)
    {
      totalShippingCost := 0.0;
      for k := 0 to |items|
        invariant totalShippingCost == TotalShipping(items[..k])
      {
        var itemShipping := items[k].weight * BASE_RATE_PER_KG;
        if items[k].Electronics? && items[k].requiresExtraInsurance {
          itemShipping := itemShipping + ELECTRONICS_INSURANCE_FEE;
        }
        assert items[..k + 1][..k] == items[..k];
        totalShippingCost := totalShippingCost + itemShipping;
      }
      assert items[..|items|] == items;
    }

    /** `calculateTotalTax`. */
    method CalculateTotalTax() returns (totalTax: real)
      ensures totalTax == PreTotalTax(items)
    {
      totalTax := 0.0;
      for k := 0 to |items|
        invariant totalTax == PreTotalTax(items[..k])
      {
        var item := items[k];
        var itemTax := 0.0;
        if item.Grocery? {
          if !item.isTaxExempt {
            itemTax := item.price * STANDARD_TAX_RATE;
          }
        } else if item.Book? {
          itemTax := item.price * (STANDARD_TAX_RATE - 0.03);
        } else {
          itemTax := item.price * STANDARD_TAX_RATE;
        }
        assert items[..k + 1][..k] == items[..k];
        totalTax := totalTax + itemTax;
      }
      assert items[..|items|] == items;
    }

    /** `generatePackingList`. */
    method GeneratePackingList() returns (packingList: string)
      ensures packingList == PACKING_HEADER + PrePackingLines(items)
    {
      packingList := PACKING_HEADER;
      for k := 0 to |items|
        invariant packingList == PACKING_HEADER + PrePackingLines(items[..k])
      {
        packingList := AppendPackingLine(packingList, items[k]);
        PrePackingStep(items, k);
        Append4(PACKING_HEADER, PrePackingLines(items[..k]), PrePackingLine(items[k]), "");
        AppendEmpty(PrePackingLine(items[k]));
        AppendEmpty(PACKING_HEADER + PrePackingLines(items[..k]) + PrePackingLine(items[k]));
      }
      assert items[..|items|] == items;
    }
  }

  /** One iteration of `generatePackingList`: the dash and name, the tag of a known kind, the newline. */
  method AppendPackingLine(packingList: string, item: CartItem) returns (r: string)
    ensures r == packingList + PrePackingLine(item)
  {
    r := packingList + ("- " + item.name);
    if !item.Other? {
      r := r + (" [PACKING: " + PackingTag(item) + "]");
    } else {
      AppendEmpty(r);
    }
    r := r + "\n";
    Append4(packingList, "- " + item.name, if item.Other? then "" else " [PACKING: " + PackingTag(item) + "]", "\n");
  }

  /** String concatenation helpers for the packing-list proofs. */
  lemma AppendEmpty(s: string)
    ensures s + "" == s
  {
  }

  lemma EmptyLeft(s: string)
    ensures "" + s == s
  {
  }

  lemma Append4(a: string, b: string, c: string, d: string)
    ensures a + b + c + d == a + (b + c + d)
  {
  }

  /** The lines of one more item: the lines so far and its own. */
  lemma PrePackingStep(items: seq<CartItem>, k: int)
    requires 0 <= k < |items|
    ensures PrePackingLines(items[..k + 1]) == PrePackingLines(items[..k]) + PrePackingLine(items[k])
  {
    assert items[..k + 1][..k] == items[..k];
  }

  /** The three visitors. */
  datatype VisitorKind = ShippingCostVisitor | TaxCalculationVisitor | PackingListVisitor

  /** The fields of a visitor; each kind accumulates into its own, the others stay at their start values. */
  datatype VisitorState = VisitorState(kind: VisitorKind, totalCost: real, totalTax: real, packingList: string)

  /** A new visitor of each kind: totals 0, empty packing list. */
  function Initial(kind: VisitorKind): VisitorState
  {
    VisitorState(kind, 0.0, 0.0, "")
  }

  /** A visitor's fields after `item.accept(visitor)`, that is after the visit overload of the item's kind. */
  function Visited(s: VisitorState, item: VisitableItem): VisitorState
  {
    match s.kind
    case ShippingCostVisitor => s.(totalCost := s.totalCost + ItemShipping(item))
    case TaxCalculationVisitor => s.(totalTax := s.totalTax + ItemTax(item))
    case PackingListVisitor => s.(packingList := s.packingList + PackingLine(item))
  }

  /** A visitor's fields after visiting the items in order. */
  function VisitAll(s: VisitorState, items: seq<VisitableItem>): (r: VisitorState)
    ensures r.kind == s.kind
    ensures s.kind != ShippingCostVisitor ==> r.totalCost == s.totalCost
    ensures s.kind != TaxCalculationVisitor ==> r.totalTax == s.totalTax
    ensures s.kind != PackingListVisitor ==> r.packingList == s.packingList
  {
    if items == [] then s else Visited(VisitAll(s, items[..|items| - 1]), items[|items| - 1])
  }

  /** A shipping visitor adds each item's shipping once and touches nothing else; nothing is reset. */
  lemma {:induction false} ShippingAccumulates(s: VisitorState, items: seq<VisitableItem>)
    requires s.kind == ShippingCostVisitor
    ensures VisitAll(s, items) == s.(totalCost := s.totalCost + TotalShipping(items))
    decreases |items|
  {
    if items != [] {
      var n := |items| - 1;
      ShippingAccumulates(s, items[..n]);
    }
  }

  /** A tax visitor adds each item's tax once and touches nothing else. */
  lemma {:induction false} TaxAccumulates(s: VisitorState, items: seq<VisitableItem>)
    requires s.kind == TaxCalculationVisitor
    ensures VisitAll(s, items) == s.(totalTax := s.totalTax + TotalTax(items))
    decreases |items|
  {
    if items != [] {
      var n := |items| - 1;
      TaxAccumulates(s, items[..n]);
    }
  }

  /** One packing visit appends the item's line and nothing else. */
  lemma VisitAllPackingStep(s: VisitorState, items: seq<VisitableItem>)
    requires s.kind == PackingListVisitor && items != []
    ensures VisitAll(s, items) == VisitAll(s, items[..|items| - 1]).(packingList := VisitAll(s, items[..|items| - 1]).packingList + PackingLine(items[|items| - 1]))
  {
  }

  /** Appending `q` and then `r` to a field appends `q + r`. */
  lemma AppendTwice(s: VisitorState, q: string, r: string)
    ensures s.(packingList := s.packingList + q).(packingList := s.packingList + q + r) == s.(packingList := s.packingList + (q + r))
  {
    assert s.packingList + q + r == s.packingList + (q + r);
  }

  /** A packing visitor appends each item's line once, in order, and touches nothing else. */
  lemma {:induction false} PackingAccumulates(s: VisitorState, items: seq<VisitableItem>)
    requires s.kind == PackingListVisitor
    ensures VisitAll(s, items) == s.(packingList := s.packingList + PackingLines(items))
    decreases |items|
  {
    if items == [] {
      assert s.packingList + "" == s.packingList;
    } else {
      var n := |items| - 1;
      PackingAccumulates(s, items[..n]);
      VisitAllPackingStep(s, items);
      AppendTwice(s, PackingLines(items[..n]), PackingLine(items[n]));
    }
  }

  /** The visitor's fields for a cart: one `Visited` per item, each on the item's own overload. */
  class ShoppingCart {
    var items: seq<VisitableItem>

    constructor ()
      ensures items == []
    {
      items := [];
    }

    /** `addItem`: appends. */
    method AddItem(item: VisitableItem)
      modifies this
      ensures items == old(items) + [item]
    {
      items := items + [item];
    }

    /** `applyVisitor`: each item accepts the visitor once, in insertion order. */
    method ApplyVisitor(visitor: Visitor)
      modifies visitor
      ensures visitor.State() == VisitAll(old(visitor.State()), items)
    {
      ghost var s0 := visitor.State();
      for k := 0 to |items|
        invariant visitor.State() == VisitAll(s0, items[..k])
      {
        visitor.Visit(items[k]);
        assert items[..k + 1][..k] == items[..k];
      }
      assert items[..|items|] == items;
    }
  }

  /** A visitor object; `kind` stands for its class. */
  class Visitor {
    const kind: VisitorKind
    var totalCost: real
    var totalTax: real
    var packingList: string

    function State(): VisitorState
      reads this
    {
      VisitorState(kind, totalCost, totalTax, packingList)
    }

    constructor (kind: VisitorKind)
      ensures State() == Initial(kind)
    {
      this.kind := kind;
      totalCost, totalTax, packingList := 0.0, 0.0, "";
    }

    /** The `visit` overload for the item's kind, of this visitor's class. */
    method Visit(item: VisitableItem)
      modifies this
      ensures State() == Visited(old(State()), item)
    {
      match kind {
        case ShippingCostVisitor =>
          var itemShipping := item.weight * BASE_RATE_PER_KG;
          if item.Electronics? && item.requiresExtraInsurance {
            itemShipping := itemShipping + ELECTRONICS_INSURANCE_FEE;
          }
          totalCost := totalCost + itemShipping;
        case TaxCalculationVisitor =>
          var itemTax := 0.0;
          if item.Book? {
            itemTax := item.price * BOOK_TAX_RATE;
          } else if item.Electronics? {
            itemTax := item.price * STANDARD_TAX_RATE;
          } else if !item.isTaxExempt {
            itemTax := item.price * STANDARD_TAX_RATE;
          }
          totalTax := totalTax + itemTax;
        case PackingListVisitor =>
          packingList := packingList + PackingLine(item);
      }
    }
  }

  /** Over reals the book rate 0.08 - 0.03 is 0.05: both versions tax every visitable item alike. */
  lemma {:induction false} TaxVersionsAgree(items: seq<VisitableItem>)
    ensures PreTotalTax(items) == TotalTax(items)
    decreases |items|
  {
    if items != [] {
      var n := |items| - 1;
      TaxVersionsAgree(items[..n]);
      assert PreItemTax(items[n]) == ItemTax(items[n]);
    }
  }

  /** Both versions write the same line for every visitable item; the first version adds its heading. */
  lemma {:induction false} PackingVersionsAgree(items: seq<VisitableItem>)
    ensures PrePackingLines(items) == PackingLines(items)
    decreases |items|
  {
    if items != [] {
      var n := |items| - 1;
      PackingVersionsAgree(items[..n]);
      LineAgrees(items[n]);
    }
  }

  /** The line of one visitable item is the same in both versions. */
  lemma LineAgrees(i: VisitableItem)
    ensures PrePackingLine(i) == PackingLine(i)
  {
    var a, t := "- " + i.name, PackingTag(i);
    assert " [PACKING: " + t + "]" + "\n" == " [PACKING: " + t + "]\n";
    Append4(a, " [PACKING: ", t, "]" + "\n");
    Append4(a, " [PACKING: " + t, "]", "\n");
  }

  /** A new shipping visitor applied to a cart ends with what `calculateTotalShipping` returns. */
  lemma ShippingVisitorMatchesLoop(items: seq<VisitableItem>)
    ensures VisitAll(Initial(ShippingCostVisitor), items).totalCost == TotalShipping(items)
  {
    ShippingAccumulates(Initial(ShippingCostVisitor), items);
  }

  /** A new tax visitor applied to a cart ends with what `calculateTotalTax` returns. */
  lemma TaxVisitorMatchesLoop(items: seq<VisitableItem>)
    ensures VisitAll(Initial(TaxCalculationVisitor), items).totalTax == PreTotalTax(items)
  {
    TaxAccumulates(Initial(TaxCalculationVisitor), items);
    TaxVersionsAgree(items);
  }

  /** A new packing visitor applied to a cart ends with what `generatePackingList` returns after its heading. */
  lemma PackingVisitorMatchesLoop(items: seq<VisitableItem>)
    ensures VisitAll(Initial(PackingListVisitor), items).packingList == PrePackingLines(items)
  {
    var p := Initial(PackingListVisitor);
    PackingAccumulates(p, items);
    EmptyLeft(PackingLines(items));
    PackingVersionsAgree(items);
  }

  /** The total is never reset: applying a new shipping visitor twice counts every item twice. */
  lemma ShippingAppliedTwice(items: seq<VisitableItem>)
    ensures VisitAll(VisitAll(Initial(ShippingCostVisitor), items), items).totalCost == 2.0 * TotalShipping(items)
  {
    var s := Initial(ShippingCostVisitor);
    ShippingAccumulates(s, items);
    ShippingAccumulates(VisitAll(s, items), items);
  }

  /** The packing list is never cleared: a second pass appends every line again. */
  lemma PackingAppliedTwice(items: seq<VisitableItem>)
    ensures VisitAll(VisitAll(Initial(PackingListVisitor), items), items).packingList
      == PackingLines(items) + PackingLines(items)
  {
    var p := Initial(PackingListVisitor);
    PackingAccumulates(p, items);
    EmptyLeft(PackingLines(items));
    var once := VisitAll(p, items);
    PackingAccumulates(once, items);
  }
}
