/**
 * Shipping cost of an order, twice: first as one method switching on a
 * method name (`PreStrategyMain`), then as interchangeable strategy objects
 * the order delegates to (`PostStrategyMain`). Money and weight are `real`:
 * the model says which rate applies, not how doubles round.
 */
module Shipping {
  import opened Common
  import opened JavaText
  import opened JavaList

  /** `Item`: immutable name, price and weight (the same class in both files). */
  datatype Item = Item(name: string, price: real, weight: real)

  /** `getTotalWeight`: the sum of the item weights. */
  function TotalWeight(items: seq<Item>): (r: real)
    ensures (forall k :: 0 <= k < |items| ==> items[k].weight >= 0.0) ==> r >= 0.0
  {
    if items == [] then 0.0 else TotalWeight(items[..|items| - 1]) + items[|items| - 1].weight
  }

  /** `getTotalValue`: the sum of the item prices. */
  function TotalValue(items: seq<Item>): (r: real)
    ensures (forall k :: 0 <= k < |items| ==> items[k].price >= 0.0) ==> r >= 0.0
  {
    if items == [] then 0.0 else TotalValue(items[..|items| - 1]) + items[|items| - 1].price
  }

  /** Both totals are additive over a split of the item list. */
  lemma {:induction false} TotalsAdditive(a: seq<Item>, b: seq<Item>)
    ensures TotalWeight(a + b) == TotalWeight(a) + TotalWeight(b)
    ensures TotalValue(a + b) == TotalValue(a) + TotalValue(b)
    decreases |b|
  {
    if b == [] {
      assert a + b == a;
    } else {
      assert (a + b)[..|a + b| - 1] == a + b[..|b| - 1];
      assert (a + b)[|a + b| - 1] == b[|b| - 1];
      TotalsAdditive(a, b[..|b| - 1]);
    }
  }

  /** The three concrete strategies, each with the fields its constructor stores. */
  datatype Strategy =
    | FlatRate(rate: real)
    | WeightBased(ratePerKg: real)
    | FreeThreshold(threshold: real, fallbackRate: real)

  /** `getClass().getSimpleName()`. */
  function SimpleName(s: Strategy): string
  {
    match s
    case FlatRate(_) => "FlatRateShippingStrategy"
    case WeightBased(_) => "WeightBasedShippingStrategy"
    case FreeThreshold(_, _) => "FreeThresholdShippingStrategy"
  }

  /**
   * `calculate(order)`: the flat rate whatever the order holds; the total
   * weight times the rate; free strictly above the threshold, the fallback
   * rate at or below it.
   */
  function Calculate(s: Strategy, items: seq<Item>): (r: real)
    ensures s.FlatRate? ==> r == s.rate
    ensures s.WeightBased? ==> r == TotalWeight(items) * s.ratePerKg
    ensures s.FreeThreshold? && TotalValue(items) > s.threshold ==> r == 0.0
    ensures s.FreeThreshold? && TotalValue(items) <= s.threshold ==> r == s.fallbackRate
  {
    match s
    case FlatRate(rate) => rate
    case WeightBased(ratePerKg) => TotalWeight(items) * ratePerKg
    case FreeThreshold(threshold, fallbackRate) =>
      if TotalValue(items) > threshold then 0.0 else fallbackRate
  }

  /** A flat rate ignores the items: two orders cost the same. */
  lemma FlatRateIgnoresItems(rate: real, a: seq<Item>, b: seq<Item>)
    ensures Calculate(FlatRate(rate), a) == Calculate(FlatRate(rate), b)
  {
  }

  /** Adding an item never makes weight-based shipping cheaper when weights and the rate are non-negative. */
  lemma WeightBasedMonotone(ratePerKg: real, items: seq<Item>, x: Item)
    requires ratePerKg >= 0.0 && x.weight >= 0.0
    ensures Calculate(WeightBased(ratePerKg), items + [x]) >= Calculate(WeightBased(ratePerKg), items)
  {
    TotalsAdditive(items, [x]);
    assert TotalWeight([x]) == x.weight by {
      assert [x][..0] == [];
    }
    assert x.weight * ratePerKg >= 0.0;
    assert (TotalWeight(items) + x.weight) * ratePerKg == TotalWeight(items) * ratePerKg + x.weight * ratePerKg;
  }

  /** The order of `PostStrategyMain`: the strategy is a reference that may be null. */
  class Order {
    var items: seq<Item>
    var shippingStrategy: Option<Strategy>

    constructor ()
      ensures items == [] && shippingStrategy == None
    {
      items, shippingStrategy := [], None;
    }

    /** `addItem`: appends. */
    method AddItem(item: Item)
      modifies this
      ensures items == old(items) + [item] && shippingStrategy == old(shippingStrategy)
    {
      items := items + [item];
    }

    /**
     * `setShippingStrategy`: the field is assigned first; for null the
     * following `strategy.getClass()` throws, with null already stored.
     */
    method SetShippingStrategy(strategy: Option<Strategy>) returns (o: Outcome)
      modifies this
      ensures shippingStrategy == strategy && items == old(items)
      ensures o == if strategy.None? then Threw(NullPointer) else Done
    {
      shippingStrategy := strategy;
      if strategy.None? {
        return Threw(NullPointer);
      }
      o := Done;
    }

    /** `getItems`: a new list holding the items, which the caller may change freely. */
    method GetItems() returns (r: JList<Item>)
      ensures fresh(r) && r.elems == items
    {
      r := new JList(items);
    }

    /** `getShippingCost`: 0 without a strategy, otherwise what the strategy calculates; nothing changes. */
    method GetShippingCost() returns (cost: real)
      ensures shippingStrategy.None? ==> cost == 0.0
      ensures shippingStrategy.Some? ==> cost == Calculate(shippingStrategy.value, items)
    {
      if shippingStrategy.None? {
        return 0.0;
      }
      cost := Calculate(shippingStrategy.value, items);
    }
  }

  /** Changing the list `getItems` returned leaves the order's own items as they were. */
  method CopyIsDetached(order: Order, extra: Item) returns (copy: JList<Item>)
    ensures copy.elems == order.items + [extra]
    ensures order.items == old(order.items)
  {
    copy := order.GetItems();
    copy.Add(extra);
  }

  /** The method names `calculateShippingCost` knows, after upper-casing. */
  const FLATRATE: string := "FLATRATE"
  const WEIGHTBASED: string := "WEIGHTBASED"
  const FREETHRESHOLD: string := "FREETHRESHOLD"

  /**
   * `calculateShippingCost` of `PreStrategyMain`: 0 for a null or empty
   * method; otherwise a switch on the upper-cased name with the rates 5.00,
   * 1.50 per kg and 50.00/7.00 written in, and 0 for an unknown name.
   */
  function PreShippingCost(shippingMethod: Option<string>, items: seq<Item>): (r: real)
    ensures shippingMethod.None? || shippingMethod.value == "" ==> r == 0.0
    ensures shippingMethod.Some? && Upper(shippingMethod.value) !in {FLATRATE, WEIGHTBASED, FREETHRESHOLD} ==> r == 0.0
  {
    if shippingMethod.None? || shippingMethod.value == "" then 0.0
    else
      var key := Upper(shippingMethod.value);
      if key == FLATRATE then 5.00
      else if key == WEIGHTBASED then TotalWeight(items) * 1.50
      else if key == FREETHRESHOLD then (if TotalValue(items) > 50.00 then 0.00 else 7.00)
      else 0.0
  }

  /** The strategy `PostStrategyMain` configures for each method name `PreStrategyMain` knows. */
  function ConfiguredStrategy(shippingMethod: string): (r: Option<Strategy>)
    ensures r.Some? <==> Upper(shippingMethod) in {FLATRATE, WEIGHTBASED, FREETHRESHOLD}
  {
    var key := Upper(shippingMethod);
    if key == FLATRATE then Some(FlatRate(5.00))
    else if key == WEIGHTBASED then Some(WeightBased(1.50))
    else if key == FREETHRESHOLD then Some(FreeThreshold(50.00, 7.00))
    else None
  }

  /** Names are matched whatever their case: two names equal up to case select the same cost. */
  lemma PreIgnoresCase(a: string, b: string, items: seq<Item>)
    requires a != "" && b != "" && Upper(a) == Upper(b)
    ensures PreShippingCost(Some(a), items) == PreShippingCost(Some(b), items)
    ensures ConfiguredStrategy(a) == ConfiguredStrategy(b)
  {
  }

  /**
   * Every method name costs in the switch what the matching strategy, as
   * `PostStrategyMain` configures it, calculates; an unknown name costs what
   * an order with no strategy does.
   */
  lemma PreAgreesWithStrategies(shippingMethod: string, items: seq<Item>)
    ensures PreShippingCost(Some(shippingMethod), items) ==
      match ConfiguredStrategy(shippingMethod)
      case Some(s) => Calculate(s, items)
      case None => 0.0
  {
    if shippingMethod == "" {
      assert Upper(shippingMethod) == "";
    }
  }

  /** The order of `PreStrategyMain`: the method is a name that may be null. */
  class PreOrder {
    var items: seq<Item>
    var shippingMethod: Option<string>

    constructor ()
      ensures items == [] && shippingMethod == None
    {
      items, shippingMethod := [], None;
    }

    /** `addItem`: appends. */
    method AddItem(item: Item)
      modifies this
      ensures items == old(items) + [item] && shippingMethod == old(shippingMethod)
    {
      items := items + [item];
    }

    /** `setShippingMethod`: stores the name as given, null included. */
    method SetShippingMethod(shippingMethod: Option<string>)
      modifies this
      ensures this.shippingMethod == shippingMethod && items == old(items)
    {
      this.shippingMethod := shippingMethod;
    }

    /** `calculateShippingCost`: reads the items and the name, changes nothing. */
    method CalculateShippingCost() returns (cost: real)
      ensures cost == PreShippingCost(shippingMethod, items)
    {
      if shippingMethod.None? || shippingMethod.value == "" {
        return 0.0;
      }
      var key := Upper(shippingMethod.value);
      if key == FLATRATE {
        cost := 5.00;
      } else if key == WEIGHTBASED {
        cost := TotalWeight(items) * 1.50;
      } else if key == FREETHRESHOLD {
        if TotalValue(items) > 50.00 {
          cost := 0.00;
        } else {
          cost := 7.00;
        }
      } else {
        cost := 0.0;
      }
    }
  }

  /** Two items' totals, from the left. */
  lemma TwoItems(a: Item, b: Item)
    ensures TotalWeight([a, b]) == a.weight + b.weight
    ensures TotalValue([a, b]) == a.price + b.price
  {
    assert [a][..0] == [];
    assert TotalWeight([a]) == a.weight && TotalValue([a]) == a.price;
    assert [a, b][..1] == [a];
  }

  /**
   * The first two orders of `PostStrategyMain`: order 1 (1225.00) ships free
   * above the threshold and by weight at 2.7 kg × 1.50; order 2 (90.00) also
   * ships free, then at the flat 5.00.
   */
  method Example() returns (c1: real, c2: real, c3: real, c4: real)
    ensures c1 == 0.0 && c2 == 2.7 * 1.50
    ensures c3 == 0.0 && c4 == 5.00
  {
    var flatRate := FlatRate(5.00);
    var weightBased := WeightBased(1.50);
    var freeThreshold := FreeThreshold(50.00, 7.00);
    var laptop, mouse := Item("Laptop", 1200.00, 2.5), Item("Mouse", 25.00, 0.2);
    var book, keyboard := Item("Book", 15.00, 0.8), Item("Keyboard", 75.00, 1.1);
    TwoItems(laptop, mouse);
    TwoItems(book, keyboard);

    var order1 := new Order();
    order1.AddItem(laptop);
    order1.AddItem(mouse);
    assert order1.items == [laptop, mouse];
    var _ := order1.SetShippingStrategy(Some(freeThreshold));
    c1 := order1.GetShippingCost();
    var _ := order1.SetShippingStrategy(Some(weightBased));
    c2 := order1.GetShippingCost();

    var order2 := new Order();
    order2.AddItem(book);
    order2.AddItem(keyboard);
    assert order2.items == [book, keyboard];
    var _ := order2.SetShippingStrategy(Some(freeThreshold));
    c3 := order2.GetShippingCost();
    var _ := order2.SetShippingStrategy(Some(flatRate));
    c4 := order2.GetShippingCost();
  }
}
