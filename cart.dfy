/** The shopping cart: an ordered vector of item values, unique by name, with the
 *  operations that add, remove, discount and total them.
 */
module ShoppingCarts {
  import opened ShoppingItems
  import opened CartSpec

  class ShoppingCart {
    var items: seq<Item>

    /** The cart's invariant: no two entries share a name. */
    ghost predicate Valid()
      reads this
    {
      UniqueNames(items)
    }

    constructor ()
      ensures Valid() && items == []
    {
      items := [];
    }

    /** A copy of the entries, in cart order. */
    function GetItems(): seq<Item>
      reads this
    {
      items
    }

    /** Merges `item` into the first entry with its name (quantities summed, free units
     *  recomputed from the new total), or appends a copy of it when the name is new. */
    method AddItem(item: ShoppingItem)
      requires Valid()
      modifies this
      ensures Valid()
      ensures items == Added(old(items), item.Value())
    {
      var i := FindName(items, item.GetName());
      if i < |items| {
        var entry := items[i].Edited(item.GetQuantity());
        entry := entry.WithDiscounted(TruncDiv3(entry.quantity));
        items := items[i := entry];
      } else {
        items := items + [item.Value()];
      }
      AddedKeepsUnique(old(items), item.Value());
    }

    /** Erases the first entry called `itemName`; `found` tells which of the two
     *  messages the cart reports. */
    method RemoveItem(itemName: string) returns (found: bool)
      requires Valid()
      modifies this
      ensures Valid()
      ensures found <==> itemName in Names(old(items))
      ensures items == Removed(old(items), itemName)
    {
      var i := FindName(items, itemName);
      FindNameFound(items, itemName);
      if i < |items| {
        items := items[..i] + items[i + 1..];
        found := true;
      } else {
        found := false;
      }
      RemovedKeepsUnique(old(items), itemName);
    }

    /** While at least three entries still have a chargeable unit, makes one more unit of
     *  the cheapest of them free, and starts over. */
    method ApplyCheapestItemFree()
      requires Valid()
      modifies this
      ensures Valid()
      ensures items == CheapestFree(old(items))
      decreases TotalUnits(items)
    {
      var discountableItems := Discountable(items);
      if |discountableItems| >= 3 {
        var cheapestItem := Cheapest(discountableItems);
        var cheapestItemName := discountableItems[cheapestItem].name;
        var index := FindName(items, cheapestItemName);
        StepUsesOneUnit(items);
        if index < |items| {
          items := items[index := items[index].WithDiscounted(items[index].discounted + 1)];
        }
        ApplyCheapestItemFree();
      }
    }

    /** The receipt listing: it runs the discount pass before the entries are shown. */
    method PrintCartItems()
      requires Valid()
      modifies this
      ensures Valid()
      ensures items == CheapestFree(old(items))
    {
      ApplyCheapestItemFree();
    }

    /** The price of the cart as it stands: no discount pass is run here. */
    method GetTotalPrice() returns (total: int)
      ensures total == TotalPrice(items)
    {
      total := 0;
      var i := 0;
      while i < |items|
        invariant 0 <= i <= |items|
        invariant total == TotalPrice(items[..i])
      {
        assert items[..i + 1][..i] == items[..i];
        var item := items[i];
        total := total + item.price * (item.quantity - item.discounted);
        i := i + 1;
      }
      assert items[..i] == items;
    }
  }
}
