/** A shopping item: one product line of a cart, with its "buy 3, get 1 free" counter.
 *
 *  `Item` is the value of a shopping item (what a cart's vector stores a copy of);
 *  `ShoppingItem` is the object whose fields the constructor sets and the two
 *  mutators update in place.
 */
module ShoppingItems {

  /** C++ integer division by 3, which truncates toward zero (Dafny's `/` is Euclidean). */
  function TruncDiv3(q: int): (r: int)
    ensures q >= 0 ==> 0 <= q - 3 * r < 3
    ensures q < 0 ==> -3 < q - 3 * r <= 0
  {
    if q >= 0 then q / 3 else -((-q) / 3)
  }

  /** The value of a shopping item: price in pence, total units, and units currently free. */
  datatype Item = Item(name: string, price: int, quantity: int, discounted: int)
  {
    /** An item that still has a chargeable unit can take part in "cheapest item free". */
    predicate IsDiscountable() {
      quantity - discounted > 0
    }

    /** The discount counter never exceeds the quantity and is never negative. */
    predicate WellFormed() {
      0 <= discounted <= quantity
    }

    /** The value after `EditQuantity(delta)`. */
    function Edited(delta: int): (it: Item)
      ensures it.quantity == quantity + delta
      ensures it.name == name && it.price == price && it.discounted == discounted
    {
      this.(quantity := quantity + delta)
    }

    /** The value after `SetQuantityDiscounted(n)`. */
    function WithDiscounted(n: int): (it: Item)
      ensures it.discounted == n
      ensures it.name == name && it.price == price && it.quantity == quantity
    {
      this.(discounted := n)
    }
  }

  /** The value the constructor builds: a third of the units (rounded toward zero) are free. */
  function NewItem(name: string, price: int, quantity: int): (it: Item)
    ensures it.name == name && it.price == price && it.quantity == quantity
    ensures quantity >= 0 ==> it.WellFormed() && 0 <= it.quantity - 3 * it.discounted < 3
    ensures quantity < 0 ==> -3 < it.quantity - 3 * it.discounted <= 0
  {
    Item(name, price, quantity, TruncDiv3(quantity))
  }

  class ShoppingItem {
    var itemName: string
    var itemPrice: int
    var itemQuantity: int
    var quantityDiscounted: int

    /** The value of this object, as a cart stores it. */
    function Value(): Item
      reads this
    {
      Item(itemName, itemPrice, itemQuantity, quantityDiscounted)
    }

    constructor (name: string, price: int, quantity: int)
      ensures Value() == NewItem(name, price, quantity)
    {
      itemName := name;
      itemPrice := price;
      itemQuantity := quantity;
      quantityDiscounted := TruncDiv3(quantity);
    }

    function GetName(): string
      reads this
    {
      itemName
    }

    function GetPrice(): int
      reads this
    {
      itemPrice
    }

    function GetQuantity(): int
      reads this
    {
      itemQuantity
    }

    function GetQuantityDiscounted(): int
      reads this
    {
      quantityDiscounted
    }

    /** Adds `quantity` (which may be negative) to the item's quantity. */
    method EditQuantity(quantity: int)
      modifies this
      ensures Value() == old(Value()).Edited(quantity)
    {
      itemQuantity := itemQuantity + quantity;
    }

    /** Overwrites the discount counter. */
    method SetQuantityDiscounted(quantityDiscounted: int)
      modifies this
      ensures Value() == old(Value()).WithDiscounted(quantityDiscounted)
    {
      this.quantityDiscounted := quantityDiscounted;
    }
  }
}
