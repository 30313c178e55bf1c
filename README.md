# Supermarket shopping cart: pricing and discount engine

This project models the core of a small C++ shopping cart. The core has two parts.

- A **shopping item** is a product line with four fields: name, unit price, quantity and the
  number of units that are currently free (`quantityDiscounted`). The constructor applies the
  "buy 3, get 1 free" rule and sets the free count to a third of the quantity. The two mutators
  add to the quantity and overwrite the free count.
- A **shopping cart** holds an ordered vector of items whose names are unique. It provides
  these operations:
  - `AddItem` merges an item into the entry of the same name: the quantities are summed and
    the free count is recomputed from the new total. An item with a new name is appended.
  - `RemoveItem` erases the entry with the given name.
  - `ApplyCheapestItemFree` repeats "cheapest item free" until a fixpoint. While at least three
    entries still have a chargeable unit, it makes one more unit of the cheapest of them free.
  - `GetTotalPrice` sums price × (quantity − free) over the entries.

The project has four files:

- `item.dfy` (module `ShoppingItems`) holds the item. `Item` is the value a cart stores; the
  C++ vector holds copies. `ShoppingItem` is the object whose fields the constructor and
  mutators update. Its getters `GetName`, `GetPrice`, `GetQuantity` and
  `GetQuantityDiscounted` are functions that read the fields, so they cannot change state.
- `cart_spec.dfy` (module `CartSpec`) holds the rules as functions on the item sequence,
  together with the lemmas about them:
  - the search by name (`FindName`, the `std::find_if` with `checkItemAlreadyExists`);
  - `Added` and `Removed`;
  - the filter `Discountable` (`GetDiscountableItems`);
  - the maximum search `MaxElementFrom`/`Cheapest` (`std::max_element` with
    `compareItemPrices`);
  - one discount pass `CheapestStep`, the fixpoint `CheapestFree`, and `TotalPrice`.
- `cart.dfy` (module `ShoppingCarts`) holds the `ShoppingCart` class. Its field `items` is the
  vector. `Valid()` states that names are unique. Each method is proved against the matching
  function of `CartSpec`. `GetItems` returns the sequence.
- `cart_scenarios.dfy` (module `CartScenarios`) restates the unit-test scenarios as lemmas.
  `CartSession` drives the objects through one session.

Prices are whole numbers (pence). C++ `int / 3` truncates toward zero, while Dafny's `/` does
not. `TruncDiv3` spells out the truncation, so negative quantities behave as in the source.

The maximum search uses the comparator `x.price > y.price`. It moves to a later element only
when that element is strictly cheaper, so on a price tie the EARLIEST cheapest entry in cart
order gets the free unit. One might expect the last entry to win a tie, but `std::max_element`
keeps the first, and the model does the same.

The discount pass finds the chosen entry again by name. It therefore depends on names being
unique, which `AddItem` and `RemoveItem` keep (`AddedKeepsUnique`, `RemovedKeepsUnique`). Its
termination measure is the total number of chargeable units over the discountable entries
(`TotalUnits`). Each pass uses up exactly one of them (`StepUsesOneUnit`).

## Model

| member | source | states |
|---|---|---|
| ShoppingItems.TruncDiv3 | code/ShoppingItem.cpp:24 | the quotient of C++ `quantity / 3`: the remainder lies in [0, 3) for a non-negative quantity and in (-3, 0] for a negative one, i.e. division truncates toward zero |
| ShoppingItems.NewItem | code/ShoppingItem.cpp:20-25 | name, price and quantity are stored as given; the free count is exactly the C++ quotient quantity / 3: for quantity >= 0, 0 <= quantity − 3·discounted < 3 (so 0 <= discounted <= quantity), and for a negative quantity −3 < quantity − 3·discounted <= 0 |
| ShoppingItems.ShoppingItem.constructor | code/ShoppingItem.cpp:20-25 | the new object's fields hold the value `NewItem(name, price, quantity)` |
| ShoppingItems.Item.Edited | code/ShoppingItem.cpp:59-61 | the quantity grows by delta (which may be negative); name, price and free count are unchanged |
| ShoppingItems.ShoppingItem.EditQuantity | code/ShoppingItem.cpp:59-61 | the object's new value is its old value with the quantity edited by the argument, nothing else changed |
| ShoppingItems.Item.WithDiscounted | code/ShoppingItem.cpp:77-79 | the free count becomes n; name, price and quantity are unchanged |
| ShoppingItems.ShoppingItem.SetQuantityDiscounted | code/ShoppingItem.cpp:77-79 | the object's new value is its old value with the free count overwritten, nothing else changed |
| CartSpec.FindName | code/ShoppingCart.cpp:41-57 | the search by exact name returns the FIRST position whose entry has that name, or the end position when none has |
| CartSpec.FindNameFound | code/ShoppingCart.cpp:57-58 | the search stops before the end if and only if the name is in the cart |
| CartSpec.FindNameFindIf | code/ShoppingCart.cpp:41-46 | the search is `find_if` with the predicate `HasName` (`checkItemAlreadyExists`): the entry it stops at satisfies the predicate, no earlier entry does, and it reaches the end exactly when no entry does |
| CartSpec.FindNameUnique | code/ShoppingCart.cpp:125 | with unique names, searching for an entry's name finds exactly that entry |
| CartSpec.Added | code/ShoppingCart.cpp:55-65 | adding grows the cart by at most one entry; existing entries keep their names and prices in order; the entry at the search position (an existing match, or the new last entry) carries the name, and its quantity is the old quantity under that name (0 if none) plus the added units. `Merged` gives the merged entry |
| CartSpec.AddedAbsentAppends | code/ShoppingCart.cpp:62-63 | adding a new name appends the item at the end: length + 1, earlier entries unchanged |
| CartSpec.AddedPresentMerges | code/ShoppingCart.cpp:57-61 | adding an existing name keeps the length; that entry keeps its name, price and position, its quantity becomes old + added and its free count is reset to (old + added) / 3 (earlier free units discarded, incoming price ignored); every other entry is unchanged |
| CartSpec.AddedLength | code/ShoppingCart.cpp:55-65 | the cart grows by one entry exactly when the name is new, otherwise keeps its length |
| CartSpec.AddedNames | code/ShoppingCart.cpp:55-65 | the set of names after adding is the old set plus the item's name |
| CartSpec.AddedKeepsUnique | code/ShoppingCart.cpp:57-63 | if names are unique before adding, they are unique after |
| CartSpec.AddedKeepsWellFormed | code/ShoppingCart.cpp:59-63 | if all entries and the added item have 0 <= discounted <= quantity, all entries still do afterwards |
| CartSpec.UniqueNamesCount | code/testing/ShoppingCartTest.cpp:11-23 | with unique names the number of entries equals the number of distinct names |
| CartSpec.Removed | code/ShoppingCart.cpp:72-82 | removing shrinks the cart by at most one entry, keeps its length exactly when the name is absent, and every remaining entry was in the cart |
| CartSpec.RemovedPresent | code/ShoppingCart.cpp:72-79 | removing a present name deletes exactly that entry: length − 1, entries before it unchanged, entries after it shifted down by one in order, and the name is gone |
| CartSpec.RemovedAbsent | code/ShoppingCart.cpp:80-81 | removing an absent name leaves the cart unchanged |
| CartSpec.RemovedKeepsUnique | code/ShoppingCart.cpp:73-77 | if names are unique before removing, they are unique after |
| CartSpec.RemovedKeepsWellFormed | code/ShoppingCart.cpp:76-77 | removal keeps 0 <= discounted <= quantity on every entry |
| CartSpec.Discountable | code/ShoppingCart.cpp:91-97 | the filtered sequence is no longer than the cart |
| CartSpec.DiscountableMembers | code/ShoppingCart.cpp:91-97 | an entry is in the filtered sequence if and only if it is in the cart with quantity − discounted > 0 |
| CartSpec.DiscountableAt | code/ShoppingCart.cpp:91-97 | the filter keeps cart order: a discountable entry at cart position j sits in the filtered sequence right after the discountable entries before j |
| CartSpec.DiscountableOrder | code/ShoppingCart.cpp:91-97 | filtered positions grow with cart positions |
| CartSpec.DiscountableKeepsUnique | code/ShoppingCart.cpp:91-97 | the filtered sequence of a cart with unique names has unique names |
| CartSpec.DiscountableAll | code/ShoppingCart.cpp:91-97 | when every entry is discountable the filter keeps them all |
| CartSpec.DiscountableDrops | code/ShoppingCart.cpp:91-97 | an entry with nothing left to charge makes the filtered sequence shorter than the cart |
| CartSpec.MoreExpensiveStrictWeakOrder | code/ShoppingCart.cpp:108-111 | the comparator `MoreExpensive` (`compareItemPrices`, price x > price y) is irreflexive, asymmetric and transitive, and two entries are equivalent under it exactly when their prices are equal |
| CartSpec.MaxElementFrom | code/ShoppingCart.cpp:108-121 | the maximum search under "dearer than" returns a position whose price is <= every price, and every earlier position is strictly dearer (first minimum) |
| CartSpec.Cheapest | code/ShoppingCart.cpp:121 | the selected position holds a minimum price, and it is the earliest such position |
| CartSpec.CheapestDiscountableUnique | code/ShoppingCart.cpp:119-121 | there is at most one entry that is discountable, cheapest among the discountable entries and first on a tie |
| CartSpec.FoundIsCheapest | code/ShoppingCart.cpp:121-125 | with unique names, the cart entry located by the cheapest filtered entry's name is the cheapest discountable entry of the cart, the earliest on a tie |
| CartSpec.CheapestStep | code/ShoppingCart.cpp:119-129 | one pass (the cheapest discountable entry, found by `CheapestName`, then located in the cart by name and given one more free unit by `OneMoreFree`) keeps the length of the cart |
| CartSpec.StepDiscountsCheapest | code/ShoppingCart.cpp:121-129 | one pass adds exactly 1 to the free count of the cheapest discountable entry (earliest on a tie); no other field or entry changes, length and order are kept |
| CartSpec.StepUsesOneUnit | code/ShoppingCart.cpp:116-132 | one pass keeps names unique and lowers the chargeable units of the discountable entries by exactly 1, so the recursion terminates |
| CartSpec.StepKeepsWellFormed | code/ShoppingCart.cpp:126-129 | one pass keeps 0 <= discounted <= quantity on every entry |
| CartSpec.CheapestFree | code/ShoppingCart.cpp:116-134 | the fixpoint ends with fewer than three discountable entries; it keeps length, order, names, prices and quantities, never lowers a free count, and keeps names unique |
| CartSpec.CheapestFreeUnfold | code/ShoppingCart.cpp:119-133 | with three or more discountable entries the fixpoint is one pass followed by the fixpoint; with fewer the cart is returned unchanged |
| CartSpec.CheapestFreeIdempotent | code/ShoppingCart.cpp:116-134 | running the fixpoint a second time changes nothing |
| CartSpec.CheapestFreeKeepsWellFormed | code/ShoppingCart.cpp:116-134 | the fixpoint keeps 0 <= discounted <= quantity on every entry |
| CartSpec.TotalPrice | code/ShoppingCart.cpp:157-167 | the total, the sum over entries of `LineCost` = price × (quantity − discounted), is non-negative when every price is non-negative and every entry has 0 <= discounted <= quantity |
| CartSpec.OneMoreFreeTotal | code/ShoppingCart.cpp:157-167 | one more free unit on an entry lowers the total by exactly that entry's price |
| CartSpec.StepTakesCheapestPrice | code/ShoppingCart.cpp:121-129 | one pass lowers the total price by exactly the price of the cheapest discountable entry |
| CartSpec.CheapestFreeLowersTotal | code/ShoppingCart.cpp:116-134 | with non-negative prices the fixpoint never raises the total |
| ShoppingCarts.ShoppingCart.constructor | code/ShoppingCart.cpp:18-20 | a new cart is empty and valid |
| ShoppingCarts.ShoppingCart.AddItem | code/ShoppingCart.cpp:55-65 | the new items are `Added(old items, item)`, and names stay unique |
| ShoppingCarts.ShoppingCart.RemoveItem | code/ShoppingCart.cpp:72-82 | the new items are `Removed(old items, name)`; the flag is true if and only if the name was in the cart (the "removed" and "not in the cart" messages) |
| ShoppingCarts.ShoppingCart.ApplyCheapestItemFree | code/ShoppingCart.cpp:116-134 | the recursive method terminates and leaves `CheapestFree(old items)` in the cart |
| ShoppingCarts.ShoppingCart.PrintCartItems | code/ShoppingCart.cpp:139-141 | printing the receipt runs the discount fixpoint on the cart |
| ShoppingCarts.ShoppingCart.GetTotalPrice | code/ShoppingCart.cpp:157-167 | the loop returns the sum over entries of price × (quantity − discounted), without running the discount pass |
| CartScenarios.AddToEmptyCart | code/testing/ShoppingCartTest.cpp:11-23 | adding one new item to an empty cart gives one entry; adding two distinct names gives two entries |
| CartScenarios.AddSameNameMerges | code/testing/ShoppingCartTest.cpp:25-32 | adding 1 and then 2 units of one name gives one entry of 3 units, 1 of them free |
| CartScenarios.RemoveScenarios | code/testing/ShoppingCartTest.cpp:43-54 | removing the only entry empties the cart; removing one of two leaves the other |
| CartScenarios.CheapestOfThreeIsFree | code/testing/ShoppingCartTest.cpp:58-71 | for any three distinct names priced 5, 4 and 3, the third entry has 1 free unit after the fixpoint |
| CartScenarios.ReceiptTotals | code/testing/ShoppingCartTest.cpp:78-128 | the totals without a discount pass: 9 for {5×1, 4×1}, 10 for 5×3, 30 for 5×9, 42 for {5, 7, 9}×3 |
| CartScenarios.FirstOfThreeGoesFree | code/ShoppingCart.cpp:119-133 | in a three-entry cart whose first entry is strictly cheapest and all discountable, the fixpoint first gives that entry one more free unit |
| CartScenarios.CheapestFreeTotalEleven | code/testing/ShoppingCartTest.cpp:86-95 | prices 5, 6 and 3 with one unit each total 11 after the fixpoint |
| CartScenarios.CheapestFreeTotalTen | code/testing/ShoppingCartTest.cpp:97-106 | prices 1, 2 and 3 with two units each total 10 after the fixpoint: the cheapest entry gets both units free |

## Left out

- Prices and totals are `float` in the source. Here they are integers (pence), so floating-point rounding is not modelled.
- C++ `int` overflow of quantities and free counts is not modelled; integers are unbounded.
- Console output is not modelled: the "Added" message, the two remove messages (`RemoveItem` returns a flag for them instead), the "CHEAPEST ITEM FREE DEAL" line and the receipt formatting in `PrintCartItems`.
- code/main.cpp is not part of this model. It is the interactive menu, input parsing and receipt printing. `PrintReceipt` takes the cart by value, so discounts it applies do not persist.
- ShoppingCarts.ShoppingCart.ApplyCheapestItemFree: requires unique names, the cart invariant that the constructor, `AddItem` and `RemoveItem` keep. On a vector with duplicate names, the search by name could hit an earlier entry with nothing left to charge, and the source would recurse forever. That case is not modelled.
- The getters of `ShoppingItem` and `ShoppingCart.GetItems` are plain reads of the fields. They carry no contract beyond being functions, which cannot change state.
