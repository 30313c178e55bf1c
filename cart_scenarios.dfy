/** The cart's unit-test scenarios, stated on the specification functions. */
module CartScenarios {
  import opened ShoppingItems
  import opened CartSpec
  import opened ShoppingCarts

  /** A session driven through the objects: two adds of one name, one of another, a removal. */
  method CartSession()
  {
    var cart := new ShoppingCart();
    var first := new ShoppingItem("firstItem", 5, 1);
    cart.AddItem(first);
    var again := new ShoppingItem("firstItem", 5, 2);
    cart.AddItem(again);
    assert |cart.items| == 1 && cart.items[0].quantity == 3 && cart.items[0].discounted == 1;
    var second := new ShoppingItem("secondItem", 7, 2);
    cart.AddItem(second);
    assert |cart.items| == 2;
    var found := cart.RemoveItem("firstItem");
    assert found && cart.items == [NewItem("secondItem", 7, 2)];
    var total := cart.GetTotalPrice();
    assert total == 14;
  }

  /** Adding one new item to an empty cart, then a second one, gives one and then two entries. */
  lemma AddToEmptyCart()
    ensures |Added([], NewItem("itemName", 5, 1))| == 1
    ensures |Added(Added([], NewItem("firstItem", 5, 1)), NewItem("secondItem", 5, 1))| == 2
  {

  }

  /** Adding 1 and then 2 units of the same name merges them into one entry of 3 units,
   *  one of which is free. */
  lemma AddSameNameMerges()
    ensures var s := Added(Added([], NewItem("firstItem", 5, 1)), NewItem("firstItem", 5, 2));
            |s| == 1 && s[0].quantity == 3 && s[0].discounted == 1
  {

  }

  /** Removing the only entry empties the cart; removing one of two keeps the other. */
  lemma RemoveScenarios()
    ensures Removed([NewItem("itemName", 5, 1)], "itemName") == []
    ensures Removed([NewItem("itemName", 5, 1), NewItem("secondItem", 7, 2)], "itemName")
            == [NewItem("secondItem", 7, 2)]
  {
  }

  /** Three items with distinct names priced 5, 4 and 3 (two units of the first): the one priced 3 gets its unit free. */
  lemma CheapestOfThreeIsFree(n1: string, n2: string, n3: string)
    requires n1 != n2 && n1 != n3 && n2 != n3
    ensures var s := [NewItem(n1, 5, 2), NewItem(n2, 4, 1), NewItem(n3, 3, 1)];
            CheapestFree(s)[2].discounted == 1
  {
    var s := [NewItem(n1, 5, 2), NewItem(n2, 4, 1), NewItem(n3, 3, 1)];
    assert UniqueNames(s);
    DiscountableAll(s);
    assert IsCheapestDiscountable(s, 2);
    StepDiscountsCheapest(s, 2);
    var t := CheapestStep(s);
    CheapestFreeUnfold(s);
    assert UniqueNames(t);
    DiscountableDrops(t, 2);
    CheapestFreeUnfold(t);
  }

  /** Totals of the receipt scenarios, before and after the discount pass. */
  lemma ReceiptTotals()
    ensures TotalPrice([NewItem("item1", 5, 1), NewItem("item2", 4, 1)]) == 9
    ensures TotalPrice([NewItem("item1", 5, 3)]) == 10
    ensures TotalPrice([NewItem("item1", 5, 9)]) == 30
    ensures TotalPrice([NewItem("item1", 5, 3), NewItem("item2", 7, 3), NewItem("item3", 9, 3)]) == 42
  {
  }

  /** The total of a three-entry cart, entry by entry. */
  lemma TotalOfThree(a: Item, b: Item, c: Item)
    ensures TotalPrice([a, b, c]) == LineCost(a) + LineCost(b) + LineCost(c)
  {
    assert [a][..0] == [];
    assert TotalPrice([a]) == LineCost(a);
    assert [a, b][..1] == [a];
    assert TotalPrice([a, b]) == LineCost(a) + LineCost(b);
    assert [a, b, c][..2] == [a, b];
  }

  /** Prices 5, 6 and 3, one unit each: the discount pass brings the total to 11. */
  lemma CheapestFreeTotalEleven(n1: string, n2: string, n3: string)
    requires n1 != n2 && n1 != n3 && n2 != n3
    ensures var s := [NewItem(n1, 5, 1), NewItem(n2, 6, 1), NewItem(n3, 3, 1)];
            TotalPrice(CheapestFree(s)) == 11
  {
    var s := [NewItem(n1, 5, 1), NewItem(n2, 6, 1), NewItem(n3, 3, 1)];
    assert UniqueNames(s);
    DiscountableAll(s);
    assert IsCheapestDiscountable(s, 2);
    StepDiscountsCheapest(s, 2);
    var t := CheapestStep(s);
    CheapestFreeUnfold(s);
    assert UniqueNames(t);
    DiscountableDrops(t, 2);
    CheapestFreeUnfold(t);
    TotalOfThree(t[0], t[1], t[2]);
    assert t == [t[0], t[1], t[2]];
  }

  /** In a three-entry cart where every entry is discountable and the first is strictly the
   *  cheapest, the discount pass starts by giving the first entry one more free unit. */
  lemma FirstOfThreeGoesFree(a: Item, b: Item, c: Item)
    requires UniqueNames([a, b, c])
    requires a.IsDiscountable() && b.IsDiscountable() && c.IsDiscountable()
    requires a.price < b.price && a.price < c.price
    ensures UniqueNames([a.WithDiscounted(a.discounted + 1), b, c])
    ensures CheapestFree([a, b, c]) == CheapestFree([a.WithDiscounted(a.discounted + 1), b, c])
  {
    var s := [a, b, c];
    var t := [a.WithDiscounted(a.discounted + 1), b, c];
    DiscountableAll(s);
    assert IsCheapestDiscountable(s, 0);
    StepDiscountsCheapest(s, 0);
    assert s[0 := s[0].WithDiscounted(s[0].discounted + 1)] == t;
    CheapestFreeUnfold(s);
  }

  /** Prices 1, 2 and 3, two units each: the cheapest gets both its units free, total 10. */
  lemma CheapestFreeTotalTen(n1: string, n2: string, n3: string)
    requires n1 != n2 && n1 != n3 && n2 != n3
    ensures var s := [NewItem(n1, 1, 2), NewItem(n2, 2, 2), NewItem(n3, 3, 2)];
            TotalPrice(CheapestFree(s)) == 10
  {
    var a, b, c := NewItem(n1, 1, 2), NewItem(n2, 2, 2), NewItem(n3, 3, 2);
    FirstOfThreeGoesFree(a, b, c);
    var a1 := a.WithDiscounted(1);
    FirstOfThreeGoesFree(a1, b, c);
    var u := [a1.WithDiscounted(2), b, c];
    DiscountableDrops(u, 0);
    CheapestFreeUnfold(u);
    TotalOfThree(u[0], u[1], u[2]);
  }
}
