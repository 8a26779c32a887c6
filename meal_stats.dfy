/** The per-meal quantity count and the revenue sums that the customer,
    delivery, dashboard and analytics summaries compute over order lists. */
module MealStats {
  import opened Common
  import opened MenuModel
  import opened OrderModel
  import opened Grouping

  // ---------------------------------------------------------------------------
  // Meal names and portions

  /** The name `populate("items.menuId", "name")` yields for an item: the menu's
      name, or "Unknown" when the menu is gone or has no name. */
  function MealKey(menus: map<Id, Menu>, item: OrderItem): (k: string)
    ensures k == "Unknown" || (item.menuId in menus && menus[item.menuId].name == Some(k))
    ensures item.menuId !in menus || menus[item.menuId].name.None? ==> k == "Unknown"
  {
    if item.menuId in menus && menus[item.menuId].name.Some? then menus[item.menuId].name.value
    else "Unknown"
  }

  /** `item.quantity || 1`: a zero quantity counts as one portion. */
  function Portion(quantity: int): (p: int)
    ensures p != 0
    ensures quantity != 0 ==> p == quantity
  {
    if quantity == 0 then 1 else quantity
  }

  /** One counting entry per item: its meal name and its portion. */
  function ItemEntries(menus: map<Id, Menu>, items: seq<OrderItem>): (r: seq<(string, int)>)
    ensures |r| == |items|
    ensures forall i :: 0 <= i < |items| ==> r[i] == (MealKey(menus, items[i]), Portion(items[i].quantity))
  {
    if items == [] then []
    else
      var last := items[|items| - 1];
      ItemEntries(menus, items[..|items| - 1]) + [(MealKey(menus, last), Portion(last.quantity))]
  }

  /** The entries of every item of every order, order by order. */
  function MealEntries(menus: map<Id, Menu>, orders: seq<Order>): seq<(string, int)> {
    if orders == [] then []
    else MealEntries(menus, orders[..|orders| - 1]) + ItemEntries(menus, orders[|orders| - 1].items)
  }

  /** The orders' items, in the order the nested `forEach` loops visit them. */
  function AllItems(orders: seq<Order>): seq<OrderItem> {
    if orders == [] then [] else AllItems(orders[..|orders| - 1]) + orders[|orders| - 1].items
  }

  /** The entries are exactly the items, one each. */
  lemma {:induction false} MealEntriesOfAllItems(menus: map<Id, Menu>, orders: seq<Order>)
    ensures MealEntries(menus, orders) == ItemEntries(menus, AllItems(orders))
  {
    if orders != [] {
      var init := orders[..|orders| - 1];
      var items := orders[|orders| - 1].items;
      MealEntriesOfAllItems(menus, init);
      ItemEntriesAppend(menus, AllItems(init), items);
      assert AllItems(orders) == AllItems(init) + items;
    }
  }

  /** The entries of two runs of items are the entries of each, one after the other. */
  lemma ItemEntriesAppend(menus: map<Id, Menu>, x: seq<OrderItem>, y: seq<OrderItem>)
    ensures ItemEntries(menus, x + y) == ItemEntries(menus, x) + ItemEntries(menus, y)
  {
    var a := ItemEntries(menus, x) + ItemEntries(menus, y);
    var b := ItemEntries(menus, x + y);
    forall i | 0 <= i < |a| ensures a[i] == b[i] {
      if i >= |x| {
        assert (x + y)[i] == y[i - |x|];
      } else {
        assert (x + y)[i] == x[i];
      }
    }
  }

  // ---------------------------------------------------------------------------
  // The counting loops

  /** The two nested `forEach` loops that fill the `mealCount` record:
      `mealCount[name] = (mealCount[name] || 0) + (item.quantity || 1)`.
      The record is the sequence of its keys with their counts, in insertion order. */
  method CountMeals(menus: map<Id, Menu>, orders: seq<Order>) returns (mealCount: seq<Group<string>>)
    ensures mealCount == GroupAll(MealEntries(menus, orders))
  {
    mealCount := [];
    var i := 0;
    while i < |orders|
      invariant 0 <= i <= |orders|
      invariant mealCount == GroupAll(MealEntries(menus, orders[..i]))
    {
      var items := orders[i].items;
      var done := MealEntries(menus, orders[..i]);
      var j := 0;
      assert done + ItemEntries(menus, items[..0]) == done;
      while j < |items|
        invariant 0 <= j <= |items|
        invariant mealCount == GroupAll(done + ItemEntries(menus, items[..j]))
      {
        var name := MealKey(menus, items[j]);
        var portion := Portion(items[j].quantity);
        CountStep(menus, done, items, j);
        mealCount := AddTo(mealCount, name, portion);
        j := j + 1;
      }
      assert items[..j] == items;
      MealEntriesStep(menus, orders, i);
      i := i + 1;
    }
    assert orders[..i] == orders;
  }

  /** The inner loop's step: one more item is one more entry added to the record. */
  lemma CountStep(menus: map<Id, Menu>, done: seq<(string, int)>, items: seq<OrderItem>, j: nat)
    requires j < |items|
    ensures GroupAll(done + ItemEntries(menus, items[..j + 1]))
      == AddTo(GroupAll(done + ItemEntries(menus, items[..j])), MealKey(menus, items[j]), Portion(items[j].quantity))
  {
    var e := (MealKey(menus, items[j]), Portion(items[j].quantity));
    assert items[..j + 1][..j] == items[..j];
    assert ItemEntries(menus, items[..j + 1]) == ItemEntries(menus, items[..j]) + [e];
    assert done + ItemEntries(menus, items[..j + 1]) == done + ItemEntries(menus, items[..j]) + [e];
    GroupAllSnoc(done + ItemEntries(menus, items[..j]), e.0, e.1);
  }

  /** The outer loop's step: one more order adds the entries of its items. */
  lemma MealEntriesStep(menus: map<Id, Menu>, orders: seq<Order>, i: nat)
    requires i < |orders|
    ensures MealEntries(menus, orders[..i + 1]) == MealEntries(menus, orders[..i]) + ItemEntries(menus, orders[i].items)
  {
    assert orders[..i + 1][..i] == orders[..i];
  }

  /** Every meal name of the orders is counted once, with the sum of its portions;
      the counts add up to all portions of all items. */
  lemma MealCountLaws(menus: map<Id, Menu>, orders: seq<Order>)
    ensures var g := GroupAll(MealEntries(menus, orders));
      && DistinctKeys(g)
      && KeySet(g) == EntryKeys(MealEntries(menus, orders))
      && (forall i :: 0 <= i < |g| ==> g[i].total == SumFor(MealEntries(menus, orders), g[i].key))
      && Totals(g) == Values(MealEntries(menus, orders))
  {
    GroupAllLaws(MealEntries(menus, orders));
  }

  // ---------------------------------------------------------------------------
  // The favourite meal

  /** `Object.keys(mealCount).sort((a, b) => mealCount[b] - mealCount[a])[0] || "N/A"`:
      the sort is stable, so its head is the first key with the largest count. */
  function Favorite(mealCount: seq<Group<string>>): (f: string)
    ensures f != ""
    ensures mealCount == [] ==> f == "N/A"
    ensures f != "N/A" ==>
      exists i :: 0 <= i < |mealCount| && mealCount[i].key == f
        && forall j :: 0 <= j < |mealCount| ==> mealCount[j].total <= mealCount[i].total
  {
    if mealCount == [] then "N/A"
    else
      var top := mealCount[FirstMax(mealCount)].key;
      if top == "" then "N/A" else top
  }

  /** A key whose summed portions are at least those of every other key. */
  ghost predicate MostOrdered(e: seq<(string, int)>, k: string) {
    k in EntryKeys(e) && forall j :: j in EntryKeys(e) ==> SumFor(e, j) <= SumFor(e, k)
  }

  /** No items give "N/A"; otherwise the favourite is a most-ordered meal, and it is
      "N/A" only when the most-ordered meal found is itself named "" or "N/A". */
  lemma FavoriteLaws(e: seq<(string, int)>)
    ensures e == [] ==> Favorite(GroupAll(e)) == "N/A"
    ensures var f := Favorite(GroupAll(e));
      f != "N/A" ==> f != "" && MostOrdered(e, f)
    ensures var f := Favorite(GroupAll(e));
      e != [] && f == "N/A" ==> MostOrdered(e, "") || MostOrdered(e, "N/A")
  {
    var g := GroupAll(e);
    GroupAllLaws(e);
    if e != [] {
      assert e[0].0 in EntryKeys(e);
      var m := FirstMax(g);
      var top := g[m].key;
      assert top in KeySet(g);
      forall j | j in EntryKeys(e) ensures SumFor(e, j) <= SumFor(e, top) {
        var i :| 0 <= i < |g| && g[i].key == j;
      }
    }
  }

  // ---------------------------------------------------------------------------
  // Revenue

  /** `orders.filter(o => counted(o.status)).reduce((sum, o) => sum + (o.totalPrice || 0), 0)`. */
  function Revenue(orders: seq<Order>, counted: OrderStatus -> bool): int {
    if orders == [] then 0
    else
      var last := orders[|orders| - 1];
      Revenue(orders[..|orders| - 1], counted) + (if counted(last.status) then last.totalPrice else 0)
  }

  /** `status === "delivered"`. */
  predicate IsDelivered(s: OrderStatus) {
    StatusText(s) == "delivered"
  }

  /** `status === "delivered" || status === "assigned" || status === "accepted"`. */
  predicate IsBillable(s: OrderStatus) {
    StatusText(s) == "delivered" || StatusText(s) == "assigned" || StatusText(s) == "accepted"
  }

  function Always(s: OrderStatus): bool {
    true
  }

  /** The orders a status test keeps. */
  function Counted(orders: seq<Order>, counted: OrderStatus -> bool): (r: seq<Order>)
    ensures forall i :: 0 <= i < |r| ==> counted(r[i].status)
    ensures |r| <= |orders|
  {
    if orders == [] then []
    else
      var last := orders[|orders| - 1];
      Counted(orders[..|orders| - 1], counted) + (if counted(last.status) then [last] else [])
  }

  /** Revenue over a concatenation is the sum of the revenues. */
  lemma {:induction false} RevenueAppend(a: seq<Order>, b: seq<Order>, counted: OrderStatus -> bool)
    ensures Revenue(a + b, counted) == Revenue(a, counted) + Revenue(b, counted)
  {
    if b != [] {
      assert (a + b)[..|a + b| - 1] == a + b[..|b| - 1];
      assert (a + b)[|a + b| - 1] == b[|b| - 1];
      RevenueAppend(a, b[..|b| - 1], counted);
    } else {
      assert a + b == a;
    }
  }

  /** Filtering then summing every price is the filtered revenue. */
  lemma {:induction false} RevenueOfCounted(orders: seq<Order>, counted: OrderStatus -> bool)
    ensures Revenue(orders, counted) == Revenue(Counted(orders, counted), Always)
  {
    if orders != [] {
      var init := orders[..|orders| - 1];
      var last := orders[|orders| - 1];
      RevenueOfCounted(init, counted);
      var kept := Counted(init, counted);
      if counted(last.status) {
        assert Counted(orders, counted) == kept + [last];
        RevenueAppend(kept, [last], Always);
        assert [last][..0] == [];
        assert Revenue([last], Always) == last.totalPrice;
      } else {
        assert Counted(orders, counted) == kept + [];
        assert kept + [] == kept;
      }
    }
  }

  /** Counting more statuses never lowers revenue when prices are not negative;
      in particular delivered revenue is at most the billable revenue. */
  lemma {:induction false} RevenueMonotone(orders: seq<Order>, fewer: OrderStatus -> bool, more: OrderStatus -> bool)
    requires forall i :: 0 <= i < |orders| ==> orders[i].totalPrice >= 0
    requires forall i :: 0 <= i < |orders| && fewer(orders[i].status) ==> more(orders[i].status)
    ensures Revenue(orders, fewer) <= Revenue(orders, more)
    ensures Revenue(orders, fewer) >= 0
  {
    if orders != [] {
      RevenueMonotone(orders[..|orders| - 1], fewer, more);
    }
  }

  lemma DeliveredWithinBillable(orders: seq<Order>)
    requires forall i :: 0 <= i < |orders| ==> orders[i].totalPrice >= 0
    ensures 0 <= Revenue(orders, IsDelivered) <= Revenue(orders, IsBillable)
  {
    RevenueMonotone(orders, IsDelivered, IsBillable);
  }

  // ---------------------------------------------------------------------------
  // Recent orders

  /** A line of `recentOrders`: `{ _id, menuName, price, date, status }`. */
  datatype RecentOrder = RecentOrder(id: Id, menuName: string, price: int, date: Instant, status: string)

  /** `items.length > 1 ? `${first} +${items.length - 1} more` : first`. */
  function MenuLabel(first: string, count: nat): string {
    if count > 1 then first + " +" + NatText(count - 1) + " more" else first
  }

  /** `status || "N/A"`. */
  function StatusLabel(s: OrderStatus): (t: string)
    ensures t != ""
    ensures StatusText(s) != "" ==> t == StatusText(s)
  {
    if StatusText(s) == "" then "N/A" else StatusText(s)
  }

  /** `slice(0, 5)`. */
  function FirstFive<T>(s: seq<T>): (r: seq<T>)
    ensures r <= s
    ensures |r| == if |s| < 5 then |s| else 5
  {
    if |s| < 5 then s else s[..5]
  }
}
