/** The client-side order form (src/components/OrderForm.tsx): the initial item
    list, the total the form computes and sends, and the bounds its schema sets. */
module OrderForm {
  import opened Common

  /** An entry of the `menuItems` prop. */
  datatype MenuItem = MenuItem(id: Id, name: string, price: int)

  /** An entry of the form's `items`. */
  datatype FormItem = FormItem(menuId: Id, quantity: int, instructions: string, addons: seq<string>)

  /** `menuItems.find(m => m._id === id)`: the first entry with the id. */
  function Find(menuItems: seq<MenuItem>, id: Id): (r: Option<nat>)
    ensures r.Some? ==>
      && r.value < |menuItems| && menuItems[r.value].id == id
      && forall j :: 0 <= j < r.value ==> menuItems[j].id != id
    ensures r.None? ==> forall j :: 0 <= j < |menuItems| ==> menuItems[j].id != id
  {
    if menuItems == [] then None
    else if menuItems[0].id == id then Some(0)
    else
      var rest := Find(menuItems[1..], id);
      assert forall j :: 1 <= j < |menuItems| ==> menuItems[j] == menuItems[1..][j - 1];
      if rest.None? then None else Some(rest.value + 1)
  }

  /** `menu?.price || 0`: the price of the first entry with the id, 0 when there is none. */
  function UnitPrice(menuItems: seq<MenuItem>, id: Id): (p: int)
    ensures Find(menuItems, id).None? ==> p == 0
    ensures Find(menuItems, id).Some? ==> p == menuItems[Find(menuItems, id).value].price
    ensures p == 0 || exists j :: 0 <= j < |menuItems| && menuItems[j].id == id && menuItems[j].price == p
  {
    var found := Find(menuItems, id);
    if found.None? then 0 else menuItems[found.value].price
  }

  /** Every line of the form has quantity 0. */
  predicate NothingOrdered(items: seq<FormItem>) {
    forall i :: 0 <= i < |items| ==> items[i].quantity == 0
  }

  /** `values.items.reduce((sum, item) => sum + price * item.quantity, 0)`. */
  function TotalPrice(menuItems: seq<MenuItem>, items: seq<FormItem>): (t: int)
    ensures items == [] ==> t == 0
  {
    if items == [] then 0
    else
      var last := items[|items| - 1];
      TotalPrice(menuItems, items[..|items| - 1]) + UnitPrice(menuItems, last.menuId) * last.quantity
  }

  /** A form whose lines all have quantity 0 costs nothing, whatever the prices. */
  lemma {:induction false} TotalPriceNothingOrdered(menuItems: seq<MenuItem>, items: seq<FormItem>)
    requires NothingOrdered(items)
    ensures TotalPrice(menuItems, items) == 0
  {
    if items != [] {
      var init := items[..|items| - 1];
      assert forall i :: 0 <= i < |init| ==> init[i] == items[i];
      TotalPriceNothingOrdered(menuItems, init);
    }
  }

  /** The total of a concatenation is the sum of the totals. */
  lemma {:induction false} TotalPriceAppend(menuItems: seq<MenuItem>, a: seq<FormItem>, b: seq<FormItem>)
    ensures TotalPrice(menuItems, a + b) == TotalPrice(menuItems, a) + TotalPrice(menuItems, b)
  {
    if b == [] {
      assert a + b == a;
    } else {
      assert (a + b)[..|a + b| - 1] == a + b[..|b| - 1];
      assert (a + b)[|a + b| - 1] == b[|b| - 1];
      TotalPriceAppend(menuItems, a, b[..|b| - 1]);
    }
  }

  /** An empty order costs 0; an item costs its menu's price times its quantity,
      and an item with no matching menu entry costs nothing. */
  lemma TotalPriceOfOne(menuItems: seq<MenuItem>, item: FormItem)
    ensures TotalPrice(menuItems, []) == 0
    ensures TotalPrice(menuItems, [item]) == UnitPrice(menuItems, item.menuId) * item.quantity
    ensures (forall j :: 0 <= j < |menuItems| ==> menuItems[j].id != item.menuId) ==>
      TotalPrice(menuItems, [item]) == 0
  {
    assert [item][..0] == [];
  }

  /** With prices not negative and quantities at least 1, the total is not negative
      and no smaller than any one item's share. */
  lemma {:induction false} TotalPriceBounds(menuItems: seq<MenuItem>, items: seq<FormItem>)
    requires forall j :: 0 <= j < |menuItems| ==> menuItems[j].price >= 0
    requires forall i :: 0 <= i < |items| ==> items[i].quantity >= 1
    ensures TotalPrice(menuItems, items) >= 0
    ensures forall i :: 0 <= i < |items| ==>
      TotalPrice(menuItems, items) >= UnitPrice(menuItems, items[i].menuId) * items[i].quantity
  {
    if items != [] {
      var init := items[..|items| - 1];
      var last := items[|items| - 1];
      var unit := UnitPrice(menuItems, last.menuId);
      assert forall i :: 0 <= i < |init| ==> init[i] == items[i];
      TotalPriceBounds(menuItems, init);
      var rest := TotalPrice(menuItems, init);
      assert TotalPrice(menuItems, items) == rest + unit * last.quantity;
      assert unit * last.quantity >= 0 by {
        assert unit >= 0 && last.quantity >= 1;
      }
      forall i | 0 <= i < |items|
        ensures TotalPrice(menuItems, items) >= UnitPrice(menuItems, items[i].menuId) * items[i].quantity
      {
        if i < |items| - 1 {
          assert items[i] == init[i];
          assert rest >= UnitPrice(menuItems, init[i].menuId) * init[i].quantity;
        }
      }
    }
  }

  /** `menuItems.map(item => ({ menuId: item._id, quantity: 1, instructions: '', addons: [] }))`. */
  function InitialItems(menuItems: seq<MenuItem>): (r: seq<FormItem>)
    ensures |r| == |menuItems|
    ensures forall i :: 0 <= i < |r| ==> r[i] == FormItem(menuItems[i].id, 1, "", [])
  {
    seq(|menuItems|, i requires 0 <= i < |menuItems| => FormItem(menuItems[i].id, 1, "", []))
  }

  /** The sum of the listed prices. */
  function PriceSum(menuItems: seq<MenuItem>): int {
    if menuItems == [] then 0 else PriceSum(menuItems[..|menuItems| - 1]) + menuItems[|menuItems| - 1].price
  }

  predicate DistinctIds(menuItems: seq<MenuItem>) {
    forall i, j :: 0 <= i < j < |menuItems| ==> menuItems[i].id != menuItems[j].id
  }

  /** Submitting the initial form unchanged orders one of each menu entry: the total
      is the sum of the listed prices when the ids are distinct. */
  lemma {:induction false} InitialTotal(menuItems: seq<MenuItem>, prefix: nat)
    requires DistinctIds(menuItems) && prefix <= |menuItems|
    ensures TotalPrice(menuItems, InitialItems(menuItems)[..prefix]) == PriceSum(menuItems[..prefix])
  {
    if prefix > 0 {
      InitialTotal(menuItems, prefix - 1);
      var items := InitialItems(menuItems)[..prefix];
      assert items[..prefix - 1] == InitialItems(menuItems)[..prefix - 1];
      assert menuItems[..prefix][..prefix - 1] == menuItems[..prefix - 1];
      var found := Find(menuItems, menuItems[prefix - 1].id);
      assert found == Some(prefix - 1);
    }
  }

  /** `OrderSchema`: at least one item, each with a quantity of at least 1. */
  predicate SchemaValid(items: seq<FormItem>) {
    |items| >= 1 && forall i :: 0 <= i < |items| ==> items[i].quantity >= 1
  }

  /** The initial form passes the schema exactly when there is something to order. */
  lemma InitialItemsValid(menuItems: seq<MenuItem>)
    ensures SchemaValid(InitialItems(menuItems)) <==> menuItems != []
  {
  }
}
