/** The client-side menu form (src/components/MenuForm.tsx): the dish clean-up,
    the choice between creating and updating, and the payload it sends. */
module MenuForm {
  import opened Common
  import opened MenuModel
  import opened CatalogRules

  /** The form's values. `id` is set when an existing menu is being edited. */
  datatype MenuValues = MenuValues(
    id: Option<string>,
    name: string,
    price: int,
    description: Option<string>,
    category: Option<string>,
    dietaryInfo: Option<string>,
    date: string,
    isMeal: bool,
    items: seq<Dish>)

  /** `values.isMeal ? values.items.filter(item => item.name.trim() !== '') : []`. */
  function CleanItems(v: MenuValues): (r: seq<Dish>)
    ensures !v.isMeal ==> r == []
    ensures v.isMeal ==> r == NonBlankDishes(v.items)
  {
    if v.isMeal then NonBlankDishes(v.items) else []
  }

  /** Only named dishes of a meal are sent, in their order; nothing is sent for a
      plain menu, and a dish is dropped exactly when its name is white space. */
  lemma CleanItemsLaws(v: MenuValues)
    ensures forall d :: d in CleanItems(v) <==> v.isMeal && d in v.items && Named(d)
    ensures forall i :: 0 <= i < |CleanItems(v)| ==> Trim(CleanItems(v)[i].name) != ""
    ensures v.isMeal && (forall i :: 0 <= i < |v.items| ==> Named(v.items[i])) ==> CleanItems(v) == v.items
  {
    NonBlankDishesMembers(v.items);
    if v.isMeal && forall i :: 0 <= i < |v.items| ==> Named(v.items[i]) {
      AllNamedKept(v.items);
    }
    forall i | 0 <= i < |CleanItems(v)| ensures Trim(CleanItems(v)[i].name) != "" {
      TrimEmptyIffBlank(CleanItems(v)[i].name);
    }
  }

  /** A meal whose dishes all have a name loses none of them. */
  lemma {:induction false} AllNamedKept(items: seq<Dish>)
    requires forall i :: 0 <= i < |items| ==> Named(items[i])
    ensures NonBlankDishes(items) == items
  {
    if items != [] {
      assert forall i :: 0 <= i < |items| - 1 ==> items[1..][i] == items[i + 1];
      AllNamedKept(items[1..]);
      assert Named(items[0]);
    }
  }

  datatype Verb = Post | Patch

  /** The request the form sends. */
  datatype Request = Request(verb: Verb, endpoint: string, payload: MenuValues)

  /** `isUpdate = !!values.id` picks PATCH /api/menu/update, otherwise POST
      /api/menu/create; the payload is the values with `items` cleaned. */
  function Submit(v: MenuValues): (r: Request)
    ensures r.verb == Patch <==> Truthy(v.id)
    ensures r.endpoint == (if Truthy(v.id) then "/api/menu/update" else "/api/menu/create")
    ensures r.payload == v.(items := CleanItems(v))
  {
    var isUpdate := Truthy(v.id);
    Request(if isUpdate then Patch else Post, if isUpdate then "/api/menu/update" else "/api/menu/create",
      v.(items := CleanItems(v)))
  }

  /** The update handler's fields, as it reads them from the payload (`id` aside). */
  function AsPatch(v: MenuValues): CatalogRules.MenuPatch {
    CatalogRules.MenuPatch(Some(v.name), v.description, Some(v.price), v.category, v.dietaryInfo,
      Some(v.date), Some(v.isMeal), Some(v.items))
  }

  /** The update handler's own dish clean-up finds nothing left to drop in what the
      form sends. */
  lemma ServerCleanupIsNoop(v: MenuValues)
    ensures CleanPatch(AsPatch(Submit(v).payload)) == AsPatch(Submit(v).payload)
  {
    if v.isMeal {
      NonBlankDishesIdempotent(v.items);
    }
  }

  /** `MenuSchema`: name and date present, price not negative, every dish named. */
  predicate SchemaValid(v: MenuValues) {
    && v.name != "" && v.date != "" && v.price >= 0
    && forall i :: 0 <= i < |v.items| ==> v.items[i].name != ""
  }

  /** Cleaning never makes a valid form invalid. */
  lemma CleanKeepsSchema(v: MenuValues)
    requires SchemaValid(v)
    ensures SchemaValid(Submit(v).payload)
  {
    NonBlankDishesMembers(v.items);
    var c := CleanItems(v);
    forall i | 0 <= i < |c| ensures c[i].name != "" {
      assert c[i] in c;
    }
  }
}
