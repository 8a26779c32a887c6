/** The Menu document (src/models/Menu.ts). */
module MenuModel {
  import opened Common

  /** A sub-dish of a meal. */
  datatype Dish = Dish(name: string, quantity: Option<string>)

  /** A menu document as the handlers write it: fields are copied verbatim from the
      request, so even the required ones may be missing (see `SchemaComplete`).
      `isMeal` and `items` are written although the schema declares neither. */
  datatype Menu = Menu(
    name: Option<string>,
    description: Option<string>,
    price: Option<int>,
    category: Option<string>,
    dietaryInfo: Option<string>,
    date: Option<string>,
    isMeal: bool,
    items: seq<Dish>,
    createdAt: Instant)

  /** The schema's `required` paths are present. */
  predicate SchemaComplete(m: Menu) {
    m.name.Some? && m.price.Some? && m.date.Some?
  }

  /** The paths the schema declares (`timestamps` adds createdAt and updatedAt). */
  const DeclaredPaths: set<string> :=
    {"name", "description", "price", "category", "dietaryInfo", "date", "createdAt", "updatedAt"}

  lemma MealPathsUndeclared()
    ensures "isMeal" !in DeclaredPaths && "items" !in DeclaredPaths
    ensures "createdAt" in DeclaredPaths && "updatedAt" in DeclaredPaths
  {
  }
}
