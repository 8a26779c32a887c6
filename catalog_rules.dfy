/** What the menu handlers decide and compute before touching the collection
    (src/app/api/menu/create, .../update, .../delete). */
module CatalogRules {
  import opened Common
  import opened UserModel
  import opened MenuModel
  import opened Http
  import opened Db

  /** `item.name.trim() !== ''`: stated as "not all white space", which
      `DroppedIffBlank` shows is the same test. */
  predicate Named(d: Dish) {
    !Blank(d.name)
  }

  /** The dishes whose name is not blank, in their original order. */
  function NonBlankDishes(items: seq<Dish>): (r: seq<Dish>)
    ensures |r| <= |items|
    ensures forall i :: 0 <= i < |r| ==> Named(r[i])
  {
    if items == [] then []
    else
      var rest := NonBlankDishes(items[1..]);
      if Named(items[0]) then [items[0]] + rest else rest
  }

  /** Every named dish is kept and nothing else appears. */
  lemma {:induction false} NonBlankDishesMembers(items: seq<Dish>)
    ensures forall d :: d in NonBlankDishes(items) <==> d in items && Named(d)
  {
    if items != [] {
      NonBlankDishesMembers(items[1..]);
      assert items == [items[0]] + items[1..];
    }
  }

  /** Filtering distributes over concatenation, so the relative order of the
      kept dishes is that of the input. */
  lemma {:induction false} NonBlankDishesAppend(a: seq<Dish>, b: seq<Dish>)
    ensures NonBlankDishes(a + b) == NonBlankDishes(a) + NonBlankDishes(b)
  {
    if a == [] {
      assert a + b == b;
    } else {
      var head := if Named(a[0]) then [a[0]] else [];
      assert (a + b)[0] == a[0] && (a + b)[1..] == a[1..] + b;
      assert NonBlankDishes(a + b) == head + NonBlankDishes(a[1..] + b);
      NonBlankDishesAppend(a[1..], b);
      assert NonBlankDishes(a) == head + NonBlankDishes(a[1..]);
    }
  }

  /** Cleaning twice is cleaning once. */
  lemma {:induction false} NonBlankDishesIdempotent(items: seq<Dish>)
    ensures NonBlankDishes(NonBlankDishes(items)) == NonBlankDishes(items)
  {
    if items != [] {
      NonBlankDishesIdempotent(items[1..]);
    }
  }

  /** A dish is dropped exactly when its name is white space only. */
  lemma DroppedIffBlank(d: Dish)
    ensures NonBlankDishes([d]) == [] <==> Trim(d.name) == ""
  {
    TrimEmptyIffBlank(d.name);
    assert [d][1..] == [];
  }

  // ---------------------------------------------------------------------------
  // POST /api/menu/create

  /** The request body; `isMeal` is kept as sent and `items` is `None` when it is
      not an array. */
  datatype MenuInput = MenuInput(
    name: Option<string>, description: Option<string>, price: Option<int>, category: Option<string>,
    dietaryInfo: Option<string>, date: Option<string>, isMeal: Option<bool>, items: Option<seq<Dish>>)

  /** `menuData`: the scalar fields verbatim, `isMeal` coerced with `!!`, and the
      dishes kept only for a meal. */
  function MenuData(input: MenuInput, now: Instant): (m: Menu)
    ensures m.name == input.name && m.description == input.description && m.price == input.price
    ensures m.category == input.category && m.dietaryInfo == input.dietaryInfo && m.date == input.date
    ensures m.isMeal <==> input.isMeal == Some(true)
    ensures m.isMeal && input.items.Some? ==> m.items == input.items.value
    ensures !(m.isMeal && input.items.Some?) ==> m.items == []
    ensures m.createdAt == now
  {
    var meal := input.isMeal == Some(true);
    Menu(input.name, input.description, input.price, input.category, input.dietaryInfo, input.date,
         meal, if meal && input.items.Some? then input.items.value else [], now)
  }

  /** Only meals carry dishes. */
  lemma OnlyMealsHaveDishes(input: MenuInput, now: Instant)
    ensures |MenuData(input, now).items| > 0 ==> MenuData(input, now).isMeal
  {
  }

  function MenuCreateGate(db: Db, header: Option<string>): Gate<()> {
    var c := Caller(header, db.verifier, Error(500, "Server error"));
    if c.Refuse? then Refuse(c.why)
    else if c.payload.role != Admin then Refuse(Error(403, "Forbidden"))
    else Pass(())
  }

  // ---------------------------------------------------------------------------
  // PATCH /api/menu/update

  /** `updates`, the request body without `id`: each field present or absent. */
  datatype MenuPatch = MenuPatch(
    name: Option<string>, description: Option<string>, price: Option<int>, category: Option<string>,
    dietaryInfo: Option<string>, date: Option<string>, isMeal: Option<bool>, items: Option<seq<Dish>>)

  /** The dish clean-up applied to a meal update carrying an `items` array. */
  function CleanPatch(p: MenuPatch): (q: MenuPatch)
    ensures p.isMeal == Some(true) && p.items.Some? ==> q == p.(items := Some(NonBlankDishes(p.items.value)))
    ensures !(p.isMeal == Some(true) && p.items.Some?) ==> q == p
  {
    if p.isMeal == Some(true) && p.items.Some? then p.(items := Some(NonBlankDishes(p.items.value))) else p
  }

  lemma CleanPatchIdempotent(p: MenuPatch)
    ensures CleanPatch(CleanPatch(p)) == CleanPatch(p)
  {
    if p.isMeal == Some(true) && p.items.Some? {
      NonBlankDishesIdempotent(p.items.value);
    }
  }

  /** `findByIdAndUpdate(id, updates)`: every present field overwrites, the others
      and the creation time stay. */
  function Patched(m: Menu, p: MenuPatch): (r: Menu)
    ensures r.name == (if p.name.Some? then p.name else m.name)
    ensures r.description == (if p.description.Some? then p.description else m.description)
    ensures r.price == (if p.price.Some? then p.price else m.price)
    ensures r.category == (if p.category.Some? then p.category else m.category)
    ensures r.dietaryInfo == (if p.dietaryInfo.Some? then p.dietaryInfo else m.dietaryInfo)
    ensures r.date == (if p.date.Some? then p.date else m.date)
    ensures r.isMeal == (if p.isMeal.Some? then p.isMeal.value else m.isMeal)
    ensures r.items == (if p.items.Some? then p.items.value else m.items)
    ensures r.createdAt == m.createdAt
  {
    Menu(
      if p.name.Some? then p.name else m.name,
      if p.description.Some? then p.description else m.description,
      if p.price.Some? then p.price else m.price,
      if p.category.Some? then p.category else m.category,
      if p.dietaryInfo.Some? then p.dietaryInfo else m.dietaryInfo,
      if p.date.Some? then p.date else m.date,
      if p.isMeal.Some? then p.isMeal.value else m.isMeal,
      if p.items.Some? then p.items.value else m.items,
      m.createdAt)
  }

  const EmptyPatch: MenuPatch := MenuPatch(None, None, None, None, None, None, None, None)

  /** An update with no fields leaves the menu as it is, and applying the same
      update twice is applying it once. */
  lemma PatchedLaws(m: Menu, p: MenuPatch)
    ensures Patched(m, EmptyPatch) == m
    ensures Patched(Patched(m, p), p) == Patched(m, p)
  {
  }

  function MenuUpdateGate(db: Db, header: Option<string>, id: Option<Id>): Gate<Id> {
    var c := Caller(header, db.verifier, Error(500, "Server error"));
    if c.Refuse? then Refuse(c.why)
    else if c.payload.role != Admin then Refuse(Error(403, "Forbidden"))
    else if id.None? then Refuse(Error(400, "Menu ID is required"))
    else if id.value !in db.menus then Refuse(Error(404, "Menu not found"))
    else Pass(id.value)
  }

  // ---------------------------------------------------------------------------
  // DELETE /api/menu/delete

  /** `Menu.findByIdAndDelete(id)`, then 404 when nothing was deleted. The model takes
      a missing `id` to delete nothing; the database may instead drop the condition
      and delete some menu (see "Undefined query values" in README.md). */
  function MenuDeleteGate(db: Db, header: Option<string>, id: Option<Id>): Gate<Id> {
    var c := Caller(header, db.verifier, Error(500, "Server error"));
    if c.Refuse? then Refuse(c.why)
    else if c.payload.role != Admin then Refuse(Error(403, "Forbidden"))
    else if id.None? || id.value !in db.menus then Refuse(Error(404, "Menu not found"))
    else Pass(id.value)
  }

  function DeletedMessage(m: Menu): (msg: string)
    ensures msg == "Meal deleted successfully" <==> m.isMeal
  {
    if m.isMeal then "Meal deleted successfully" else "Menu item deleted"
  }

  // ---------------------------------------------------------------------------
  // What each handler answers and writes

  /** POST /api/menu/create. */
  function MenuCreateOutcome(db: Db, header: Option<string>, input: MenuInput, now: Instant): Outcome<Id> {
    var g := MenuCreateGate(db, header);
    if g.Refuse? then Outcome(Refused(g.why), db)
    else Outcome(Ok(200, "Menu / Meal created successfully", db.nextId),
                 db.(menus := db.menus[db.nextId := MenuData(input, now)], nextId := db.nextId + 1))
  }

  /** Only an admin adds a menu; the new menu is the only write. */
  lemma MenuCreateLaws(db: Db, header: Option<string>, input: MenuInput, now: Instant)
    requires Consistent(db)
    ensures Consistent(MenuCreateOutcome(db, header, input, now).db)
    ensures var o := MenuCreateOutcome(db, header, input, now);
      && (o.reply.Ok? <==> Authenticate(header, db.verifier).Verified?
                           && Authenticate(header, db.verifier).claim.role == Admin)
      && (!o.reply.Ok? ==> o.db == db)
      && (o.reply.Ok? ==>
            && o.reply == Ok(200, "Menu / Meal created successfully", db.nextId)
            && db.nextId !in db.menus
            && o.db == db.(menus := db.menus[db.nextId := MenuData(input, now)], nextId := db.nextId + 1))
  {
    if MenuCreateGate(db, header).Pass? {
      InsertMenuKeepsConsistent(db, MenuData(input, now));
    }
  }

  /** PATCH /api/menu/update. */
  function MenuUpdateOutcome(db: Db, header: Option<string>, id: Option<Id>, patch: MenuPatch): Outcome<Menu> {
    var g := MenuUpdateGate(db, header, id);
    if g.Refuse? then Outcome(Refused(g.why), db)
    else
      var m := Patched(db.menus[g.payload], CleanPatch(patch));
      Outcome(Ok(200, "Menu / Meal updated successfully", m), db.(menus := db.menus[g.payload := m]))
  }

  /** Only the named menu changes, into the patched one the reply carries; a
      missing menu is 404 and nothing changes. */
  lemma MenuUpdateLaws(db: Db, header: Option<string>, id: Option<Id>, patch: MenuPatch)
    requires Consistent(db)
    ensures Consistent(MenuUpdateOutcome(db, header, id, patch).db)
    ensures var o := MenuUpdateOutcome(db, header, id, patch);
      && (!o.reply.Ok? ==> o.db == db)
      && ((Authenticate(header, db.verifier).Verified? && Authenticate(header, db.verifier).claim.role == Admin
           && id.Some? && id.value !in db.menus) ==> o.reply == Fail(404, "Menu not found"))
      && (o.reply.Ok? ==>
            && id.Some? && id.value in db.menus
            && o.reply.body == Patched(db.menus[id.value], CleanPatch(patch))
            && o.db == db.(menus := db.menus[id.value := o.reply.body]))
  {
    var g := MenuUpdateGate(db, header, id);
    if g.Pass? {
      SetMenusKeepsConsistent(db, db.menus[g.payload := Patched(db.menus[g.payload], CleanPatch(patch))]);
    }
  }

  /** DELETE /api/menu/delete. */
  function MenuDeleteOutcome(db: Db, header: Option<string>, id: Option<Id>): Outcome<()> {
    var g := MenuDeleteGate(db, header, id);
    if g.Refuse? then Outcome(Refused(g.why), db)
    else Outcome(Done(200, DeletedMessage(db.menus[g.payload])), db.(menus := db.menus - {g.payload}))
  }

  /** Afterwards the menu is gone and every other one is intact; orders and
      feedback that name it keep their reference. */
  lemma MenuDeleteLaws(db: Db, header: Option<string>, id: Option<Id>)
    requires Consistent(db)
    ensures Consistent(MenuDeleteOutcome(db, header, id).db)
    ensures var o := MenuDeleteOutcome(db, header, id);
      && (!o.reply.Ok? ==> o.db == db)
      && (o.reply.Ok? ==>
            && id.Some? && id.value in db.menus
            && o.reply.message == DeletedMessage(db.menus[id.value])
            && o.db == db.(menus := o.db.menus)
            && id.value !in o.db.menus
            && forall k :: k in db.menus && k != id.value ==> k in o.db.menus && o.db.menus[k] == db.menus[k])
  {
    var g := MenuDeleteGate(db, header, id);
    if g.Pass? {
      SetMenusKeepsConsistent(db, db.menus - {g.payload});
    }
  }
}
