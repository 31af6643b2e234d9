/** src/controller/costCategoryController.js: `createCostCategory`, and the
    CostCategory document it creates (src/model/costCategory.js). */
module CostCategoryController {
  import opened Common
  import opened Text
  import opened Library
  import opened Database

  /** The fields `createCostCategory` reads; `isGlobal` as the validator's
      `toBoolean` leaves it. */
  datatype CategoryBody = CategoryBody(
    name: Option<string>,
    description: Option<string>,
    isGlobal: Option<bool>,
    siteId: Option<string>)

  /** The document `CostCategory.create` stores for present fields, or
      `None` when the trimmed name is empty and validation throws.
      `isGlobal || false` stores `false` for an absent or false flag. */
  function BuildCategory(b: CategoryBody, userId: Id): (r: Option<Category>)
    requires Truthy(b.name) && Truthy(b.siteId)
    ensures r.Some? <==> Trim(b.name.value) != ""
    ensures r.Some? ==> && r.value.name == Trim(b.name.value)
                        && (r.value.isGlobal <==> b.isGlobal == Some(true))
                        && r.value.siteId == b.siteId.value && r.value.createdBy == userId
  {
    if Trim(b.name.value) == "" then None
    else
      var description := if b.description.Some? then Some(Trim(b.description.value)) else None;
      Some(Category(Trim(b.name.value), description, b.isGlobal == Some(true), b.siteId.value, userId))
  }

  /** `createCostCategory`: 400 when name or siteId is missing; then the
      requesting user is looked up before the site (500 on an id that does
      not cast, 404 on a missing record); 500 when the document fails
      validation. Nothing is stored on any of these. Otherwise exactly one
      category is added and the answer is 201. */
  method CreateCostCategory(lib: Lib, db: Db, body: CategoryBody, userId: Id, newId: Id)
    returns (status: int, category: Option<Category>)
    requires newId !in db.categories
    modifies db`categories
    ensures !(Truthy(body.name) && Truthy(body.siteId)) <==> status == 400
    ensures Truthy(body.name) && Truthy(body.siteId) ==>
      match Find(lib, db.users, userId)
      case CastFailed => status == 500
      case NotFound => status == 404
      case Found(_) =>
        match Find(lib, db.sites, body.siteId.value)
        case CastFailed => status == 500
        case NotFound => status == 404
        case Found(_) => status == (if Trim(body.name.value) != "" then 201 else 500)
    ensures status != 201 ==> db.categories == old(db.categories) && category.None?
    ensures status == 201 ==>
      && Truthy(body.name) && Truthy(body.siteId)
      && category == BuildCategory(body, userId) && category.Some?
      && body.siteId.value in db.sites && userId in db.users
      && db.categories == old(db.categories)[newId := category.value]
  {
    if !Truthy(body.name) || !Truthy(body.siteId) {
      return 400, None;
    }
    var user := Find(lib, db.users, userId);
    if user.CastFailed? {
      return 500, None;
    }
    if user.NotFound? {
      return 404, None;
    }
    var site := Find(lib, db.sites, body.siteId.value);
    if site.CastFailed? {
      return 500, None;
    }
    if site.NotFound? {
      return 404, None;
    }
    var created := BuildCategory(body, userId);
    if created.None? {
      return 500, None;
    }
    db.categories := db.categories[newId := created.value];
    status, category := 201, created;
  }

  /** An absent or false `isGlobal` is stored as `false`. */
  lemma MissingFlagIsNotGlobal(b: CategoryBody, userId: Id)
    requires Truthy(b.name) && Truthy(b.siteId) && Trim(b.name.value) != ""
    requires b.isGlobal != Some(true)
    ensures !BuildCategory(b, userId).value.isGlobal
  {
  }
}
