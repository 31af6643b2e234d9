/** src/controller/costController.js: creating, listing, updating and
    deleting costs. Creation goes through the Cost document and its save hook;
    the update goes through `findByIdAndUpdate`, which does not. */
module CostController {
  import opened Common
  import opened Library
  import opened Database
  import opened CostModel

  /** The fields `createCost` reads from the body; numbers as JSON numbers. */
  datatype CostBody = CostBody(
    title: Option<string>,
    description: Option<string>,
    unit: Option<string>,
    quantity: Option<real>,
    unitPrice: Option<real>,
    taxRate: Option<real>,
    moneyType: Option<string>,
    costCategory: Option<string>,
    siteId: Option<string>,
    fileUrl: Option<string>)

  /** The handler's presence check: every required field truthy, so a
      quantity or unit price of 0 counts as missing; `taxRate` is not
      required. */
  predicate CostFieldsPresent(b: CostBody) {
    && Truthy(b.title) && Truthy(b.unit) && TruthyNum(b.quantity) && TruthyNum(b.unitPrice)
    && Truthy(b.moneyType) && Truthy(b.costCategory) && Truthy(b.siteId)
  }

  /** What the handler passes to `Cost.create`: the body's fields and the
      requester as `createdBy`. */
  function InputOf(b: CostBody, userId: Id): (input: CostInput)
    ensures input.createdBy == Some(userId)
    ensures input.title == b.title && input.quantity == b.quantity && input.taxRate == b.taxRate
  {
    CostInput(b.title, b.description, b.unit, b.quantity, b.unitPrice, b.taxRate,
              b.moneyType, b.costCategory, b.siteId, Some(userId), b.fileUrl)
  }

  /** `createCost` for the requester `userId`: 400 on a missing field, then
      the site, the user and the category are looked up in that order (500
      on an id that does not cast, 404 on a missing record), then 500 when
      the document fails validation; nothing is stored on any of these.
      Otherwise the document is priced by the save hook, stored under a new
      id, and returned with 201. */
  method CreateCost(lib: Lib, db: Db, body: CostBody, userId: Id, newId: Id)
    returns (status: int, cost: Option<Cost>)
    requires newId !in db.costs
    modifies db`costs
    ensures !CostFieldsPresent(body) <==> status == 400
    ensures CostFieldsPresent(body) ==>
      match Find(lib, db.sites, body.siteId.value)
      case CastFailed => status == 500
      case NotFound => status == 404
      case Found(_) =>
        match Find(lib, db.users, userId)
        case CastFailed => status == 500
        case NotFound => status == 404
        case Found(_) =>
          match Find(lib, db.categories, body.costCategory.value)
          case CastFailed => status == 500
          case NotFound => status == 404
          case Found(_) => status == (if SchemaAccepts(lib, InputOf(body, userId)) then 201 else 500)
    ensures status != 201 ==> db.costs == old(db.costs) && cost.None?
    ensures status == 201 ==>
      && CostFieldsPresent(body)
      && Build(lib, InputOf(body, userId)).Some?
      && cost == Some(Priced(Build(lib, InputOf(body, userId)).value))
      && cost.value.fields.createdBy == userId
      && body.siteId.value in db.sites && userId in db.users && body.costCategory.value in db.categories
      && db.costs == old(db.costs)[newId := cost.value]
    ensures status == 201 && body.taxRate.None? ==>
      cost.value.taxAmount == 0.0 && cost.value.grossAmount == cost.value.netAmount
  {
    if !CostFieldsPresent(body) {
      return 400, None;
    }
    var site := Find(lib, db.sites, body.siteId.value);
    if site.CastFailed? {
      return 500, None;
    }
    if site.NotFound? {
      return 404, None;
    }
    var user := Find(lib, db.users, userId);
    if user.CastFailed? {
      return 500, None;
    }
    if user.NotFound? {
      return 404, None;
    }
    var category := Find(lib, db.categories, body.costCategory.value);
    if category.CastFailed? {
      return 500, None;
    }
    if category.NotFound? {
      return 404, None;
    }
    var fields := Build(lib, InputOf(body, userId));
    if fields.None? {
      return 500, None;
    }
    var doc := new CostDocument(fields.value);
    doc.PreSave();
    if body.taxRate.None? {
      DefaultTaxRateMeansNoTax(fields.value);
    }
    db.costs := db.costs[newId := doc.Value()];
    status, cost := 201, Some(doc.Value());
  }

  /** `getCostsBySiteId`: 500 on an id that does not cast, 404 when the site
      is missing, otherwise 200 and exactly the costs of that site. */
  method GetCostsBySiteId(lib: Lib, db: Db, siteId: Id) returns (status: int, costs: map<Id, Cost>)
    ensures status == 500 <==> !lib.isObjectId(siteId)
    ensures status == 404 <==> lib.isObjectId(siteId) && siteId !in db.sites
    ensures status != 200 ==> costs == map[]
    ensures status == 200 ==>
      forall id :: id in costs <==> id in db.costs && db.costs[id].fields.siteId == siteId
    ensures forall id :: id in costs ==> costs[id] == db.costs[id]
  {
    var site := Find(lib, db.sites, siteId);
    if site.CastFailed? {
      return 500, map[];
    }
    if site.NotFound? {
      return 404, map[];
    }
    costs := map id | id in db.costs && db.costs[id].fields.siteId == siteId :: db.costs[id];
    status := 200;
  }

  /** `updateCostById`: 500 on an id that does not cast or a patch the update
      validators reject, 404 when no cost has the id; otherwise the patch is
      applied to that one cost, whose amounts are not recomputed, and the
      updated cost is returned with 200. */
  method UpdateCostById(lib: Lib, db: Db, costId: Id, patch: CostPatch) returns (status: int, cost: Option<Cost>)
    modifies db`costs
    ensures status == 500 <==> !lib.isObjectId(costId) || !PatchAccepted(lib, patch)
    ensures status == 404 <==> lib.isObjectId(costId) && PatchAccepted(lib, patch) && costId !in old(db.costs)
    ensures status != 200 ==> db.costs == old(db.costs) && cost.None?
    ensures status == 200 ==>
      && costId in old(db.costs)
      && cost == Some(ApplyPatch(old(db.costs)[costId], patch))
      && db.costs == old(db.costs)[costId := cost.value]
  {
    if !lib.isObjectId(costId) || !PatchAccepted(lib, patch) {
      return 500, None;
    }
    var found := Find(lib, db.costs, costId);
    if !found.Found? {
      return 404, None;
    }
    var updated := ApplyPatch(found.value, patch);
    db.costs := db.costs[costId := updated];
    status, cost := 200, Some(updated);
  }

  /** `deleteCostById`: 500 on an id that does not cast, 404 when no cost has
      the id; otherwise exactly that cost is removed and returned with 200. */
  method DeleteCostById(lib: Lib, db: Db, costId: Id) returns (status: int, cost: Option<Cost>)
    modifies db`costs
    ensures status == 500 <==> !lib.isObjectId(costId)
    ensures status == 404 <==> lib.isObjectId(costId) && costId !in old(db.costs)
    ensures status != 200 ==> db.costs == old(db.costs) && cost.None?
    ensures status == 200 ==>
      && costId in old(db.costs)
      && cost == Some(old(db.costs)[costId])
      && db.costs == old(db.costs) - {costId}
  {
    var found := Find(lib, db.costs, costId);
    if found.CastFailed? {
      return 500, None;
    }
    if found.NotFound? {
      return 404, None;
    }
    db.costs := db.costs - {costId};
    status, cost := 200, Some(found.value);
  }
}
