/** src/controller/siteController.js: `createSite`, and the Site document it
    creates (src/model/site.js). */
module SiteController {
  import opened Common
  import opened Text
  import opened Library
  import opened Database

  /** The fields `createSite` reads, plus `assignedUsers`, which it ignores.
      Dates are texts `new Date` parses; the budget is a JSON number. */
  datatype SiteBody = SiteBody(
    name: Option<string>,
    location: Option<string>,
    budget: Option<real>,
    startDate: Option<string>,
    endDate: Option<string>,
    assignedUsers: Option<seq<Id>>)

  /** The handler's own presence check: every field truthy, so a budget of 0
      counts as missing. */
  predicate SiteFieldsPresent(b: SiteBody) {
    Truthy(b.name) && Truthy(b.location) && TruthyNum(b.budget) && Truthy(b.startDate) && Truthy(b.endDate)
  }

  /** Whether `Site.create` passes validation for present fields: the trimmed
      name and location are non-empty and both dates cast. */
  predicate SiteSchemaAccepts(lib: Lib, b: SiteBody)
    requires SiteFieldsPresent(b)
  {
    && Trim(b.name.value) != "" && Trim(b.location.value) != ""
    && lib.parseDate(b.startDate.value).Some? && lib.parseDate(b.endDate.value).Some?
  }

  /** The document `Site.create` stores, or `None` when validation throws.
      `assignedUsers` is not passed, so it is the empty array. */
  function BuildSite(lib: Lib, b: SiteBody, userId: Id): (r: Option<Site>)
    requires SiteFieldsPresent(b)
    ensures r.Some? <==> SiteSchemaAccepts(lib, b)
    ensures r.Some? ==> && r.value.name == Trim(b.name.value) && r.value.name != ""
                        && r.value.location == Trim(b.location.value) && r.value.location != ""
                        && r.value.budget == b.budget.value && r.value.budget != 0.0
                        && r.value.createdBy == userId && r.value.assignedUsers == []
  {
    if !SiteSchemaAccepts(lib, b) then None
    else Some(Site(Trim(b.name.value), Trim(b.location.value), b.budget.value,
                   lib.parseDate(b.startDate.value).value, lib.parseDate(b.endDate.value).value, userId, []))
  }

  /** `createSite` for the user `userId` of the verified token: 400 on a
      missing field, 500 on an id that does not cast, 404 on an unknown user,
      500 when the document fails validation; in all of these nothing is
      stored. Otherwise exactly one site is added and the answer is 201. */
  method CreateSite(lib: Lib, db: Db, body: SiteBody, userId: Id, newId: Id)
    returns (status: int, site: Option<Site>)
    requires newId !in db.sites
    modifies db`sites
    ensures !SiteFieldsPresent(body) <==> status == 400
    ensures SiteFieldsPresent(body) ==>
      match Find(lib, db.users, userId)
      case CastFailed => status == 500
      case NotFound => status == 404
      case Found(_) => status == (if SiteSchemaAccepts(lib, body) then 201 else 500)
    ensures status != 201 ==> db.sites == old(db.sites) && site.None?
    ensures status == 201 ==>
      && SiteFieldsPresent(body)
      && site == BuildSite(lib, body, userId) && site.Some?
      && db.sites == old(db.sites)[newId := site.value]
  {
    if !SiteFieldsPresent(body) {
      return 400, None;
    }
    var user := Find(lib, db.users, userId);
    if user.CastFailed? {
      return 500, None;
    }
    if user.NotFound? {
      return 404, None;
    }
    var created := BuildSite(lib, body, userId);
    if created.None? {
      return 500, None;
    }
    db.sites := db.sites[newId := created.value];
    status, site := 201, created;
  }

  /** A stored site's creator is the requester and its user list is empty,
      whatever `assignedUsers` the body sent. */
  lemma CreatedSiteIgnoresAssignedUsers(lib: Lib, b: SiteBody, userId: Id)
    requires SiteFieldsPresent(b) && SiteSchemaAccepts(lib, b)
    ensures BuildSite(lib, b, userId) == BuildSite(lib, b.(assignedUsers := None), userId)
    ensures BuildSite(lib, b, userId).value.assignedUsers == []
  {
  }
}
