/** src/validators/siteValidator.js: `createRule(fieldName, isOptional)` and
    the chains it builds for the fields of a site. */
module SiteValidator {
  import opened Common
  import opened Text
  import opened Library
  import opened Validation

  /** A JSON body value as far as the site rules look at it: a scalar (seen
      through its text) or an array of scalars. */
  datatype Json = JText(text: string) | JList(items: seq<string>)

  /** The body fields the site rules read. */
  datatype SiteBody = SiteBody(
    name: Option<string>,
    location: Option<string>,
    budget: Option<string>,
    startDate: Option<string>,
    endDate: Option<string>,
    assignedUsers: Option<Json>)

  /** The keys of the `rules` table. */
  datatype SiteField = Name | Location | Budget | StartDate | EndDate | AssignedUsers | AssignedUsersIds

  function FieldName(f: SiteField): string {
    match f
    case Name => "name"
    case Location => "location"
    case Budget => "budget"
    case StartDate => "startDate"
    case EndDate => "endDate"
    case AssignedUsers => "assignedUsers"
    case AssignedUsersIds => "assignedUsersIds"
  }

  /** The names `createRule` knows. */
  const KnownFields: set<string> :=
    {"name", "location", "budget", "startDate", "endDate", "assignedUsers", "assignedUsersIds"}

  /** A chain built by `createRule`: which field, and whether optional. */
  datatype Rule = Rule(field: SiteField, optional: bool)

  /** `createRule`: the chain for one of the table's own field names; the
      inherited members of `Object.prototype` are found as well, and any other
      name gives `null`. */
  function CreateRule(fieldName: string, isOptional: bool): (r: Created<Rule>)
    ensures r.Chain? ==> FieldName(r.rule.field) == fieldName && r.rule.optional == isOptional
    ensures r.Chain? <==> fieldName in KnownFields
    ensures r.Throws? <==> fieldName in ThrowingNames
    ensures r.NotAChain? <==> fieldName in InheritedNames && fieldName !in ThrowingNames
    ensures r.Null? <==> fieldName !in KnownFields && fieldName !in InheritedNames
  {
    if fieldName == "name" then Chain(Rule(Name, isOptional))
    else if fieldName == "location" then Chain(Rule(Location, isOptional))
    else if fieldName == "budget" then Chain(Rule(Budget, isOptional))
    else if fieldName == "startDate" then Chain(Rule(StartDate, isOptional))
    else if fieldName == "endDate" then Chain(Rule(EndDate, isOptional))
    else if fieldName == "assignedUsers" then Chain(Rule(AssignedUsers, isOptional))
    else if fieldName == "assignedUsersIds" then Chain(Rule(AssignedUsersIds, isOptional))
    else InheritedLookup(fieldName)
  }

  /** Every entry of the table is reachable by its own name. */
  lemma CreateRuleFindsEveryField(f: SiteField, isOptional: bool)
    ensures CreateRule(FieldName(f), isOptional) == Chain(Rule(f, isOptional))
  {
    var r := CreateRule(FieldName(f), isOptional);
    assert r.Chain?;
    assert FieldName(r.rule.field) == FieldName(f);
    match f
    case Name =>
    case Location =>
    case Budget =>
    case StartDate =>
    case EndDate =>
    case AssignedUsers =>
    case AssignedUsersIds =>
  }

  /** `new Date(value)`: an absent value is an invalid date. */
  function DateOf(lib: Lib, v: Option<string>): Option<int> {
    if v.None? then None else lib.parseDate(v.value)
  }

  /** The custom `endDate` check fails: a start date is given, both dates are
      valid, and the end is not later than the start. (A comparison with an
      invalid date is false, so it never fails there.) */
  predicate EndOnOrBeforeStart(lib: Lib, body: SiteBody) {
    && Truthy(body.startDate)
    && DateOf(lib, body.endDate).Some?
    && DateOf(lib, body.startDate).Some?
    && DateOf(lib, body.endDate).value <= DateOf(lib, body.startDate).value
  }

  /** `endDate`: notEmpty or optional, isISO8601, then the custom order check. */
  function EndDateRule(lib: Lib, body: SiteBody, optional: bool): (errors: seq<FieldError>)
    ensures optional && body.endDate.None? ==> errors == []
    ensures !(optional && body.endDate.None?) ==>
      (errors == [] <==>
        && (optional || Raw(body.endDate) != "")
        && lib.isISO8601(Raw(body.endDate))
        && !EndOnOrBeforeStart(lib, body))
    ensures !(optional && body.endDate.None?) && EndOnOrBeforeStart(lib, body) ==>
      FieldError("endDate", EndNotAfterStart) in errors
  {
    if optional && body.endDate.None? then []
    else
      var first := GuardedRule("endDate", body.endDate, optional, lib.isISO8601(Raw(body.endDate)), IsISO8601);
      var last := Step(!EndOnOrBeforeStart(lib, body), "endDate", EndNotAfterStart);
      assert EndOnOrBeforeStart(lib, body) ==> (first + last)[|first|] == FieldError("endDate", EndNotAfterStart);
      first + last
  }

  /** `assignedUsers`: optional, isArray (optional whatever `isOptional` is). */
  function AssignedUsersRule(v: Option<Json>): (errors: seq<FieldError>)
    ensures errors == [] <==> v.None? || v.value.JList?
  {
    if v.None? then [] else Step(v.value.JList?, "assignedUsers", IsArray)
  }

  /** `isMongoId` on each element of `items`, one error per bad element,
      reported at the element's own path. */
  function ElementIdErrors(lib: Lib, items: seq<string>): (errors: seq<FieldError>)
    ensures errors == [] <==> forall i :: 0 <= i < |items| ==> lib.isMongoId(items[i])
    ensures |errors| <= |items|
    ensures forall e :: e in errors ==> e.msg == IsMongoId
    decreases |items|
  {
    if items == [] then []
    else
      var n := |items| - 1;
      var front := items[..n];
      var rest := ElementIdErrors(lib, front);
      assert forall i :: 0 <= i < n ==> front[i] == items[i];
      rest + Step(lib.isMongoId(items[n]), IndexedPath("assignedUsers", n), IsMongoId)
  }

  /** `assignedUsers.*`: optional, isMongoId on every element of an array
      (a scalar value has no elements to check). */
  function AssignedUsersIdsRule(lib: Lib, v: Option<Json>): (errors: seq<FieldError>)
    ensures errors == [] <==>
      v.None? || v.value.JText? || forall i :: 0 <= i < |v.value.items| ==> lib.isMongoId(v.value.items[i])
  {
    if v.Some? && v.value.JList? then ElementIdErrors(lib, v.value.items) else []
  }

  /** The field a rule reads is absent from the body. */
  predicate Absent(body: SiteBody, f: SiteField) {
    match f
    case Name => body.name.None?
    case Location => body.location.None?
    case Budget => body.budget.None?
    case StartDate => body.startDate.None?
    case EndDate => body.endDate.None?
    case AssignedUsers => body.assignedUsers.None?
    case AssignedUsersIds => body.assignedUsers.None?
  }

  /** Running the chain a rule stands for on a request body. Every optional
      chain lets an absent field through. */
  function Run(lib: Lib, rule: Rule, body: SiteBody): (errors: seq<FieldError>)
    ensures rule.optional && Absent(body, rule.field) ==> errors == []
  {
    match rule.field
    case Name => TrimmedLengthRule("name", body.name, rule.optional, 2, 50)
    case Location => TrimmedLengthRule("location", body.location, rule.optional, 2, 100)
    case Budget =>
      GuardedRule("budget", body.budget, rule.optional, IsFloatAbove(lib, Raw(body.budget), 0.0, true), IsFloat)
    case StartDate =>
      GuardedRule("startDate", body.startDate, rule.optional, lib.isISO8601(Raw(body.startDate)), IsISO8601)
    case EndDate => EndDateRule(lib, body, rule.optional)
    case AssignedUsers => AssignedUsersRule(body.assignedUsers)
    case AssignedUsersIds => AssignedUsersIdsRule(lib, body.assignedUsers)
  }

  /** The body with no field at all. */
  const EmptyBody := SiteBody(None, None, None, None, None, None)

  /** Each required text, number and date chain fails an empty body, and its
      first complaint is `notEmpty`. */
  lemma RequiredRulesRejectEmptyBody(lib: Lib, f: SiteField)
    requires f in {Name, Location, Budget, StartDate, EndDate}
    ensures var errors := Run(lib, Rule(f, false), EmptyBody);
      |errors| >= 1 && errors[0] == FieldError(FieldName(f), NotEmpty)
  {
    if f == EndDate {
      var first := GuardedRule("endDate", None, false, lib.isISO8601(""), IsISO8601);
      assert Run(lib, Rule(f, false), EmptyBody)[0] == first[0];
    }
  }

  /** The two array chains ignore `isOptional`: the required and optional
      variants are the same chain. */
  lemma ArrayRulesIgnoreOptional(lib: Lib, body: SiteBody)
    ensures Run(lib, Rule(AssignedUsers, false), body) == Run(lib, Rule(AssignedUsers, true), body)
    ensures Run(lib, Rule(AssignedUsersIds, false), body) == Run(lib, Rule(AssignedUsersIds, true), body)
  {
  }

  /** An end date that parses to a later instant than the start date, with
      both in ISO 8601, passes the required `endDate` chain. */
  lemma EndAfterStartAccepted(lib: Lib, body: SiteBody)
    requires body.endDate.Some? && body.endDate.value != "" && lib.isISO8601(body.endDate.value)
    requires DateOf(lib, body.endDate).Some? && DateOf(lib, body.startDate).Some?
    requires DateOf(lib, body.endDate).value > DateOf(lib, body.startDate).value
    ensures Run(lib, Rule(EndDate, false), body) == []
  {
  }

  /** An end date on or before the start date is rejected by both `endDate`
      chains whenever an end date is given. */
  lemma EndNotAfterStartRejected(lib: Lib, body: SiteBody, optional: bool)
    requires body.endDate.Some? && Truthy(body.startDate)
    requires DateOf(lib, body.endDate).Some? && DateOf(lib, body.startDate).Some?
    requires DateOf(lib, body.endDate).value <= DateOf(lib, body.startDate).value
    ensures FieldError("endDate", EndNotAfterStart) in Run(lib, Rule(EndDate, optional), body)
  {
  }
}
