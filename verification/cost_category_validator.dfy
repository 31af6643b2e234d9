/** src/validators/costCategoryValidator.js: `createRule(fieldName,
    isOptional)` for the fields of a cost category, the two id parameters and
    the check that an update body is not empty. */
module CostCategoryValidator {
  import opened Common
  import opened Text
  import opened Library
  import opened Validation

  /** The body fields the category rules read; `isGlobal` as its text. */
  datatype CategoryBody = CategoryBody(
    name: Option<string>,
    description: Option<string>,
    isGlobal: Option<string>,
    siteId: Option<string>)

  /** The keys of the `rules` table. */
  datatype CategoryField = Name | Description | IsGlobal | SiteId

  function FieldName(f: CategoryField): string {
    match f
    case Name => "name"
    case Description => "description"
    case IsGlobal => "isGlobal"
    case SiteId => "siteId"
  }

  /** The names `createRule` knows. */
  const KnownFields: set<string> := {"name", "description", "isGlobal", "siteId"}

  /** A chain built by `createRule`: which field, and whether optional. */
  datatype Rule = Rule(field: CategoryField, optional: bool)

  /** `createRule`: the chain for one of the table's own field names; the
      inherited members of `Object.prototype` are found as well, and any other
      name gives `null`. */
  function CreateRule(fieldName: string, isOptional: bool): (r: Created<Rule>)
    ensures r.Chain? ==> FieldName(r.rule.field) == fieldName && r.rule.optional == isOptional
    ensures r.Chain? <==> fieldName in KnownFields
    ensures r.Throws? <==> fieldName in ThrowingNames
    ensures r.NotAChain? <==> fieldName in InheritedNames && fieldName !in ThrowingNames
    ensures r.Null? <==> fieldName !in KnownFields && fieldName !in InheritedNames
  {
    if fieldName == "name" then Chain(Rule(Name, isOptional))
    else if fieldName == "description" then Chain(Rule(Description, isOptional))
    else if fieldName == "isGlobal" then Chain(Rule(IsGlobal, isOptional))
    else if fieldName == "siteId" then Chain(Rule(SiteId, isOptional))
    else InheritedLookup(fieldName)
  }

  /** Every entry of the table is reachable by its own name. */
  lemma CreateRuleFindsEveryField(f: CategoryField, isOptional: bool)
    ensures CreateRule(FieldName(f), isOptional) == Chain(Rule(f, isOptional))
  {
    match f
    case Name =>
    case Description =>
    case IsGlobal =>
    case SiteId =>
  }

  /** `description`: trim, optional in the optional variant, isLength at most
      300. The required variant has no `notEmpty`, so it accepts a missing or
      blank description. */
  function DescriptionRule(v: Option<string>, optional: bool): (errors: seq<FieldError>)
    ensures errors == [] <==> (optional && v.None?) || ValidatorLength(Trim(Raw(v))) <= 300
    ensures Trim(Raw(v)) == "" ==> errors == []
  {
    if optional && v.None? then [] else Step(LengthWithin(Trim(Raw(v)), 0, 300), "description", Length)
  }

  /** The texts validator.js `isBoolean` accepts (its strict mode). */
  const BooleanTexts: set<string> := {"true", "false", "1", "0"}

  /** validator.js `toBoolean` in its non-strict mode: everything but `"0"`,
      `"false"` in any case, and `""` is true. */
  predicate ToBoolean(s: string) {
    s != "0" && ToLower(s) != "false" && s != ""
  }

  /** What the `isGlobal` chain leaves: its errors and the field rewritten to
      a boolean (still absent when it was absent). */
  datatype BoolSanitized = BoolSanitized(errors: seq<FieldError>, value: Option<bool>)

  /** `isGlobal`: optional in the optional variant, isBoolean, toBoolean. An
      accepted value becomes `true` exactly for `"true"` and `"1"`. */
  function IsGlobalRule(v: Option<string>, optional: bool): (r: BoolSanitized)
    ensures r.errors == [] <==> (optional && v.None?) || Raw(v) in BooleanTexts
    ensures optional && v.None? ==> r.value.None?
    ensures r.errors == [] && v.Some? ==> r.value == Some(v.value in {"true", "1"})
  {
    if optional && v.None? then BoolSanitized([], None)
    else
      var s := Raw(v);
      if s in BooleanTexts then
        ToLowerFixed(s);
        BoolSanitized([], Some(ToBoolean(s)))
      else
        BoolSanitized(Step(false, "isGlobal", IsBoolean), Some(ToBoolean(s)))
  }

  /** Running the chain a rule stands for on a request body. */
  function Run(lib: Lib, rule: Rule, body: CategoryBody): (errors: seq<FieldError>)
    ensures rule.optional ==> (match rule.field
      case Name => body.name.None?
      case Description => body.description.None?
      case IsGlobal => body.isGlobal.None?
      case SiteId => body.siteId.None?) ==> errors == []
  {
    match rule.field
    case Name => TrimmedLengthRule("name", body.name, rule.optional, 2, 50)
    case Description => DescriptionRule(body.description, rule.optional)
    case IsGlobal => IsGlobalRule(body.isGlobal, rule.optional).errors
    case SiteId => GuardedRule("siteId", body.siteId, rule.optional, lib.isMongoId(Raw(body.siteId)), IsMongoId)
  }

  /** `categoryId`: `param("id").isMongoId()`. */
  function CategoryIdRule(lib: Lib, id: string): (errors: seq<FieldError>)
    ensures errors == [] <==> lib.isMongoId(id)
  {
    MongoIdParamRule(lib, "id", id)
  }

  /** `notEmptyBody`: the body must exist and have at least one key. The
      error is reported on the whole body, whose path is empty. */
  function NotEmptyBodyRule(keys: Option<set<string>>): (errors: seq<FieldError>)
    ensures errors == [] <==> keys.Some? && keys.value != {}
    ensures errors != [] ==> errors == [FieldError("", EmptyBody)]
  {
    Step(keys.Some? && |keys.value| > 0, "", EmptyBody)
  }

  /** The required `name` and `siteId` chains reject a body without them,
      while the required `description` chain accepts one. */
  lemma RequiredRulesOnEmptyBody(lib: Lib)
    ensures Run(lib, Rule(Name, false), CategoryBody(None, None, None, None))[0] == FieldError("name", NotEmpty)
    ensures Run(lib, Rule(SiteId, false), CategoryBody(None, None, None, None))[0] == FieldError("siteId", NotEmpty)
    ensures Run(lib, Rule(IsGlobal, false), CategoryBody(None, None, None, None)) == [FieldError("isGlobal", IsBoolean)]
    ensures Run(lib, Rule(Description, false), CategoryBody(None, None, None, None)) == []
  {
    assert Trim("") == "";
  }
}
