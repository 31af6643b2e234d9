/** src/validators/costValidator.js: the rule chain of every cost field, in its
    required form and in the `*Optional` form used for updates. */
module CostValidator {
  import opened Common
  import opened Text
  import opened Library
  import opened Validation
  import CostModel

  /** The validator's own `isIn` list for `unit`. */
  const ValidatorUnits: seq<string> := ["adet", "kg", "litre", "metre", "santim", "koli", "paket", "diger"]
  /** The validator's own `isIn` list for `moneyType`. */
  const ValidatorMoneyTypes: seq<string> :=
    ["TRY", "USD", "EUR", "GBP", "JPY", "CNY", "AUD", "CAD", "CHF", "SEK", "NOK", "DKK"]

  /** Every listed unit is a non-empty word of lower-case ASCII letters. */
  predicate IsLowerWord(u: string) {
    |u| >= 1 && forall i :: 0 <= i < |u| ==> IsAsciiLower(u[i])
  }

  lemma ListsHaveNoEmptyWord()
    ensures "" !in ValidatorUnits && "" !in ValidatorMoneyTypes
  {
    forall i | 0 <= i < |ValidatorMoneyTypes| ensures |ValidatorMoneyTypes[i]| == 3 {
    }
    forall i | 0 <= i < |ValidatorUnits| ensures |ValidatorUnits[i]| >= 2 {
    }
  }

  lemma UnitsAreLowerWords()
    ensures forall u :: u in ValidatorUnits ==> IsLowerWord(u)
  {
    assert IsLowerWord("adet") && IsLowerWord("kg") && IsLowerWord("litre") && IsLowerWord("metre");
    assert IsLowerWord("santim") && IsLowerWord("koli") && IsLowerWord("paket") && IsLowerWord("diger");
  }

  /** `title`: trim, notEmpty, isLength 2..100. */
  function TitleRule(v: Option<string>): (errors: seq<FieldError>)
    ensures errors == [] <==> LengthWithin(Trim(Raw(v)), 2, 100)
    ensures Trim(Raw(v)) == "" ==> errors == [FieldError("title", NotEmpty), FieldError("title", Length)]
  {
    var t := Trim(Raw(v));
    Step(t != "", "title", NotEmpty) + Step(LengthWithin(t, 2, 100), "title", Length)
  }

  /** `description`: optional, trim, isLength at most 500. */
  function DescriptionRule(v: Option<string>): (errors: seq<FieldError>)
    ensures errors == [] <==> v.None? || ValidatorLength(Trim(v.value)) <= 500
  {
    if v.None? then [] else Step(LengthWithin(Trim(v.value), 0, 500), "description", Length)
  }

  /** `unit`: trim, notEmpty, isIn the unit list. */
  function UnitRule(v: Option<string>): (errors: seq<FieldError>)
    ensures errors == [] <==> Trim(Raw(v)) in ValidatorUnits
  {
    ListsHaveNoEmptyWord();
    var t := Trim(Raw(v));
    Step(t != "", "unit", NotEmpty) + Step(t in ValidatorUnits, "unit", IsIn)
  }

  /** `quantity` and `unitPrice`: notEmpty, isFloat with `gt: 0`. */
  function PositiveNumberRule(lib: Lib, path: string, v: Option<string>): (errors: seq<FieldError>)
    ensures errors == [] <==> IsFloatAbove(lib, Raw(v), 0.0, true)
    ensures errors == [] ==> lib.floatValue(Raw(v)).value > 0.0
    ensures Raw(v) == "" ==> errors == [FieldError(path, NotEmpty), FieldError(path, IsFloat)]
  {
    Step(Raw(v) != "", path, NotEmpty) + Step(IsFloatAbove(lib, Raw(v), 0.0, true), path, IsFloat)
  }

  function QuantityRule(lib: Lib, v: Option<string>): seq<FieldError> {
    PositiveNumberRule(lib, "quantity", v)
  }

  function UnitPriceRule(lib: Lib, v: Option<string>): seq<FieldError> {
    PositiveNumberRule(lib, "unitPrice", v)
  }

  /** `taxRate`: notEmpty, isFloat with `min: 0`. */
  function TaxRateRule(lib: Lib, v: Option<string>): (errors: seq<FieldError>)
    ensures errors == [] <==> IsFloatAbove(lib, Raw(v), 0.0, false)
    ensures errors == [] ==> lib.floatValue(Raw(v)).value >= 0.0
  {
    Step(Raw(v) != "", "taxRate", NotEmpty) + Step(IsFloatAbove(lib, Raw(v), 0.0, false), "taxRate", IsFloat)
  }

  /** `moneyType`: trim, notEmpty, isIn the currency list. */
  function MoneyTypeRule(v: Option<string>): (errors: seq<FieldError>)
    ensures errors == [] <==> Trim(Raw(v)) in ValidatorMoneyTypes
  {
    ListsHaveNoEmptyWord();
    var t := Trim(Raw(v));
    Step(t != "", "moneyType", NotEmpty) + Step(t in ValidatorMoneyTypes, "moneyType", IsIn)
  }

  /** `costCategory`: isMongoId, then notEmpty (in that order). */
  function CostCategoryRule(lib: Lib, v: Option<string>): (errors: seq<FieldError>)
    ensures errors == [] <==> lib.isMongoId(Raw(v)) && Raw(v) != ""
  {
    Step(lib.isMongoId(Raw(v)), "costCategory", IsMongoId) + Step(Raw(v) != "", "costCategory", NotEmpty)
  }

  /** `siteId`: notEmpty, isMongoId. */
  function SiteIdRule(lib: Lib, v: Option<string>): (errors: seq<FieldError>)
    ensures errors == [] <==> Raw(v) != "" && lib.isMongoId(Raw(v))
  {
    Step(Raw(v) != "", "siteId", NotEmpty) + Step(lib.isMongoId(Raw(v)), "siteId", IsMongoId)
  }

  /** `fileUrl`: optional, isURL. */
  function FileUrlRule(lib: Lib, v: Option<string>): (errors: seq<FieldError>)
    ensures errors == [] <==> v.None? || lib.isURL(v.value)
  {
    if v.None? then [] else Step(lib.isURL(v.value), "fileUrl", IsURL)
  }

  function TitleOptionalRule(v: Option<string>): seq<FieldError> {
    if v.None? then [] else TitleRule(v)
  }

  function DescriptionOptionalRule(v: Option<string>): seq<FieldError> {
    DescriptionRule(v)
  }

  function UnitOptionalRule(v: Option<string>): seq<FieldError> {
    if v.None? then [] else UnitRule(v)
  }

  /** `quantityOptional` and `unitPriceOptional`: optional, isFloat with
      `gt: 0`, and no `notEmpty`. */
  function PositiveNumberOptionalRule(lib: Lib, path: string, v: Option<string>): seq<FieldError> {
    if v.None? then [] else Step(IsFloatAbove(lib, v.value, 0.0, true), path, IsFloat)
  }

  function TaxRateOptionalRule(lib: Lib, v: Option<string>): seq<FieldError> {
    if v.None? then [] else Step(IsFloatAbove(lib, v.value, 0.0, false), "taxRate", IsFloat)
  }

  function MoneyTypeOptionalRule(v: Option<string>): seq<FieldError> {
    if v.None? then [] else MoneyTypeRule(v)
  }

  /** `costCategoryOptional`: optional, isMongoId, and no `notEmpty`. */
  function CostCategoryOptionalRule(lib: Lib, v: Option<string>): seq<FieldError> {
    if v.None? then [] else Step(lib.isMongoId(v.value), "costCategory", IsMongoId)
  }

  function SiteIdOptionalRule(lib: Lib, v: Option<string>): seq<FieldError> {
    if v.None? then [] else SiteIdRule(lib, v)
  }

  /** Every optional rule accepts an absent field. */
  lemma OptionalRulesSkipAbsent(lib: Lib)
    ensures TitleOptionalRule(None) == [] && DescriptionOptionalRule(None) == []
    ensures UnitOptionalRule(None) == [] && MoneyTypeOptionalRule(None) == []
    ensures PositiveNumberOptionalRule(lib, "quantity", None) == []
    ensures TaxRateOptionalRule(lib, None) == [] && CostCategoryOptionalRule(lib, None) == []
    ensures SiteIdOptionalRule(lib, None) == []
  {
  }

  /** On a present field every optional rule accepts exactly what its required
      counterpart accepts, even where the optional chain omits `notEmpty`
      (validator.js's `isFloat` rejects `""`, and `isMongoId("")` is false as
      no 24-character hex string is empty). */
  lemma OptionalRulesAgreeWhenPresent(lib: Lib, path: string, s: string)
    requires !lib.isMongoId("")
    ensures (TitleOptionalRule(Some(s)) == []) == (TitleRule(Some(s)) == [])
    ensures (UnitOptionalRule(Some(s)) == []) == (UnitRule(Some(s)) == [])
    ensures (MoneyTypeOptionalRule(Some(s)) == []) == (MoneyTypeRule(Some(s)) == [])
    ensures (PositiveNumberOptionalRule(lib, path, Some(s)) == [])
         == (PositiveNumberRule(lib, path, Some(s)) == [])
    ensures (TaxRateOptionalRule(lib, Some(s)) == []) == (TaxRateRule(lib, Some(s)) == [])
    ensures (CostCategoryOptionalRule(lib, Some(s)) == []) == (CostCategoryRule(lib, Some(s)) == [])
    ensures (SiteIdOptionalRule(lib, Some(s)) == []) == (SiteIdRule(lib, Some(s)) == [])
  {
  }

  /** The validator's lists are the schema's enums. */
  lemma ListsMatchSchema()
    ensures ValidatorUnits == CostModel.Units
    ensures ValidatorMoneyTypes == CostModel.MoneyTypes
  {
  }

  /** A word of lower-case ASCII letters survives the unit setters unchanged. */
  lemma LowerWordCasts(t: string)
    requires IsLowerWord(t)
    ensures CostModel.CastUnit(t) == t
  {
    ToLowerFixed(t);
    TrimFixed(t);
  }

  /** A unit the validator accepts also passes the schema's enum after the
      schema's lowercase and trim setters. */
  lemma AcceptedUnitPassesSchema(v: Option<string>)
    requires UnitRule(v) == []
    ensures CostModel.CastUnit(Trim(Raw(v))) == Trim(Raw(v))
    ensures CostModel.CastUnit(Trim(Raw(v))) in CostModel.Units
  {
    var t := Trim(Raw(v));
    UnitsAreLowerWords();
    LowerWordCasts(t);
  }

  /** A currency the validator accepts passes the schema's enum. */
  lemma AcceptedMoneyTypePassesSchema(v: Option<string>)
    requires MoneyTypeRule(v) == []
    ensures Trim(Raw(v)) in CostModel.MoneyTypes
  {
  }
}
