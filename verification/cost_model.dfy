/** The Cost document of src/model/costModel.js: its allowed values and
    defaults, the casting and validation Mongoose applies when a cost is
    created or updated, and the pre-save hook that derives the net, tax and
    gross amounts. JavaScript numbers are modelled as `real`, so the amounts
    are exact and nothing here says anything about rounding. */
module CostModel {
  import opened Common
  import opened Text
  import opened Library

  /** The `unit` enum. */
  const Units: seq<string> := ["adet", "kg", "litre", "metre", "santim", "koli", "paket", "diger"]
  /** The `moneyType` enum. */
  const MoneyTypes: seq<string> :=
    ["TRY", "USD", "EUR", "GBP", "JPY", "CNY", "AUD", "CAD", "CHF", "SEK", "NOK", "DKK"]

  const DefaultUnit: string := "adet"
  const DefaultMoneyType: string := "TRY"
  const DefaultQuantity: real := 1.0
  const DefaultTaxRate: real := 0.0

  /** What a caller hands to `Cost.create`; `None` is `undefined`. */
  datatype CostInput = CostInput(
    title: Option<string>,
    description: Option<string>,
    unit: Option<string>,
    quantity: Option<real>,
    unitPrice: Option<real>,
    taxRate: Option<real>,
    moneyType: Option<string>,
    costCategory: Option<string>,
    siteId: Option<string>,
    createdBy: Option<string>,
    fileUrl: Option<string>)

  /** The stored fields a client controls (everything but the derived amounts). */
  datatype CostFields = CostFields(
    title: string,
    description: Option<string>,
    unit: string,
    quantity: real,
    unitPrice: real,
    taxRate: real,
    moneyType: string,
    costCategory: string,
    siteId: string,
    createdBy: string,
    fileUrl: Option<string>)

  /** A stored cost: its fields and the three amounts. */
  datatype Cost = Cost(fields: CostFields, netAmount: real, taxAmount: real, grossAmount: real)

  /** The `unit` setters, `lowercase: true` then `trim: true`. */
  function CastUnit(u: string): string {
    Trim(ToLower(u))
  }

  /** Trim a present optional string (the `trim: true` setter). */
  function TrimOpt(s: Option<string>): (r: Option<string>)
    ensures r.Some? <==> s.Some?
  {
    if s.Some? then Some(Trim(s.value)) else None
  }

  /** Mongoose's `required` check on a string after its setters ran. */
  predicate RequiredText(s: Option<string>) {
    s.Some? && s.value != ""
  }

  /** Whether the document built from `input` passes schema validation: the
      required fields are there (defaults filling unit, quantity, moneyType and
      taxRate), the enums hold after the setters, and the references cast. */
  predicate SchemaAccepts(lib: Lib, input: CostInput) {
    && RequiredText(TrimOpt(input.title))
    && CastUnit(input.unit.GetOr(DefaultUnit)) in Units
    && input.unitPrice.Some?
    && input.moneyType.GetOr(DefaultMoneyType) in MoneyTypes
    && input.costCategory.Some? && lib.isObjectId(input.costCategory.value)
    && input.siteId.Some? && lib.isObjectId(input.siteId.value)
    && input.createdBy.Some? && lib.isObjectId(input.createdBy.value)
  }

  /** The document `new Cost(input)` builds, or `None` when validation throws. */
  function Build(lib: Lib, input: CostInput): (r: Option<CostFields>)
    ensures r.Some? <==> SchemaAccepts(lib, input)
    ensures r.Some? ==> r.value.unit in Units && r.value.moneyType in MoneyTypes
    ensures r.Some? ==> r.value.title != "" && r.value.title == Trim(input.title.value)
    ensures r.Some? && input.quantity.None? ==> r.value.quantity == DefaultQuantity
    ensures r.Some? && input.taxRate.None? ==> r.value.taxRate == DefaultTaxRate
    ensures r.Some? && input.unit.None? ==> r.value.unit == DefaultUnit
    ensures r.Some? && input.moneyType.None? ==> r.value.moneyType == DefaultMoneyType
  {
    if !SchemaAccepts(lib, input) then None
    else
      DefaultUnitCasts();
      Some(CostFields(
        Trim(input.title.value),
        TrimOpt(input.description),
        CastUnit(input.unit.GetOr(DefaultUnit)),
        input.quantity.GetOr(DefaultQuantity),
        input.unitPrice.value,
        input.taxRate.GetOr(DefaultTaxRate),
        input.moneyType.GetOr(DefaultMoneyType),
        input.costCategory.value,
        input.siteId.value,
        input.createdBy.value,
        TrimOpt(input.fileUrl)))
  }

  /** The default unit is a member of the enum and survives the setters. */
  lemma DefaultUnitCasts()
    ensures CastUnit(DefaultUnit) == DefaultUnit && DefaultUnit in Units
  {
    var d := DefaultUnit;
    assert d == ['a', 'd', 'e', 't'];
    assert forall i :: 0 <= i < |d| ==> !IsAsciiUpper(d[i]);
    ToLowerFixed(d);
    assert !IsWhitespace(d[0]) && !IsWhitespace(d[3]);
    TrimFixed(d);
    assert Units[0] == d;
  }

  /** The amounts the pre-save hook derives from the stored fields. */
  function Priced(f: CostFields): Cost {
    var net := f.quantity * f.unitPrice;
    var tax := net * (f.taxRate / 100.0);
    Cost(f, net, tax, net + tax)
  }

  /** A cost document being saved: the hook assigns its three amount fields. */
  class CostDocument {
    var fields: CostFields
    var netAmount: real
    var taxAmount: real
    var grossAmount: real

    /** `new Cost(...)`: the amounts are not set yet (modelled as 0). */
    constructor (f: CostFields)
      ensures fields == f && netAmount == 0.0 && taxAmount == 0.0 && grossAmount == 0.0
    {
      fields := f;
      netAmount, taxAmount, grossAmount := 0.0, 0.0, 0.0;
    }

    /** The document as it is written to the collection. */
    function Value(): Cost
      reads this
    {
      Cost(fields, netAmount, taxAmount, grossAmount)
    }

    /** `CostSchema.pre("save")`: reads quantity, unitPrice and taxRate and
        overwrites the three amounts; the frame leaves `fields` untouched. */
    method PreSave()
      modifies this`netAmount, this`taxAmount, this`grossAmount
      ensures netAmount == fields.quantity * fields.unitPrice
      ensures taxAmount == netAmount * (fields.taxRate / 100.0)
      ensures grossAmount == netAmount + taxAmount
      ensures Value() == Priced(fields)
    {
      netAmount := fields.quantity * fields.unitPrice;
      taxAmount := netAmount * (fields.taxRate / 100.0);
      grossAmount := netAmount + taxAmount;
    }
  }

  /** Saving twice gives the same amounts as saving once. */
  method SaveTwice(doc: CostDocument)
    modifies doc`netAmount, doc`taxAmount, doc`grossAmount
    ensures doc.Value() == Priced(doc.fields) && doc.fields == old(doc.fields)
  {
    doc.PreSave();
    ghost var once := doc.Value();
    doc.PreSave();
    assert doc.Value() == once;
  }

  /** The gross amount is the net amount scaled by the tax rate. */
  lemma GrossIsNetPlusRate(f: CostFields)
    ensures Priced(f).grossAmount == f.quantity * f.unitPrice * (1.0 + f.taxRate / 100.0)
  {
    var net := f.quantity * f.unitPrice;
    assert net + net * (f.taxRate / 100.0) == net * (1.0 + f.taxRate / 100.0);
  }

  /** With the default tax rate the tax is zero and gross equals net. */
  lemma DefaultTaxRateMeansNoTax(f: CostFields)
    requires f.taxRate == DefaultTaxRate
    ensures Priced(f).taxAmount == 0.0 && Priced(f).grossAmount == Priced(f).netAmount
  {
  }

  /** Non-negative inputs give 0 <= net <= gross. */
  lemma AmountsOrdered(f: CostFields)
    requires f.quantity >= 0.0 && f.unitPrice >= 0.0 && f.taxRate >= 0.0
    ensures 0.0 <= Priced(f).netAmount <= Priced(f).grossAmount
    ensures Priced(f).taxAmount >= 0.0
  {
    var net := f.quantity * f.unitPrice;
    MulNonNegative(f.quantity, f.unitPrice);
    MulNonNegative(net, f.taxRate / 100.0);
  }

  lemma MulNonNegative(a: real, b: real)
    requires a >= 0.0 && b >= 0.0
    ensures a * b >= 0.0
  {
  }

  /** The amounts depend only on quantity, unitPrice and taxRate. */
  lemma AmountsDependOnPricingOnly(f: CostFields, g: CostFields)
    requires f.quantity == g.quantity && f.unitPrice == g.unitPrice && f.taxRate == g.taxRate
    ensures Priced(f).netAmount == Priced(g).netAmount
    ensures Priced(f).taxAmount == Priced(g).taxAmount
    ensures Priced(f).grossAmount == Priced(g).grossAmount
  {
  }

  /** The body of `findByIdAndUpdate`: every schema path may be set, including
      the three amounts; `None` leaves that path alone. */
  datatype CostPatch = CostPatch(
    title: Option<string>,
    description: Option<string>,
    unit: Option<string>,
    quantity: Option<real>,
    unitPrice: Option<real>,
    netAmount: Option<real>,
    taxRate: Option<real>,
    taxAmount: Option<real>,
    grossAmount: Option<real>,
    moneyType: Option<string>,
    costCategory: Option<string>,
    siteId: Option<string>,
    createdBy: Option<string>,
    fileUrl: Option<string>)

  /** The update validators (`runValidators: true`) and casts, on the paths the
      patch sets: a set title must be non-empty after trimming, a set unit and
      moneyType must be in their enums, set references must cast. */
  predicate PatchAccepted(lib: Lib, p: CostPatch) {
    && (p.title.Some? ==> Trim(p.title.value) != "")
    && (p.unit.Some? ==> CastUnit(p.unit.value) in Units)
    && (p.moneyType.Some? ==> p.moneyType.value in MoneyTypes)
    && (p.costCategory.Some? ==> lib.isObjectId(p.costCategory.value))
    && (p.siteId.Some? ==> lib.isObjectId(p.siteId.value))
    && (p.createdBy.Some? ==> lib.isObjectId(p.createdBy.value))
  }

  /** Whether the patch sets none of the three amounts. */
  predicate LeavesAmounts(p: CostPatch) {
    p.netAmount.None? && p.taxAmount.None? && p.grossAmount.None?
  }

  /** The `$set` of a patch on a stored cost, setters applied. The save hook
      does not run: the amounts change only if the patch sets them. */
  function ApplyPatch(c: Cost, p: CostPatch): (r: Cost)
    ensures p.quantity.None? ==> r.fields.quantity == c.fields.quantity
    ensures p.unitPrice.None? ==> r.fields.unitPrice == c.fields.unitPrice
    ensures p.taxRate.None? ==> r.fields.taxRate == c.fields.taxRate
    ensures LeavesAmounts(p) ==>
      r.netAmount == c.netAmount && r.taxAmount == c.taxAmount && r.grossAmount == c.grossAmount
    ensures p == CostPatch(None, None, None, None, None, None, None, None, None, None, None, None, None, None) ==> r == c
  {
    var f := c.fields;
    Cost(
      CostFields(
        if p.title.Some? then Trim(p.title.value) else f.title,
        if p.description.Some? then Some(Trim(p.description.value)) else f.description,
        if p.unit.Some? then CastUnit(p.unit.value) else f.unit,
        p.quantity.GetOr(f.quantity),
        p.unitPrice.GetOr(f.unitPrice),
        p.taxRate.GetOr(f.taxRate),
        p.moneyType.GetOr(f.moneyType),
        p.costCategory.GetOr(f.costCategory),
        p.siteId.GetOr(f.siteId),
        p.createdBy.GetOr(f.createdBy),
        if p.fileUrl.Some? then Some(Trim(p.fileUrl.value)) else f.fileUrl),
      p.netAmount.GetOr(c.netAmount),
      p.taxAmount.GetOr(c.taxAmount),
      p.grossAmount.GetOr(c.grossAmount))
  }

  /** Because the update bypasses the hook, a priced cost whose quantity is
      patched keeps its old net amount: here 1 x 10 becomes 2 x 10 but the
      stored net amount stays 10. */
  lemma PatchLeavesAmountsStale()
    ensures var f := CostFields("cement", None, "kg", 1.0, 10.0, 0.0, "TRY", "c", "s", "u", None);
            var p := CostPatch(None, None, None, Some(2.0), None, None, None, None, None, None, None, None, None, None);
            var r := ApplyPatch(Priced(f), p);
            r.netAmount == 10.0 && r.fields.quantity * r.fields.unitPrice == 20.0
  {
  }

  /** In general: a patch that changes quantity but sets no amount leaves a
      priced cost out of step with its hook whenever the unit price is not 0. */
  lemma StaleAfterQuantityPatch(f: CostFields, p: CostPatch)
    requires LeavesAmounts(p) && p.unitPrice.None?
    requires p.quantity.Some? && p.quantity.value != f.quantity && f.unitPrice != 0.0
    ensures var r := ApplyPatch(Priced(f), p);
            r.netAmount != r.fields.quantity * r.fields.unitPrice
  {
    var q := p.quantity.value;
    assert (f.quantity - q) * f.unitPrice != 0.0;
  }
}
