/** What an express-validator chain produces: a list of field errors. A chain
    runs its steps in order on one field; sanitizers rewrite the value seen by
    later steps, every validator runs (no chain uses `bail()`), and `optional()`
    skips the whole chain when the field is absent. A field that is absent in a
    chain without `optional()` is checked as the empty string. */
module Validation {
  import opened Common
  import opened Text
  import opened Library

  /** Which validator of a chain failed; it stands for the message the source
      attaches with `withMessage`. */
  datatype Check =
    | NotEmpty | Length | Pattern | IsIn | IsFloat | IsMongoId | IsISO8601
    | IsBoolean | IsArray | IsEmail | IsURL | EndNotAfterStart | EmptyBody

  /** One entry of `validationResult(req)`: the field's path and its message. */
  datatype FieldError = FieldError(path: string, msg: Check)

  /** What `rules[fieldName] ? rules[fieldName](isOptional) : null` yields in
      the two `createRule` functions. `rules` is an object literal, so the
      lookup also finds the members it inherits from `Object.prototype`: those
      are called too, and give something that is not a validation chain
      (`toString` gives `"[object Object]"`, `valueOf` the table itself) or
      throw a `TypeError` (`__proto__` is not a function; `__defineGetter__`
      and `__defineSetter__` demand a function argument). */
  datatype Created<R> = Chain(rule: R) | Null | NotAChain | Throws

  /** The members every object literal inherits from `Object.prototype`. */
  const InheritedNames: set<string> :=
    {"constructor", "__proto__", "toString", "toLocaleString", "valueOf", "hasOwnProperty",
     "isPrototypeOf", "propertyIsEnumerable", "__defineGetter__", "__defineSetter__",
     "__lookupGetter__", "__lookupSetter__"}

  /** The inherited members whose call with a boolean throws. */
  const ThrowingNames: set<string> := {"__proto__", "__defineGetter__", "__defineSetter__"}

  /** The outcome of looking up a name the table does not define itself. */
  function InheritedLookup<R>(fieldName: string): (r: Created<R>)
    ensures r.Throws? <==> fieldName in ThrowingNames
    ensures r.NotAChain? <==> fieldName in InheritedNames && fieldName !in ThrowingNames
    ensures r.Null? <==> fieldName !in InheritedNames
  {
    if fieldName in ThrowingNames then Throws
    else if fieldName in InheritedNames then NotAChain
    else Null
  }

  /** The value validators see: an absent field reads as `""`. */
  function Raw(v: Option<string>): string {
    if v.Some? then v.value else ""
  }

  /** One validator step: no error when `ok`, else one error for `path`. */
  function Step(ok: bool, path: string, msg: Check): (errors: seq<FieldError>)
    ensures errors == [] <==> ok
    ensures !ok ==> errors == [FieldError(path, msg)]
  {
    if ok then [] else [FieldError(path, msg)]
  }

  /** `param(name).isMongoId()`: a route parameter must be a 24-digit hex id. */
  function MongoIdParamRule(lib: Lib, path: string, v: string): (errors: seq<FieldError>)
    ensures errors == [] <==> lib.isMongoId(v)
    ensures errors != [] ==> errors == [FieldError(path, IsMongoId)]
  {
    Step(lib.isMongoId(v), path, IsMongoId)
  }

  /** validator.js `isFloat` with a lower bound: the text must parse as a float
      (the empty string and a lone sign or separator never do) and the value
      must be above `bound` (`gt`) or at least `bound` (`min`). */
  predicate IsFloatAbove(lib: Lib, s: string, bound: real, strict: bool) {
    && s !in {"", ".", ",", "-", "+"}
    && lib.floatValue(s).Some?
    && (if strict then lib.floatValue(s).value > bound else lib.floatValue(s).value >= bound)
  }

  /** The `createRule` shape for trimmed text: `trim()`, then `notEmpty()` in
      the required variant or `optional()` in the optional one, then
      `isLength({min, max})`. */
  function TrimmedLengthRule(path: string, v: Option<string>, optional: bool, min: nat, max: nat)
    : (errors: seq<FieldError>)
    ensures optional && v.None? ==> errors == []
    ensures !(optional && v.None?) ==>
      (errors == [] <==> (optional || Trim(Raw(v)) != "") && LengthWithin(Trim(Raw(v)), min, max))
    ensures !optional && Trim(Raw(v)) == "" ==> |errors| >= 1 && errors[0] == FieldError(path, NotEmpty)
  {
    var t := Trim(Raw(v));
    if optional then (if v.None? then [] else Step(LengthWithin(t, min, max), path, Length))
    else Step(t != "", path, NotEmpty) + Step(LengthWithin(t, min, max), path, Length)
  }

  /** The `createRule` shape for an untrimmed field: `notEmpty()` in the
      required variant or `optional()` in the optional one, then one validator
      whose verdict on the raw value is `ok`. */
  function GuardedRule(path: string, v: Option<string>, optional: bool, ok: bool, msg: Check)
    : (errors: seq<FieldError>)
    ensures optional && v.None? ==> errors == []
    ensures !(optional && v.None?) ==> (errors == [] <==> (optional || Raw(v) != "") && ok)
    ensures !optional && Raw(v) == "" ==> |errors| >= 1 && errors[0] == FieldError(path, NotEmpty)
  {
    if optional then (if v.None? then [] else Step(ok, path, msg))
    else Step(Raw(v) != "", path, NotEmpty) + Step(ok, path, msg)
  }

  /** The path express-validator reports for element `i` of an array field. */
  function IndexedPath(base: string, i: nat): string {
    base + "[" + Decimal(i) + "]"
  }
}
