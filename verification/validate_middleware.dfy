/** src/middlewares/validateMiddleware.js: turn the collected validation errors
    into a 400 response, or let the request through. */
module ValidateMiddleware {
  import opened Validation

  /** One element of the response's `errors` array. */
  datatype ErrorEntry = ErrorEntry(field: string, message: Check)

  /** Either the 400 response (its `status` and `message` texts and its error
      array) or `next()`. */
  datatype Response =
    | Rejected(code: int, status: string, message: string, errors: seq<ErrorEntry>)
    | Next

  /** `errors.array().map(e => ({ field: e.path, message: e.msg }))`. */
  function Entries(errors: seq<FieldError>): (entries: seq<ErrorEntry>)
    ensures |entries| == |errors|
    ensures forall i :: 0 <= i < |errors| ==>
      entries[i].field == errors[i].path && entries[i].message == errors[i].msg
  {
    if errors == [] then []
    else [ErrorEntry(errors[0].path, errors[0].msg)] + Entries(errors[1..])
  }

  /** The middleware: any error gives a 400 with one entry per error in the
      same order; no error calls `next()` and sends nothing. */
  function Validate(errors: seq<FieldError>): (r: Response)
    ensures r.Next? <==> errors == []
    ensures r.Rejected? ==> r.code == 400 && r.status == "Error" && r.message == "Validation Error"
    ensures r.Rejected? ==> |r.errors| == |errors|
    ensures r.Rejected? ==> forall i :: 0 <= i < |errors| ==>
      r.errors[i] == ErrorEntry(errors[i].path, errors[i].msg)
  {
    if errors == [] then Next
    else Rejected(400, "Error", "Validation Error", Entries(errors))
  }

  /** The response keeps the errors of consecutive chains in their order:
      the entries for `a + b` are those for `a` followed by those for `b`. */
  lemma {:induction false} EntriesConcat(a: seq<FieldError>, b: seq<FieldError>)
    ensures Entries(a + b) == Entries(a) + Entries(b)
  {
    if a != [] {
      assert (a + b)[1..] == a[1..] + b;
      EntriesConcat(a[1..], b);
    }
  }
}
