/** The third-party primitives the backend calls, kept uninterpreted: each is a
    field of `Lib`, a record of total functions that every operation using one
    receives as a parameter. Nothing is assumed about them beyond their types,
    except where a lemma states the one fact it needs as a precondition. */
module Library {
  import opened Common

  /** A decoded JWT payload: claim name to claim value. */
  type Claims = map<string, string>

  /** The two signing secrets (`ACCESS_TOKEN_SECRET`, `REFRESH_TOKEN_SECRET`). */
  datatype Secret = AccessSecret | RefreshSecret

  datatype Lib = Lib(
    /** validator.js `isMongoId`: 24 hexadecimal characters. */
    isMongoId: string -> bool,
    /** Whether Mongoose can cast the string to an ObjectId (`ObjectId.isValid`);
        `findById` on any other string throws a CastError. */
    isObjectId: string -> bool,
    /** validator.js `isISO8601`. */
    isISO8601: string -> bool,
    /** validator.js `isEmail`. */
    isEmail: string -> bool,
    /** validator.js `normalizeEmail`; `None` where it returns `false`. */
    normalizeEmail: string -> Option<string>,
    /** validator.js `isURL`. */
    isURL: string -> bool,
    /** validator.js `isFloat`'s syntax check and parse: `None` when the text is
        not a float, otherwise its value. */
    floatValue: string -> Option<real>,
    /** `new Date(s).getTime()`; `None` for an Invalid Date. */
    parseDate: string -> Option<int>,
    /** `bcrypt.hash(password, salt)`. */
    hash: (string, string) -> string,
    /** `bcrypt.compare(password, hash)`. */
    compare: (string, string) -> bool,
    /** `jwt.sign(claims, secret, { expiresIn })` at clock time `now`:
        arguments are the claims, the secret, the lifetime in seconds and `now`. */
    sign: (Claims, Secret, int, int) -> string,
    /** `jwt.verify(token, secret)` at clock time `now`; `None` where it throws. */
    verify: (string, Secret, int) -> Option<Claims>,
    /** `path.extname(name)`. */
    extname: string -> string
  )

  /** The registered claim names of section 4.1 of RFC 7519; `jwt.sign` adds
      `iat` and, given `expiresIn`, `exp` to the payload it is handed. */
  const RegisteredClaims: set<string> := {"iss", "sub", "aud", "exp", "nbf", "iat", "jti"}

  /** What `jwt.verify` may answer for a token signed over `claims`: it may
      throw, and a payload it returns carries every signed claim unchanged and
      nothing else but registered claims. */
  predicate DecodesTo(answer: Option<Claims>, claims: Claims)
  {
    answer.Some? ==>
      && (forall k :: k in claims ==> k in answer.value && answer.value[k] == claims[k])
      && (forall k :: k in answer.value ==> k in claims || k in RegisteredClaims)
  }
}
