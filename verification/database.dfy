/** The MongoDB collections the controllers read and write, held in one
    object: users, refresh tokens, sites, cost categories and costs. A
    collection keyed by `_id` is a map; the Token collection, which the code
    only ever searches by field, is a sequence of records in insertion order. */
module Database {
  import opened Common
  import opened Library
  import CostModel

  /** An ObjectId in its 24-digit hex text form. */
  type Id = string

  /** A stored user. `role` is the field `updateUserRole` assigns; its value
      is whatever the request sent (absent when it sent none). */
  datatype User = User(firstName: string, lastName: string, email: string, password: string, role: Option<string>)

  /** A user as `select("-password")` and the auth responses show it. */
  datatype UserView = UserView(firstName: string, lastName: string, email: string, role: Option<string>)

  /** A user without the password hash. */
  function ViewOf(u: User): (v: UserView)
    ensures v.email == u.email && v.role == u.role
    ensures v.firstName == u.firstName && v.lastName == u.lastName
  {
    UserView(u.firstName, u.lastName, u.email, u.role)
  }

  /** A stored site (src/model/site.js); dates as clock values. */
  datatype Site = Site(
    name: string, location: string, budget: real, startDate: int, endDate: int,
    createdBy: Id, assignedUsers: seq<Id>)

  /** A stored cost category (src/model/costCategory.js). */
  datatype Category = Category(name: string, description: Option<string>, isGlobal: bool, siteId: Id, createdBy: Id)

  /** A stored refresh token (the Token collection). */
  datatype TokenRecord = TokenRecord(userId: Id, refreshToken: string, date: int)

  /** What `Model.findById(id)` gives: a CastError for a string that is not
      an ObjectId, `null`, or the document. */
  datatype Lookup<T> = CastFailed | NotFound | Found(value: T)

  function Find<T>(lib: Lib, m: map<Id, T>, id: Id): (r: Lookup<T>)
    ensures r.CastFailed? <==> !lib.isObjectId(id)
    ensures r.NotFound? <==> lib.isObjectId(id) && id !in m
    ensures r.Found? ==> id in m && r.value == m[id]
  {
    if !lib.isObjectId(id) then CastFailed
    else if id in m then Found(m[id])
    else NotFound
  }

  /** How many stored tokens belong to user `u`. */
  function TokenCount(tokens: seq<TokenRecord>, u: Id): nat {
    if tokens == [] then 0
    else (if tokens[0].userId == u then 1 else 0) + TokenCount(tokens[1..], u)
  }

  lemma {:induction false} TokenCountAppend(a: seq<TokenRecord>, b: seq<TokenRecord>, u: Id)
    ensures TokenCount(a + b, u) == TokenCount(a, u) + TokenCount(b, u)
  {
    if a == [] {
      assert a + b == b;
    } else {
      assert (a + b)[1..] == a[1..] + b;
      TokenCountAppend(a[1..], b, u);
    }
  }

  /** `Token.deleteMany({ userId: u })`: every record of `u` goes, every
      other record stays, in order. */
  function WithoutUser(tokens: seq<TokenRecord>, u: Id): (r: seq<TokenRecord>)
    ensures forall t :: t in r <==> t in tokens && t.userId != u
    ensures TokenCount(r, u) == 0
    ensures forall v :: v != u ==> TokenCount(r, v) == TokenCount(tokens, v)
  {
    if tokens == [] then []
    else
      var rest := WithoutUser(tokens[1..], u);
      assert forall t :: t in tokens <==> t == tokens[0] || t in tokens[1..];
      if tokens[0].userId == u then rest
      else
        assert ([tokens[0]] + rest)[1..] == rest;
        [tokens[0]] + rest
  }

  /** At most one stored refresh token per user. */
  ghost predicate OneTokenPerUser(tokens: seq<TokenRecord>) {
    forall u :: TokenCount(tokens, u) <= 1
  }

  /** The token store after `generateTokens` for `u`: `deleteMany` of `u`'s
      records, then `create` of the new one. The user ends with exactly
      that one record and nobody else's records change. */
  function Rotated(tokens: seq<TokenRecord>, u: Id, refreshToken: string, now: int): (r: seq<TokenRecord>)
    ensures TokenCount(r, u) == 1
    ensures forall v :: v != u ==> TokenCount(r, v) == TokenCount(tokens, v)
    ensures TokenRecord(u, refreshToken, now) in r
    ensures forall t :: t in r && t.userId == u ==> t == TokenRecord(u, refreshToken, now)
    ensures forall t :: t in tokens && t.userId != u ==> t in r
    ensures OneTokenPerUser(tokens) ==> OneTokenPerUser(r)
  {
    var kept := WithoutUser(tokens, u);
    var added := TokenRecord(u, refreshToken, now);
    TokenCountAppend(kept, [added], u);
    forall v | v != u ensures TokenCount(kept + [added], v) == TokenCount(tokens, v) {
      TokenCountAppend(kept, [added], v);
    }
    kept + [added]
  }

  /** The filter `{ refreshToken: v }` that `findOne` and `deleteOne` receive,
      where `v` is whatever the request carried. `express.json` bodies and
      cookie-parser's `j:` cookies can hold any JSON value, and Mongoose reads
      it against the string path: a string (or a number or `true`, cast to
      its text) matches exactly; an object of `$` operators (`$ne`, `$gt`,
      `$regex`, ...) or an array (`$in`) selects whatever stored strings the
      operator admits; any other object fails to cast and the query throws. */
  datatype TokenQuery = Exact(token: string) | Operator(admits: string -> bool) | Uncastable

  /** Whether the filter selects a record storing `stored`. */
  predicate Selects(q: TokenQuery, stored: string) {
    match q
    case Exact(token) => stored == token
    case Operator(admits) => admits(stored)
    case Uncastable => false
  }

  /** `{ refreshToken: { $ne: null } }`: every stored record has a refresh
      token, so the filter selects them all. */
  const NotNull: TokenQuery := Operator(_ => true)

  /** The record `findOne` returns and `deleteOne` deletes: the first one the
      filter selects. */
  function FirstWithToken(tokens: seq<TokenRecord>, q: TokenQuery): (r: Option<nat>)
    ensures r.Some? ==> r.value < |tokens| && Selects(q, tokens[r.value].refreshToken)
    ensures r.Some? ==> forall j :: 0 <= j < r.value ==> !Selects(q, tokens[j].refreshToken)
    ensures r.None? <==> forall j :: 0 <= j < |tokens| ==> !Selects(q, tokens[j].refreshToken)
  {
    if tokens == [] then None
    else if Selects(q, tokens[0].refreshToken) then Some(0)
    else
      var rest := FirstWithToken(tokens[1..], q);
      if rest.None? then
        assert forall j :: 1 <= j < |tokens| ==> tokens[j] == tokens[1..][j - 1];
        None
      else Some(rest.value + 1)
  }

  /** With `$ne: null` the first stored record is the one found, whoever it
      belongs to. */
  lemma NotNullSelectsFirstRecord(tokens: seq<TokenRecord>)
    ensures tokens != [] <==> FirstWithToken(tokens, NotNull) == Some(0)
  {
  }

  /** The store with the record at `i` deleted. */
  function RemoveAt(tokens: seq<TokenRecord>, i: nat): (r: seq<TokenRecord>)
    requires i < |tokens|
    ensures |r| == |tokens| - 1
    ensures forall u :: TokenCount(r, u) == TokenCount(tokens, u) - (if tokens[i].userId == u then 1 else 0)
  {
    var r := tokens[..i] + tokens[i + 1..];
    forall u ensures TokenCount(r, u) == TokenCount(tokens, u) - (if tokens[i].userId == u then 1 else 0) {
      TokenCountAppend(tokens[..i], tokens[i + 1..], u);
      assert tokens == tokens[..i] + ([tokens[i]] + tokens[i + 1..]);
      TokenCountAppend(tokens[..i], [tokens[i]] + tokens[i + 1..], u);
      TokenCountAppend([tokens[i]], tokens[i + 1..], u);
    }
    r
  }

  /** No two users share an email address. */
  predicate EmailsDistinct(users: map<Id, User>) {
    forall a, b :: a in users && b in users && users[a].email == users[b].email ==> a == b
  }

  /** Whether a user with this email is stored (`User.findOne({ email })`). */
  predicate EmailTaken(users: map<Id, User>, email: string) {
    exists id :: id in users && users[id].email == email
  }

  /** All collections. */
  class Db {
    var users: map<Id, User>
    var tokens: seq<TokenRecord>
    var sites: map<Id, Site>
    var categories: map<Id, Category>
    var costs: map<Id, CostModel.Cost>

    /** What the auth handlers keep true: emails are unique and every user
        has at most one stored refresh token. */
    ghost predicate Valid()
      reads this
    {
      EmailsDistinct(users) && OneTokenPerUser(tokens)
    }

    /** An empty database. */
    constructor()
      ensures users == map[] && tokens == [] && sites == map[] && categories == map[] && costs == map[]
      ensures Valid()
    {
      users, tokens, sites, categories, costs := map[], [], map[], map[], map[];
    }
  }
}
