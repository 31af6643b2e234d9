/** src/controller/authController.js: issuing and rotating the JWT pair, and
    the register, login, token-refresh and logout handlers over the user and
    refresh-token collections. Cookies are left out: the tokens a handler
    sets as cookies are the ones it returns. */
module AuthController {
  import opened Common
  import opened Library
  import opened Database

  /** `expiresIn: "15m"` and `expiresIn: "7d"`, in seconds. */
  const AccessLifetime: int := 15 * 60
  const RefreshLifetime: int := 7 * 24 * 60 * 60

  /** The access-token payload: the user's id and email, and nothing else. */
  function AccessClaims(userId: Id, email: string): (c: Claims)
    ensures c.Keys == {"userId", "email"} && c["userId"] == userId && c["email"] == email
  {
    map["userId" := userId, "email" := email]
  }

  /** The refresh-token payload: the user's id only. */
  function RefreshClaims(userId: Id): (c: Claims)
    ensures c.Keys == {"userId"} && c["userId"] == userId
  {
    map["userId" := userId]
  }

  datatype TokenPair = TokenPair(accessToken: string, refreshToken: string)

  /** The pair `generateTokens` signs for a user at time `now`. */
  function SignedPair(lib: Lib, userId: Id, email: string, now: int): TokenPair {
    TokenPair(
      lib.sign(AccessClaims(userId, email), AccessSecret, AccessLifetime, now),
      lib.sign(RefreshClaims(userId), RefreshSecret, RefreshLifetime, now))
  }

  /** `generateTokens`: sign both tokens, delete the user's stored refresh
      tokens, store the new one. */
  method GenerateTokens(lib: Lib, db: Db, userId: Id, email: string, now: int) returns (pair: TokenPair)
    modifies db`tokens
    ensures pair == SignedPair(lib, userId, email, now)
    ensures db.tokens == Rotated(old(db.tokens), userId, pair.refreshToken, now)
  {
    pair := SignedPair(lib, userId, email, now);
    db.tokens := WithoutUser(db.tokens, userId);
    db.tokens := db.tokens + [TokenRecord(userId, pair.refreshToken, now)];
  }

  /** The four fields `register` reads from the body. */
  datatype RegisterBody = RegisterBody(
    firstName: Option<string>, lastName: Option<string>, email: Option<string>, password: Option<string>)

  /** What `register` and `login` answer with: the user without its password,
      and the new tokens. */
  datatype AuthView = AuthView(user: UserView, tokens: TokenPair)

  predicate RegisterFieldsPresent(b: RegisterBody) {
    Truthy(b.firstName) && Truthy(b.lastName) && Truthy(b.email) && Truthy(b.password)
  }

  /** `register`: 400 when a field is missing or the email is taken, and then
      nothing is stored; otherwise the user is created with role `"user"` and
      the hashed password, gets a token pair, and the answer is 201. */
  method Register(lib: Lib, db: Db, body: RegisterBody, salt: string, newId: Id, now: int)
    returns (status: int, view: Option<AuthView>)
    requires db.Valid() && newId !in db.users
    modifies db`users, db`tokens
    ensures db.Valid()
    ensures status == 400 <==> !RegisterFieldsPresent(body) || EmailTaken(old(db.users), body.email.value)
    ensures status == 400 ==> db.users == old(db.users) && db.tokens == old(db.tokens) && view.None?
    ensures status != 400 ==> && status == 201
                              && var u := User(body.firstName.value, body.lastName.value, body.email.value,
                                               lib.hash(body.password.value, salt), Some("user"));
                                 && db.users == old(db.users)[newId := u]
                                 && view == Some(AuthView(ViewOf(u), SignedPair(lib, newId, u.email, now)))
                                 && db.tokens == Rotated(old(db.tokens), newId, view.value.tokens.refreshToken, now)
  {
    if !RegisterFieldsPresent(body) {
      return 400, None;
    }
    if EmailTaken(db.users, body.email.value) {
      return 400, None;
    }
    var hashed := lib.hash(body.password.value, salt);
    var u := User(body.firstName.value, body.lastName.value, body.email.value, hashed, Some("user"));
    db.users := db.users[newId := u];
    var pair := GenerateTokens(lib, db, newId, u.email, now);
    status, view := 201, Some(AuthView(ViewOf(u), pair));
  }

  /** `login`: 400 on a missing field, 404 on an unknown email, 401 on a
      wrong password, none of them touching the token store; otherwise the
      user's tokens are rotated and the answer is 200. */
  method Login(lib: Lib, db: Db, email: Option<string>, password: Option<string>, now: int)
    returns (status: int, view: Option<AuthView>)
    requires db.Valid()
    modifies db`tokens
    ensures db.Valid()
    ensures status == 400 <==> !Truthy(email) || !Truthy(password)
    ensures status == 404 <==> Truthy(email) && Truthy(password) && !EmailTaken(db.users, email.value)
    ensures status == 401 <==> (Truthy(email) && Truthy(password) &&
      exists id :: id in db.users && db.users[id].email == email.value && !lib.compare(password.value, db.users[id].password))
    ensures status in {400, 404, 401} ==> db.tokens == old(db.tokens) && view.None?
    ensures status !in {400, 404, 401} ==> (status == 200 &&
      exists id :: && id in db.users && db.users[id].email == email.value
                   && lib.compare(password.value, db.users[id].password)
                   && view == Some(AuthView(ViewOf(db.users[id]), SignedPair(lib, id, email.value, now)))
                   && db.tokens == Rotated(old(db.tokens), id, view.value.tokens.refreshToken, now))
  {
    if !Truthy(email) || !Truthy(password) {
      return 400, None;
    }
    if !EmailTaken(db.users, email.value) {
      return 404, None;
    }
    var id :| id in db.users && db.users[id].email == email.value;
    var u := db.users[id];
    if !lib.compare(password.value, u.password) {
      return 401, None;
    }
    var pair := GenerateTokens(lib, db, id, u.email, now);
    status, view := 200, Some(AuthView(ViewOf(u), pair));
  }

  /** Whether a `refreshToken` value is truthy: present, and not the empty
      string. The other falsy JSON values (`null`, `0`, `false`) are modelled
      as an absent value. */
  predicate Presents(v: Option<TokenQuery>) {
    v.Some? && (v.value.Exact? ==> v.value.token != "")
  }

  /** `req.cookies.refreshToken || req.body.refreshToken`: the cookie when it
      is truthy, else the body's value when that is truthy. */
  function PresentedToken(cookie: Option<TokenQuery>, bodyToken: Option<TokenQuery>): (t: Option<TokenQuery>)
    ensures t.Some? ==> Presents(t)
    ensures t.None? <==> !Presents(cookie) && !Presents(bodyToken)
    ensures Presents(cookie) ==> t == cookie
    ensures !Presents(cookie) && Presents(bodyToken) ==> t == bodyToken
  {
    if Presents(cookie) then cookie
    else if Presents(bodyToken) then bodyToken
    else None
  }

  /** `Token.findOne({ refreshToken })` on the store: the first record the
      filter selects; the query throws when the value does not cast. */
  function StoredRecord(tokens: seq<TokenRecord>, q: TokenQuery): (r: Lookup<TokenRecord>)
    ensures r.CastFailed? <==> q.Uncastable?
    ensures r.Found? ==> r.value in tokens && Selects(q, r.value.refreshToken)
    ensures r.NotFound? <==> !q.Uncastable? && forall t :: t in tokens ==> !Selects(q, t.refreshToken)
  {
    if q.Uncastable? then CastFailed
    else
      var i := FirstWithToken(tokens, q);
      if i.Some? then Found(tokens[i.value]) else NotFound
  }

  /** `tokenRefresh`: 401 with the store untouched when no token is
      presented, when no record is selected, or when the record's user is
      gone; 500 when the presented value or the stored user id does not cast;
      otherwise the selected record's user has its tokens rotated and the new
      pair is returned with 200. */
  method TokenRefresh(lib: Lib, db: Db, cookie: Option<TokenQuery>, bodyToken: Option<TokenQuery>, now: int)
    returns (status: int, pair: Option<TokenPair>)
    requires db.Valid()
    modifies db`tokens
    ensures db.Valid()
    ensures var token := PresentedToken(cookie, bodyToken);
      var rec := if token.Some? then StoredRecord(old(db.tokens), token.value) else NotFound;
      && (rec.NotFound? ==> status == 401)
      && (rec.CastFailed? ==> status == 500)
      && (rec.Found? && Find(lib, db.users, rec.value.userId).NotFound? ==> status == 401)
      && (rec.Found? && Find(lib, db.users, rec.value.userId).CastFailed? ==> status == 500)
      && (status != 200 ==> db.tokens == old(db.tokens) && pair.None?)
      && (rec.Found? && Find(lib, db.users, rec.value.userId).Found? ==>
            var u := rec.value.userId;
            && status == 200
            && pair == Some(SignedPair(lib, u, db.users[u].email, now))
            && db.tokens == Rotated(old(db.tokens), u, pair.value.refreshToken, now))
  {
    var token := PresentedToken(cookie, bodyToken);
    if token.None? {
      return 401, None;
    }
    var rec := StoredRecord(db.tokens, token.value);
    if rec.CastFailed? {
      return 500, None;
    }
    if rec.NotFound? {
      return 401, None;
    }
    var found := Find(lib, db.users, rec.value.userId);
    if found.CastFailed? {
      return 500, None;
    }
    if found.NotFound? {
      return 401, None;
    }
    var p := GenerateTokens(lib, db, rec.value.userId, found.value.email, now);
    status, pair := 200, Some(p);
  }

  /** A presented string selects only a record that stores exactly it. */
  lemma TextSelectsOnlyItsOwnRecord(tokens: seq<TokenRecord>, token: string)
    ensures var r := StoredRecord(tokens, Exact(token));
      && (r.Found? ==> r.value.refreshToken == token)
      && (r.NotFound? <==> forall t :: t in tokens ==> t.refreshToken != token)
  {
  }

  /** The body `{ "refreshToken": { "$ne": null } }`, with no cookie and no
      knowledge of any token: the first stored record is selected, and when
      its user exists that user's fresh pair is handed out with 200. */
  method RefreshWithoutToken(lib: Lib, db: Db, now: int) returns (status: int, pair: Option<TokenPair>)
    requires db.Valid() && db.tokens != [] && Find(lib, db.users, db.tokens[0].userId).Found?
    modifies db`tokens
    ensures var u := old(db.tokens)[0].userId;
      && status == 200
      && pair == Some(SignedPair(lib, u, db.users[u].email, now))
      && db.tokens == Rotated(old(db.tokens), u, pair.value.refreshToken, now)
  {
    NotNullSelectsFirstRecord(db.tokens);
    status, pair := TokenRefresh(lib, db, None, Some(NotNull), now);
  }

  /** A successful refresh leaves the presented record out of the store
      (unless the new record happens to be identical to it) and the user with
      the new record as its only one. */
  lemma RefreshReplacesPresentedRecord(old_tokens: seq<TokenRecord>, rec: TokenRecord, refreshToken: string, now: int)
    requires rec in old_tokens
    ensures var r := Rotated(old_tokens, rec.userId, refreshToken, now);
      && (rec in r ==> rec == TokenRecord(rec.userId, refreshToken, now))
      && TokenCount(r, rec.userId) == 1
  {
  }

  /** `logout`: 400 without a token, 500 when the value does not cast;
      otherwise the first record the filter selects is deleted and the answer
      is 200, also when no record was selected. `deleteOne` resolves to a
      result object, which is always truthy, so the handler's not-found
      answer is never given. */
  method Logout(db: Db, cookie: Option<TokenQuery>, bodyToken: Option<TokenQuery>) returns (status: int)
    requires db.Valid()
    modifies db`tokens
    ensures db.Valid()
    ensures var token := PresentedToken(cookie, bodyToken);
      && (status == 400 <==> token.None?)
      && (status == 500 <==> token.Some? && token.value.Uncastable?)
      && (status != 200 ==> db.tokens == old(db.tokens))
      && (token.Some? && !token.value.Uncastable? ==> (status == 200 &&
            match FirstWithToken(old(db.tokens), token.value)
            case None => db.tokens == old(db.tokens)
            case Some(i) => db.tokens == RemoveAt(old(db.tokens), i)))
  {
    var token := PresentedToken(cookie, bodyToken);
    if token.None? {
      return 400;
    }
    if token.value.Uncastable? {
      return 500;
    }
    var i := FirstWithToken(db.tokens, token.value);
    if i.Some? {
      db.tokens := RemoveAt(db.tokens, i.value);
    }
    status := 200;
  }

  /** After a logout with a string the store held once, no record carries it
      any more. The store invariant does not give this premise: it bounds the
      records per user, not the records per token string. */
  lemma LogoutForgetsUniqueToken(tokens: seq<TokenRecord>, token: string, i: nat)
    requires FirstWithToken(tokens, Exact(token)) == Some(i)
    requires forall j :: 0 <= j < |tokens| && j != i ==> tokens[j].refreshToken != token
    ensures forall t :: t in RemoveAt(tokens, i) ==> t.refreshToken != token
  {
    assert RemoveAt(tokens, i) == tokens[..i] + tokens[i + 1..];
    OthersLackToken(tokens, token, i);
  }

  /** The records around position `i` are the ones other than `i`. */
  lemma OthersLackToken(tokens: seq<TokenRecord>, token: string, i: nat)
    requires i < |tokens|
    requires forall j :: 0 <= j < |tokens| && j != i ==> tokens[j].refreshToken != token
    ensures forall t :: t in tokens[..i] + tokens[i + 1..] ==> t.refreshToken != token
  {
    var r := tokens[..i] + tokens[i + 1..];
    forall k | 0 <= k < |r| ensures r[k].refreshToken != token {
      if k < i {
        assert r[k] == tokens[k];
      } else {
        assert r[k] == tokens[k + 1];
      }
    }
  }
}
