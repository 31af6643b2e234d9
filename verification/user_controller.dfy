/** src/controller/userController.js: listing, reading, re-roling and deleting
    users. */
module UserController {
  import opened Common
  import opened Library
  import opened Database

  /** `getAllUsers`: every user, without its password. */
  method GetAllUsers(db: Db) returns (status: int, users: map<Id, UserView>)
    ensures status == 200
    ensures users.Keys == db.users.Keys
    ensures forall id :: id in users ==> users[id] == ViewOf(db.users[id])
  {
    users := map id | id in db.users :: ViewOf(db.users[id]);
    status := 200;
  }

  /** `getUserById`: 400 for an id that is not an ObjectId, 404 for an
      unknown one, otherwise 200 and the user without its password. */
  method GetUserById(lib: Lib, db: Db, userId: Id) returns (status: int, user: Option<UserView>)
    ensures status == 400 <==> !lib.isObjectId(userId)
    ensures status == 404 <==> lib.isObjectId(userId) && userId !in db.users
    ensures status == 200 <==> lib.isObjectId(userId) && userId in db.users
    ensures status == 200 ==> user == Some(ViewOf(db.users[userId]))
    ensures status != 200 ==> user.None?
  {
    if !lib.isObjectId(userId) {
      return 400, None;
    }
    var found := Find(lib, db.users, userId);
    if !found.Found? {
      return 404, None;
    }
    status, user := 200, Some(ViewOf(found.value));
  }

  /** `updateUserRole`: 400 for a malformed id, 404 for an unknown one;
      otherwise the user's role becomes whatever the body sent (the handler
      does not check it), nothing else changes, and the answer is 200. */
  method UpdateUserRole(lib: Lib, db: Db, userId: Id, role: Option<string>)
    returns (status: int, user: Option<User>)
    requires db.Valid()
    modifies db`users
    ensures db.Valid()
    ensures status == 400 <==> !lib.isObjectId(userId)
    ensures status == 404 <==> lib.isObjectId(userId) && userId !in old(db.users)
    ensures status != 200 ==> db.users == old(db.users) && user.None?
    ensures status == 200 ==>
      && userId in old(db.users)
      && user == Some(old(db.users)[userId].(role := role))
      && db.users == old(db.users)[userId := user.value]
  {
    if !lib.isObjectId(userId) {
      return 400, None;
    }
    var found := Find(lib, db.users, userId);
    if !found.Found? {
      return 404, None;
    }
    var updated := found.value.(role := role);
    RoleUpdateKeepsEmailsDistinct(db.users, userId, role);
    db.users := db.users[userId := updated];
    status, user := 200, Some(updated);
  }

  /** A role update keeps the user set, every other user, and the updated
      user's email; so it keeps emails distinct. */
  lemma RoleUpdateKeepsEmailsDistinct(users: map<Id, User>, userId: Id, role: Option<string>)
    requires userId in users && EmailsDistinct(users)
    ensures var after := users[userId := users[userId].(role := role)];
      after.Keys == users.Keys && EmailsDistinct(after)
  {
    var after := users[userId := users[userId].(role := role)];
    forall a, b | a in after && b in after && after[a].email == after[b].email ensures a == b {
      assert after[a].email == users[a].email && after[b].email == users[b].email;
    }
  }

  /** `deleteUserById`: 400 for a malformed id, 404 for an unknown one;
      otherwise exactly that user is removed and returned with 200. The
      user's refresh tokens stay in the store. */
  method DeleteUserById(lib: Lib, db: Db, userId: Id) returns (status: int, user: Option<User>)
    requires db.Valid()
    modifies db`users
    ensures db.Valid()
    ensures status == 400 <==> !lib.isObjectId(userId)
    ensures status == 404 <==> lib.isObjectId(userId) && userId !in old(db.users)
    ensures status != 200 ==> db.users == old(db.users) && user.None?
    ensures status == 200 ==>
      && userId in old(db.users)
      && user == Some(old(db.users)[userId])
      && db.users == old(db.users) - {userId}
  {
    if !lib.isObjectId(userId) {
      return 400, None;
    }
    var found := Find(lib, db.users, userId);
    if !found.Found? {
      return 404, None;
    }
    RemovalKeepsEmailsDistinct(db.users, userId);
    db.users := db.users - {userId};
    status, user := 200, Some(found.value);
  }

  /** Removing a user keeps emails distinct. */
  lemma RemovalKeepsEmailsDistinct(users: map<Id, User>, userId: Id)
    requires EmailsDistinct(users)
    ensures EmailsDistinct(users - {userId})
  {
  }
}
