/** controllers/userController.js: a user's own profile, public profiles,
    and the admin handlers for listing, soft-deleting, re-roling and
    banning users. */
module UserController {
  import opened Common
  import opened Text
  import opened UserModel
  import opened Store
  import opened Answer
  import opened Paging

  datatype UserView =
    | Profile(user: Option<User>)
    | UserPage(users: seq<User>, total: nat, page: int, totalPages: int)
    | Updated(message: string, record: User)

  datatype UserOutcome = UserOutcome(users: seq<User>, answer: Answer<UserView>)

  // --------------------------------------------------------- updateMyProfile

  /** One `[key, value]` pair of the request body. */
  datatype BodyEntry = BodyEntry(key: string, value: string)

  const AllowedUpdates: seq<string> := ["name", "phone", "avatar"]

  /** `Object.fromEntries(Object.entries(body).filter(…))`: the entries whose
      key is allowed, in body order. */
  function AllowedPayload(body: seq<BodyEntry>): seq<BodyEntry> {
    Filter(body, (e: BodyEntry) => e.key in AllowedUpdates)
  }

  /** The payload holds exactly the body's entries for name, phone and
      avatar, in the body's order, and nothing else. */
  lemma AllowedPayloadKeeps(body: seq<BodyEntry>)
    ensures forall e :: e in AllowedPayload(body) ==> e in body && e.key in AllowedUpdates
    ensures forall e :: e in body && e.key in AllowedUpdates ==> e in AllowedPayload(body)
    ensures Subsequence(AllowedPayload(body), body)
  {
    var p := (e: BodyEntry) => e.key in AllowedUpdates;
    forall e | e in AllowedPayload(body)
      ensures e in body && e.key in AllowedUpdates
    {
      var k :| 0 <= k < |AllowedPayload(body)| && AllowedPayload(body)[k] == e;
    }
    forall e | e in body && e.key in AllowedUpdates
      ensures e in AllowedPayload(body)
    {
      FilterKeeps(body, p, e);
    }
    FilterIsSubsequence(body, p);
  }

  /** The value the last entry for `key` carries, if any: what
      `Object.fromEntries` keeps for a repeated key. */
  function LastValue(payload: seq<BodyEntry>, key: string): Option<string> {
    if payload == [] then None
    else
      match LastValue(payload[1..], key)
      case Some(v) => Some(v)
      case None => if payload[0].key == key then Some(payload[0].value) else None
  }

  /** Filtering to the allowed keys keeps what each allowed key ends up as. */
  lemma {:induction false} LastValueFiltered(body: seq<BodyEntry>, key: string)
    requires key in AllowedUpdates
    ensures LastValue(AllowedPayload(body), key) == LastValue(body, key)
  {
    if body != [] {
      LastValueFiltered(body[1..], key);
      var p := (e: BodyEntry) => e.key in AllowedUpdates;
      if p(body[0]) {
        assert AllowedPayload(body) == [body[0]] + AllowedPayload(body[1..]);
        assert ([body[0]] + AllowedPayload(body[1..]))[1..] == AllowedPayload(body[1..]);
      } else {
        assert AllowedPayload(body) == AllowedPayload(body[1..]);
      }
    }
  }

  /** The update document applied: name, phone and avatar take the last
      value given for each, every other field is kept. */
  function ApplyPayload(u: User, payload: seq<BodyEntry>): User {
    var name := LastValue(payload, "name");
    var phone := LastValue(payload, "phone");
    var avatar := LastValue(payload, "avatar");
    u.(name := name.GetOr(u.name), phone := if phone.Some? then phone else u.phone, avatar := avatar.GetOr(u.avatar))
  }

  /** `updateMyProfile`: `findByIdAndUpdate` with the allowed entries; an
      unknown caller is answered with `null`. */
  function UpdateMyProfileOutcome(users: seq<User>, me: UserId, body: seq<BodyEntry>): UserOutcome {
    match FindUser(users, me)
    case None => UserOutcome(users, Answer(200, Json(Profile(None))))
    case Some(i) =>
      var u := ApplyPayload(users[i], AllowedPayload(body));
      UserOutcome(users[i := u], Answer(200, Json(Profile(Some(u)))))
  }

  method UpdateMyProfile(db: Database, me: UserId, body: seq<BodyEntry>) returns (answer: Answer<UserView>)
    modifies db`users
    ensures UserOutcome(db.users, answer) == UpdateMyProfileOutcome(old(db.users), me, body)
  {
    var payload := AllowedPayload(body);
    var found := FindUser(db.users, me);
    if found.None? {
      return Answer(200, Json(Profile(None)));
    }
    var u := ApplyPayload(db.users[found.value], payload);
    db.users := db.users[found.value := u];
    answer := Answer(200, Json(Profile(Some(u))));
  }

  /** Whatever the body holds, only the caller's name, phone and avatar can
      change: role, ban and deletion flags, password and profile are kept,
      and so is every other user. Each of the three takes the last value
      the body gives it, or keeps its old value. */
  lemma UpdateMyProfileKeepsOthers(users: seq<User>, me: UserId, body: seq<BodyEntry>)
    ensures var o := UpdateMyProfileOutcome(users, me, body);
      && |o.users| == |users|
      && forall k :: 0 <= k < |users| ==>
           var r := o.users[k];
           r == users[k].(name := r.name, phone := r.phone, avatar := r.avatar)
           && (users[k].id != me ==> r == users[k])
    ensures var o := UpdateMyProfileOutcome(users, me, body);
      FindUser(users, me).Some? ==>
        var r := o.users[FindUser(users, me).value];
        && r.name == LastValue(body, "name").GetOr(users[FindUser(users, me).value].name)
        && r.avatar == LastValue(body, "avatar").GetOr(users[FindUser(users, me).value].avatar)
        && (LastValue(body, "phone").Some? ==> r.phone == LastValue(body, "phone"))
  {
    LastValueFiltered(body, "name");
    LastValueFiltered(body, "phone");
    LastValueFiltered(body, "avatar");
    match FindUser(users, me)
    case None =>
    case Some(i) =>
  }

  /** A body naming none of the allowed keys leaves the record as it was. */
  lemma UpdateMyProfileIgnoresOtherKeys(users: seq<User>, me: UserId, body: seq<BodyEntry>)
    requires forall k :: 0 <= k < |body| ==> body[k].key !in AllowedUpdates
    ensures UpdateMyProfileOutcome(users, me, body).users == users
  {
    var p := (e: BodyEntry) => e.key in AllowedUpdates;
    assert Count(body, p) == 0 by {
      NoneAllowed(body);
    }
    match FindUser(users, me)
    case None =>
    case Some(i) =>
      assert AllowedPayload(body) == [];
      assert users[i := users[i]] == users;
  }

  lemma {:induction false} NoneAllowed(body: seq<BodyEntry>)
    requires forall k :: 0 <= k < |body| ==> body[k].key !in AllowedUpdates
    ensures Count(body, (e: BodyEntry) => e.key in AllowedUpdates) == 0
  {
    if body != [] {
      NoneAllowed(body[1..]);
    }
  }

  // ------------------------------------------------------------- getUserById

  /** `getUserById`: a soft-deleted user is not found. */
  function GetUserById(users: seq<User>, id: UserId): (a: Answer<UserView>)
    ensures a.status == 200 <==> FindUser(users, id).Some? && !users[FindUser(users, id).value].isDeleted
    ensures a.status != 200 ==> a == Says(404, "User not found")
    ensures a.status == 200 ==> a.payload == Json(Profile(Some(users[FindUser(users, id).value])))
  {
    match FindUser(users, id)
    case None => Says(404, "User not found")
    case Some(i) => if users[i].isDeleted then Says(404, "User not found") else Answer(200, Json(Profile(Some(users[i]))))
  }

  // ------------------------------------------------------------- getAllUsers

  /** The query `{isDeleted: false}`, plus `role` when given and `isBanned`
      when `banned` is present (`'true'` means true, anything else false). */
  predicate UserMatches(u: User, roleQ: Option<string>, bannedQ: Option<string>) {
    && !u.isDeleted
    && (Truthy(roleQ) ==> RoleName(u.role) == roleQ.value)
    && (bannedQ.Some? ==> u.isBanned == (bannedQ.value == "true"))
  }

  /** `parseInt(q) || d` for a non-zero default. */
  function PageParam(q: Option<string>, d: int): (r: int)
    requires d != 0
    ensures r != 0
  {
    OrDefault(ParseIntParam(q), d)
  }

  /** `getAllUsers`: users in store order, `limit` per page. A negative
      skip (page below 1) makes the query fail. */
  function GetAllUsers(users: seq<User>, pageQ: Option<string>, limitQ: Option<string>,
                       roleQ: Option<string>, bannedQ: Option<string>, production: bool): Answer<UserView>
  {
    var page := PageParam(pageQ, 1);
    var limit := PageParam(limitQ, 20);
    ListUsers(Filter(users, (u: User) => UserMatches(u, roleQ, bannedQ)), page, limit, production)
  }

  /** Page `page` of the matching users, `limit` per page. */
  function ListUsers(matching: seq<User>, page: int, limit: int, production: bool): Answer<UserView>
    requires limit != 0
  {
    match Window(matching, (page - 1) * limit, limit)
    case Failure(e) => Thrown(StoreFailure(e), production)
    case Success(items) => Answer(200, Json(UserPage(items, |matching|, page, CeilDiv(|matching|, limit))))
  }

  /** Every listed user is a stored, not soft-deleted user matching the role
      and ban filters, and the total counts every such user. */
  lemma GetAllUsersLists(users: seq<User>, pageQ: Option<string>, limitQ: Option<string>,
                         roleQ: Option<string>, bannedQ: Option<string>, production: bool)
    ensures var a := GetAllUsers(users, pageQ, limitQ, roleQ, bannedQ, production);
      var p := (u: User) => UserMatches(u, roleQ, bannedQ);
      a.status == 200 ==>
        && a.payload.Json? && a.payload.value.UserPage?
        && a.payload.value.total == Count(users, p)
        && (forall k :: 0 <= k < |a.payload.value.users| ==>
              var u := a.payload.value.users[k];
              u in users && !u.isDeleted
              && (Truthy(roleQ) ==> RoleName(u.role) == roleQ.value)
              && (bannedQ.Some? ==> u.isBanned == (bannedQ.value == "true")))
  {
    var a := GetAllUsers(users, pageQ, limitQ, roleQ, bannedQ, production);
    if a.status == 200 {
      var page := PageParam(pageQ, 1);
      var limit := PageParam(limitQ, 20);
      var matching := Filter(users, (u: User) => UserMatches(u, roleQ, bannedQ));
      var items := Window(matching, (page - 1) * limit, limit).value;
      assert a.payload.value.users == items;
      forall k | 0 <= k < |items|
        ensures items[k] in users && UserMatches(items[k], roleQ, bannedQ)
      {
        assert items[k] == matching[(page - 1) * limit + k];
      }
    }
  }

  /** Without query parameters the first page holds the first twenty
      matching users, with their total and ceil(total/20) pages. */
  lemma GetAllUsersDefaults(users: seq<User>, roleQ: Option<string>, bannedQ: Option<string>, production: bool)
    ensures var a := GetAllUsers(users, None, None, roleQ, bannedQ, production);
      var matching := Filter(users, (u: User) => UserMatches(u, roleQ, bannedQ));
      a == Answer(200, Json(UserPage(matching[..Min(20, |matching|)], |matching|, 1, CeilDiv(|matching|, 20))))
  {
    assert PageParam(None, 1) == 1 && PageParam(None, 20) == 20;
  }

  /** A page of 1 or more with a positive limit never fails, and its total
      page count is the least number of pages that covers the matching users. */
  lemma ListUsersPages(matching: seq<User>, page: int, limit: int, production: bool)
    requires page >= 1 && limit > 0
    ensures var a := ListUsers(matching, page, limit, production);
      && a.status == 200 && a.payload.Json? && a.payload.value.UserPage?
      && a.payload.value.page == page
      && (a.payload.value.totalPages - 1) * limit < |matching| <= a.payload.value.totalPages * limit
  {
    assert (page - 1) * limit >= 0;
  }

  // -------------------------------------------------------------- deleteUser

  /** `deleteUser`: marks the user deleted; the record stays. */
  function DeleteUserOutcome(users: seq<User>, id: UserId): UserOutcome {
    match FindUser(users, id)
    case None => UserOutcome(users, Says(404, "User not found"))
    case Some(i) => UserOutcome(users[i := users[i].(isDeleted := true)], Says(200, "User soft-deleted"))
  }

  method DeleteUser(db: Database, id: UserId) returns (answer: Answer<UserView>)
    modifies db`users
    ensures UserOutcome(db.users, answer) == DeleteUserOutcome(old(db.users), id)
  {
    var found := FindUser(db.users, id);
    if found.None? {
      return Says(404, "User not found");
    }
    db.users := db.users[found.value := db.users[found.value].(isDeleted := true)];
    answer := Says(200, "User soft-deleted");
  }

  /** Deleting keeps every record and changes only the flag; afterwards the
      public profile is not found, and deleting again changes nothing. */
  lemma DeleteUserEffects(users: seq<User>, id: UserId)
    requires FindUser(users, id).Some?
    ensures var o := DeleteUserOutcome(users, id);
      var i := FindUser(users, id).value;
      && o.answer == Says(200, "User soft-deleted")
      && |o.users| == |users|
      && o.users[i] == users[i].(isDeleted := true)
      && (forall k :: 0 <= k < |users| && k != i ==> o.users[k] == users[k])
      && GetUserById(o.users, id) == Says(404, "User not found")
      && DeleteUserOutcome(o.users, id).users == o.users
  {
    var i := FindUser(users, id).value;
    FindUserAfterUpdate(users, id, users[i].(isDeleted := true));
  }

  // ---------------------------------------------------------- changeUserRole

  /** `changeUserRole`: the role is checked before the user is looked up. */
  function ChangeUserRoleOutcome(users: seq<User>, id: UserId, role: Option<string>): UserOutcome {
    if role.None? || ParseRole(role.value).None? then UserOutcome(users, Says(400, "Invalid role"))
    else
      match FindUser(users, id)
      case None => UserOutcome(users, Says(404, "User not found"))
      case Some(i) =>
        var u := users[i].(role := ParseRole(role.value).value);
        UserOutcome(users[i := u], Answer(200, Json(Updated("Role updated to " + role.value, u))))
  }

  method ChangeUserRole(db: Database, id: UserId, role: Option<string>) returns (answer: Answer<UserView>)
    modifies db`users
    ensures UserOutcome(db.users, answer) == ChangeUserRoleOutcome(old(db.users), id, role)
  {
    if role.None? || role.value !in ["user", "artisan", "admin"] {
      ParseRoleNames(role);
      return Says(400, "Invalid role");
    }
    ParseRoleNames(role);
    var found := FindUser(db.users, id);
    if found.None? {
      return Says(404, "User not found");
    }
    var u := db.users[found.value].(role := ParseRole(role.value).value);
    db.users := db.users[found.value := u];
    answer := Answer(200, Json(Updated("Role updated to " + role.value, u)));
  }

  /** The allowed roles are exactly the names `ParseRole` accepts. */
  lemma ParseRoleNames(role: Option<string>)
    ensures role.Some? ==> (ParseRole(role.value).Some? <==> role.value in ["user", "artisan", "admin"])
  {
  }

  /** A role outside user, artisan and admin is refused with 400 whoever is
      named, and nothing changes; an allowed role is stored as given and is
      the only field that changes. */
  lemma ChangeUserRoleEffects(users: seq<User>, id: UserId, role: Option<string>)
    ensures var o := ChangeUserRoleOutcome(users, id, role);
      && (role.None? || role.value !in ["user", "artisan", "admin"] ==> o == UserOutcome(users, Says(400, "Invalid role")))
      && (o.answer.status == 200 ==>
            && role.Some? && FindUser(users, id).Some?
            && var i := FindUser(users, id).value;
               && o.users == users[i := users[i].(role := o.users[i].role)]
               && RoleName(o.users[i].role) == role.value)
  {
    ParseRoleNames(role);
    if role.Some? && ParseRole(role.value).Some? {
      ParseRoleRoundTrip(ParseRole(role.value).value, role.value);
    }
  }

  // ----------------------------------------------------------- toggleBanUser

  /** `toggleBanUser`: `isBanned` is set to the value in the body; an absent
      value is dropped from the update and reported as unbanned. */
  function ToggleBanUserOutcome(users: seq<User>, id: UserId, isBanned: Option<bool>): UserOutcome {
    match FindUser(users, id)
    case None => UserOutcome(users, Says(404, "User not found"))
    case Some(i) =>
      var u := if isBanned.Some? then users[i].(isBanned := isBanned.value) else users[i];
      var banned := isBanned.Some? && isBanned.value;
      UserOutcome(users[i := u], Says(200, "User has been " + (if banned then "banned" else "unbanned")))
  }

  method ToggleBanUser(db: Database, id: UserId, isBanned: Option<bool>) returns (answer: Answer<UserView>)
    modifies db`users
    ensures UserOutcome(db.users, answer) == ToggleBanUserOutcome(old(db.users), id, isBanned)
  {
    var found := FindUser(db.users, id);
    if found.None? {
      return Says(404, "User not found");
    }
    if isBanned.Some? {
      db.users := db.users[found.value := db.users[found.value].(isBanned := isBanned.value)];
    } else {
      db.users := db.users[found.value := db.users[found.value]];
    }
    answer := Says(200, "User has been " + (if isBanned.Some? && isBanned.value then "banned" else "unbanned"));
  }

  /** The flag becomes exactly the value supplied, whatever it was before,
      so the same request twice leaves the same state as once. */
  lemma ToggleBanUserSets(users: seq<User>, id: UserId, b: bool)
    requires FindUser(users, id).Some?
    ensures var o := ToggleBanUserOutcome(users, id, Some(b));
      var i := FindUser(users, id).value;
      && o.users == users[i := users[i].(isBanned := b)]
      && o.answer == Says(200, if b then "User has been banned" else "User has been unbanned")
      && ToggleBanUserOutcome(o.users, id, Some(b)).users == o.users
  {
    var i := FindUser(users, id).value;
    FindUserAfterUpdate(users, id, users[i].(isBanned := b));
  }

  // ------------------------------------------------------- updateUserProfile

  /** The user with a non-empty `phone` or `address` from the body in place of
      the stored one. */
  function ProfileEdited(u: User, phone: Option<string>, address: Option<string>): User {
    u.(phone := if Truthy(phone) then phone else u.phone,
       address := if Truthy(address) then address else u.address)
  }

  /** `updateUserProfile`: a falsy phone or address keeps the stored one. An
      empty stored name fails the `required` validator on save. */
  function UpdateUserProfileOutcome(users: seq<User>, me: UserId, phone: Option<string>, address: Option<string>,
                                    production: bool): UserOutcome
  {
    match FindUser(users, me)
    case None => UserOutcome(users, Says(404, "User not found"))
    case Some(i) =>
      var u := ProfileEdited(users[i], phone, address);
      if u.name == [] then UserOutcome(users, Thrown(MissingPaths(["name"]), production))
      else UserOutcome(users[i := u], Answer(200, Json(Updated("Profile updated", u))))
  }

  method UpdateUserProfile(db: Database, me: UserId, phone: Option<string>, address: Option<string>,
                           production: bool) returns (answer: Answer<UserView>)
    modifies db`users
    ensures UserOutcome(db.users, answer) == UpdateUserProfileOutcome(old(db.users), me, phone, address, production)
  {
    var users := db.users;
    var found := FindUser(users, me);
    if found.None? {
      return Says(404, "User not found");
    }
    var saved := PreSave(ProfileEdited(users[found.value], phone, address), false, false);
    if saved.name == [] {
      return Thrown(MissingPaths(["name"]), production);
    }
    db.users := users[found.value := saved];
    answer := Answer(200, Json(Updated("Profile updated", saved)));
  }

  /** A missing or empty phone or address keeps the stored one, a non-empty
      one replaces it, and nothing else about the user changes. */
  lemma UpdateUserProfileFields(users: seq<User>, me: UserId, phone: Option<string>, address: Option<string>,
                                production: bool)
    ensures var o := UpdateUserProfileOutcome(users, me, phone, address, production);
      && (o.answer.status != 200 ==> o.users == users)
      && (o.answer.status == 200 ==>
            && FindUser(users, me).Some?
            && var i := FindUser(users, me).value;
               && o.users == users[i := users[i].(phone := o.users[i].phone, address := o.users[i].address)]
               && o.users[i].phone == (if phone.Some? && phone.value != [] then phone else users[i].phone)
               && o.users[i].address == (if address.Some? && address.value != [] then address else users[i].address))
  {
    assert Thrown<UserView>(MissingPaths(["name"]), production).status != 200;
  }
}
