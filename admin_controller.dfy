/** controllers/adminController.js: approving artisans, the admin user
    listing, banning, hard and soft deletion, and the dashboard counts. */
module AdminController {
  import opened Common
  import opened Text
  import opened UserModel
  import opened Store
  import opened Answer
  import opened Paging

  datatype AdminView =
    | Approved(message: string, artisan: User)
    | AdminPage(users: seq<User>, total: nat, page: JsNum, totalPages: Option<int>)
    | BanState(message: string, userId: UserId, isBanned: bool)
    | Removed(message: string, removedId: UserId)
    | Analytics(totalUsers: nat, totalArtisans: nat, bannedUsers: nat, verifiedArtisans: nat, softDeletedUsers: nat)

  datatype AdminOutcome = AdminOutcome(users: seq<User>, answer: Answer<AdminView>)

  // --------------------------------------------------- approveArtisanProfile

  /** `approveArtisanProfile`: an artisan without a profile gets an empty
      one, and the profile is marked verified. An empty stored name fails
      the `required` validator on save. */
  function ApproveOutcome(users: seq<User>, id: UserId, production: bool): AdminOutcome {
    match FindUser(users, id)
    case None => AdminOutcome(users, Says(404, "Artisan not found"))
    case Some(i) =>
      if users[i].role != ArtisanRole then AdminOutcome(users, Says(404, "Artisan not found"))
      else
        var p := if users[i].artisanProfile.Some? then users[i].artisanProfile.value else EmptyProfile();
        var a := users[i].(artisanProfile := Some(p.(isVerified := true)));
        if a.name == [] then AdminOutcome(users, Thrown(MissingPaths(["name"]), production))
        else AdminOutcome(users[i := a], Answer(200, Json(Approved("Artisan approved and verified", a))))
  }

  method ApproveArtisanProfile(db: Database, id: UserId, production: bool) returns (answer: Answer<AdminView>)
    modifies db`users
    ensures AdminOutcome(db.users, answer) == ApproveOutcome(old(db.users), id, production)
  {
    var found := FindUser(db.users, id);
    if found.None? || db.users[found.value].role != ArtisanRole {
      return Says(404, "Artisan not found");
    }
    var artisan := db.users[found.value];
    if artisan.artisanProfile.None? {
      artisan := artisan.(artisanProfile := Some(EmptyProfile()));
    }
    artisan := artisan.(artisanProfile := Some(artisan.artisanProfile.value.(isVerified := true)));
    var saved := PreSave(artisan, false, false);
    if saved.name == [] {
      return Thrown(MissingPaths(["name"]), production);
    }
    db.users := db.users[found.value := saved];
    answer := Answer(200, Json(Approved("Artisan approved and verified", saved)));
  }

  /** Only artisans are approved; afterwards the artisan has a verified
      profile whose other fields are the old profile's, or the defaults when
      there was none, and nothing else changes. */
  lemma ApproveEffects(users: seq<User>, id: UserId, production: bool)
    ensures var o := ApproveOutcome(users, id, production);
      var i := FindUser(users, id);
      && (i.None? || users[i.value].role != ArtisanRole ==> o == AdminOutcome(users, Says(404, "Artisan not found")))
      && (o.answer.status != 200 ==> o.users == users)
      && (o.answer.status == 200 ==>
            && i.Some? && users[i.value].role == ArtisanRole
            && var before := users[i.value].artisanProfile;
               var after := (if before.Some? then before.value else EmptyProfile()).(isVerified := true);
               o.users == users[i.value := users[i.value].(artisanProfile := Some(after))])
  {
    assert Thrown<AdminView>(MissingPaths(["name"]), production).status != 200;
  }

  // ------------------------------------------------------------- getAllUsers

  /** The admin listing's filter: no deletion filter; `role` when given, and
      `isBanned` when present (`'true'` means true, anything else false). */
  predicate AdminMatches(u: User, roleQ: Option<string>, isBannedQ: Option<string>) {
    && (Truthy(roleQ) ==> RoleName(u.role) == roleQ.value)
    && (isBannedQ.Some? ==> u.isBanned == (isBannedQ.value == "true"))
  }

  /** The admin listing's window: the skip, the limit and the page. */
  datatype AdminPaging = AdminPaging(skip: int, limit: int, page: JsNum)

  /** `page` and `limit` default to 1 and 20 only when absent; otherwise
      `Number` reads them. A skip or limit that is not a number makes the
      query fail (`None`). */
  function AdminPagingOf(pageQ: Option<string>, limitQ: Option<string>): (r: Option<AdminPaging>)
    ensures r.Some? ==> r.value.page.Num? && r.value.skip == (r.value.page.n - 1) * r.value.limit
  {
    match (NumberOr(pageQ, 1), NumberOr(limitQ, 20))
    case (Num(page), Num(limit)) => Some(AdminPaging((page - 1) * limit, limit, Num(page)))
    case _ => None
  }

  /** An optional query parameter as `Number` reads it, or `d` when absent. */
  function NumberOr(q: Option<string>, d: int): JsNum {
    if q.None? then Num(d) else ToNumber(q.value)
  }

  /** The page the admin listing answers with. A limit of 0 lists
      everything and leaves the page count non-finite (`null`). */
  function AdminListing(matching: seq<User>, pageQ: Option<string>, limitQ: Option<string>, production: bool)
    : Answer<AdminView>
  {
    match AdminPagingOf(pageQ, limitQ)
    case None => Thrown(StoreFailure("skip and limit must be numbers"), production)
    case Some(pg) =>
      match Window(matching, pg.skip, pg.limit)
      case Failure(e) => Thrown(StoreFailure(e), production)
      case Success(items) =>
        Answer(200, Json(AdminPage(items, |matching|, pg.page,
                                   if pg.limit == 0 then None else Some(CeilDiv(|matching|, pg.limit)))))
  }

  /** `getAllUsers` in the admin controller. */
  function AdminGetAllUsers(users: seq<User>, pageQ: Option<string>, limitQ: Option<string>,
                            roleQ: Option<string>, isBannedQ: Option<string>, production: bool): Answer<AdminView>
  {
    AdminListing(Filter(users, (u: User) => AdminMatches(u, roleQ, isBannedQ)), pageQ, limitQ, production)
  }

  /** Soft-deleted users are listed like any other: with no filters the
      total is every stored user, and the first page is the first twenty
      in store order. */
  lemma AdminListsDeletedUsers(users: seq<User>, production: bool)
    ensures AdminGetAllUsers(users, None, None, None, None, production)
         == Answer(200, Json(AdminPage(users[..Min(20, |users|)], |users|, Num(1), Some(CeilDiv(|users|, 20)))))
  {
    var p := (u: User) => AdminMatches(u, None, None);
    AllMatch(users, p);
    assert Filter(users, p) == users;
  }

  /** A filter every element passes keeps the whole sequence. */
  lemma {:induction false} AllMatch(s: seq<User>, p: User -> bool)
    requires forall u :: p(u)
    ensures Filter(s, p) == s
  {
    if s != [] {
      AllMatch(s[1..], p);
      assert s == [s[0]] + s[1..];
    }
  }

  /** A listed page holds only matching users and reports how many match. */
  lemma AdminListingWindow(matching: seq<User>, pageQ: Option<string>, limitQ: Option<string>, production: bool)
    ensures var a := AdminListing(matching, pageQ, limitQ, production);
      a.status == 200 ==>
        && a.payload.Json? && a.payload.value.AdminPage?
        && a.payload.value.total == |matching|
        && forall u :: u in a.payload.value.users ==> u in matching
  {
    var a := AdminListing(matching, pageQ, limitQ, production);
    if a.status == 200 {
      var pg := AdminPagingOf(pageQ, limitQ).value;
      var w := Window(matching, pg.skip, pg.limit).value;
      assert a.payload.value.users == w;
      forall u | u in w
        ensures u in matching
      {
        var k :| 0 <= k < |w| && w[k] == u;
        assert w[k] == matching[pg.skip + k];
      }
    }
  }

  /** Every listed user matches the role and ban filters and the total counts
      every stored user that does. */
  lemma AdminListingMatches(users: seq<User>, pageQ: Option<string>, limitQ: Option<string>,
                            roleQ: Option<string>, isBannedQ: Option<string>, production: bool)
    ensures var a := AdminGetAllUsers(users, pageQ, limitQ, roleQ, isBannedQ, production);
      a.status == 200 ==>
        && a.payload.Json? && a.payload.value.AdminPage?
        && a.payload.value.total == Count(users, (u: User) => AdminMatches(u, roleQ, isBannedQ))
        && forall u :: u in a.payload.value.users ==>
             u in users && (Truthy(roleQ) ==> RoleName(u.role) == roleQ.value)
             && (isBannedQ.Some? ==> u.isBanned == (isBannedQ.value == "true"))
  {
    var p := (u: User) => AdminMatches(u, roleQ, isBannedQ);
    var matching := Filter(users, p);
    AdminListingWindow(matching, pageQ, limitQ, production);
    FilterMembers(users, p);
  }

  // ------------------------------------------------------------------ banUser

  /** `banUser`: flips the flag. */
  function BanOutcome(users: seq<User>, id: UserId, production: bool): AdminOutcome {
    match FindUser(users, id)
    case None => AdminOutcome(users, Says(404, "User not found"))
    case Some(i) =>
      var u := users[i].(isBanned := !users[i].isBanned);
      if u.name == [] then AdminOutcome(users, Thrown(MissingPaths(["name"]), production))
      else AdminOutcome(users[i := u], Answer(200, Json(BanState(
        "User " + (if u.isBanned then "banned" else "unbanned") + " successfully", id, u.isBanned))))
  }

  method BanUser(db: Database, id: UserId, production: bool) returns (answer: Answer<AdminView>)
    modifies db`users
    ensures AdminOutcome(db.users, answer) == BanOutcome(old(db.users), id, production)
  {
    var found := FindUser(db.users, id);
    if found.None? {
      return Says(404, "User not found");
    }
    var user := db.users[found.value];
    user := user.(isBanned := !user.isBanned);
    var saved := PreSave(user, false, false);
    if saved.name == [] {
      return Thrown(MissingPaths(["name"]), production);
    }
    db.users := db.users[found.value := saved];
    var message := "User " + (if saved.isBanned then "banned" else "unbanned") + " successfully";
    answer := Answer(200, Json(BanState(message, saved.id, saved.isBanned)));
  }

  /** Banning flips only the flag of the named user, and doing it twice
      restores every record. */
  lemma BanTwiceRestores(users: seq<User>, id: UserId, production: bool)
    requires BanOutcome(users, id, production).answer.status == 200
    ensures var o := BanOutcome(users, id, production);
      var i := FindUser(users, id).value;
      && o.users == users[i := users[i].(isBanned := !users[i].isBanned)]
      && o.answer.payload.value.isBanned == !users[i].isBanned
      && BanOutcome(o.users, id, production).answer.status == 200
      && BanOutcome(o.users, id, production).users == users
  {
    var o := BanOutcome(users, id, production);
    assert Thrown<AdminView>(MissingPaths(["name"]), production).status != 200;
    var i := FindUser(users, id).value;
    var u := users[i].(isBanned := !users[i].isBanned);
    FindUserAfterUpdate(users, id, u);
    assert o.users[i := u.(isBanned := !u.isBanned)] == users;
  }

  // -------------------------------------------------------------- deleteUser

  /** `deleteUser`: `hard === 'true'` removes the record; anything else marks
      it deleted and saves it. */
  function AdminDeleteOutcome(users: seq<User>, id: UserId, hard: Option<string>, production: bool): AdminOutcome {
    match FindUser(users, id)
    case None => AdminOutcome(users, Says(404, "User not found"))
    case Some(i) =>
      if hard == Some("true") then
        AdminOutcome(users[..i] + users[i + 1..], Answer(200, Json(Removed("User permanently deleted", id))))
      else
        var u := users[i].(isDeleted := true);
        if u.name == [] then AdminOutcome(users, Thrown(MissingPaths(["name"]), production))
        else AdminOutcome(users[i := u], Answer(200, Json(Removed("User soft-deleted (marked inactive)", id))))
  }

  method AdminDeleteUser(db: Database, id: UserId, hard: Option<string>, production: bool)
    returns (answer: Answer<AdminView>)
    modifies db`users
    ensures AdminOutcome(db.users, answer) == AdminDeleteOutcome(old(db.users), id, hard, production)
  {
    var hardDelete := hard.Some? && hard.value == "true";
    var found := FindUser(db.users, id);
    if found.None? {
      return Says(404, "User not found");
    }
    var i := found.value;
    if hardDelete {
      db.users := db.users[..i] + db.users[i + 1..];
      return Answer(200, Json(Removed("User permanently deleted", id)));
    }
    var user := db.users[i].(isDeleted := true);
    var saved := PreSave(user, false, false);
    if saved.name == [] {
      return Thrown(MissingPaths(["name"]), production);
    }
    db.users := db.users[i := saved];
    answer := Answer(200, Json(Removed("User soft-deleted (marked inactive)", id)));
  }

  /** A hard delete removes exactly the named record and keeps the others
      in order. */
  lemma AdminHardDelete(users: seq<User>, id: UserId, production: bool)
    requires FindUser(users, id).Some?
    ensures var o := AdminDeleteOutcome(users, id, Some("true"), production);
      var i := FindUser(users, id).value;
      && o.answer == Answer(200, Json(Removed("User permanently deleted", id)))
      && |o.users| == |users| - 1
      && (forall k :: 0 <= k < i ==> o.users[k] == users[k])
      && (forall k :: i < k < |users| ==> o.users[k - 1] == users[k])
      && multiset(o.users) + multiset{users[i]} == multiset(users)
  {
    var i := FindUser(users, id).value;
    assert users == users[..i] + [users[i]] + users[i + 1..];
  }

  /** A missing user is answered 404; any value of `hard` but 'true' keeps
      every record and only sets the deletion flag. */
  lemma AdminSoftDelete(users: seq<User>, id: UserId, hard: Option<string>, production: bool)
    requires hard != Some("true")
    ensures var o := AdminDeleteOutcome(users, id, hard, production);
      var i := FindUser(users, id);
      && (i.None? ==> o == AdminOutcome(users, Says(404, "User not found")))
      && (o.answer.status != 200 ==> o.users == users)
      && (o.answer.status == 200 ==>
            && i.Some? && o.users == users[i.value := users[i.value].(isDeleted := true)]
            && o.answer.payload == Json(Removed("User soft-deleted (marked inactive)", id)))
  {
    assert Thrown<AdminView>(MissingPaths(["name"]), production).status != 200;
  }

  // ------------------------------------------------------- getAdminAnalytics

  predicate IsArtisan(u: User) { u.role == ArtisanRole }
  predicate IsVerifiedArtisan(u: User) {
    u.role == ArtisanRole && u.artisanProfile.Some? && u.artisanProfile.value.isVerified
  }

  /** `getAdminAnalytics`: five `countDocuments` queries. */
  function AdminAnalytics(users: seq<User>): AdminView {
    Analytics(|users|, Count(users, IsArtisan), Count(users, (u: User) => u.isBanned),
              Count(users, IsVerifiedArtisan), Count(users, (u: User) => u.isDeleted))
  }

  /** Verified artisans are artisans and every count is at most the number
      of users. */
  lemma AnalyticsBounds(users: seq<User>)
    ensures var a := AdminAnalytics(users);
      && a.verifiedArtisans <= a.totalArtisans <= a.totalUsers
      && a.bannedUsers <= a.totalUsers
      && a.softDeletedUsers <= a.totalUsers
  {
    CountMonotone(users, IsVerifiedArtisan, IsArtisan);
  }
}
