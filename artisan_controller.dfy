/** controllers/artisanController.js: the public artisan directory, a single
    artisan's profile, the artisan's own profile update and the
    availability switch. */
module ArtisanController {
  import opened Common
  import opened Text
  import opened UserModel
  import opened LocationModel
  import opened Store
  import opened Answer
  import opened Paging

  datatype ArtisanView =
    | Directory(artisans: seq<User>, total: int, page: JsNum, totalPages: Option<int>)
    | ArtisanDoc(artisan: User)
    | Availability(available: bool, message: string)

  datatype ArtisanOutcome = ArtisanOutcome(users: seq<User>, answer: Answer<ArtisanView>)

  // ------------------------------------------------------------ lookups

  /** `Location.findOne({ name: /^<name>$/i })` with the name read as plain
      text: the first location whose name equals it ignoring case. */
  function FindLocationLike(locations: seq<Location>, name: string): (r: Option<nat>)
    ensures r.Some? ==> r.value < |locations| && ToLower(locations[r.value].name) == ToLower(name)
    ensures r.None? <==> forall j :: 0 <= j < |locations| ==> ToLower(locations[j].name) != ToLower(name)
  {
    FindFirst(locations, (l: Location) => ToLower(l.name) == ToLower(name))
  }

  // -------------------------------------------------- getArtisanDirectory

  /** The query string of the directory; every parameter may be absent. */
  datatype DirectoryQuery = DirectoryQuery(
    skill: Option<string>, location: Option<string>, category: Option<string>,
    page: Option<string>, limit: Option<string>, sortBy: Option<string>,
    minRating: Option<string>, available: Option<string>)

  /** The filter object the handler builds, `role: 'artisan'` being implied.
      `location` holds the id of the location the name resolved to. */
  datatype DirectoryFilter = DirectoryFilter(
    available: Option<bool>, minRating: Option<JsNum>, skill: Option<string>,
    category: Option<string>, location: Option<string>)

  /** The filter, or the message of the 400 answer for an unknown location. */
  function BuildFilter(locations: seq<Location>, q: DirectoryQuery): Result<DirectoryFilter, string> {
    var available := if q.available.Some? then Some(q.available.value == "true") else None;
    var minRating := if Truthy(q.minRating) then Some(ToNumber(q.minRating.value)) else None;
    var skill := if Truthy(q.skill) then q.skill else None;
    var category := if Truthy(q.category) then q.category else None;
    if !Truthy(q.location) then Success(DirectoryFilter(available, minRating, skill, category, None))
    else match FindLocationLike(locations, q.location.value)
      case None => Failure("Invalid location specified")
      case Some(j) => Success(DirectoryFilter(available, minRating, skill, category, Some(locations[j].id)))
  }

  /** Whether a stored user satisfies the filter. A condition on a profile
      field fails for a user without a profile; `$gte` against NaN matches
      no number. */
  predicate Admits(f: DirectoryFilter, u: User) {
    && u.role == ArtisanRole
    && (f.available.Some? ==> u.artisanProfile.Some? && u.artisanProfile.value.available == f.available.value)
    && (f.minRating.Some? ==>
          f.minRating.value.Num? && u.rating.Some? && u.rating.value >= f.minRating.value.n as real)
    && (f.skill.Some? ==>
          && u.artisanProfile.Some?
          && exists k :: 0 <= k < |u.artisanProfile.value.skills|
               && ContainsIgnoringCase(u.artisanProfile.value.skills[k], f.skill.value))
    && (f.category.Some? ==>
          && u.artisanProfile.Some? && u.artisanProfile.value.category.Some?
          && ContainsIgnoringCase(u.artisanProfile.value.category.value, f.category.value))
    && (f.location.Some? ==> u.artisanProfile.Some? && u.artisanProfile.value.location == f.location)
  }

  datatype SortKey = ByRating | ByExperience | ByNewest

  /** `sortBy`: rating or experience, otherwise newest first. */
  function SortOption(sortBy: Option<string>): SortKey {
    if sortBy == Some("rating") then ByRating
    else if sortBy == Some("experience") then ByExperience
    else ByNewest
  }

  /** The field a descending sort orders by. */
  function Rank(key: SortKey): User -> Option<real> {
    match key
    case ByRating => (u: User) => u.rating
    case ByExperience => (u: User) =>
      if u.artisanProfile.Some? && u.artisanProfile.value.yearsOfExperience.Some?
      then Some(u.artisanProfile.value.yearsOfExperience.value as real) else None
    case ByNewest => (u: User) => None
  }

  /** The matching users in the order of the sort option. */
  function Ordered(matching: seq<User>, key: SortKey): (r: seq<User>)
    ensures |r| == |matching|
    ensures forall k :: 0 <= k < |r| ==> r[k] in matching
    ensures key != ByNewest ==> SortedDesc(r, Rank(key))
  {
    if key == ByNewest then NewestFirst(matching)
    else
      var r := SortDesc(matching, Rank(key));
      assert |r| == |multiset(r)| == |multiset(matching)| == |matching|;
      forall k | 0 <= k < |r|
        ensures r[k] in matching
      {
        assert r[k] in multiset(r);
      }
      r
  }

  /** The numbers the directory pages with: the skip and the limit given to
      the query, the page it reports and the divisor of the page count. */
  datatype DirectoryPaging = DirectoryPaging(skip: int, limit: int, page: JsNum, perPage: int)

  /** `page` and `limit` keep their defaults 1 and 20 only when absent;
      `page - 1` and `total / limit` coerce them with `Number`, `.limit` and
      the reported page use `parseInt`. A skip or limit that is not a number
      makes the query fail (`None`). */
  function PagingOf(q: DirectoryQuery): Option<DirectoryPaging> {
    var pageV := if q.page.None? then Num(1) else ToNumber(q.page.value);
    var limitV := if q.limit.None? then Num(20) else ToNumber(q.limit.value);
    var limitN := if q.limit.None? then Num(20) else ParseInt(q.limit.value);
    if pageV.NaN? || limitV.NaN? || limitN.NaN? then None
    else Some(DirectoryPaging((pageV.n - 1) * limitV.n, limitN.n,
                              if q.page.None? then Num(1) else ParseInt(q.page.value), limitV.n))
  }

  /** The page of the matching users the directory answers with. */
  function ListDirectory(matching: seq<User>, q: DirectoryQuery, production: bool): Answer<ArtisanView> {
    match PagingOf(q)
    case None => Thrown(StoreFailure("skip and limit must be numbers"), production)
    case Some(pg) =>
      match Window(Ordered(matching, SortOption(q.sortBy)), pg.skip, pg.limit)
      case Failure(e) => Thrown(StoreFailure(e), production)
      case Success(items) =>
        Answer(200, Json(Directory(items, |matching|, pg.page,
                                   if pg.perPage == 0 then None else Some(CeilDiv(|matching|, pg.perPage)))))
  }

  /** `getArtisanDirectory`. */
  function ArtisanDirectory(users: seq<User>, locations: seq<Location>, q: DirectoryQuery, production: bool)
    : Answer<ArtisanView>
  {
    match BuildFilter(locations, q)
    case Failure(m) => Says(400, m)
    case Success(f) => ListDirectory(Filter(users, (u: User) => Admits(f, u)), q, production)
  }

  /** A listed page is a window of the ordered matching users: every entry
      is one of them, the total counts them all, and under a rating or
      experience sort the page is in descending order of that field. */
  lemma ListedPage(matching: seq<User>, q: DirectoryQuery, production: bool)
    ensures var a := ListDirectory(matching, q, production);
      a.status == 200 ==>
        && a.payload.Json? && a.payload.value.Directory?
        && a.payload.value.total == |matching|
        && (forall k :: 0 <= k < |a.payload.value.artisans| ==> a.payload.value.artisans[k] in matching)
        && (SortOption(q.sortBy) != ByNewest ==> SortedDesc(a.payload.value.artisans, Rank(SortOption(q.sortBy))))
  {
    var a := ListDirectory(matching, q, production);
    if a.status == 200 {
      var pg := PagingOf(q).value;
      var ordered := Ordered(matching, SortOption(q.sortBy));
      var w := Window(ordered, pg.skip, pg.limit);
      assert w.Success?;
      var items := w.value;
      assert a.payload.value.artisans == items;
      forall k | 0 <= k < |items|
        ensures items[k] in matching
      {
        assert items[k] == ordered[pg.skip + k];
      }
      if SortOption(q.sortBy) != ByNewest {
        WindowKeepsOrder(ordered, pg.skip, pg.limit, Rank(SortOption(q.sortBy)));
      }
    }
  }

  /** Every listed user is a stored artisan satisfying the filter, and the
      total counts all such users. A present `available` lists only artisans
      whose availability is `available == 'true'`. */
  lemma DirectoryListsOnlyMatching(users: seq<User>, locations: seq<Location>, q: DirectoryQuery, production: bool)
    ensures var a := ArtisanDirectory(users, locations, q, production);
      a.status == 200 ==>
        && BuildFilter(locations, q).Success?
        && a.payload.Json? && a.payload.value.Directory?
        && a.payload.value.total == Count(users, (u: User) => Admits(BuildFilter(locations, q).value, u))
        && forall k :: 0 <= k < |a.payload.value.artisans| ==>
             && a.payload.value.artisans[k] in users
             && a.payload.value.artisans[k].role == ArtisanRole
             && Admits(BuildFilter(locations, q).value, a.payload.value.artisans[k])
             && (q.available.Some? ==>
                   a.payload.value.artisans[k].artisanProfile.Some?
                   && a.payload.value.artisans[k].artisanProfile.value.available == (q.available.value == "true"))
  {
    var a := ArtisanDirectory(users, locations, q, production);
    if a.status == 200 {
      var f := BuildFilter(locations, q).value;
      var matching := Filter(users, (u: User) => Admits(f, u));
      assert a == ListDirectory(matching, q, production);
      ListedPage(matching, q, production);
      forall k | 0 <= k < |a.payload.value.artisans|
        ensures a.payload.value.artisans[k] in users && Admits(f, a.payload.value.artisans[k])
      {
        var x := a.payload.value.artisans[k];
        assert x in matching;
        var m :| 0 <= m < |matching| && matching[m] == x;
      }
    }
  }

  /** A location name that matches no stored location is refused with 400. */
  lemma DirectoryUnknownLocation(users: seq<User>, locations: seq<Location>, q: DirectoryQuery, production: bool)
    requires Truthy(q.location)
    ensures FindLocationLike(locations, q.location.value).None? <==>
      ArtisanDirectory(users, locations, q, production) == Says(400, "Invalid location specified")
  {
    assert Thrown<ArtisanView>(StoreFailure("skip and limit must be numbers"), production).payload.Fault?;
  }

  /** With `sortBy=rating` or `sortBy=experience` the page is in descending
      order of that field, artisans without it last. */
  lemma DirectorySorted(users: seq<User>, locations: seq<Location>, q: DirectoryQuery, production: bool)
    requires SortOption(q.sortBy) != ByNewest
    ensures var a := ArtisanDirectory(users, locations, q, production);
      a.status == 200 ==>
        a.payload.Json? && a.payload.value.Directory? && SortedDesc(a.payload.value.artisans, Rank(SortOption(q.sortBy)))
  {
    var a := ArtisanDirectory(users, locations, q, production);
    if a.status == 200 {
      var f := BuildFilter(locations, q).value;
      ListedPage(Filter(users, (u: User) => Admits(f, u)), q, production);
    }
  }

  /** Without paging parameters the first twenty matching artisans are
      listed, as page 1, with `ceil(total / 20)` pages. */
  lemma DirectoryDefaults(users: seq<User>, locations: seq<Location>, q: DirectoryQuery, production: bool)
    requires q.page.None? && q.limit.None? && BuildFilter(locations, q).Success?
    ensures var a := ArtisanDirectory(users, locations, q, production);
      var matching := Filter(users, (u: User) => Admits(BuildFilter(locations, q).value, u));
      var ordered := Ordered(matching, SortOption(q.sortBy));
      a == Answer(200, Json(Directory(ordered[..Min(20, |matching|)], |matching|, Num(1),
                                      Some(CeilDiv(|matching|, 20)))))
  {
    var f := BuildFilter(locations, q).value;
    var matching := Filter(users, (u: User) => Admits(f, u));
    var ordered := Ordered(matching, SortOption(q.sortBy));
    var w := Window(ordered, 0, 20);
    assert w.Success? && w.value == ordered[..Min(20, |matching|)];
  }

  // -------------------------------------------------------- getArtisanById

  /** `User.findOne({ _id: id, role: 'artisan' })`. */
  function FindArtisan(users: seq<User>, id: UserId): (r: Option<nat>)
    ensures r.Some? ==> r.value < |users| && users[r.value].id == id && users[r.value].role == ArtisanRole
    ensures r.None? <==> forall j :: 0 <= j < |users| ==> !(users[j].id == id && users[j].role == ArtisanRole)
  {
    FindFirst(users, (u: User) => u.id == id && u.role == ArtisanRole)
  }

  /** `getArtisanById`: only a user with role artisan is shown. */
  function ArtisanById(users: seq<User>, id: UserId): (a: Answer<ArtisanView>)
    ensures a.status == 200 <==> exists j :: 0 <= j < |users| && users[j].id == id && users[j].role == ArtisanRole
    ensures a.status != 200 ==> a == Says(404, "Artisan not found")
    ensures a.status == 200 ==>
      a.payload.Json? && a.payload.value.ArtisanDoc?
      && a.payload.value.artisan.id == id && a.payload.value.artisan.role == ArtisanRole
  {
    match FindArtisan(users, id)
    case None => Says(404, "Artisan not found")
    case Some(j) => Answer(200, Json(ArtisanDoc(users[j])))
  }

  // --------------------------------------------------- updateArtisanProfile

  /** The request body of a profile update, each field already of the type
      its path has; `None` is a field the body leaves undefined. */
  datatype ProfileUpdates = ProfileUpdates(
    name: Option<string>, avatar: Option<string>, phone: Option<string>,
    bio: Option<string>, skills: Option<seq<string>>, yearsOfExperience: Option<int>,
    available: Option<bool>, address: Option<string>, location: Option<string>)

  const TopLevelFields: seq<string> := ["name", "avatar", "phone"]
  const ProfileFields: seq<string> := ["bio", "skills", "yearsOfExperience", "available", "address"]

  /** `user[field] = updates[field]` when that update is defined. */
  function CopyTopField(updates: ProfileUpdates): (User, string) -> User {
    (u: User, field: string) =>
      if field == "name" && updates.name.Some? then u.(name := updates.name.value)
      else if field == "avatar" && updates.avatar.Some? then u.(avatar := updates.avatar.value)
      else if field == "phone" && updates.phone.Some? then u.(phone := updates.phone)
      else u
  }

  /** `user.artisanProfile[field] = updates[field]` when that update is defined. */
  function CopyProfileField(updates: ProfileUpdates): (ArtisanProfile, string) -> ArtisanProfile {
    (p: ArtisanProfile, field: string) =>
      if field == "bio" && updates.bio.Some? then p.(bio := updates.bio)
      else if field == "skills" && updates.skills.Some? then p.(skills := updates.skills.value)
      else if field == "yearsOfExperience" && updates.yearsOfExperience.Some? then
        p.(yearsOfExperience := updates.yearsOfExperience)
      else if field == "available" && updates.available.Some? then p.(available := updates.available.value)
      else if field == "address" && updates.address.Some? then p.(address := updates.address)
      else p
  }

  /** What the top-level copy makes of a user: name, avatar and phone are
      the body's where it defines them. */
  function TopCopied(u: User, updates: ProfileUpdates): User {
    u.(name := updates.name.GetOr(u.name), avatar := updates.avatar.GetOr(u.avatar),
       phone := if updates.phone.Some? then updates.phone else u.phone)
  }

  /** What the profile copy makes of a profile: the five listed fields are
      the body's where it defines them. */
  function ProfileCopied(p: ArtisanProfile, updates: ProfileUpdates): ArtisanProfile {
    p.(bio := if updates.bio.Some? then updates.bio else p.bio,
       skills := updates.skills.GetOr(p.skills),
       yearsOfExperience := if updates.yearsOfExperience.Some? then updates.yearsOfExperience else p.yearsOfExperience,
       available := updates.available.GetOr(p.available),
       address := if updates.address.Some? then updates.address else p.address)
  }

  /** `topLevelFields.forEach(...)`: one assignment per listed field name,
      skipping fields the body leaves undefined. */
  method CopyTopLevel(u: User, updates: ProfileUpdates) returns (r: User)
    ensures r == TopCopied(u, updates)
  {
    r := u;
    var i := 0;
    while i < |TopLevelFields|
      invariant 0 <= i <= |TopLevelFields|
      invariant r == u.(name := r.name, avatar := r.avatar, phone := r.phone)
      invariant r.name == if i >= 1 then updates.name.GetOr(u.name) else u.name
      invariant r.avatar == if i >= 2 then updates.avatar.GetOr(u.avatar) else u.avatar
      invariant r.phone == if i >= 3 && updates.phone.Some? then updates.phone else u.phone
    {
      r := CopyTopField(updates)(r, TopLevelFields[i]);
      i := i + 1;
    }
  }

  /** `profileFields.forEach(...)`: one assignment per listed field name,
      skipping fields the body leaves undefined. */
  method CopyProfile(p: ArtisanProfile, updates: ProfileUpdates) returns (r: ArtisanProfile)
    ensures r == ProfileCopied(p, updates)
  {
    r := p;
    var k := 0;
    while k < |ProfileFields|
      invariant 0 <= k <= |ProfileFields|
      invariant r == p.(bio := r.bio, skills := r.skills, yearsOfExperience := r.yearsOfExperience,
                        available := r.available, address := r.address)
      invariant r.bio == if k >= 1 && updates.bio.Some? then updates.bio else p.bio
      invariant r.skills == if k >= 2 then updates.skills.GetOr(p.skills) else p.skills
      invariant r.yearsOfExperience
             == if k >= 3 && updates.yearsOfExperience.Some? then updates.yearsOfExperience else p.yearsOfExperience
      invariant r.available == if k >= 4 then updates.available.GetOr(p.available) else p.available
      invariant r.address == if k >= 5 && updates.address.Some? then updates.address else p.address
    {
      r := CopyProfileField(updates)(r, ProfileFields[k]);
      k := k + 1;
    }
  }

  /** `^0\d{10}$`. */
  predicate PhoneValid(phone: string) {
    |phone| == 11 && phone[0] == '0' && forall k :: 1 <= k < 11 ==> IsDigit(phone[k])
  }

  /** The location step: a truthy location name must resolve; it then sets
      the profile's location and, for a two-number point, its coordinates. */
  function Relocate(p: ArtisanProfile, locations: seq<Location>, location: Option<string>)
    : Result<ArtisanProfile, string>
  {
    if !Truthy(location) then Success(p)
    else match FindLocationLike(locations, location.value)
      case None => Failure("Invalid location. Please select a valid city.")
      case Some(j) =>
        var moved := p.(location := Some(locations[j].id));
        Success(if |locations[j].coordinates| == 2 then moved.(coordinates := locations[j].coordinates) else moved)
  }

  /** The edited user: the top-level copy, the profile (created with its
      defaults when missing) with the profile copy, then the location step. */
  function Edited(u: User, locations: seq<Location>, updates: ProfileUpdates): Result<User, string> {
    var user := TopCopied(u, updates);
    var profile := ProfileCopied(user.artisanProfile.GetOr(EmptyProfile()), updates);
    match Relocate(profile, locations, updates.location)
    case Failure(m) => Failure(m)
    case Success(p) => Success(user.(artisanProfile := Some(p)))
  }

  /** The outcome of `updateArtisanProfile`. Saving runs the schema's
      required check, so an empty name is thrown as a validation error. */
  function UpdateProfileOutcome(users: seq<User>, locations: seq<Location>, requester: UserId,
                                updates: ProfileUpdates, production: bool): ArtisanOutcome
  {
    var i := FindUser(users, requester);
    if i.None? || users[i.value].role != ArtisanRole then
      ArtisanOutcome(users, Says(403, "Only artisans can update profile."))
    else if Truthy(updates.phone) && !PhoneValid(updates.phone.value) then
      ArtisanOutcome(users, Says(400, "Phone number must be 11 digits and start with 0"))
    else if updates.skills.Some? && |updates.skills.value| > 5 then
      ArtisanOutcome(users, Says(400, "You can only list up to 5 skills."))
    else match Edited(users[i.value], locations, updates)
      case Failure(m) => ArtisanOutcome(users, Says(400, m))
      case Success(saved) =>
        if saved.name == [] then ArtisanOutcome(users, Thrown(MissingPaths(["name"]), production))
        else ArtisanOutcome(users[i.value := saved], Answer(200, Json(ArtisanDoc(saved))))
  }

  /** The edit itself: the top-level copy, the profile copy over the stored
      profile (or a fresh one), then the location lookup. */
  method EditProfile(u: User, locations: seq<Location>, updates: ProfileUpdates) returns (r: Result<User, string>)
    ensures r == Edited(u, locations, updates)
  {
    var user := CopyTopLevel(u, updates);
    var profile := if user.artisanProfile.Some? then user.artisanProfile.value else EmptyProfile();
    profile := CopyProfile(profile, updates);
    if Truthy(updates.location) {
      var loc := FindLocationLike(locations, updates.location.value);
      if loc.None? {
        return Failure("Invalid location. Please select a valid city.");
      }
      profile := profile.(location := Some(locations[loc.value].id));
      if |locations[loc.value].coordinates| == 2 {
        profile := profile.(coordinates := locations[loc.value].coordinates);
      }
    }
    assert Relocate(ProfileCopied(user.artisanProfile.GetOr(EmptyProfile()), updates),
                    locations, updates.location) == Success(profile);
    r := Success(user.(artisanProfile := Some(profile)));
  }

  /** `updateArtisanProfile`. The phone and skills checks read only the body,
      so running them before the copies answers as the handler does. */
  method UpdateArtisanProfile(db: Database, requester: User, updates: ProfileUpdates, production: bool)
    returns (answer: Answer<ArtisanView>)
    modifies db`users
    ensures ArtisanOutcome(db.users, answer)
         == UpdateProfileOutcome(old(db.users), db.locations, requester.id, updates, production)
  {
    var found := FindUser(db.users, requester.id);
    if found.None? || db.users[found.value].role != ArtisanRole {
      return Says(403, "Only artisans can update profile.");
    }
    if Truthy(updates.phone) && !PhoneValid(updates.phone.value) {
      return Says(400, "Phone number must be 11 digits and start with 0");
    }
    if updates.skills.Some? && |updates.skills.value| > 5 {
      return Says(400, "You can only list up to 5 skills.");
    }
    var edited := EditProfile(db.users[found.value], db.locations, updates);
    if edited.Failure? {
      return Says(400, edited.error);
    }
    var user := edited.value;
    if user.name == [] {
      return Thrown(MissingPaths(["name"]), production);
    }
    db.users := db.users[found.value := user];
    answer := Answer(200, Json(ArtisanDoc(user)));
  }

  /** Non-artisans get 403; a bad phone, too many skills or an unknown
      location get 400; in every refused case nothing is stored. */
  lemma UpdateProfileRefusals(users: seq<User>, locations: seq<Location>, requester: UserId,
                              updates: ProfileUpdates, production: bool)
    ensures var o := UpdateProfileOutcome(users, locations, requester, updates, production);
      var i := FindUser(users, requester);
      && (o.answer.status != 200 ==> o.users == users)
      && (i.None? || users[i.value].role != ArtisanRole ==> o.answer == Says(403, "Only artisans can update profile."))
      && (i.Some? && users[i.value].role == ArtisanRole && Truthy(updates.phone) && !PhoneValid(updates.phone.value) ==>
            o.answer == Says(400, "Phone number must be 11 digits and start with 0"))
      && (i.Some? && users[i.value].role == ArtisanRole && !(Truthy(updates.phone) && !PhoneValid(updates.phone.value))
          && updates.skills.Some? && |updates.skills.value| > 5 ==>
            o.answer == Says(400, "You can only list up to 5 skills."))
  {
  }

  /** The edited user differs from the stored one only in name, avatar,
      phone and the profile; the profile (created with its defaults when
      missing) takes the five listed fields from the body and the location
      and coordinates from the resolved location, and keeps every other field. */
  lemma EditedFields(u: User, locations: seq<Location>, updates: ProfileUpdates)
    requires Edited(u, locations, updates).Success?
    ensures var e := Edited(u, locations, updates).value;
      var base := u.artisanProfile.GetOr(EmptyProfile());
      && e.artisanProfile.Some?
      && e == u.(name := updates.name.GetOr(u.name), avatar := updates.avatar.GetOr(u.avatar),
                 phone := if updates.phone.Some? then updates.phone else u.phone,
                 artisanProfile := e.artisanProfile)
      && e.artisanProfile.value
           == base.(bio := if updates.bio.Some? then updates.bio else base.bio,
                    skills := updates.skills.GetOr(base.skills),
                    yearsOfExperience := if updates.yearsOfExperience.Some? then updates.yearsOfExperience
                                         else base.yearsOfExperience,
                    available := updates.available.GetOr(base.available),
                    address := if updates.address.Some? then updates.address else base.address,
                    location := e.artisanProfile.value.location,
                    coordinates := e.artisanProfile.value.coordinates)
      && (Truthy(updates.location) ==>
            exists j :: 0 <= j < |locations| && ToLower(locations[j].name) == ToLower(updates.location.value)
                        && e.artisanProfile.value.location == Some(locations[j].id))
      && (!Truthy(updates.location) ==>
            e.artisanProfile.value.location == base.location && e.artisanProfile.value.coordinates == base.coordinates)
  {
    if Truthy(updates.location) {
      var j := FindLocationLike(locations, updates.location.value).value;
      assert Edited(u, locations, updates).value.artisanProfile.value.location == Some(locations[j].id);
    }
  }

  /** A stored update replaces the requester's record by the edited one and
      leaves every other record as it was. */
  lemma UpdateProfileStores(users: seq<User>, locations: seq<Location>, requester: UserId,
                            updates: ProfileUpdates, production: bool)
    requires UpdateProfileOutcome(users, locations, requester, updates, production).answer.status == 200
    ensures FindUser(users, requester).Some?
    ensures var i := FindUser(users, requester).value;
      && users[i].role == ArtisanRole
      && Edited(users[i], locations, updates).Success?
      && Edited(users[i], locations, updates).value.name != []
      && UpdateProfileOutcome(users, locations, requester, updates, production).users
           == users[i := Edited(users[i], locations, updates).value]
  {
    assert Thrown<ArtisanView>(MissingPaths(["name"]), production).status != 200;
  }

  /** Sending the same update again is accepted and stores nothing new. */
  lemma UpdateProfileIdempotent(users: seq<User>, locations: seq<Location>, requester: UserId,
                                updates: ProfileUpdates, production: bool)
    requires UpdateProfileOutcome(users, locations, requester, updates, production).answer.status == 200
    ensures var o := UpdateProfileOutcome(users, locations, requester, updates, production);
      UpdateProfileOutcome(o.users, locations, requester, updates, production) == o
  {
    UpdateProfileStores(users, locations, requester, updates, production);
    var o := UpdateProfileOutcome(users, locations, requester, updates, production);
    var i := FindUser(users, requester).value;
    var saved := Edited(users[i], locations, updates).value;
    assert o.users == users[i := saved];
    EditedIdempotent(users[i], locations, updates);
    FindUserAfterUpdate(users, requester, saved);
    assert o.users[i := saved] == o.users;
  }

  /** Editing an edited user with the same body changes nothing. */
  lemma EditedIdempotent(u: User, locations: seq<Location>, updates: ProfileUpdates)
    requires Edited(u, locations, updates).Success?
    ensures var saved := Edited(u, locations, updates).value;
      saved.id == u.id && saved.role == u.role && Edited(saved, locations, updates) == Success(saved)
  {
    var saved := Edited(u, locations, updates).value;
    var p := saved.artisanProfile.value;
    assert TopCopied(saved, updates) == saved;
    assert ProfileCopied(p, updates) == p;
    RelocateIdempotent(ProfileCopied(TopCopied(u, updates).artisanProfile.GetOr(EmptyProfile()), updates),
                       locations, updates.location);
  }

  /** Relocating a relocated profile to the same place changes nothing. */
  lemma RelocateIdempotent(p: ArtisanProfile, locations: seq<Location>, location: Option<string>)
    requires Relocate(p, locations, location).Success?
    ensures var q := Relocate(p, locations, location).value;
      Relocate(q, locations, location) == Success(q)
  {
    if Truthy(location) {
      var j := FindLocationLike(locations, location.value).value;
      var moved := p.(location := Some(locations[j].id));
      var q := Relocate(p, locations, location).value;
      if |locations[j].coordinates| == 2 {
        assert q == moved.(coordinates := locations[j].coordinates);
        assert q.(location := Some(locations[j].id)).(coordinates := locations[j].coordinates) == q;
      } else {
        assert q == moved;
        assert q.(location := Some(locations[j].id)) == q;
      }
    }
  }

  // ----------------------------------------------------- toggleAvailability

  function BoolText(b: bool): string {
    if b then "true" else "false"
  }

  /** The outcome of `toggleAvailability`; the save's required check throws
      for an empty stored name. */
  function ToggleAvailabilityOutcome(users: seq<User>, requester: UserId, production: bool): ArtisanOutcome {
    var i := FindUser(users, requester);
    if i.None? || users[i.value].role != ArtisanRole then
      ArtisanOutcome(users, Says(403, "Only artisans can toggle availability"))
    else if users[i.value].artisanProfile.None? then ArtisanOutcome(users, Says(400, "Artisan profile not found"))
    else if users[i.value].name == [] then ArtisanOutcome(users, Thrown(MissingPaths(["name"]), production))
    else
      var p := users[i.value].artisanProfile.value;
      var flipped := p.(available := !p.available);
      ArtisanOutcome(users[i.value := users[i.value].(artisanProfile := Some(flipped))],
                     Answer(200, Json(Availability(flipped.available,
                                                   "Availability updated to " + BoolText(flipped.available)))))
  }

  method ToggleAvailability(db: Database, requester: User, production: bool) returns (answer: Answer<ArtisanView>)
    modifies db`users
    ensures ArtisanOutcome(db.users, answer) == ToggleAvailabilityOutcome(old(db.users), requester.id, production)
  {
    var found := FindUser(db.users, requester.id);
    if found.None? || db.users[found.value].role != ArtisanRole {
      return Says(403, "Only artisans can toggle availability");
    }
    var user := db.users[found.value];
    if user.artisanProfile.None? {
      return Says(400, "Artisan profile not found");
    }
    var profile := user.artisanProfile.value;
    profile := profile.(available := !profile.available);
    user := user.(artisanProfile := Some(profile));
    if user.name == [] {
      return Thrown(MissingPaths(["name"]), production);
    }
    db.users := db.users[found.value := user];
    answer := Answer(200, Json(Availability(profile.available, "Availability updated to " + BoolText(profile.available))));
  }

  /** The switch negates `available` of the requester's profile and nothing
      else, reports the new value, and switching twice restores the
      collection. An empty stored name makes the save throw a validation
      error (400) and nothing changes. */
  lemma ToggleAvailabilityTwice(users: seq<User>, requester: UserId, production: bool)
    ensures var o := ToggleAvailabilityOutcome(users, requester, production);
      var i := FindUser(users, requester);
      && (o.answer.status == 200 <==>
            i.Some? && users[i.value].role == ArtisanRole && users[i.value].artisanProfile.Some? && users[i.value].name != [])
      && (i.Some? && users[i.value].role == ArtisanRole && users[i.value].artisanProfile.Some? && users[i.value].name == [] ==>
            o.answer == Thrown(MissingPaths(["name"]), production) && o.answer.status == 400)
      && (o.answer.status != 200 ==> o.users == users)
      && (o.answer.status == 200 ==>
            && o.users == users[i.value := users[i.value].(artisanProfile := Some(
                 users[i.value].artisanProfile.value.(available := !users[i.value].artisanProfile.value.available)))]
            && o.answer.payload.value.available == !users[i.value].artisanProfile.value.available
            && ToggleAvailabilityOutcome(o.users, requester, production).users == users)
  {
    var o := ToggleAvailabilityOutcome(users, requester, production);
    assert Thrown<ArtisanView>(MissingPaths(["name"]), production).status == 400;
    var f := FindUser(users, requester);
    if o.answer.status == 200 {
      var i := f.value;
      var u := o.users[i];
      assert u.id == requester;
      forall j | 0 <= j < i
        ensures o.users[j] == users[j]
      {
      }
      assert FindUser(o.users, requester) == f;
      assert o.users[i := users[i]] == users;
    }
  }
}
