/** controllers/featureController.js: featuring an artisan for a while,
    switching the feature on and off, and the paged list of artisans
    featured now. The clock is the parameter `now`, in milliseconds. */
module FeatureController {
  import opened Common
  import opened Text
  import opened UserModel
  import opened Store
  import opened Answer
  import opened Paging

  datatype FeatureView =
    | Featured(message: string, featuredUntil: Option<JsNum>, isCurrentlyFeatured: bool)
    | FeaturedPage(artisans: seq<User>, count: int, totalPages: int, page: int)

  datatype FeatureOutcome = FeatureOutcome(users: seq<User>, answer: Answer<FeatureView>)

  /** The number of days a duration names: `parseInt` of an "…d" text,
      thirty times that of an "…m" text, seven otherwise. */
  function DurationDays(duration: string): JsNum {
    if duration != [] && duration[|duration| - 1] == 'd' then ParseInt(duration)
    else if duration != [] && duration[|duration| - 1] == 'm' then
      match ParseInt(duration)
      case NaN => NaN
      case Num(n) => Num(n * 30)
    else Num(7)
  }

  /** `new Date(now + days * 24 * 60 * 60 * 1000)`: NaN days give an invalid date. */
  function DaysFrom(now: int, days: JsNum): JsNum {
    match days
    case NaN => NaN
    case Num(n) => Num(now + n * MsPerDay)
  }

  /** "Nd" is N days. */
  lemma DurationInDays(n: nat)
    ensures DurationDays(NatToDecimal(n) + "d") == Num(n)
  {
    var t := NatToDecimal(n) + "d";
    assert t[|t| - 1] == 'd';
    ParseIntOfDecimal(n, "d");
  }

  /** "Nm" is thirty days a month. */
  lemma DurationInMonths(n: nat)
    ensures DurationDays(NatToDecimal(n) + "m") == Num(30 * n)
  {
    var t := NatToDecimal(n) + "m";
    assert t[|t| - 1] == 'm';
    ParseIntOfDecimal(n, "m");
  }

  /** Any other ending is a week, and so is the default "7d". */
  lemma DurationOtherwise(other: string)
    requires other == [] || (other[|other| - 1] != 'd' && other[|other| - 1] != 'm')
    ensures DurationDays(other) == Num(7)
    ensures DurationDays("7d") == Num(7)
  {
    DurationInDays(7);
    assert NatToDecimal(7) == "7";
    assert NatToDecimal(7) + "d" == "7d";
  }

  // ---------------------------------------------------------- featureArtisan

  /** The outcome of `featureArtisan` for the artisan `id` with the
      `duration` query parameter. An artisan without a profile makes the
      assignment throw; an empty stored name makes the save throw. */
  function FeatureArtisanOutcome(users: seq<User>, id: UserId, duration: Option<string>, now: int,
                                 production: bool): FeatureOutcome
  {
    var i := FindUser(users, id);
    if i.None? || users[i.value].role != ArtisanRole then FeatureOutcome(users, Says(404, "Artisan not found"))
    else if users[i.value].artisanProfile.None? then
      FeatureOutcome(users, Thrown(UndefinedWrite("featuredUntil"), production))
    else if users[i.value].name == [] then FeatureOutcome(users, Thrown(MissingPaths(["name"]), production))
    else
      var days := DurationDays(duration.GetOr("7d"));
      var until := DaysFrom(now, days);
      var p := users[i.value].artisanProfile.value.(featuredUntil := Some(until), isCurrentlyFeatured := true);
      FeatureOutcome(users[i.value := users[i.value].(artisanProfile := Some(p))],
                     Answer(200, Json(Featured("Artisan featured for " + NumberText(days) + " days", Some(until), true))))
  }

  method FeatureArtisan(db: Database, id: UserId, duration: Option<string>, now: int, production: bool)
    returns (answer: Answer<FeatureView>)
    modifies db`users
    ensures FeatureOutcome(db.users, answer) == FeatureArtisanOutcome(old(db.users), id, duration, now, production)
  {
    var found := FindUser(db.users, id);
    if found.None? || db.users[found.value].role != ArtisanRole {
      return Says(404, "Artisan not found");
    }
    var days := DurationDays(if duration.Some? then duration.value else "7d");
    var until := DaysFrom(now, days);
    var artisan := db.users[found.value];
    if artisan.artisanProfile.None? {
      return Thrown(UndefinedWrite("featuredUntil"), production);
    }
    var profile := artisan.artisanProfile.value;
    profile := profile.(featuredUntil := Some(until));
    profile := profile.(isCurrentlyFeatured := true);
    artisan := artisan.(artisanProfile := Some(profile));
    if artisan.name == [] {
      return Thrown(MissingPaths(["name"]), production);
    }
    db.users := db.users[found.value := artisan];
    answer := Answer(200, Json(Featured("Artisan featured for " + NumberText(days) + " days", Some(until), true)));
  }

  /** A missing user or a non-artisan is answered 404; an artisan with a
      profile but an empty stored name fails the save's validation with 400;
      nothing changes unless the answer is 200. */
  lemma FeatureArtisanRefusals(users: seq<User>, id: UserId, duration: Option<string>, now: int, production: bool)
    ensures var o := FeatureArtisanOutcome(users, id, duration, now, production);
      var i := FindUser(users, id);
      && (i.None? || users[i.value].role != ArtisanRole ==> o == FeatureOutcome(users, Says(404, "Artisan not found")))
      && (i.Some? && users[i.value].role == ArtisanRole && users[i.value].artisanProfile.Some? && users[i.value].name == [] ==>
            o == FeatureOutcome(users, Thrown(MissingPaths(["name"]), production)) && o.answer.status == 400)
      && (o.answer.status != 200 ==> o.users == users)
  {
    assert Thrown<FeatureView>(UndefinedWrite("featuredUntil"), production).status != 200;
    assert Thrown<FeatureView>(MissingPaths(["name"]), production).status == 400;
  }

  /** On success the artisan's profile is featured until `now` plus the
      duration's days (an invalid date when the duration is not a number),
      and no other field or record changes. */
  lemma FeatureArtisanStores(users: seq<User>, id: UserId, duration: Option<string>, now: int, production: bool)
    requires FeatureArtisanOutcome(users, id, duration, now, production).answer.status == 200
    ensures var o := FeatureArtisanOutcome(users, id, duration, now, production);
      var i := FindUser(users, id);
      && i.Some? && users[i.value].role == ArtisanRole && users[i.value].artisanProfile.Some? && users[i.value].name != []
      && var p := users[i.value].artisanProfile.value;
         var days := DurationDays(duration.GetOr("7d"));
         && o.users == users[i.value := users[i.value].(artisanProfile := Some(
              p.(featuredUntil := Some(DaysFrom(now, days)), isCurrentlyFeatured := true)))]
         && o.answer.payload.value.message == "Artisan featured for " + NumberText(days) + " days"
  {
    assert Thrown<FeatureView>(UndefinedWrite("featuredUntil"), production).status != 200;
    assert Thrown<FeatureView>(MissingPaths(["name"]), production).status != 200;
  }

  // ---------------------------------------------------- toggleFeatureArtisan

  /** `featuredUntil && featuredUntil > new Date()`: a stored date after
      `now`; an invalid date compares false. */
  predicate FeaturedAt(p: ArtisanProfile, now: int) {
    p.featuredUntil.Some? && p.featuredUntil.value.Num? && p.featuredUntil.value.n > now
  }

  /** The profile after the switch: unfeatured when featured now, featured
      for seven days otherwise. */
  function Toggled(p: ArtisanProfile, now: int): ArtisanProfile {
    if FeaturedAt(p, now) then p.(featuredUntil := None, isCurrentlyFeatured := false)
    else p.(featuredUntil := Some(Num(now + 7 * MsPerDay)), isCurrentlyFeatured := true)
  }

  /** After the switch the flag agrees with the date; switching twice at
      the same instant restores whether the profile is featured. */
  lemma ToggledProfile(p: ArtisanProfile, now: int)
    ensures Toggled(p, now).isCurrentlyFeatured == FeaturedAt(Toggled(p, now), now) == !FeaturedAt(p, now)
    ensures Toggled(p, now) == p.(featuredUntil := Toggled(p, now).featuredUntil,
                                  isCurrentlyFeatured := Toggled(p, now).isCurrentlyFeatured)
    ensures Toggled(Toggled(p, now), now).isCurrentlyFeatured == FeaturedAt(p, now)
    ensures Toggled(Toggled(p, now), now).featuredUntil
         == (if FeaturedAt(p, now) then Some(Num(now + 604800000)) else None)
  {
  }

  /** The outcome of `toggleFeatureArtisan`. An artisan without a profile
      makes the read of `featuredUntil` throw; an empty stored name makes the
      save throw. */
  function ToggleFeatureOutcome(users: seq<User>, id: UserId, now: int, production: bool): FeatureOutcome {
    var i := FindUser(users, id);
    if i.None? || users[i.value].role != ArtisanRole then FeatureOutcome(users, Says(404, "Artisan not found"))
    else if users[i.value].artisanProfile.None? then
      FeatureOutcome(users, Thrown(UndefinedRead("featuredUntil"), production))
    else if users[i.value].name == [] then FeatureOutcome(users, Thrown(MissingPaths(["name"]), production))
    else
      var q := Toggled(users[i.value].artisanProfile.value, now);
      FeatureOutcome(users[i.value := users[i.value].(artisanProfile := Some(q))],
                     Answer(200, Json(Featured(if q.isCurrentlyFeatured then "Artisan featured for 7 days"
                                               else "Artisan unfeatured successfully",
                                               q.featuredUntil, q.isCurrentlyFeatured))))
  }

  method ToggleFeatureArtisan(db: Database, id: UserId, now: int, production: bool)
    returns (answer: Answer<FeatureView>)
    modifies db`users
    ensures FeatureOutcome(db.users, answer) == ToggleFeatureOutcome(old(db.users), id, now, production)
  {
    var users := db.users;
    var found := FindUser(users, id);
    if found.None? || users[found.value].role != ArtisanRole {
      return Says(404, "Artisan not found");
    }
    var artisan := users[found.value];
    if artisan.artisanProfile.None? {
      return Thrown(UndefinedRead("featuredUntil"), production);
    }
    var profile := artisan.artisanProfile.value;
    if FeaturedAt(profile, now) {
      profile := profile.(featuredUntil := None, isCurrentlyFeatured := false);
    } else {
      profile := profile.(featuredUntil := Some(Num(now + 7 * MsPerDay)), isCurrentlyFeatured := true);
    }
    artisan := artisan.(artisanProfile := Some(profile));
    if artisan.name == [] {
      return Thrown(MissingPaths(["name"]), production);
    }
    db.users := users[found.value := artisan];
    var message := if profile.isCurrentlyFeatured then "Artisan featured for 7 days" else "Artisan unfeatured successfully";
    answer := Answer(200, Json(Featured(message, profile.featuredUntil, profile.isCurrentlyFeatured)));
  }

  /** The switch turns the feature off exactly when the stored date is still
      ahead, and on for a week otherwise; afterwards the flag agrees with the
      date, and no other field or record changes. An empty stored name fails
      the save's validation with 400 and nothing changes. */
  lemma ToggleFeatureEffects(users: seq<User>, id: UserId, now: int, production: bool)
    ensures var o := ToggleFeatureOutcome(users, id, now, production);
      var i := FindUser(users, id);
      && (o.answer.status != 200 ==> o.users == users)
      && (i.Some? && users[i.value].role == ArtisanRole && users[i.value].artisanProfile.Some? && users[i.value].name == [] ==>
            o.answer == Thrown(MissingPaths(["name"]), production) && o.answer.status == 400)
      && (o.answer.status == 200 ==>
            && i.Some? && users[i.value].artisanProfile.Some? && users[i.value].name != []
            && var before := users[i.value].artisanProfile.value;
               var after := Toggled(before, now);
               && o.users == users[i.value := users[i.value].(artisanProfile := Some(after))]
               && (FeaturedAt(before, now) ==> after.featuredUntil.None? && !after.isCurrentlyFeatured)
               && (!FeaturedAt(before, now) ==>
                     after.featuredUntil == Some(Num(now + 604800000)) && after.isCurrentlyFeatured)
               && after.isCurrentlyFeatured == FeaturedAt(after, now))
  {
    var i := FindUser(users, id);
    assert Thrown<FeatureView>(MissingPaths(["name"]), production).status == 400;
    if i.Some? && users[i.value].role == ArtisanRole && users[i.value].artisanProfile.Some? {
      ToggledProfile(users[i.value].artisanProfile.value, now);
    }
  }

  /** Switching twice at the same instant succeeds both times and restores
      whether the artisan is featured: one featured before is featured again
      for a fresh week, one not featured before ends with no date. */
  lemma ToggleFeatureTwice(users: seq<User>, id: UserId, now: int, production: bool)
    requires ToggleFeatureOutcome(users, id, now, production).answer.status == 200
    ensures var o := ToggleFeatureOutcome(users, id, now, production);
      var o2 := ToggleFeatureOutcome(o.users, id, now, production);
      var i := FindUser(users, id).value;
      var before := users[i].artisanProfile.value;
      && o2.answer.status == 200
      && o2.users[i].artisanProfile == Some(Toggled(Toggled(before, now), now))
      && o2.users[i].artisanProfile.value.isCurrentlyFeatured == FeaturedAt(before, now)
      && o2.users[i].artisanProfile.value.featuredUntil
           == (if FeaturedAt(before, now) then Some(Num(now + 604800000)) else None)
  {
    var o := ToggleFeatureOutcome(users, id, now, production);
    assert Thrown<FeatureView>(UndefinedRead("featuredUntil"), production).status != 200;
    assert Thrown<FeatureView>(MissingPaths(["name"]), production).status != 200;
    var i := FindUser(users, id).value;
    var before := users[i].artisanProfile.value;
    var u := users[i].(artisanProfile := Some(Toggled(before, now)));
    assert o.users == users[i := u];
    FindUserAfterUpdate(users, id, u);
    ToggledProfile(before, now);
  }

  // ---------------------------------------------------- getFeaturedArtisans

  /** Whether a user is listed: an artisan whose feature date is after
      `now`, and, for a non-blank search, whose name or email contains it
      ignoring case. */
  predicate Listed(u: User, now: int, search: string) {
    && u.role == ArtisanRole && u.artisanProfile.Some? && FeaturedAt(u.artisanProfile.value, now)
    && (search == [] || ContainsIgnoringCase(u.name, search) || ContainsIgnoringCase(u.email, search))
  }

  /** The sort key `artisanProfile.featuredUntil`. */
  function FeatureDate(u: User): Option<real> {
    if u.artisanProfile.Some? && u.artisanProfile.value.featuredUntil.Some? && u.artisanProfile.value.featuredUntil.value.Num?
    then Some(u.artisanProfile.value.featuredUntil.value.n as real) else None
  }

  /** `Math.max(parseInt(page || "1", 10), 1)`; NaN stays NaN. */
  function FeaturedPageNumber(pageQ: Option<string>): (r: JsNum)
    ensures r.Num? ==> r.n >= 1
    ensures r.NaN? <==> ParseInt(if Truthy(pageQ) then pageQ.value else "1").NaN?
  {
    JsMax(ParseInt(if Truthy(pageQ) then pageQ.value else "1"), 1)
  }

  /** The featured artisans matching `search`, in store order. */
  function FeaturedMatching(users: seq<User>, now: int, search: string): (r: seq<User>)
    ensures |r| == Count(users, (u: User) => Listed(u, now, search))
    ensures forall u :: u in r ==> u in users && Listed(u, now, search)
  {
    Filter(users, (u: User) => Listed(u, now, search))
  }

  /** Page `page` of the featured artisans matching `search`, latest
      feature date first, ten per page. */
  function FeaturedListing(users: seq<User>, now: int, search: string, page: int): FeatureView
    requires page >= 1
  {
    var matching := FeaturedMatching(users, now, search);
    var ordered := SortDesc(matching, FeatureDate);
    var count := |matching|;
    var pages := CeilDiv(count, 10);
    FeaturedPage(ordered[Min((page - 1) * 10, count)..Min(page * 10, count)], count,
                 if pages == 0 then 1 else pages, page)
  }

  /** `getFeaturedArtisans`: ten per page, latest feature date first. A
      page that is not a number makes the skip NaN and the query fail. */
  function FeaturedArtisans(users: seq<User>, pageQ: Option<string>, searchQ: Option<string>, now: int,
                            production: bool): Answer<FeatureView>
  {
    match FeaturedPageNumber(pageQ)
    case NaN => Thrown(StoreFailure("skip must be a number"), production)
    case Num(page) => Answer(200, Json(FeaturedListing(users, now, Trim(if searchQ.Some? then searchQ.value else ""), page)))
  }

  /** The page number is kept, the count covers every featured artisan
      matching the search, the page count is never 0, and a page holds at
      most ten artisans. */
  lemma FeaturedListingCounts(users: seq<User>, now: int, search: string, page: int)
    requires page >= 1
    ensures var v := FeaturedListing(users, now, search, page);
      && v.FeaturedPage?
      && v.page == page
      && v.totalPages >= 1
      && v.totalPages == (if v.count == 0 then 1 else CeilDiv(v.count, 10))
      && v.count == Count(users, (u: User) => Listed(u, now, search))
      && |v.artisans| <= 10
  {
    var matching := FeaturedMatching(users, now, search);
    var ordered := SortDesc(matching, FeatureDate);
    assert |ordered| == |multiset(ordered)| == |matching|;
  }

  /** Every listed artisan is stored, featured after `now` and matches the
      search, and the page runs from the latest feature date down. */
  lemma FeaturedListingEntries(users: seq<User>, now: int, search: string, page: int)
    requires page >= 1
    ensures var v := FeaturedListing(users, now, search, page);
      && v.FeaturedPage?
      && SortedDesc(v.artisans, FeatureDate)
      && forall k :: 0 <= k < |v.artisans| ==> v.artisans[k] in users && Listed(v.artisans[k], now, search)
  {
    var matching := FeaturedMatching(users, now, search);
    var ordered := SortDesc(matching, FeatureDate);
    var count := |matching|;
    assert |ordered| == |multiset(ordered)| == count;
    SortedSlice(matching, Min((page - 1) * 10, count), Min(page * 10, count), FeatureDate);
  }

  /** A page that is not a number fails; any other page is answered. */
  lemma FeaturedPageNumberCases(pageQ: Option<string>, users: seq<User>, searchQ: Option<string>, now: int,
                                production: bool)
    ensures FeaturedPageNumber(pageQ).NaN? <==> FeaturedArtisans(users, pageQ, searchQ, now, production).status != 200
  {
    match FeaturedPageNumber(pageQ)
    case NaN =>
      assert Thrown<FeatureView>(StoreFailure("skip must be a number"), production).status != 200;
    case Num(page) =>
      var search := Trim(if searchQ.Some? then searchQ.value else "");
      assert FeaturedArtisans(users, pageQ, searchQ, now, production)
          == Answer(200, Json(FeaturedListing(users, now, search, page)));
  }

  /** A search that is blank after trimming lists what no search lists. */
  lemma BlankSearchAddsNothing(users: seq<User>, pageQ: Option<string>, search: string, now: int, production: bool)
    requires Trim(search) == []
    ensures FeaturedArtisans(users, pageQ, Some(search), now, production)
         == FeaturedArtisans(users, pageQ, None, now, production)
  {
    assert Trim("") == [];
  }
}
