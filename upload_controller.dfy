/** controllers/uploadController.js, `removeArtisanImage`: dropping an
    image from an artisan's portfolio. Whether the URL parses and what the
    image host answers are parameters; the host's answer is only logged.
    The module never imports `User`, so as written the lookup throws a
    `ReferenceError`; read as intended it finds the caller. */
module UploadController {
  import opened Common
  import opened Text
  import opened UserModel
  import opened Store
  import opened Answer
  import opened ErrorMiddleware

  datatype UploadOutcome = UploadOutcome(users: seq<User>, answer: Answer<()>)

  /** `user.artisanProfile?.portfolioImages || []`. */
  function Portfolio(u: User): seq<string> {
    if u.artisanProfile.Some? then u.artisanProfile.value.portfolioImages else []
  }

  /** `oldImages.filter(url => url !== imageUrl)`. */
  function Without(images: seq<string>, url: string): seq<string> {
    Filter(images, (x: string) => x != url)
  }

  /** The outcome of `removeArtisanImage`. As written, `User.findById`
      names an identifier the module does not import. A URL that `new URL`
      rejects throws after the list was filtered in memory and before the
      save. An empty stored name fails the `required` validator on save. */
  function RemoveImageOutcome(users: seq<User>, me: UserId, imageUrl: Option<string>, urlParses: bool,
                              production: bool, reading: Reading): UploadOutcome
  {
    if !Truthy(imageUrl) then UploadOutcome(users, Says(400, "Image URL is required"))
    else if reading == AsWritten then UploadOutcome(users, Thrown(Undeclared("User"), production))
    else
      match FindUser(users, me)
      case None => UploadOutcome(users, Says(404, "User not found"))
      case Some(i) =>
        var url := imageUrl.value;
        if url !in Portfolio(users[i]) then UploadOutcome(users, Says(404, "Image not found in profile"))
        else if !urlParses then UploadOutcome(users, Thrown(InvalidUrl(), production))
        else if users[i].name == [] then UploadOutcome(users, Thrown(MissingPaths(["name"]), production))
        else
          var p := users[i].artisanProfile.value;
          var u := users[i].(artisanProfile := Some(p.(portfolioImages := Without(p.portfolioImages, url))));
          UploadOutcome(users[i := u], Says(200, "Image removed successfully"))
  }

  /** The handler; `remoteDeleted` is whether the image host found and
      deleted the file, or failed. */
  method RemoveArtisanImage(db: Database, me: UserId, imageUrl: Option<string>, urlParses: bool,
                            remoteDeleted: Result<bool, string>, production: bool, reading: Reading)
    returns (answer: Answer<()>)
    modifies db`users
    ensures UploadOutcome(db.users, answer)
         == RemoveImageOutcome(old(db.users), me, imageUrl, urlParses, production, reading)
  {
    if imageUrl.None? || imageUrl.value == [] {
      return Says(400, "Image URL is required");
    }
    if reading == AsWritten {
      return Thrown(Undeclared("User"), production);
    }
    var url := imageUrl.value;
    var found := FindUser(db.users, me);
    if found.None? {
      return Says(404, "User not found");
    }
    var user := db.users[found.value];
    var oldImages := if user.artisanProfile.Some? then user.artisanProfile.value.portfolioImages else [];
    if url !in oldImages {
      return Says(404, "Image not found in profile");
    }
    var p := user.artisanProfile.value;
    user := user.(artisanProfile := Some(p.(portfolioImages := Without(oldImages, url))));
    if !urlParses {
      return Thrown(InvalidUrl(), production);
    }
    match remoteDeleted {
      case Success(_) =>
      case Failure(_) =>
    }
    var saved := PreSave(user, false, false);
    if saved.name == [] {
      return Thrown(MissingPaths(["name"]), production);
    }
    db.users := db.users[found.value := saved];
    answer := Says(200, "Image removed successfully");
  }

  /** As written, every request with a URL fails: the undeclared `User`
      throws before anything is read, the still-200 response becomes 500,
      and no portfolio changes. */
  lemma RemoveImageFailsAsWritten(users: seq<User>, me: UserId, imageUrl: Option<string>, urlParses: bool,
                                  production: bool)
    ensures var o := RemoveImageOutcome(users, me, imageUrl, urlParses, production, AsWritten);
      && o.users == users
      && (!Truthy(imageUrl) ==> o.answer == Says(400, "Image URL is required"))
      && (Truthy(imageUrl) ==>
            o.answer.status == 500 && o.answer.payload.Fault? && o.answer.payload.message == "User is not defined")
  {
    assert Unclassified(Undeclared("User"));
  }

  /** Read as intended, a missing URL is refused with 400 and a missing user
      with 404; a URL not in the portfolio is answered 404 and nothing
      changes. */
  lemma RemoveImageRefusals(users: seq<User>, me: UserId, imageUrl: Option<string>, urlParses: bool, production: bool)
    ensures var o := RemoveImageOutcome(users, me, imageUrl, urlParses, production, Intended);
      && (!Truthy(imageUrl) ==> o == UploadOutcome(users, Says(400, "Image URL is required")))
      && (Truthy(imageUrl) && FindUser(users, me).None? ==> o == UploadOutcome(users, Says(404, "User not found")))
      && ((Truthy(imageUrl) && FindUser(users, me).Some? && imageUrl.value !in Portfolio(users[FindUser(users, me).value]))
            ==> o == UploadOutcome(users, Says(404, "Image not found in profile")))
      && (o.answer.status != 200 ==> o.users == users)
  {
    assert Thrown<()>(InvalidUrl(), production).status != 200;
    assert Thrown<()>(MissingPaths(["name"]), production).status != 200;
  }

  /** Removing keeps every other image as often as it was there and in its
      order, and leaves no copy of the removed one. */
  lemma {:induction false} WithoutKeepsOthers(images: seq<string>, url: string)
    ensures url !in Without(images, url)
    ensures forall y :: y != url ==> multiset(Without(images, url))[y] == multiset(images)[y]
    ensures Subsequence(Without(images, url), images)
  {
    FilterIsSubsequence(images, (x: string) => x != url);
    if images != [] {
      WithoutKeepsOthers(images[1..], url);
      assert images == [images[0]] + images[1..];
      if images[0] != url {
        assert Without(images, url) == [images[0]] + Without(images[1..], url);
      }
    }
  }

  /** Read as intended, on success only the caller's portfolio changes: it
      becomes the old one without the URL, and the rest of the user and
      every other user is kept. */
  lemma RemoveImageEffects(users: seq<User>, me: UserId, imageUrl: Option<string>, urlParses: bool, production: bool)
    requires RemoveImageOutcome(users, me, imageUrl, urlParses, production, Intended).answer.status == 200
    ensures var o := RemoveImageOutcome(users, me, imageUrl, urlParses, production, Intended);
      var i := FindUser(users, me).value;
      var before := users[i].artisanProfile.value;
      && Truthy(imageUrl) && urlParses && imageUrl.value in before.portfolioImages
      && o.users == users[i := users[i].(artisanProfile := Some(before.(portfolioImages := o.users[i].artisanProfile.value.portfolioImages)))]
      && o.users[i].artisanProfile.value.portfolioImages == Without(before.portfolioImages, imageUrl.value)
      && imageUrl.value !in Portfolio(o.users[i])
      && |Portfolio(o.users[i])| < |before.portfolioImages|
  {
    var i := FindUser(users, me).value;
    var before := users[i].artisanProfile.value;
    var url := imageUrl.value;
    WithoutKeepsOthers(before.portfolioImages, url);
    var k :| 0 <= k < |before.portfolioImages| && before.portfolioImages[k] == url;
    CountMissesOne(before.portfolioImages, (x: string) => x != url, k);
  }

  /** A sequence with an element the condition rejects has fewer matches
      than elements. */
  lemma {:induction false} CountMissesOne(s: seq<string>, p: string -> bool, k: int)
    requires 0 <= k < |s| && !p(s[k])
    ensures Count(s, p) < |s|
  {
    if k > 0 {
      CountMissesOne(s[1..], p, k - 1);
    }
  }
}
