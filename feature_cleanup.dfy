/** cron/featureCleanup.js: the sweep that unfeatures every artisan whose
    feature date has passed, run once at start-up and then every midnight.
    The users collection is an array swept in place; the clock is the
    parameter `now`; the console lines each run writes are returned. */
module FeatureCleanup {
  import opened Common
  import opened Text
  import opened UserModel

  /** The filter `{role: "artisan", "artisanProfile.featuredUntil": {$lte: now}}`:
      a stored date no later than `now`; no date or an invalid one never matches. */
  predicate Expired(u: User, now: int) {
    && u.role == ArtisanRole && u.artisanProfile.Some?
    && u.artisanProfile.value.featuredUntil.Some? && u.artisanProfile.value.featuredUntil.value.Num?
    && u.artisanProfile.value.featuredUntil.value.n <= now
  }

  /** The update `$set: {featuredUntil: null, isCurrentlyFeatured: false}`. */
  function Cleared(u: User): (r: User)
    requires u.artisanProfile.Some?
    ensures r.artisanProfile.Some? && r.artisanProfile.value.featuredUntil.None?
    ensures !r.artisanProfile.value.isCurrentlyFeatured
  {
    u.(artisanProfile := Some(u.artisanProfile.value.(featuredUntil := None, isCurrentlyFeatured := false)))
  }

  /** One document under `updateMany`. */
  function Swept1(u: User, now: int): User {
    if Expired(u, now) then Cleared(u) else u
  }

  /** The whole collection under `updateMany`. */
  function Swept(users: seq<User>, now: int): (r: seq<User>)
    ensures |r| == |users|
  {
    seq(|users|, k requires 0 <= k < |users| => Swept1(users[k], now))
  }

  /** The number of expired artisans: every match has a date to clear, so
      every match is modified. */
  function ExpiredCount(users: seq<User>, now: int): nat {
    Count(users, (u: User) => Expired(u, now))
  }

  /** Counting a prefix one element longer. */
  lemma {:induction false} CountPrefix<T>(s: seq<T>, i: nat, p: T -> bool)
    requires i < |s|
    ensures Count(s[..i + 1], p) == Count(s[..i], p) + (if p(s[i]) then 1 else 0)
  {
    if i == 0 {
      assert s[..1][1..] == [];
      assert s[..0] == [];
    } else {
      assert s[..i + 1][1..] == s[1..][..i];
      assert s[..i][1..] == s[1..][..i - 1];
      CountPrefix(s[1..], i - 1, p);
    }
  }

  /** `User.updateMany(…)`: clears every expired artisan's feature in place
      and reports how many documents it modified. */
  method SweepExpired(users: array<User>, now: int) returns (modifiedCount: nat)
    modifies users
    ensures users[..] == Swept(old(users[..]), now)
    ensures modifiedCount == ExpiredCount(old(users[..]), now)
  {
    ghost var before := users[..];
    ghost var target := Swept(before, now);
    modifiedCount := 0;
    var i := 0;
    while i < users.Length
      invariant 0 <= i <= users.Length
      invariant forall k :: 0 <= k < i ==> users[k] == target[k]
      invariant forall k :: i <= k < users.Length ==> users[k] == before[k]
      invariant modifiedCount == Count(before[..i], (u: User) => Expired(u, now))
    {
      CountPrefix(before, i, (u: User) => Expired(u, now));
      var u := users[i];
      if Expired(u, now) {
        users[i] := Cleared(u);
        modifiedCount := modifiedCount + 1;
      }
      assert users[i] == target[i];
      i := i + 1;
    }
    assert before[..users.Length] == before;
  }

  /** `runInitialFeatureCleanup`: the sweep, logged only when it changed something. */
  method RunInitialFeatureCleanup(users: array<User>, now: int) returns (log: seq<string>)
    modifies users
    ensures users[..] == Swept(old(users[..]), now)
    ensures var n := ExpiredCount(old(users[..]), now);
      log == if n > 0 then ["[INIT] Cleaned up " + NatToDecimal(n) + " expired featured artisans."] else []
  {
    var modifiedCount := SweepExpired(users, now);
    log := [];
    if modifiedCount > 0 {
      log := ["[INIT] Cleaned up " + NatToDecimal(modifiedCount) + " expired featured artisans."];
    }
  }

  /** One midnight run of `scheduleFeatureCleanup`'s job. */
  method RunScheduledFeatureCleanup(users: array<User>, now: int) returns (log: seq<string>)
    modifies users
    ensures users[..] == Swept(old(users[..]), now)
    ensures log == ["[CRON] Running daily artisan feature cleanup...",
                    "[CRON] Unfeatured " + NatToDecimal(ExpiredCount(old(users[..]), now)) + " expired artisans."]
  {
    log := ["[CRON] Running daily artisan feature cleanup..."];
    var modifiedCount := SweepExpired(users, now);
    log := log + ["[CRON] Unfeatured " + NatToDecimal(modifiedCount) + " expired artisans."];
  }

  /** After a sweep no expired artisan is left, so a second sweep at the same
      instant changes nothing and modifies no document. */
  lemma SweepIdempotent(users: seq<User>, now: int)
    ensures forall k :: 0 <= k < |users| ==> !Expired(Swept(users, now)[k], now)
    ensures Swept(Swept(users, now), now) == Swept(users, now)
    ensures ExpiredCount(Swept(users, now), now) == 0
  {
    var s := Swept(users, now);
    assert forall k :: 0 <= k < |s| ==> s[k] == Swept1(users[k], now);
    NoneCounted(s, (u: User) => Expired(u, now));
  }

  lemma {:induction false} NoneCounted<T>(s: seq<T>, p: T -> bool)
    requires forall k :: 0 <= k < |s| ==> !p(s[k])
    ensures Count(s, p) == 0
  {
    if s != [] {
      NoneCounted(s[1..], p);
    }
  }

  /** The sweep touches only expired artisans, and in them only the two
      feature fields: every other record, among them every artisan still
      featured after `now`, and every other field is kept. */
  lemma SweepKeepsOthers(users: seq<User>, now: int)
    ensures forall k :: 0 <= k < |users| && !Expired(users[k], now) ==> Swept(users, now)[k] == users[k]
    ensures forall k :: 0 <= k < |users| && Expired(users[k], now) ==>
      var p := users[k].artisanProfile.value;
      Swept(users, now)[k] == users[k].(artisanProfile := Some(p.(featuredUntil := None, isCurrentlyFeatured := false)))
  {
  }
}
