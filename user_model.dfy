/** The User document (models/User.js) with its artisan sub-document
    (models/subdocs/ArtisanProfile.js): role enumeration, defaults, the
    pre-save hook, password comparison and the JSON field stripping. */
module UserModel {
  import opened Common
  import opened Text
  import opened Crypto

  type UserId = string

  datatype Role = UserRole | ArtisanRole | AdminRole

  /** The stored spelling of a role. */
  function RoleName(r: Role): string {
    match r
    case UserRole => "user"
    case ArtisanRole => "artisan"
    case AdminRole => "admin"
  }

  /** Enum validation of a role string: only the three spellings are accepted. */
  function ParseRole(s: string): (r: Option<Role>)
    ensures r.Some? ==> RoleName(r.value) == s
  {
    if s == "user" then Some(UserRole)
    else if s == "artisan" then Some(ArtisanRole)
    else if s == "admin" then Some(AdminRole)
    else None
  }

  /** The enum accepts exactly the three role names, each naming its own role. */
  lemma ParseRoleRoundTrip(r: Role, s: string)
    ensures ParseRole(RoleName(r)) == Some(r)
    ensures ParseRole(s).Some? <==> s in {"user", "artisan", "admin"}
  {
  }

  /** The artisan sub-document. `address`, `isVerified`, `featuredUntil`,
      `isCurrentlyFeatured` and `portfolioImages` are fields the controllers
      read and write although the sub-schema does not declare them. */
  datatype ArtisanProfile = ArtisanProfile(
    bio: Option<string>,
    category: Option<string>,
    skills: seq<string>,
    yearsOfExperience: Option<int>,
    location: Option<string>,
    coordinates: seq<int>,
    available: bool,
    isApproved: bool,
    address: Option<string>,
    isVerified: bool,
    featuredUntil: Option<JsNum>,
    isCurrentlyFeatured: bool,
    portfolioImages: seq<string>)

  /** An artisan profile created from `{}`: the sub-schema defaults. */
  function EmptyProfile(): (p: ArtisanProfile)
    ensures p.available && !p.isApproved && !p.isVerified && p.coordinates == [0, 0]
    ensures p.skills == [] && p.featuredUntil.None? && !p.isCurrentlyFeatured
  {
    ArtisanProfile(None, None, [], None, None, [0, 0], true, false, None, false, None, false, [])
  }

  /** A user document. `isEmailVerified` and the reset fields are used by the
      account handlers, and `rating` by the artisan directory, although the
      schema does not declare them. */
  datatype User = User(
    id: UserId,
    name: string,
    email: string,
    password: Credential,
    phone: Option<string>,
    address: Option<string>,
    avatar: string,
    artisanProfile: Option<ArtisanProfile>,
    verificationToken: Option<Digest>,
    verificationTokenExpires: Option<int>,
    role: Role,
    isVerified: bool,
    isBanned: bool,
    isDeleted: bool,
    isEmailVerified: bool,
    resetPasswordToken: Option<Digest>,
    resetPasswordExpires: Option<int>,
    rating: Option<real>)

  const DefaultAvatar: string := "https://avatar.iran.liara.run/public/32"

  /** A user as `User.create` builds it before the pre-save hook: the given
      fields plus the schema defaults. */
  function NewUser(id: UserId, name: string, email: string, password: Credential, role: Option<Role>): (u: User)
    ensures u.id == id && u.name == name && u.email == email && u.password == password
    ensures u.role == (if role.Some? then role.value else UserRole)
    ensures !u.isVerified && !u.isBanned && !u.isDeleted && !u.isEmailVerified
    ensures u.avatar == DefaultAvatar && u.artisanProfile.None? && u.phone.None? && u.address.None?
    ensures u.verificationToken.None? && u.resetPasswordToken.None? && u.rating.None?
  {
    User(id, name, email, password, None, None, DefaultAvatar, None, None, None,
         role.GetOr(UserRole), false, false, false, false, None, None, None)
  }

  /** `comparePassword`: bcrypt comparison against the stored hash. */
  predicate ComparePassword(u: User, candidate: string) {
    BcryptCompare(candidate, u.password)
  }

  /** The pre-save hook: a modified password is replaced by its bcrypt hash,
      a modified email by its lower-case form; nothing else changes. */
  method PreSave(u: User, passwordModified: bool, emailModified: bool) returns (r: User)
    ensures r == u.(password := r.password, email := r.email)
    ensures passwordModified ==> r.password == Bcrypt(u.password)
    ensures !passwordModified ==> r.password == u.password
    ensures emailModified ==> r.email == ToLower(u.email)
    ensures !emailModified ==> r.email == u.email
    ensures !passwordModified && !emailModified ==> r == u
  {
    r := u;
    if passwordModified {
      r := r.(password := Bcrypt(r.password));
    }
    if emailModified {
      r := r.(email := ToLower(r.email));
    }
  }

  /** The required paths a `save()` finds empty, in schema order. Validation
      runs before the pre-save hook, so a newly assigned password is still its
      plain text here, and every required path is checked, modified or not. */
  function MissingOnSave(u: User): (paths: seq<string>)
    ensures paths == [] <==> u.name != [] && u.email != [] && u.password != Plain([])
    ensures "name" in paths <==> u.name == []
    ensures "password" in paths <==> u.password == Plain([])
  {
    (if u.name == [] then ["name"] else []) + (if u.email == [] then ["email"] else [])
      + (if u.password == Plain([]) then ["password"] else [])
  }

  /** Saving a freshly assigned plain password leaves an account that accepts
      exactly that password; saving without touching the password keeps the
      stored hash as it was, so it is never hashed twice. */
  lemma PreSavePassword(u: User, p: string, candidate: string)
    ensures ComparePassword(u.(password := Bcrypt(Plain(p))), candidate) <==> candidate == p
    ensures u.password.Bcrypt? ==> !BcryptCompare(candidate, Bcrypt(u.password))
  {
  }

  /** The keys the JSON form removes. */
  const HiddenKeys: set<string> := {"password", "verificationToken", "verificationTokenExpires", "__v"}

  /** The `toJSON` transform: deletes the hidden keys from the serialised
      document one after another. */
  method ToJson<V>(ret: map<string, V>) returns (out: map<string, V>)
    ensures out.Keys == ret.Keys - HiddenKeys
    ensures forall k :: k in out ==> out[k] == ret[k]
  {
    out := ret;
    out := out - {"password"};
    out := out - {"verificationToken"};
    out := out - {"verificationTokenExpires"};
    out := out - {"__v"};
  }
}
