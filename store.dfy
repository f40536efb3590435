/** The MongoDB collections as sequences of documents in natural order, and
    the two lookups the handlers use on users. */
module Store {
  import opened Common
  import opened UserModel
  import opened Records
  import opened LocationModel
  import opened CategoryModel

  /** `User.findById(id)`: the position of the user with that id. */
  function FindUser(users: seq<User>, id: UserId): (r: Option<nat>)
    ensures r.Some? ==> r.value < |users| && users[r.value].id == id
    ensures r.Some? ==> forall j :: 0 <= j < r.value ==> users[j].id != id
    ensures r.None? <==> forall j :: 0 <= j < |users| ==> users[j].id != id
  {
    FindFirst(users, (u: User) => u.id == id)
  }

  /** Replacing the found user by one with the same id keeps it found at the
      same position. */
  lemma FindUserAfterUpdate(users: seq<User>, id: UserId, u: User)
    requires FindUser(users, id).Some? && u.id == id
    ensures FindUser(users[FindUser(users, id).value := u], id) == FindUser(users, id)
  {
    var i := FindUser(users, id).value;
    assert users[i := u][i].id == id;
  }

  /** `User.findOne({ email })`: the first user with exactly that email. */
  function FindByEmail(users: seq<User>, email: string): (r: Option<nat>)
    ensures r.Some? ==> r.value < |users| && users[r.value].email == email
    ensures r.None? <==> forall j :: 0 <= j < |users| ==> users[j].email != email
  {
    FindFirst(users, (u: User) => u.email == email)
  }

  /** Whether Mongoose can cast a string to an ObjectId: exactly 24
      hexadecimal digits. A query naming any other id string rejects with a
      `CastError` before it reaches the database. */
  predicate IsObjectId(id: string) {
    |id| == 24 && forall k :: 0 <= k < |id| ==> '0' <= id[k] <= '9' || 'a' <= id[k] <= 'f' || 'A' <= id[k] <= 'F'
  }

  /** The database: one field per collection. */
  class Database {
    var users: seq<User>
    var jobs: seq<Job>
    var reviews: seq<Review>
    var locations: seq<Location>
    var categories: seq<Category>
    var blacklist: seq<BlacklistDoc>

    constructor(users0: seq<User>, jobs0: seq<Job>, reviews0: seq<Review>,
                locations0: seq<Location>, categories0: seq<Category>, blacklist0: seq<BlacklistDoc>)
      ensures users == users0 && jobs == jobs0 && reviews == reviews0
      ensures locations == locations0 && categories == categories0 && blacklist == blacklist0
    {
      users := users0;
      jobs := jobs0;
      reviews := reviews0;
      locations := locations0;
      categories := categories0;
      blacklist := blacklist0;
    }
  }
}
