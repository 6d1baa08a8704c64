/** The User schema: required fields, the role enum with its default and the unique email. */
module UserModel {
  import opened Wrappers
  import opened Common

  datatype UserRole = Farmer | Retailer | Customer

  function RoleName(r: UserRole): string
  {
    match r
    case Farmer => "farmer"
    case Retailer => "retailer"
    case Customer => "customer"
  }

  /** The `role` enum check. */
  function ParseRole(t: string): (r: Option<UserRole>)
    ensures r.Some? ==> RoleName(r.value) == t
    ensures r.None? ==> forall u :: RoleName(u) != t
  {
    if t == "farmer" then Some(Farmer)
    else if t == "retailer" then Some(Retailer)
    else if t == "customer" then Some(Customer)
    else None
  }

  /** A user document; `phone` is the only optional field. */
  datatype User = User(name: string, email: string, password: string, role: UserRole,
                       phone: Option<string>, location: string)

  /** `new User({...})` followed by validation: required strings non-empty, role defaulting to customer. */
  function NewUser(name: string, email: string, password: string, role: Option<string>,
                   phone: Option<string>, location: string): (r: Result<User, Error>)
    ensures r.Ok? <==>
      name != "" && email != "" && password != "" && location != ""
      && (role.Some? ==> ParseRole(role.value).Some?)
    ensures r.Err? ==> r.error == ValidationFailed
    ensures r.Ok? ==>
      && r.value.name == name && r.value.email == email && r.value.password == password
      && r.value.phone == phone && r.value.location == location
      && RoleName(r.value.role) == (if role.Some? then role.value else "customer")
  {
    var parsed := if role.Some? then ParseRole(role.value) else Some(Customer);
    if name == "" || email == "" || password == "" || location == "" || parsed.None? then
      Err(ValidationFailed)
    else
      Ok(User(name, email, password, parsed.value, phone, location))
  }

  /** The `unique: true` index on `email`. */
  predicate EmailsUnique(users: seq<User>)
  {
    forall i, j :: 0 <= i < j < |users| ==> users[i].email != users[j].email
  }

  /** Inserting a user: the unique index rejects an email already taken. */
  function InsertUser(users: seq<User>, u: User): (r: Result<seq<User>, Error>)
    ensures r.Ok? <==> forall v :: v in users ==> v.email != u.email
    ensures r.Ok? ==> r.value == users + [u]
    ensures r.Err? ==> r.error == DuplicateKey
  {
    if exists v :: v in users && v.email == u.email then Err(DuplicateKey) else Ok(users + [u])
  }

  lemma InsertKeepsEmailsUnique(users: seq<User>, u: User)
    requires EmailsUnique(users)
    ensures InsertUser(users, u).Ok? ==> EmailsUnique(InsertUser(users, u).value)
  {
    if InsertUser(users, u).Ok? {
      var r := users + [u];
      forall i, j | 0 <= i < j < |r| ensures r[i].email != r[j].email {
        if j == |users| {
          assert r[i] in users;
        }
      }
    }
  }
}
