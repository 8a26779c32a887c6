/** The User document (src/models/User.ts) and password hashing (src/lib/auth.ts). */
module UserModel {
  import opened Common

  /** Every role a user or a token can carry. The schema enum lacks `delivery`,
      which `admin/create-user` nevertheless stores. */
  datatype Role = Customer | Admin | Delivery

  function RoleText(r: Role): string {
    match r
    case Customer => "customer"
    case Admin => "admin"
    case Delivery => "delivery"
  }

  function ParseRole(t: string): (r: Option<Role>)
    ensures r.Some? ==> RoleText(r.value) == t
  {
    if t == "customer" then Some(Customer)
    else if t == "admin" then Some(Admin)
    else if t == "delivery" then Some(Delivery)
    else None
  }

  lemma RoleTextRoundTrip(r: Role)
    ensures ParseRole(RoleText(r)) == Some(r)
  {
  }

  /** The `role` enum of the schema. */
  predicate SchemaRole(r: Role) {
    r == Customer || r == Admin
  }

  /** The schema default of `role`. */
  const DefaultRole: Role := Customer

  lemma DeliveryRoleOutsideSchema()
    ensures !SchemaRole(Delivery) && SchemaRole(DefaultRole)
  {
  }

  /** A bcrypt digest. Hashing is modelled as an injective one-way tag: the
      plaintext is never stored as such, and `Matches` is `bcrypt.compare`. */
  datatype Digest = Hash(of: string)

  predicate Matches(password: string, d: Digest) {
    d == Hash(password)
  }

  /** `bcrypt.compare` accepts exactly the hashed password. */
  lemma MatchesOnlyOwnHash(p: string, q: string)
    ensures Matches(p, Hash(q)) <==> p == q
  {
  }

  datatype User = User(
    name: string,
    email: string,
    password: Digest,
    role: Role,
    address: Option<string>,
    contactNumber: Option<string>,
    preferences: Option<string>)

  /** A new user as the insert handlers build it: optional fields absent. */
  function NewUser(name: string, email: string, password: string, role: Role): (u: User)
    ensures u.password == Hash(password) && u.role == role && u.email == email && u.name == name
    ensures u.address.None? && u.contactNumber.None? && u.preferences.None?
  {
    User(name, email, Hash(password), role, None, None, None)
  }

  /** The login/create-user response projection: everything but the password. */
  datatype UserView = UserView(id: Id, name: string, email: string, role: Role)

  function View(id: Id, u: User): (v: UserView)
    ensures v.id == id && v.name == u.name && v.email == u.email && v.role == u.role
  {
    UserView(id, u.name, u.email, u.role)
  }
}
