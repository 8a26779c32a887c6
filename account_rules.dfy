/** The account handlers' decisions (src/app/api/auth/register,
    src/app/api/admin/create-user, src/app/api/users/update) and the admin
    bootstrap (src/utils/initAdmin.ts), as functions on the user collection. */
module AccountRules {
  import opened Common
  import opened UserModel
  import opened Http
  import opened Db

  /** `auth/register` has no try/catch. The email lookup comes first; then
      `hashPassword` rejects a missing password, and `User.create` rejects a name or
      email that is missing or empty (`required`); each of these escapes. */
  function RegisterGate(db: Db, name: Option<string>, email: Option<string>, password: Option<string>): (g: Gate<User>)
    ensures g == Refuse(Error(400, "User already exists")) <==> FindByEmailField(db.users, db.nextId, email).Some?
    ensures g.Refuse? ==> g.why == Error(400, "User already exists") || g.why == Thrown
    ensures g.Pass? <==>
      Truthy(name) && Truthy(email) && password.Some? && FindByEmail(db.users, db.nextId, email.value).None?
    ensures g.Pass? ==> g.payload == NewUser(name.value, email.value, password.value, Customer)
  {
    if FindByEmailField(db.users, db.nextId, email).Some? then Refuse(Error(400, "User already exists"))
    else if password.None? || !Truthy(name) || !Truthy(email) then Refuse(Thrown)
    else Pass(NewUser(name.value, email.value, password.value, Customer))
  }

  /** `admin/create-user` has no try/catch: a bad token escapes. Only admin and
      delivery accounts can be created this way. */
  function CreateUserGate(db: Db, header: Option<string>, name: Option<string>, email: Option<string>,
                          password: Option<string>, role: Option<string>): Gate<User> {
    var c := Caller(header, db.verifier, Thrown);
    if c.Refuse? then Refuse(c.why)
    else if c.payload.role != Admin then Refuse(Error(403, "Access denied"))
    else if !Truthy(name) || !Truthy(email) || !Truthy(password) || !Truthy(role) then
      Refuse(Error(400, "All fields are required"))
    else if role.value != "admin" && role.value != "delivery" then Refuse(Error(400, "Invalid role"))
    else if FindByEmail(db.users, db.nextId, email.value).Some? then Refuse(Error(400, "User already exists"))
    else Pass(NewUser(name.value, email.value, password.value, ParseRole(role.value).value))
  }

  /** A created account is never a customer, holds the hash of the given password,
      and its email was free. */
  lemma CreateUserGateLaws(db: Db, header: Option<string>, name: Option<string>, email: Option<string>,
                         password: Option<string>, role: Option<string>)
    ensures var g := CreateUserGate(db, header, name, email, password, role);
      && (Authenticate(header, db.verifier).BadToken? ==> g == Refuse(Thrown))
      && (g.Pass? ==> g.payload.role != Customer && Matches(password.value, g.payload.password)
                      && RoleText(g.payload.role) == role.value && g.payload.email == email.value
                      && FindByEmail(db.users, db.nextId, email.value).None?)
  {
  }

  /** `users/update` maps every exception, a bad token included, to 401. */
  function ProfileGate(db: Db, header: Option<string>): Gate<Id> {
    var c := Caller(header, db.verifier, Error(401, "Invalid token"));
    if c.Refuse? then Refuse(c.why)
    else if c.payload.id !in db.users then Refuse(Error(404, "User not found"))
    else Pass(c.payload.id)
  }

  function IfTruthy(field: Option<string>, current: string): string {
    if Truthy(field) then field.value else current
  }

  function IfTruthyOptional(field: Option<string>, current: Option<string>): Option<string> {
    if Truthy(field) then field else current
  }

  /** Only truthy fields among name, address, contact number and preferences are
      written; the email, role and password hash never change. */
  function UpdatedProfile(u: User, name: Option<string>, address: Option<string>,
                          contactNumber: Option<string>, preferences: Option<string>): (r: User)
    ensures r.email == u.email && r.role == u.role && r.password == u.password
    ensures r.name == (if Truthy(name) then name.value else u.name)
    ensures r.address == (if Truthy(address) then address else u.address)
    ensures r.contactNumber == (if Truthy(contactNumber) then contactNumber else u.contactNumber)
    ensures r.preferences == (if Truthy(preferences) then preferences else u.preferences)
  {
    u.(name := IfTruthy(name, u.name), address := IfTruthyOptional(address, u.address),
       contactNumber := IfTruthyOptional(contactNumber, u.contactNumber),
       preferences := IfTruthyOptional(preferences, u.preferences))
  }

  /** `initAdmin`: the user collection and id counter after seeding. */
  function Seeded(users: map<Id, User>, n: nat, email: Option<string>, password: Option<string>): (r: (map<Id, User>, nat))
    ensures !Truthy(email) || !Truthy(password) ==> r == (users, n)
    ensures Truthy(email) && FindByEmail(users, n, email.value).Some? ==> r == (users, n)
    ensures Truthy(email) && Truthy(password) && FindByEmail(users, n, email.value).None?
      ==> r == (users[n := NewUser("Super Admin", email.value, password.value, Admin)], n + 1)
  {
    if !Truthy(email) || !Truthy(password) then (users, n)
    else if FindByEmail(users, n, email.value).Some? then (users, n)
    else (users[n := NewUser("Super Admin", email.value, password.value, Admin)], n + 1)
  }

  /** Seeding twice is seeding once: the second run finds the admin the first
      one inserted. */
  lemma SeededIdempotent(users: map<Id, User>, n: nat, email: Option<string>, password: Option<string>)
    ensures Seeded(Seeded(users, n, email, password).0, Seeded(users, n, email, password).1, email, password)
         == Seeded(users, n, email, password)
  {
    var (u1, n1) := Seeded(users, n, email, password);
    if Truthy(email) && Truthy(password) && FindByEmail(users, n, email.value).None? {
      assert n in u1 && n < n1 && u1[n].email == email.value;
    }
  }

  // ---------------------------------------------------------------------------
  // What each handler answers and writes

  /** POST /api/auth/register: a customer account under a free email. */
  function RegisterOutcome(db: Db, name: Option<string>, email: Option<string>, password: Option<string>): Outcome<Id> {
    var g := RegisterGate(db, name, email, password);
    if g.Refuse? then Outcome(Refused(g.why), db)
    else Outcome(Ok(200, "User registered successfully", db.nextId),
                 db.(users := db.users[db.nextId := g.payload], nextId := db.nextId + 1))
  }

  /** Registration succeeds exactly when a name, an email that no user holds and a
      password are all sent; it always creates a customer and keeps emails unique.
      A taken email answers 400; any other refusal is an exception, and neither
      writes anything. */
  lemma RegisterLaws(db: Db, name: Option<string>, email: Option<string>, password: Option<string>)
    requires Consistent(db)
    ensures Consistent(RegisterOutcome(db, name, email, password).db)
    ensures var o := RegisterOutcome(db, name, email, password);
      && (o.reply.Ok? <==>
            Truthy(name) && Truthy(email) && password.Some?
            && forall k :: k in db.users ==> db.users[k].email != email.value)
      && (o.reply == Fail(400, "User already exists") <==>
            email.Some? && exists k :: k in db.users && db.users[k].email == email.value)
      && (!o.reply.Ok? ==> (o.reply == Fail(400, "User already exists") || o.reply.Crash?) && o.db == db)
      && (o.reply.Ok? ==>
            var n := db.nextId;
            && o.reply == Ok(200, "User registered successfully", n)
            && n !in db.users && n in o.db.users
            && o.db == db.(users := db.users[n := o.db.users[n]], nextId := n + 1)
            && o.db.users[n].role == Customer && o.db.users[n].email == email.value
            && o.db.users[n].name == name.value
            && Matches(password.value, o.db.users[n].password))
  {
    var g := RegisterGate(db, name, email, password);
    if g.Pass? {
      InsertUserKeepsConsistent(db, g.payload);
    }
    if email.Some? && (exists k :: k in db.users && db.users[k].email == email.value) {
      var k :| k in db.users && db.users[k].email == email.value;
      assert k < db.nextId;
    }
  }

  /** POST /api/admin/create-user. */
  function CreateUserOutcome(db: Db, header: Option<string>, name: Option<string>, email: Option<string>,
                             password: Option<string>, role: Option<string>): Outcome<UserView> {
    var g := CreateUserGate(db, header, name, email, password, role);
    if g.Refuse? then Outcome(Refused(g.why), db)
    else Outcome(Ok(200, role.value + " user created successfully", View(db.nextId, g.payload)),
                 db.(users := db.users[db.nextId := g.payload], nextId := db.nextId + 1))
  }

  /** The account is inserted under the next id, emails stay unique, and the
      reply shows the account without its password. */
  lemma CreateUserLaws(db: Db, header: Option<string>, name: Option<string>, email: Option<string>,
                       password: Option<string>, role: Option<string>)
    requires Consistent(db)
    ensures Consistent(CreateUserOutcome(db, header, name, email, password, role).db)
    ensures var o := CreateUserOutcome(db, header, name, email, password, role);
      && (!o.reply.Ok? ==> o.db == db)
      && (o.reply.Ok? ==>
            var n := db.nextId;
            && n !in db.users && n in o.db.users
            && o.db == db.(users := db.users[n := o.db.users[n]], nextId := n + 1)
            && o.reply.body == View(n, o.db.users[n])
            && o.db.users[n].role != Customer && o.db.users[n].email == email.value)
  {
    var g := CreateUserGate(db, header, name, email, password, role);
    if g.Pass? {
      CreateUserGateLaws(db, header, name, email, password, role);
      InsertUserKeepsConsistent(db, g.payload);
    }
  }

  /** PATCH /api/users/update: the caller's own profile. */
  function ProfileOutcome(db: Db, header: Option<string>, name: Option<string>, address: Option<string>,
                          contactNumber: Option<string>, preferences: Option<string>): Outcome<User> {
    var g := ProfileGate(db, header);
    if g.Refuse? then Outcome(Refused(g.why), db)
    else
      var u := UpdatedProfile(db.users[g.payload], name, address, contactNumber, preferences);
      Outcome(Ok(200, "Profile updated successfully", u), db.(users := db.users[g.payload := u]))
  }

  /** Only the caller's account changes, and never its email, role or password;
      any other user is untouched. */
  lemma ProfileLaws(db: Db, header: Option<string>, name: Option<string>, address: Option<string>,
                    contactNumber: Option<string>, preferences: Option<string>)
    requires Consistent(db)
    ensures Consistent(ProfileOutcome(db, header, name, address, contactNumber, preferences).db)
    ensures var o := ProfileOutcome(db, header, name, address, contactNumber, preferences);
      && (!o.reply.Ok? ==> o.db == db)
      && (Authenticate(header, db.verifier).BadToken? ==> o.reply == Fail(401, "Invalid token"))
      && (o.reply.Ok? ==>
            var me := Authenticate(header, db.verifier).claim.id;
            && me in db.users
            && o.db == db.(users := db.users[me := o.reply.body])
            && o.reply.body.email == db.users[me].email && o.reply.body.role == db.users[me].role
            && o.reply.body.password == db.users[me].password)
  {
    var g := ProfileGate(db, header);
    if g.Pass? {
      SetUserKeepsConsistent(db, g.payload, UpdatedProfile(db.users[g.payload], name, address, contactNumber, preferences));
    }
  }

  /** `initAdmin` on the whole store. */
  function InitAdmin(db: Db, email: Option<string>, password: Option<string>): Db {
    var (users, n) := Seeded(db.users, db.nextId, email, password);
    db.(users := users, nextId := n)
  }

  /** Seeding keeps the store consistent. */
  lemma InitAdminKeepsConsistent(db: Db, email: Option<string>, password: Option<string>)
    requires Consistent(db)
    ensures Consistent(InitAdmin(db, email, password))
  {
    if Truthy(email) && Truthy(password) && FindByEmail(db.users, db.nextId, email.value).None? {
      var u := NewUser("Super Admin", email.value, password.value, Admin);
      InsertUserKeepsConsistent(db, u);
      assert InitAdmin(db, email, password) == db.(users := db.users[db.nextId := u], nextId := db.nextId + 1);
    } else {
      assert Seeded(db.users, db.nextId, email, password) == (db.users, db.nextId);
      assert InitAdmin(db, email, password) == db;
    }
  }

  /** Afterwards some user holds the configured email whenever both settings
      are present; a store that already had one is left as it was. */
  lemma InitAdminLaws(db: Db, email: Option<string>, password: Option<string>)
    ensures Truthy(email) && Truthy(password) ==>
      FindByEmail(InitAdmin(db, email, password).users, InitAdmin(db, email, password).nextId, email.value).Some?
    ensures Truthy(email) && FindByEmail(db.users, db.nextId, email.value).Some? ==> InitAdmin(db, email, password) == db
  {
    if Truthy(email) && Truthy(password) && FindByEmail(db.users, db.nextId, email.value).None? {
      var u := NewUser("Super Admin", email.value, password.value, Admin);
      var d := InitAdmin(db, email, password);
      assert d == db.(users := db.users[db.nextId := u], nextId := db.nextId + 1);
      assert db.nextId in d.users && db.nextId < d.nextId && d.users[db.nextId].email == email.value;
    }
  }
}
