/** A snapshot of the MongoDB collections the read-only handlers query, and the
    two orders they list documents in: insertion order and `sort({ createdAt: -1 })`. */
module Db {
  import opened Common
  import opened UserModel
  import opened MenuModel
  import opened OrderModel
  import opened AssignmentModel
  import opened FeedbackModel
  import opened NotificationModel
  import opened Http

  /** Every collection is a map from document id to document; `nextId` bounds the
      ids in use; `verifier` holds the tokens the JWT secret has signed. */
  datatype Db = Db(
    users: map<Id, User>,
    menus: map<Id, Menu>,
    orders: map<Id, Order>,
    assignments: map<Id, Assignment>,
    feedback: map<Id, Feedback>,
    notifications: map<Id, Notification>,
    nextId: nat,
    verifier: map<string, Claim>)

  /** The ids below `n` of the documents of `m` that `keep` selects, in insertion
      order (a `find` without `sort`). */
  function OldestFirst<T>(m: map<Id, T>, n: nat, keep: T -> bool): (r: seq<Id>)
    ensures forall i :: 0 <= i < |r| ==> r[i] < n && r[i] in m && keep(m[r[i]])
    ensures forall i, j :: 0 <= i < j < |r| ==> r[i] < r[j]
  {
    if n == 0 then []
    else
      var rest := OldestFirst(m, n - 1, keep);
      if n - 1 in m && keep(m[n - 1]) then rest + [n - 1] else rest
  }

  /** The same ids newest first (`sort({ createdAt: -1 })`). */
  function NewestFirst<T>(m: map<Id, T>, n: nat, keep: T -> bool): (r: seq<Id>)
    ensures forall i :: 0 <= i < |r| ==> r[i] < n && r[i] in m && keep(m[r[i]])
    ensures forall i, j :: 0 <= i < j < |r| ==> r[i] > r[j]
  {
    if n == 0 then []
    else
      var rest := NewestFirst(m, n - 1, keep);
      if n - 1 in m && keep(m[n - 1]) then [n - 1] + rest else rest
  }

  /** Every selected document below `n` is listed (the listing misses none). */
  lemma {:induction false} OldestFirstComplete<T>(m: map<Id, T>, n: nat, keep: T -> bool)
    ensures forall k :: k < n && k in m && keep(m[k]) ==> k in OldestFirst(m, n, keep)
  {
    if n > 0 {
      OldestFirstComplete(m, n - 1, keep);
      var rest := OldestFirst(m, n - 1, keep);
      if n - 1 in m && keep(m[n - 1]) {
        assert OldestFirst(m, n, keep) == rest + [n - 1];
        assert (rest + [n - 1])[|rest|] == n - 1;
      } else {
        assert OldestFirst(m, n, keep) == rest;
      }
    }
  }

  lemma {:induction false} NewestFirstComplete<T>(m: map<Id, T>, n: nat, keep: T -> bool)
    ensures forall k :: k < n && k in m && keep(m[k]) ==> k in NewestFirst(m, n, keep)
  {
    if n > 0 {
      NewestFirstComplete(m, n - 1, keep);
      var rest := NewestFirst(m, n - 1, keep);
      if n - 1 in m && keep(m[n - 1]) {
        assert NewestFirst(m, n, keep) == [n - 1] + rest;
      } else {
        assert NewestFirst(m, n, keep) == rest;
      }
    }
  }

  /** The ids below `n` of the documents `keep` selects. */
  function Selected<T>(m: map<Id, T>, n: nat, keep: T -> bool): set<Id> {
    set k | k in m && k < n && keep(m[k])
  }

  /** A newest-first listing holds each selected document once. */
  lemma {:induction false} NewestFirstCount<T>(m: map<Id, T>, n: nat, keep: T -> bool)
    ensures |NewestFirst(m, n, keep)| == |Selected(m, n, keep)|
  {
    if n > 0 {
      NewestFirstCount(m, n - 1, keep);
      SelectedStep(m, n, keep);
      if n - 1 in m && keep(m[n - 1]) {
        assert |NewestFirst(m, n, keep)| == |NewestFirst(m, n - 1, keep)| + 1;
      } else {
        assert |NewestFirst(m, n, keep)| == |NewestFirst(m, n - 1, keep)|;
      }
    } else {
      assert Selected(m, n, keep) == {};
    }
  }

  /** The selection below `n` is the one below `n - 1`, plus `n - 1` when it is selected. */
  lemma SelectedStep<T>(m: map<Id, T>, n: nat, keep: T -> bool)
    requires n > 0
    ensures n - 1 !in Selected(m, n - 1, keep)
    ensures n - 1 in m && keep(m[n - 1]) ==> Selected(m, n, keep) == Selected(m, n - 1, keep) + {n - 1}
    ensures !(n - 1 in m && keep(m[n - 1])) ==> Selected(m, n, keep) == Selected(m, n - 1, keep)
  {
  }

  /** `b` lists the elements of `a` in reverse. */
  predicate Reversed(a: seq<Id>, b: seq<Id>) {
    |a| == |b| && forall i :: 0 <= i < |a| ==> a[i] == b[|b| - 1 - i]
  }

  /** The two listing orders are reverses of one another. */
  lemma {:induction false} NewestIsReversedOldest<T>(m: map<Id, T>, n: nat, keep: T -> bool)
    ensures Reversed(NewestFirst(m, n, keep), OldestFirst(m, n, keep))
  {
    if n > 0 {
      var newer := NewestFirst(m, n - 1, keep);
      var older := OldestFirst(m, n - 1, keep);
      NewestIsReversedOldest(m, n - 1, keep);
      if n - 1 in m && keep(m[n - 1]) {
        ReversedExtend(newer, older, n - 1);
        assert NewestFirst(m, n, keep) == [n - 1] + newer;
        assert OldestFirst(m, n, keep) == older + [n - 1];
      } else {
        assert NewestFirst(m, n, keep) == newer;
        assert OldestFirst(m, n, keep) == older;
      }
    }
  }

  /** Putting `x` in front of one sequence and behind its reverse keeps them reversed. */
  lemma ReversedExtend(newer: seq<Id>, older: seq<Id>, x: Id)
    requires Reversed(newer, older)
    ensures Reversed([x] + newer, older + [x])
  {
    var r := [x] + newer;
    var o := older + [x];
    forall i | 0 <= i < |r| ensures r[i] == o[|o| - 1 - i] {
      if i > 0 {
        assert r[i] == newer[i - 1];
      }
    }
  }

  /** The documents `ids` name, in that order (what a `find` returns). */
  function Docs<T>(m: map<Id, T>, ids: seq<Id>): (r: seq<T>)
    requires forall i :: 0 <= i < |ids| ==> ids[i] in m
    ensures |r| == |ids| && forall i :: 0 <= i < |ids| ==> r[i] == m[ids[i]]
  {
    if ids == [] then [] else Docs(m, ids[..|ids| - 1]) + [m[ids[|ids| - 1]]]
  }

  function Everything<T>(t: T): bool {
    true
  }

  /** `findOne(filter)` over a collection in insertion order: the oldest document
      below `n` that satisfies `p`, if any. */
  function OldestWhere<T>(m: map<Id, T>, n: nat, p: T -> bool): (r: Option<Id>)
    ensures r.Some? ==> r.value in m && r.value < n && p(m[r.value])
    ensures r.Some? ==> forall k :: k in m && k < r.value ==> !p(m[k])
    ensures r.None? <==> forall k :: k in m && k < n ==> !p(m[k])
  {
    if n == 0 then None
    else
      var earlier := OldestWhere(m, n - 1, p);
      if earlier.Some? then earlier
      else if n - 1 in m && p(m[n - 1]) then Some(n - 1)
      else None
  }

  /** `User.findOne({ email })`: the oldest user holding `email`, if any. */
  function FindByEmail(users: map<Id, User>, n: nat, email: string): (r: Option<Id>)
    ensures r.Some? ==> r.value in users && r.value < n && users[r.value].email == email
    ensures r.None? <==> forall k :: k in users && k < n ==> users[k].email != email
    ensures r.Some? ==> forall k :: k in users && k < r.value ==> users[k].email != email
  {
    OldestWhere(users, n, (u: User) => u.email == email)
  }

  /** `User.findOne({ email })` with the email of a request body. The model takes an
      `undefined` email to match no user; the database may instead drop the
      condition and return some user (see "Undefined query values" in README.md). */
  function FindByEmailField(users: map<Id, User>, n: nat, email: Option<string>): (r: Option<Id>)
    ensures email.None? ==> r.None?
    ensures r.Some? ==> r.value in users && r.value < n && users[r.value].email == email.value
    ensures r.None? && email.Some? ==> forall k :: k in users && k < n ==> users[k].email != email.value
  {
    if email.None? then None else FindByEmail(users, n, email.value)
  }

  /** `DeliveryAssignment.findOne({ order })`: the oldest assignment of the order. */
  function AssignmentOf(assignments: map<Id, Assignment>, n: nat, order: Id): (r: Option<Id>)
    ensures r.Some? ==> r.value in assignments && r.value < n && assignments[r.value].order == order
    ensures r.None? <==> forall k :: k in assignments && k < n ==> assignments[k].order != order
    ensures r.Some? ==> forall k :: k in assignments && k < r.value ==> assignments[k].order != order
  {
    OldestWhere(assignments, n, (a: Assignment) => a.order == order)
  }

  /** Every id in `m` was handed out already. */
  predicate Below<T>(m: map<Id, T>, n: nat) {
    forall k :: k in m ==> k < n
  }

  /** The `unique: true` index on `User.email`. */
  predicate UniqueEmails(users: map<Id, User>) {
    forall a, b :: a in users && b in users && users[a].email == users[b].email ==> a == b
  }

  /** No order has two delivery assignments. The schema does not enforce this;
      both handlers that insert assignments check for an existing one first. */
  predicate SingleAssignment(assignments: map<Id, Assignment>) {
    forall a, b :: a in assignments && b in assignments && assignments[a].order == assignments[b].order ==> a == b
  }

  predicate Consistent(db: Db) {
    && Below(db.users, db.nextId) && Below(db.menus, db.nextId) && Below(db.orders, db.nextId)
    && Below(db.assignments, db.nextId) && Below(db.feedback, db.nextId) && Below(db.notifications, db.nextId)
    && UniqueEmails(db.users)
    && SingleAssignment(db.assignments)
  }

  /** Adding an assignment for an order that has none keeps one assignment per order. */
  lemma {:induction false} AddAssignmentKeepsSingle(assignments: map<Id, Assignment>, n: nat, k: Id, a: Assignment)
    requires SingleAssignment(assignments) && Below(assignments, n) && k !in assignments
    requires forall j :: j in assignments && j < n ==> assignments[j].order != a.order
    ensures SingleAssignment(assignments[k := a])
  {
    var m := assignments[k := a];
    forall x, y | x in m && y in m && m[x].order == m[y].order ensures x == y {
      if x != k && y != k {
        assert m[x] == assignments[x] && m[y] == assignments[y];
      }
    }
  }

  /** Adding a user whose email is free keeps emails unique. */
  lemma {:induction false} AddUserKeepsUnique(users: map<Id, User>, n: nat, k: Id, u: User)
    requires UniqueEmails(users) && Below(users, n) && k !in users
    requires forall j :: j in users && j < n ==> users[j].email != u.email
    ensures UniqueEmails(users[k := u])
  {
    var m := users[k := u];
    forall x, y | x in m && y in m && m[x].email == m[y].email ensures x == y {
      if x != k && y != k {
        assert m[x] == users[x] && m[y] == users[y];
      }
    }
  }

  // ---------------------------------------------------------------------------
  // Handler outcomes

  /** What a handler answers, and the collections after it ran. */
  datatype Outcome<T> = Outcome(reply: Response<T>, db: Db)

  /** `Notification.create(note)`: the note under the next id. */
  function WithNote(db: Db, note: Notification): Db {
    db.(notifications := db.notifications[db.nextId := note], nextId := db.nextId + 1)
  }

  /** `DeliveryAssignment.create(a)`: `a` under the next id. */
  function WithAssignment(db: Db, a: Assignment): Db {
    db.(assignments := db.assignments[db.nextId := a], nextId := db.nextId + 1)
  }

  /** `Order.create(o)`: `o` under the next id. */
  function WithOrder(db: Db, o: Order): Db {
    db.(orders := db.orders[db.nextId := o], nextId := db.nextId + 1)
  }

  /** `order.save()`: the order stored under `k` becomes `o`. */
  function OrderSaved(db: Db, k: Id, o: Order): Db {
    db.(orders := db.orders[k := o])
  }

  /** `assignment.save()`: the assignment stored under `k` becomes `a`. */
  function AssignmentSaved(db: Db, k: Id, a: Assignment): Db {
    db.(assignments := db.assignments[k := a])
  }

  /** `User.find({ role })`: every id below `n` of a user with the role, oldest first. */
  function UsersWithRole(users: map<Id, User>, n: nat, role: Role): seq<Id> {
    if n == 0 then []
    else
      var rest := UsersWithRole(users, n - 1, role);
      if n - 1 in users && users[n - 1].role == role then rest + [n - 1] else rest
  }

  /** `r` holds exactly the users below `n` with the role, in increasing id order. */
  predicate ListsRole(users: map<Id, User>, n: nat, role: Role, r: seq<Id>) {
    OnlyRole(users, n, role, r) && AllOfRole(users, n, role, r) && Increasing(r)
  }

  predicate OnlyRole(users: map<Id, User>, n: nat, role: Role, r: seq<Id>) {
    forall i :: 0 <= i < |r| ==> r[i] < n && r[i] in users && users[r[i]].role == role
  }

  predicate AllOfRole(users: map<Id, User>, n: nat, role: Role, r: seq<Id>) {
    forall k :: k < n && k in users && users[k].role == role ==> k in r
  }

  predicate Increasing(r: seq<Id>) {
    forall i, j :: 0 <= i < j < |r| ==> r[i] < r[j]
  }

  lemma UsersWithRoleLaws(users: map<Id, User>, n: nat, role: Role)
    ensures ListsRole(users, n, role, UsersWithRole(users, n, role))
  {
    UsersWithRoleSound(users, n, role);
    UsersWithRoleComplete(users, n, role);
    UsersWithRoleIncreasing(users, n, role);
  }

  lemma {:induction false} UsersWithRoleSound(users: map<Id, User>, n: nat, role: Role)
    ensures OnlyRole(users, n, role, UsersWithRole(users, n, role))
  {
    if n > 0 {
      UsersWithRoleSound(users, n - 1, role);
      var rest := UsersWithRole(users, n - 1, role);
      assert OnlyRole(users, n - 1, role, rest);
      if n - 1 in users && users[n - 1].role == role {
        var r: seq<Id> := rest + [n - 1];
        assert UsersWithRole(users, n, role) == r;
        forall i | 0 <= i < |r| ensures r[i] < n && r[i] in users && users[r[i]].role == role {
          if i < |rest| {
            assert r[i] == rest[i];
          } else {
            assert r[i] == n - 1;
          }
        }
      } else {
        assert UsersWithRole(users, n, role) == rest;
      }
    }
  }

  lemma {:induction false} UsersWithRoleComplete(users: map<Id, User>, n: nat, role: Role)
    ensures AllOfRole(users, n, role, UsersWithRole(users, n, role))
  {
    if n > 0 {
      UsersWithRoleComplete(users, n - 1, role);
      var rest := UsersWithRole(users, n - 1, role);
      assert AllOfRole(users, n - 1, role, rest);
      if n - 1 in users && users[n - 1].role == role {
        var r: seq<Id> := rest + [n - 1];
        assert UsersWithRole(users, n, role) == r;
        forall k | k < n && k in users && users[k].role == role ensures k in r {
          if k < n - 1 {
            assert k in rest;
          } else {
            assert r[|rest|] == k;
          }
        }
      } else {
        assert UsersWithRole(users, n, role) == rest;
      }
    }
  }

  lemma {:induction false} UsersWithRoleIncreasing(users: map<Id, User>, n: nat, role: Role)
    ensures Increasing(UsersWithRole(users, n, role))
  {
    if n > 0 {
      UsersWithRoleIncreasing(users, n - 1, role);
      UsersWithRoleSound(users, n - 1, role);
      var rest := UsersWithRole(users, n - 1, role);
      assert Increasing(rest) && OnlyRole(users, n - 1, role, rest);
      if n - 1 in users && users[n - 1].role == role {
        var r: seq<Id> := rest + [n - 1];
        assert UsersWithRole(users, n, role) == r;
        forall i, j | 0 <= i < j < |r| ensures r[i] < r[j] {
          assert r[i] == rest[i];
          if j < |rest| {
            assert r[j] == rest[j];
          } else {
            assert r[j] == n - 1;
          }
        }
      } else {
        assert UsersWithRole(users, n, role) == rest;
      }
    }
  }

  lemma NoteKeepsConsistent(db: Db, note: Notification)
    requires Consistent(db)
    ensures Consistent(WithNote(db, note))
  {
  }

  /** Rewriting an existing order keeps the store consistent. */
  lemma SetOrderKeepsConsistent(db: Db, k: Id, o: Order)
    requires Consistent(db) && k in db.orders
    ensures Consistent(OrderSaved(db, k, o))
  {
  }

  lemma SetAssignmentKeepsConsistent(db: Db, k: Id, a: Assignment)
    requires Consistent(db) && k in db.assignments && db.assignments[k].order == a.order
    ensures Consistent(AssignmentSaved(db, k, a))
  {
    var m := db.assignments[k := a];
    forall x, y | x in m && y in m && m[x].order == m[y].order ensures x == y {
      assert m[x].order == db.assignments[x].order && m[y].order == db.assignments[y].order;
    }
  }

  lemma InsertOrderKeepsConsistent(db: Db, o: Order)
    requires Consistent(db)
    ensures Consistent(WithOrder(db, o))
  {
  }

  lemma InsertAssignmentKeepsConsistent(db: Db, a: Assignment)
    requires Consistent(db) && AssignmentOf(db.assignments, db.nextId, a.order).None?
    ensures Consistent(WithAssignment(db, a))
  {
    AddAssignmentKeepsSingle(db.assignments, db.nextId, db.nextId, a);
  }

  /** Replacing the notifications by a map over fewer ids keeps the store consistent. */
  lemma SetNotesKeepsConsistent(db: Db, notes: map<Id, Notification>)
    requires Consistent(db) && notes.Keys <= db.notifications.Keys
    ensures Consistent(db.(notifications := notes))
  {
  }

  lemma InsertFeedbackKeepsConsistent(db: Db, f: Feedback)
    requires Consistent(db)
    ensures Consistent(db.(feedback := db.feedback[db.nextId := f], nextId := db.nextId + 1))
  {
  }

  lemma InsertMenuKeepsConsistent(db: Db, m: Menu)
    requires Consistent(db)
    ensures Consistent(db.(menus := db.menus[db.nextId := m], nextId := db.nextId + 1))
  {
  }

  /** Replacing the menus by a map over fewer ids keeps the store consistent. */
  lemma SetMenusKeepsConsistent(db: Db, menus: map<Id, Menu>)
    requires Consistent(db) && menus.Keys <= db.menus.Keys
    ensures Consistent(db.(menus := menus))
  {
  }

  /** Inserting a user whose email is free keeps the store consistent. */
  lemma InsertUserKeepsConsistent(db: Db, u: User)
    requires Consistent(db) && FindByEmail(db.users, db.nextId, u.email).None?
    ensures Consistent(db.(users := db.users[db.nextId := u], nextId := db.nextId + 1))
  {
    AddUserKeepsUnique(db.users, db.nextId, db.nextId, u);
  }

  /** Rewriting a user without changing the email keeps the store consistent. */
  lemma SetUserKeepsConsistent(db: Db, k: Id, u: User)
    requires Consistent(db) && k in db.users && db.users[k].email == u.email
    ensures Consistent(db.(users := db.users[k := u]))
  {
    var m := db.users[k := u];
    forall x, y | x in m && y in m && m[x].email == m[y].email ensures x == y {
      assert m[x].email == db.users[x].email && m[y].email == db.users[y].email;
    }
  }
}
