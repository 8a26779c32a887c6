/** The client-side route guard (src/components/ProtectedRoute.tsx): which paths a
    role may open, where it is sent otherwise, and the `authChecked` flag that
    decides whether the page renders. */
module ProtectedRoute {
  import opened Common

  /** The alternatives of the role's `accessMap` pattern; no entry for any other role. */
  function Prefixes(role: string): (r: Option<seq<string>>)
    ensures r.Some? <==> Home(role).Some?
    ensures r.Some? ==> Home(role).value in r.value && "/notifications" in r.value && "/profile" in r.value
  {
    if role == "admin" then Some(["/dashboard", "/customer", "/delivery", "/notifications", "/profile"])
    else if role == "customer" then Some(["/customer", "/notifications", "/profile"])
    else if role == "delivery" then Some(["/delivery", "/notifications", "/profile"])
    else None
  }

  /** `redirectMap[role]`: `undefined` (`None`) for any other role. */
  function Home(role: string): Option<string> {
    if role == "admin" then Some("/dashboard")
    else if role == "customer" then Some("/customer")
    else if role == "delivery" then Some("/delivery")
    else None
  }

  /** The characters `.` does not match in a JavaScript regular expression. */
  predicate LineTerminator(c: char) {
    c == '\n' || c == '\r' || c == '\U{2028}' || c == '\U{2029}'
  }

  /** `^(prefix)(\/.*)?$` for one alternative: the prefix itself, or the prefix
      followed by "/" and a rest free of line terminators. */
  predicate Continues(path: string, prefix: string) {
    || path == prefix
    || (&& |path| > |prefix| && path[..|prefix|] == prefix && path[|prefix|] == '/'
        && forall i :: |prefix| < i < |path| ==> !LineTerminator(path[i]))
  }

  /** `accessMap[role].test(pathname)`. */
  predicate Allowed(prefixes: seq<string>, path: string)
    ensures Allowed(prefixes, path) ==> exists i :: 0 <= i < |prefixes| && prefixes[i] <= path
    ensures path in prefixes ==> Allowed(prefixes, path)
  {
    exists i :: 0 <= i < |prefixes| && Continues(path, prefixes[i])
  }

  /** What the effect does: nothing yet, `router.replace(target)`, or let the page render. */
  datatype Decision = Wait | Redirect(target: Option<string>) | Allow

  function Decide(token: Option<string>, role: Option<string>, path: string): (d: Decision)
    ensures d == Wait <==> token.None? && role.None?
    ensures d.Allow? ==> Truthy(token)
    ensures d.Allow? && Truthy(role) ==> Prefixes(role.value).Some? && Allowed(Prefixes(role.value).value, path)
    ensures d.Redirect? && d.target != Some("/login") ==> Truthy(token) && Truthy(role)
  {
    if token.None? && role.None? then Wait
    else if !Truthy(token) then Redirect(Some("/login"))
    else if Truthy(role) && (Prefixes(role.value).None? || !Allowed(Prefixes(role.value).value, path)) then
      Redirect(Home(role.value))
    else Allow
  }

  /** The decision in full: wait only while both values are null; without a token,
      the login page; a known role on a path outside its prefixes, its home; a role
      the maps do not know, `router.replace(undefined)`; otherwise the page. */
  lemma DecideLaws(token: Option<string>, role: Option<string>, path: string)
    ensures Decide(token, role, path) == Wait <==> token.None? && role.None?
    ensures (token.Some? || role.Some?) && !Truthy(token) ==> Decide(token, role, path) == Redirect(Some("/login"))
    ensures Truthy(token) && !Truthy(role) ==> Decide(token, role, path) == Allow
    ensures Truthy(token) && Truthy(role) && Prefixes(role.value).Some? ==>
      (Decide(token, role, path) == Allow <==> Allowed(Prefixes(role.value).value, path))
    ensures Truthy(token) && Truthy(role) && Prefixes(role.value).Some? && !Allowed(Prefixes(role.value).value, path) ==>
      Decide(token, role, path) == Redirect(Home(role.value))
    ensures Truthy(token) && Truthy(role) && Prefixes(role.value).None? ==> Decide(token, role, path) == Redirect(None)
  {
  }

  /** Each role's home is one of its own paths, so the redirect lands on a page the
      guard lets through: there is no redirect loop. */
  lemma HomeAllowed(token: string, role: string)
    requires token != "" && Prefixes(role).Some?
    ensures Home(role).Some? && Allowed(Prefixes(role).value, Home(role).value)
    ensures Decide(Some(token), Some(role), Home(role).value) == Allow
  {
    assert Continues(Home(role).value, Prefixes(role).value[0]);
  }

  /** Every path a customer or a delivery user may open, an admin may open too. */
  lemma AdminCoversOthers(path: string)
    ensures Allowed(Prefixes("customer").value, path) ==> Allowed(Prefixes("admin").value, path)
    ensures Allowed(Prefixes("delivery").value, path) ==> Allowed(Prefixes("admin").value, path)
  {
    var admin := Prefixes("admin").value;
    if Allowed(Prefixes("customer").value, path) {
      var i :| 0 <= i < 3 && Continues(path, Prefixes("customer").value[i]);
      if i == 0 {
        assert Continues(path, admin[1]);
      } else {
        assert Continues(path, admin[i + 2]);
      }
    }
    if Allowed(Prefixes("delivery").value, path) {
      var i :| 0 <= i < 3 && Continues(path, Prefixes("delivery").value[i]);
      assert Continues(path, admin[i + 2]);
    }
  }

  /** A prefix must end at a "/": "/customers" is not a customer path, and a
      customer asking for the dashboard is sent home. */
  lemma PrefixBoundary()
    ensures !Allowed(Prefixes("customer").value, "/customers")
    ensures Allowed(Prefixes("customer").value, "/customer/orders")
    ensures Decide(Some("t"), Some("customer"), "/dashboard") == Redirect(Some("/customer"))
  {
    var ps := Prefixes("customer").value;
    assert Continues("/customer/orders", ps[0]);
    forall i | 0 <= i < 3 ensures !Continues("/customers", ps[i]) {
      if i == 0 {
        assert "/customers"[9] == 's';
      } else if i == 2 {
        assert "/customers"[..8][1] == 'c' != ps[i][1];
      }
    }
    forall i | 0 <= i < 3 ensures !Continues("/dashboard", ps[i]) {
      if |ps[i]| < 10 {
        assert "/dashboard"[..|ps[i]|][1] == 'd' != ps[i][1];
      }
    }
  }

  /** The component's state: `authChecked`, which starts false. */
  class Guard {
    var authChecked: bool

    constructor()
      ensures !authChecked
    {
      authChecked := false;
    }

    /** `if (!authChecked) return null`: the page renders once the check passed. */
    function Renders(): bool
      reads this
    {
      authChecked
    }

    /** The effect: returns the target of `router.replace` when it redirects, and sets
        `authChecked` only when it lets the page through. A redirect or a wait leaves
        the flag as it was. */
    method Effect(token: Option<string>, role: Option<string>, path: string) returns (replaced: Option<Option<string>>)
      modifies this
      ensures Decide(token, role, path) == Allow ==> authChecked && replaced.None?
      ensures Decide(token, role, path).Redirect? ==>
        authChecked == old(authChecked) && replaced == Some(Decide(token, role, path).target)
      ensures Decide(token, role, path) == Wait ==> authChecked == old(authChecked) && replaced.None?
    {
      if token.None? && role.None? {
        return None;
      }
      if !Truthy(token) {
        return Some(Some("/login"));
      }
      if Truthy(role) {
        var prefixes := Prefixes(role.value);
        if prefixes.None? || !Allowed(prefixes.value, path) {
          return Some(Home(role.value));
        }
      }
      authChecked := true;
      replaced := None;
    }
  }
}
