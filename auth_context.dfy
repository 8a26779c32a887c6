/** The client-side session (src/context/AuthContext.tsx): the `token` and `role`
    state of `AuthProvider` and the browser's `localStorage` it mirrors. */
module AuthContext {
  import opened Common

  /** `localStorage.getItem(key)`: `null` (`None`) when the key is not set. */
  function Get(storage: map<string, string>, key: string): (r: Option<string>)
    ensures r.Some? <==> key in storage
    ensures r.Some? ==> r.value == storage[key]
  {
    if key in storage then Some(storage[key]) else None
  }

  /** What the mount effect loads: both values, and only when both are non-empty. */
  function Loaded(storage: map<string, string>): (r: Option<(string, string)>)
    ensures r.Some? <==> Truthy(Get(storage, "token")) && Truthy(Get(storage, "role"))
    ensures r.Some? ==> r.value == (storage["token"], storage["role"])
  {
    var t := Get(storage, "token");
    var r := Get(storage, "role");
    if Truthy(t) && Truthy(r) then Some((t.value, r.value)) else None
  }

  /** A session stored by `setAuth` is what a later mount loads, and nothing is
      loaded after `logout` cleared the storage. */
  lemma LoadedRoundTrip(storage: map<string, string>, token: string, role: string)
    requires token != "" && role != ""
    ensures Loaded(storage["token" := token]["role" := role]) == Some((token, role))
    ensures Loaded(map[]) == None
  {
  }

  class AuthProvider {
    var token: Option<string>
    var role: Option<string>
    var storage: map<string, string>

    /** State and storage agree: the values are exactly what is stored. */
    predicate Synced()
      reads this
    {
      token == Get(storage, "token") && role == Get(storage, "role")
    }

    /** `useState(null)` twice: no session until the mount effect runs. */
    constructor(storage: map<string, string>)
      ensures token.None? && role.None? && this.storage == storage
    {
      token := None;
      role := None;
      this.storage := storage;
    }

    /** The mount effect: loads the stored pair only when both values are set and
        non-empty; otherwise the state stays as it was. */
    method Mount()
      modifies this
      ensures storage == old(storage)
      ensures Loaded(storage).Some? ==>
        token == Some(Loaded(storage).value.0) && role == Some(Loaded(storage).value.1) && Synced()
      ensures Loaded(storage).None? ==> token == old(token) && role == old(role)
    {
      var storedToken := Get(storage, "token");
      var storedRole := Get(storage, "role");
      if Truthy(storedToken) && Truthy(storedRole) {
        token := storedToken;
        role := storedRole;
      }
    }

    /** Another tab wrote `newStorage`; the `storage` listener copies both values
        verbatim, so the state may end up with a token and no role, or the reverse. */
    method StorageChanged(newStorage: map<string, string>)
      modifies this
      ensures storage == newStorage
      ensures token == Get(newStorage, "token") && role == Get(newStorage, "role")
      ensures Synced()
    {
      storage := newStorage;
      var newToken := Get(storage, "token");
      var newRole := Get(storage, "role");
      token := newToken;
      role := newRole;
    }

    /** `setAuth`: both values go to storage and to state. */
    method SetAuth(tokenValue: string, roleValue: string)
      modifies this
      ensures storage == old(storage)["token" := tokenValue]["role" := roleValue]
      ensures token == Some(tokenValue) && role == Some(roleValue)
      ensures Synced()
      ensures tokenValue != "" && roleValue != "" ==> Loaded(storage) == Some((tokenValue, roleValue))
    {
      storage := storage["token" := tokenValue];
      storage := storage["role" := roleValue];
      token := Some(tokenValue);
      role := Some(roleValue);
    }

    /** `logout`: `localStorage.clear()` removes every key, then both values become null. */
    method Logout()
      modifies this
      ensures storage == map[] && token.None? && role.None?
      ensures Synced() && Loaded(storage).None?
    {
      storage := map[];
      token := None;
      role := None;
    }
  }
}
