/**
 * The session store of the client (`client/src/contexts/AuthContext.jsx`): the
 * reducer behind `dispatch`, the initial state, the mount effect that restores
 * a session from `localStorage`, and `login`, `logout` and `updateUser`, which
 * write or remove the stored `user` and `token` before dispatching. The
 * provider is a class holding the reducer's state and the storage. The
 * server's responses are parameters. A stored user is kept as the value its
 * JSON text encodes: `JSON.parse(JSON.stringify(v))` is taken to be `v`.
 */
module AuthContext {
  import opened Js

  datatype AuthState = AuthState(isAuthenticated: bool, user: JsValue, loading: JsValue)

  datatype Action =
    | Login(user: JsValue)
    | Logout
    | SetLoading(loading: JsValue)
    | UpdateUser(changes: JsValue)
    | UnknownAction(actionType: string)

  /** The state the provider starts from (AuthContext.jsx:38-42). */
  const Initial := AuthState(false, Null, Bool(true))

  /** `authReducer` (AuthContext.jsx:6-35). */
  function Reduce(s: AuthState, a: Action): (r: AuthState)
    ensures a.Login? ==> r == AuthState(true, a.user, Bool(false))
    ensures a.Logout? ==> r == AuthState(false, Null, Bool(false))
    ensures a.SetLoading? ==> r == s.(loading := a.loading)
    ensures a.UpdateUser? ==> (r.isAuthenticated == s.isAuthenticated && r.loading == s.loading && r.user.Obj?
      && (forall k :: k in r.user.fields <==> k in Spread(s.user) || k in Spread(a.changes))
      && (forall k :: k in Spread(a.changes) ==> r.user.fields[k] == Spread(a.changes)[k])
      && (forall k :: k in Spread(s.user) && k !in Spread(a.changes) ==> r.user.fields[k] == Spread(s.user)[k]))
    ensures a.UnknownAction? ==> r == s
  {
    match a
    case Login(user) => s.(isAuthenticated := true, user := user, loading := Bool(false))
    case Logout => s.(isAuthenticated := false, user := Null, loading := Bool(false))
    case SetLoading(loading) => s.(loading := loading)
    case UpdateUser(changes) => s.(user := Obj(Spread(s.user) + Spread(changes)))
    case UnknownAction(_) => s
  }

  /** Logging out ends in the same state from anywhere. */
  lemma LogoutForgetsEverything(s: AuthState, t: AuthState)
    ensures Reduce(s, Logout) == Reduce(t, Logout)
  {
  }

  /** An update of a logged-out session leaves it logged out, with the changes as its user. */
  lemma UpdateKeepsSession(s: AuthState, changes: JsValue)
    ensures Reduce(s, UpdateUser(changes)).isAuthenticated == s.isAuthenticated
    ensures s.user.Null? ==> Reduce(s, UpdateUser(changes)).user == Obj(Spread(changes))
  {
    assert map[] + Spread(changes) == Spread(changes);
  }

  // ---------------------------------------------------------------------------
  // Storage

  /** `localStorage`: the item `token` holds a string, `user` the value of its JSON text. */
  type Storage = map<string, JsValue>

  /** `localStorage.getItem(k)` is truthy: a stored user's JSON text is never empty, a token may be. */
  predicate StoredTruthy(st: Storage, k: string) {
    k in st && (k == "user" || Truthy(st[k]))
  }

  /** The mount effect (AuthContext.jsx:44-53): log in iff both a user and a token are stored. */
  function Mount(st: Storage, s: AuthState): (r: AuthState)
    ensures StoredTruthy(st, "user") && StoredTruthy(st, "token") ==> r == AuthState(true, st["user"], Bool(false))
    ensures !(StoredTruthy(st, "user") && StoredTruthy(st, "token")) ==> r == s.(loading := Bool(false))
  {
    if StoredTruthy(st, "user") && StoredTruthy(st, "token") then Reduce(s, Login(st["user"]))
    else Reduce(s, SetLoading(Bool(false)))
  }

  /** What `login` writes (AuthContext.jsx:58-59): `setItem` stores the token's string form. */
  function LoginStorage(st: Storage, token: JsValue, user: JsValue): Storage {
    st["user" := user]["token" := Str(ToStr(token))]
  }

  /** What `logout` removes (AuthContext.jsx:64-65). */
  function LogoutStorage(st: Storage): (r: Storage)
    ensures "user" !in r && "token" !in r
    ensures forall k :: k in r <==> k in st && k != "user" && k != "token"
  {
    st - {"user", "token"}
  }

  /** A reload after a login restores the same session, provided the token's text is not empty. */
  lemma ReloadAfterLogin(st: Storage, token: JsValue, user: JsValue)
    requires ToStr(token) != ""
    ensures Mount(LoginStorage(st, token, user), Initial) == Reduce(Initial, Login(user))
  {
  }

  /**
   * Even a login response without a token is restored on reload: the token is
   * stored as the text `undefined`.
   */
  lemma MissingTokenStillRestores(st: Storage, user: JsValue)
    ensures Mount(LoginStorage(st, Undefined, user), Initial).isAuthenticated
  {
    assert ToStr(Undefined) == "undefined";
  }

  /** A reload after a logout starts logged out. */
  lemma ReloadAfterLogout(st: Storage)
    ensures Mount(LogoutStorage(st), Initial) == AuthState(false, Null, Bool(false))
  {
  }

  /** The user `updateUser` stores and merges (AuthContext.jsx:72-79). */
  function UpdatedUser(u: JsValue): (r: JsValue)
    ensures Get(r, "id") == Or(Get(u, "_id"), Get(u, "id"))
    ensures Get(r, "socialLinks") == Or(Get(u, "socialLinks"), Obj(map[]))
    ensures Get(r, "email") == Get(u, "email") && Get(r, "mobile") == Get(u, "mobile")
  {
    Obj(map["id" := Or(Get(u, "_id"), Get(u, "id")),
            "companyName" := Get(u, "companyName"),
            "email" := Get(u, "email"),
            "mobile" := Get(u, "mobile"),
            "address" := Get(u, "address"),
            "socialLinks" := Or(Get(u, "socialLinks"), Obj(map[]))])
  }

  /** The provider: the reducer's state and the browser's storage. */
  class AuthStore {
    var state: AuthState
    var storage: Storage

    constructor (st: Storage)
      ensures state == Initial && storage == st
    {
      state := Initial;
      storage := st;
    }

    /** The mount effect. */
    method Restore()
      modifies this
      ensures state == Mount(old(storage), old(state)) && storage == old(storage)
    {
      if StoredTruthy(storage, "user") && StoredTruthy(storage, "token") {
        state := Reduce(state, Login(storage["user"]));
      } else {
        state := Reduce(state, SetLoading(Bool(false)));
      }
    }

    /** `login` (AuthContext.jsx:55-61), given the `token` and `user` of the response. */
    method LoginWith(token: JsValue, user: JsValue)
      modifies this
      ensures storage == LoginStorage(old(storage), token, user)
      ensures state == AuthState(true, user, Bool(false))
    {
      storage := storage["user" := user];
      storage := storage["token" := Str(ToStr(token))];
      state := Reduce(state, Login(user));
    }

    /** `logout` (AuthContext.jsx:63-67): both items are removed, then the state is reset. */
    method LogoutNow()
      modifies this
      ensures storage == LogoutStorage(old(storage))
      ensures state == AuthState(false, Null, Bool(false))
    {
      storage := storage - {"user"};
      storage := storage - {"token"};
      state := Reduce(state, Logout);
    }

    /**
     * `updateUser` (AuthContext.jsx:69-82), given `res.user`. A response without
     * a user throws before anything is written (`threw`).
     */
    method UpdateUserWith(resUser: JsValue) returns (threw: bool)
      modifies this
      ensures threw <==> resUser.Undefined? || resUser.Null?
      ensures threw ==> storage == old(storage) && state == old(state)
      ensures !threw ==> (storage == old(storage)["user" := UpdatedUser(resUser)]
        && state == Reduce(old(state), UpdateUser(UpdatedUser(resUser))))
    {
      if resUser.Undefined? || resUser.Null? {
        return true;
      }
      var updated := UpdatedUser(resUser);
      storage := storage["user" := updated];
      state := Reduce(state, UpdateUser(updated));
      threw := false;
    }
  }
}
