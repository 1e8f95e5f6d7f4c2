/**
 * The session and credential service (`AppService`): the two Web Storage
 * areas, the current-user cell, the stored username, the bearer headers and
 * the argument checks of the member requests.
 *
 * The storage transitions are pure functions over `Stores`; the class keeps
 * the service's fields and each of its state-changing methods is specified
 * by one of those functions.
 */
module Service {
  import opened Wrappers
  import opened Numbers
  import opened Models

  /** One Web Storage area: string keys to string values. */
  type Store = map<string, string>

  /** Both storage areas: `localStorage` (durable) and `sessionStorage`. */
  datatype Stores = Stores(local: Store, session: Store)

  const CurrentUserKey: string := "currentUser"
  const TokenKey: string := "token"
  const RememberMeKey: string := "rememberMe"

  /** The durable keys that `logout` and a session-only login remove. */
  const DurableKeys: set<string> := {CurrentUserKey, TokenKey, RememberMeKey}

  /** The session keys that `logout` removes. */
  const SessionKeys: set<string> := {CurrentUserKey, TokenKey}

  const CredentialsRequired: string := "Username and password are required"
  const InvalidMemberId: string := "Invalid member ID"
  const InvalidMemberData: string := "Invalid member data"

  /** `getItem`: the stored value, or null. */
  function GetItem(s: Store, key: string): Option<string> {
    if key in s then Some(s[key]) else None
  }

  /** JavaScript truthiness of a `getItem` result: present and not empty. */
  predicate Truthy(v: Option<string>) {
    v.Some? && v.value != ""
  }

  /**
   * `JSON.stringify` and `JSON.parse` on a user; `parse` yields `None` where
   * `JSON.parse` throws.
   */
  datatype Codec = Codec(serialize: User -> string, parse: string -> Option<User>)

  /** Parsing undoes serializing, and a serialized user is never empty text. */
  ghost predicate Lawful(c: Codec) {
    forall u: User :: c.serialize(u) != "" && c.parse(c.serialize(u)) == Some(u)
  }

  // ---------------------------------------------------------------- reads

  /**
   * `getToken()`: `localStorage.getItem('token') || sessionStorage.getItem('token')`.
   * An empty durable token is falsy, so it falls through to the session token.
   */
  function Token(st: Stores): (r: Option<string>)
    ensures Truthy(GetItem(st.local, TokenKey)) ==> r == Some(st.local[TokenKey])
    ensures !Truthy(GetItem(st.local, TokenKey)) ==> r == GetItem(st.session, TokenKey)
    ensures r.None? <==> !Truthy(GetItem(st.local, TokenKey)) && TokenKey !in st.session
  {
    var durable := GetItem(st.local, TokenKey);
    if Truthy(durable) then durable else GetItem(st.session, TokenKey)
  }

  /** `isRemembered()`: only the durable flag counts. */
  function Remembered(st: Stores): (b: bool)
    ensures b <==> RememberMeKey in st.local && st.local[RememberMeKey] == "true"
  {
    GetItem(st.local, RememberMeKey) == Some("true")
  }

  /** `isLoggedIn()`: a current user and a token. */
  function LoggedIn(user: Option<User>, st: Stores): (b: bool)
    ensures b <==> user.Some? && (Truthy(GetItem(st.local, TokenKey)) || TokenKey in st.session)
  {
    user.Some? && Token(st).Some?
  }

  // ---------------------------------------------------------- transitions

  /** `removeItem` of every key in `keys`. */
  function ClearKeys(s: Store, keys: set<string>): (r: Store)
    ensures r.Keys == s.Keys - keys
    ensures forall k :: k in r ==> r[k] == s[k]
  {
    s - keys
  }

  /** The storage effect of `logout()`. */
  function Cleared(st: Stores): (r: Stores)
    ensures forall k :: k in DurableKeys ==> k !in r.local
    ensures forall k :: k in SessionKeys ==> k !in r.session
    ensures forall k :: k !in DurableKeys ==> GetItem(r.local, k) == GetItem(st.local, k)
    ensures forall k :: k !in SessionKeys ==> GetItem(r.session, k) == GetItem(st.session, k)
  {
    Stores(ClearKeys(st.local, DurableKeys), ClearKeys(st.session, SessionKeys))
  }

  /**
   * The storage effect of a successful `login`, given the serialized user and
   * the token of the reply. Remembered: the durable user, token and flag are
   * written and session storage is left as it was. Not remembered: the session
   * user and token are written and the three durable keys removed.
   */
  function AfterLogin(st: Stores, rememberMe: bool, userJson: string, token: string): (r: Stores)
    ensures rememberMe ==> r.session == st.session
    ensures rememberMe ==> GetItem(r.local, CurrentUserKey) == Some(userJson)
                           && GetItem(r.local, TokenKey) == Some(token)
                           && GetItem(r.local, RememberMeKey) == Some("true")
    ensures rememberMe ==> forall k :: k !in DurableKeys ==> GetItem(r.local, k) == GetItem(st.local, k)
    ensures !rememberMe ==> r.local == ClearKeys(st.local, DurableKeys)
    ensures !rememberMe ==> GetItem(r.session, CurrentUserKey) == Some(userJson)
                            && GetItem(r.session, TokenKey) == Some(token)
    ensures !rememberMe ==> forall k :: k !in SessionKeys ==> GetItem(r.session, k) == GetItem(st.session, k)
  {
    if rememberMe then
      Stores(st.local[CurrentUserKey := userJson][TokenKey := token][RememberMeKey := "true"], st.session)
    else
      Stores(ClearKeys(st.local, DurableKeys), st.session[CurrentUserKey := userJson][TokenKey := token])
  }

  /** What `loadStoredUser` finds: nothing usable, a parsed user, or corrupt user text. */
  datatype Restoration = NothingStored | Found(user: User) | Corrupt

  /** The user text `loadStoredUser` reads: the durable one, unless it is falsy. */
  function StoredUser(st: Stores): Option<string> {
    var durable := GetItem(st.local, CurrentUserKey);
    if Truthy(durable) then durable else GetItem(st.session, CurrentUserKey)
  }

  /** The token `loadStoredUser` pairs with it: from the same storage area. */
  function StoredToken(st: Stores): Option<string> {
    if Truthy(GetItem(st.local, CurrentUserKey)) then GetItem(st.local, TokenKey)
    else GetItem(st.session, TokenKey)
  }

  /**
   * The decision of `loadStoredUser`. The session pair is used only when the
   * durable user is missing or empty (a durable user without a durable token
   * restores nothing, whatever session storage holds), and a user is restored
   * only when both the user text and the token are non-empty.
   */
  function Restore(st: Stores, codec: Codec): (r: Restoration)
    ensures r != NothingStored <==>
      (Truthy(GetItem(st.local, CurrentUserKey)) && Truthy(GetItem(st.local, TokenKey)))
      || (!Truthy(GetItem(st.local, CurrentUserKey))
          && Truthy(GetItem(st.session, CurrentUserKey)) && Truthy(GetItem(st.session, TokenKey)))
    ensures r.Found? ==> StoredUser(st).Some? && codec.parse(StoredUser(st).value) == Some(r.user)
    ensures r.Corrupt? ==> StoredUser(st).Some? && codec.parse(StoredUser(st).value).None?
  {
    var user, token := StoredUser(st), StoredToken(st);
    if Truthy(user) && Truthy(token) then
      match codec.parse(user.value)
      case Some(u) => Found(u)
      case None => Corrupt
    else NothingStored
  }

  /**
   * The effect of `loadStoredUser` on the current user and the storage: a
   * found user becomes current, corrupt text has exactly the effect of
   * `logout()`, and otherwise nothing changes.
   */
  function AfterLoad(user: Option<User>, st: Stores, codec: Codec): (r: (Option<User>, Stores))
    ensures Restore(st, codec).Found? ==> r == (Some(Restore(st, codec).user), st)
    ensures Restore(st, codec).Corrupt? ==> r == (None, Cleared(st))
    ensures Restore(st, codec).NothingStored? ==> r == (user, st)
  {
    match Restore(st, codec)
    case Found(u) => (Some(u), st)
    case Corrupt => (None, Cleared(st))
    case NothingStored => (user, st)
  }

  /**
   * The constructor's `username` as written:
   * `currentUser ? JSON.parse(currentUser)?.username?.toString() || '' : ''`
   * on the durable user. `None` means the constructor throws, which happens
   * when the durable user text does not parse.
   */
  function InitialUsername(local: Store, codec: Codec): (r: Option<string>)
    ensures r.None? <==> Truthy(GetItem(local, CurrentUserKey)) && codec.parse(local[CurrentUserKey]).None?
    ensures !Truthy(GetItem(local, CurrentUserKey)) ==> r == Some("")
  {
    var stored := GetItem(local, CurrentUserKey);
    if !Truthy(stored) then Some("")
    else match codec.parse(stored.value)
      case Some(u) => Some(u.username)
      case None => None
  }

  /**
   * The constructor's `username`, corrected so that corrupt durable user text
   * counts as "no user" instead of escaping as an exception.
   */
  function RestoredUsername(local: Store, codec: Codec): (name: string)
    ensures InitialUsername(local, codec).Some? ==> name == InitialUsername(local, codec).value
    ensures InitialUsername(local, codec).None? ==> name == ""
  {
    var stored := GetItem(local, CurrentUserKey);
    if !Truthy(stored) then ""
    else match codec.parse(stored.value)
      case Some(u) => u.username
      case None => ""
  }

  // ------------------------------------------------------------- requests

  datatype Verb = Get | Post | Put | Delete

  /** `/login`, `/members/{id}` and `/addMember` under the API root. */
  datatype Endpoint = LoginEndpoint | MemberEndpoint(id: int) | AddMemberEndpoint

  datatype Body =
    | NoBody
    | Credentials(username: string, password: string)
    | Draft(draft: MemberDraft)
    | Full(member: Member)

  datatype Headers = Headers(authorization: string, contentType: string)

  datatype Request = Request(verb: Verb, endpoint: Endpoint, body: Body, headers: Option<Headers>)

  /** A service call: thrown synchronously before any request, or a request and its reply. */
  datatype Call<+T> = Thrown(message: string) | Sent(request: Request, reply: Reply<T>)

  const BearerPrefix: string := "Bearer "

  /**
   * `getHeaders()` for a token: `Bearer ${token}`, which writes the text "null"
   * when there is no token, and a JSON content type.
   */
  function BearerHeaders(token: Option<string>): (h: Headers)
    ensures |h.authorization| >= |BearerPrefix| && h.authorization[..|BearerPrefix|] == BearerPrefix
    ensures h.authorization[|BearerPrefix|..] == if token.Some? then token.value else "null"
    ensures h.contentType == "application/json"
  {
    Headers(BearerPrefix + (if token.Some? then token.value else "null"), "application/json")
  }

  /** The check `!id || id <= 0` on a JavaScript number: NaN, zero and negatives are refused. */
  function CheckMemberId(id: Num): (r: Result<int, string>)
    ensures r.Success? <==> id.Finite? && id.value > 0
    ensures r.Success? ==> r.value == id.value
    ensures r.Failure? ==> r.error == InvalidMemberId
  {
    if id.NaN? || id.value <= 0 then Failure(InvalidMemberId) else Success(id.value)
  }

  /** The request `login` posts, or the exception it throws for a missing field. */
  function LoginRequest(username: string, password: string): (r: Result<Request, string>)
    ensures r.Failure? <==> username == "" || password == ""
    ensures r.Failure? ==> r.error == CredentialsRequired
    ensures r.Success? ==> r.value.verb == Post && r.value.endpoint == LoginEndpoint
                           && r.value.body == Credentials(username, password)
                           && r.value.headers.None?
  {
    if username == "" || password == "" then Failure(CredentialsRequired)
    else Success(Request(Post, LoginEndpoint, Credentials(username, password), None))
  }

  // ------------------------------------------------------------ properties

  /**
   * After a successful login the token in effect is the reply's token, except
   * that a remembered login with an empty token falls through to whatever
   * token session storage already held.
   */
  lemma TokenAfterLogin(st: Stores, rememberMe: bool, userJson: string, token: string)
    ensures Token(AfterLogin(st, rememberMe, userJson, token))
            == if rememberMe && token == "" then GetItem(st.session, TokenKey) else Some(token)
  {
  }

  /** A login is remembered afterwards exactly when it asked to be. */
  lemma RememberedAfterLogin(st: Stores, rememberMe: bool, userJson: string, token: string)
    ensures Remembered(AfterLogin(st, rememberMe, userJson, token)) <==> rememberMe
  {
  }

  /**
   * Reloading the page after a successful login restores the same user, from
   * either storage area, provided the token is not empty.
   */
  lemma ReloadAfterLogin(st: Stores, rememberMe: bool, u: User, token: string, codec: Codec)
    requires Lawful(codec) && token != ""
    ensures Restore(AfterLogin(st, rememberMe, codec.serialize(u), token), codec) == Found(u)
    ensures AfterLoad(None, AfterLogin(st, rememberMe, codec.serialize(u), token), codec).0 == Some(u)
    ensures LoggedIn(Some(u), AfterLogin(st, rememberMe, codec.serialize(u), token))
  {
  }

  /**
   * After a session-only login a reload restores the user but the
   * constructor's username is empty: it reads only the durable user.
   */
  lemma SessionOnlyLoginForgetsUsername(st: Stores, userJson: string, token: string, codec: Codec)
    ensures RestoredUsername(AfterLogin(st, false, userJson, token).local, codec) == ""
  {
  }

  /**
   * After `logout()` there is no token, nothing is remembered, nobody is
   * logged in whatever the current user, and a reload restores nothing.
   */
  lemma LogoutLogsOut(st: Stores, user: Option<User>, codec: Codec)
    ensures Token(Cleared(st)) == None
    ensures !Remembered(Cleared(st)) && !LoggedIn(user, Cleared(st))
    ensures Restore(Cleared(st), codec) == NothingStored
  {
  }

  /** `logout()` twice has the effect of `logout()` once. */
  lemma LogoutIdempotent(st: Stores)
    ensures Cleared(Cleared(st)) == Cleared(st)
  {
  }

  /**
   * A session-only login removes any earlier remembered session: whatever the
   * durable area held, afterwards it holds none of the three session keys.
   */
  lemma SessionLoginForgetsDurable(st: Stores, userJson: string, token: string)
    ensures forall k :: k in DurableKeys ==> k !in AfterLogin(st, false, userJson, token).local
    ensures Token(AfterLogin(st, false, userJson, token)) == Some(token)
  {
  }

  /**
   * As written, durable user text that does not parse, with no durable token,
   * is left alone by `loadStoredUser` (it restores nothing and does not log
   * out), and the constructor's `JSON.parse` of the same text then throws.
   */
  lemma CorruptUserWithoutTokenThrows(session: Store, codec: Codec, userJson: string)
    requires userJson != "" && codec.parse(userJson).None?
    ensures Restore(Stores(map[CurrentUserKey := userJson], session), codec) == NothingStored
    ensures InitialUsername(map[CurrentUserKey := userJson], codec).None?
  {
  }

  /**
   * The constructor as written, from the initial stores: `loadStoredUser` runs
   * first, and the `JSON.parse` that follows throws exactly when the durable
   * user text is non-empty, does not parse, and there is no non-empty durable
   * token (with one, `loadStoredUser` has already cleared the text).
   */
  lemma ConstructorThrowsAsWritten(st: Stores, codec: Codec)
    ensures InitialUsername(AfterLoad(None, st, codec).1.local, codec).None? <==>
      Truthy(GetItem(st.local, CurrentUserKey)) && codec.parse(st.local[CurrentUserKey]).None?
      && !Truthy(GetItem(st.local, TokenKey))
  {
  }

  /** The corrected username never throws and agrees with a reload's user where one parses. */
  lemma RestoredUsernameOfParsedUser(local: Store, codec: Codec, u: User)
    requires Truthy(GetItem(local, CurrentUserKey)) && codec.parse(local[CurrentUserKey]) == Some(u)
    ensures RestoredUsername(local, codec) == u.username
  {
  }

  /** The service: two storage areas, the current-user cell and the username. */
  class AppService {
    var local: Store
    var session: Store
    var currentUser: Option<User>
    var username: string
    const codec: Codec

    function Storage(): Stores
      reads this
    {
      Stores(local, session)
    }

    /**
     * Construction restores a stored session with `loadStoredUser` and then
     * reads the username from the durable user (corrected: see
     * `RestoredUsername`).
     */
    constructor (local0: Store, session0: Store, codec: Codec)
      ensures this.codec == codec
      ensures (currentUser, Storage()) == AfterLoad(None, Stores(local0, session0), codec)
      ensures username == RestoredUsername(local, codec)
    {
      this.local := local0;
      this.session := session0;
      this.currentUser := None;
      this.username := "";
      this.codec := codec;
      new;
      LoadStoredUser();
      username := RestoredUsername(local, codec);
    }

    /** `loadStoredUser()` */
    method LoadStoredUser()
      modifies this
      ensures (currentUser, Storage()) == AfterLoad(old(currentUser), old(Storage()), codec)
      ensures username == old(username)
    {
      var storedUser := GetItem(local, CurrentUserKey);
      var storedToken := GetItem(local, TokenKey);
      if !Truthy(storedUser) {
        storedUser := GetItem(session, CurrentUserKey);
        storedToken := GetItem(session, TokenKey);
      }
      if Truthy(storedUser) && Truthy(storedToken) {
        var parsed := codec.parse(storedUser.value);
        if parsed.Some? {
          currentUser := parsed;
        } else {
          Logout();
        }
      }
    }

    /**
     * `login(username, password, rememberMe)`, with the server's reply as a
     * parameter. A missing field throws before any request; a failed or empty
     * reply changes nothing.
     */
    method Login(username: string, password: string, rememberMe: bool, reply: Reply<LoginResponse>)
      returns (r: Call<User>)
      modifies this
      ensures LoginRequest(username, password).Failure? ==>
        r == Thrown(CredentialsRequired) && Storage() == old(Storage()) && currentUser == old(currentUser)
      ensures LoginRequest(username, password).Success? ==>
        r.Sent? && r.request == LoginRequest(username, password).value
      ensures LoginRequest(username, password).Success? && reply.Emitted? ==>
        && r.reply == Emitted(reply.value.user)
        && currentUser == Some(reply.value.user)
        && Storage() == AfterLogin(old(Storage()), rememberMe, codec.serialize(reply.value.user), reply.value.token)
      ensures LoginRequest(username, password).Success? && !reply.Emitted? ==>
        && r.reply == (if reply.Failed? then Failed(reply.error) else Completed)
        && Storage() == old(Storage()) && currentUser == old(currentUser)
      ensures this.username == old(this.username)
    {
      var request := LoginRequest(username, password);
      if request.Failure? {
        return Thrown(request.error);
      }
      match reply
      case Emitted(response) =>
        var userJson := codec.serialize(response.user);
        if rememberMe {
          local := local[CurrentUserKey := userJson];
          local := local[TokenKey := response.token];
          local := local[RememberMeKey := "true"];
        } else {
          session := session[CurrentUserKey := userJson];
          session := session[TokenKey := response.token];
          local := local - {CurrentUserKey};
          local := local - {TokenKey};
          local := local - {RememberMeKey};
        }
        currentUser := Some(response.user);
        r := Sent(request.value, Emitted(response.user));
      case Failed(e) =>
        r := Sent(request.value, Failed(e));
      case Completed =>
        r := Sent(request.value, Completed);
    }

    /** `logout()`: removes the five session keys and clears the current user. */
    method Logout()
      modifies this
      ensures Storage() == Cleared(old(Storage()))
      ensures currentUser == None
      ensures username == old(username)
    {
      local := local - {CurrentUserKey};
      local := local - {TokenKey};
      local := local - {RememberMeKey};
      session := session - {CurrentUserKey};
      session := session - {TokenKey};
      currentUser := None;
    }

    /** `setUsername(name)` */
    method SetUsername(name: string)
      modifies this`username
      ensures username == name
    {
      username := name;
    }

    /** `getToken()`: the durable token unless it is empty, else the session token. */
    function GetToken(): (t: Option<string>)
      reads this
      ensures t == Token(Storage())
      ensures t.None? <==> !Truthy(GetItem(local, TokenKey)) && TokenKey !in session
    {
      Token(Storage())
    }

    /** `isLoggedIn()`: a current user and a token. */
    function IsLoggedIn(): (b: bool)
      reads this
      ensures b == LoggedIn(currentUser, Storage())
      ensures b <==> currentUser.Some? && GetToken().Some?
    {
      LoggedIn(currentUser, Storage())
    }

    /** `isRemembered()`: the durable flag reads "true". */
    function IsRemembered(): (b: bool)
      reads this
      ensures b == Remembered(Storage())
      ensures b <==> GetItem(local, RememberMeKey) == Some("true")
    {
      Remembered(Storage())
    }

    /** `getCurrentUser()`: the user the service holds, if any. */
    function GetCurrentUser(): (u: Option<User>)
      reads this
      ensures u == currentUser
    {
      currentUser
    }

    /** `getHeaders()`: the bearer header built from `getToken()`, and the JSON content type. */
    function GetHeaders(): (h: Headers)
      reads this
      ensures h == BearerHeaders(GetToken())
      ensures h.authorization == BearerPrefix + (if GetToken().Some? then GetToken().value else "null")
    {
      BearerHeaders(GetToken())
    }

    /** `getMemberById(id)`: refuses NaN and ids below 1 before any request. */
    function GetMemberById(id: Num): (r: Result<Request, string>)
      reads this
      ensures r.Failure? <==> !(id.Finite? && id.value > 0)
      ensures r.Failure? ==> r.error == InvalidMemberId
      ensures r.Success? ==> r.value == Request(Get, MemberEndpoint(id.value), NoBody, Some(GetHeaders()))
    {
      match CheckMemberId(id)
      case Success(n) => Success(Request(Get, MemberEndpoint(n), NoBody, Some(GetHeaders())))
      case Failure(e) => Failure(e)
    }

    /** `addMember(member)`: posts the member without its id; never refuses. */
    function AddMember(member: Member): (r: Request)
      reads this
      ensures r.body.Draft? && WithId(r.body.draft, member.id) == member
      ensures r.verb == Post && r.endpoint == AddMemberEndpoint && r.headers == Some(GetHeaders())
    {
      Request(Post, AddMemberEndpoint, Draft(WithoutId(member)), Some(GetHeaders()))
    }

    /**
     * `updateMember(member)`: refuses only a falsy id, which for an integer
     * is 0; a negative id is sent.
     */
    function UpdateMember(member: Member): (r: Result<Request, string>)
      reads this
      ensures r.Failure? <==> member.id == 0
      ensures r.Failure? ==> r.error == InvalidMemberData
      ensures r.Success? ==> r.value == Request(Put, MemberEndpoint(member.id), Full(member), Some(GetHeaders()))
    {
      if member.id == 0 then Failure(InvalidMemberData)
      else Success(Request(Put, MemberEndpoint(member.id), Full(member), Some(GetHeaders())))
    }

    /** `deleteMember(id)`: the same check as `getMemberById`. */
    function DeleteMember(id: Num): (r: Result<Request, string>)
      reads this
      ensures r.Failure? <==> !(id.Finite? && id.value > 0)
      ensures r.Failure? ==> r.error == InvalidMemberId
      ensures r.Success? ==> r.value == Request(Delete, MemberEndpoint(id.value), NoBody, Some(GetHeaders()))
    {
      match CheckMemberId(id)
      case Success(n) => Success(Request(Delete, MemberEndpoint(n), NoBody, Some(GetHeaders())))
      case Failure(e) => Failure(e)
    }
  }
}
