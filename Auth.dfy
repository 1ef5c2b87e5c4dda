/**
 * The session service of src/services/auth.js: a single object that talks to
 * the `/auth/` endpoints and keeps the session in the browser's `localStorage`
 * under three keys. The store is the map `storage`; the reply of `api.post`
 * is a parameter of each operation.
 */
module Auth {
  import opened Js

  const TokenKey := "token"
  const IsArtistKey := "is_artist"
  const UserIdKey := "user_id"
  const SessionKeys: set<string> := {TokenKey, IsArtistKey, UserIdKey}

  /** A field of an error body: an array of messages or any other JSON value. */
  datatype ErrorField = List(items: seq<string>) | Scalar(v: Value)

  /** The `data` of a reply: none at all (no response, or null), a text, or a
      JSON object whose entries are listed in enumeration order. */
  datatype Body = Absent | Text(s: string) | Fields(entries: seq<(string, ErrorField)>)

  /** A rejected request; `responseData` is `err.response?.data`. */
  datatype ApiError = ApiError(responseData: Body)

  /** What `await api.post(...)` gives: the reply's data, or the rejection it throws. */
  datatype ApiResult<+T> = Ok(data: T) | Err(error: ApiError)

  /** The data of a reply of `/auth/login/`; a field the server leaves out is `Undefined`. */
  datatype LoginReply = LoginReply(token: Value, isArtist: Value, userId: Value)

  /** Whether `login` stores the session for this reply: only a truthy token does. */
  predicate StoresSession(res: ApiResult<LoginReply>) {
    res.Ok? && Truthy(res.data.token)
  }

  /** The store after `login` has written the three session entries of `reply`,
      each as `String()` of the reply's value. */
  function WithSession(store: map<string, string>, reply: LoginReply): (m: map<string, string>)
    ensures m.Keys == store.Keys + SessionKeys
    ensures forall k :: k in store && k !in SessionKeys ==> m[k] == store[k]
  {
    store[TokenKey := ToStr(reply.token)][IsArtistKey := ToStr(reply.isArtist)][UserIdKey := ToStr(reply.userId)]
  }

  /** The invariant that `login` and `logout` keep: a role entry is stored only
      together with a non-empty token. */
  predicate Coherent(store: map<string, string>) {
    IsArtistKey in store ==> TokenKey in store && store[TokenKey] != ""
  }

  /** The session `login` writes is coherent, whatever the store held before. */
  lemma SessionIsCoherent(store: map<string, string>, reply: LoginReply)
    requires Truthy(reply.token)
    ensures Coherent(WithSession(store, reply))
  {
  }

  /** A store without the session keys is coherent, whatever it held before. */
  lemma LoggedOutIsCoherent(store: map<string, string>)
    ensures Coherent(store - SessionKeys)
  {
  }

  class AuthService {
    /** The contents of `localStorage`: every entry, not only the session's. */
    var storage: map<string, string>

    constructor (initial: map<string, string>)
      ensures storage == initial
    {
      storage := initial;
    }

    /** `localStorage.getItem(key)`: the stored string, or null. */
    function GetItem(key: string): (v: Value)
      reads this
      ensures v == Null || v.Str?
      ensures v == Null <==> key !in storage
    {
      if key in storage then Str(storage[key]) else Null
    }

    /** `isAuthenticated()`: `getToken()` gives a non-empty text. */
    predicate IsAuthenticated(): (b: bool)
      reads this
      ensures b <==> GetToken().Str? && GetToken().s != ""
    {
      Truthy(GetItem(TokenKey))
    }

    /** `getToken()`: null when no token is stored, else the stored text. */
    function GetToken(): (t: Value)
      reads this
      ensures t == Null <==> TokenKey !in storage
      ensures t != Null ==> t == Str(storage[TokenKey])
    {
      GetItem(TokenKey)
    }

    /** `getIsArtist()`: the stored text is exactly "true". */
    predicate GetIsArtist(): (b: bool)
      reads this
      ensures b <==> IsArtistKey in storage && storage[IsArtistKey] == "true"
    {
      GetItem(IsArtistKey) == Str("true")
    }

    /** `getUserId()`: null when no id is stored, else the stored text. */
    function GetUserId(): (u: Value)
      reads this
      ensures u == Null <==> UserIdKey !in storage
      ensures u != Null ==> u == Str(storage[UserIdKey])
    {
      GetItem(UserIdKey)
    }

    /** `register(userData)`: passes the endpoint's answer through and leaves the store alone. */
    method Register(res: ApiResult<Body>) returns (r: ApiResult<Body>)
      ensures r == res
    {
      r := res;
    }

    /** `login(credentials)`: stores the three session entries when the reply
        carries a truthy token, and returns the reply's data either way; a
        rejected request propagates before anything is stored. */
    method Login(res: ApiResult<LoginReply>) returns (r: ApiResult<LoginReply>)
      modifies this
      ensures r == res
      ensures StoresSession(res) ==> storage == WithSession(old(storage), res.data)
      ensures !StoresSession(res) ==> storage == old(storage)
      ensures old(Coherent(storage)) ==> Coherent(storage)
      ensures StoresSession(res) ==>
        && IsAuthenticated()
        && GetToken() == Str(ToStr(res.data.token))
        && (GetIsArtist() <==> res.data.isArtist == Bool(true) || res.data.isArtist == Str("true"))
        && GetUserId() == Str(ToStr(res.data.userId))
    {
      if res.Ok? && Truthy(res.data.token) {
        var reply := res.data;
        storage := storage[TokenKey := ToStr(reply.token)];
        storage := storage[IsArtistKey := ToStr(reply.isArtist)];
        storage := storage[UserIdKey := ToStr(reply.userId)];
        ToStrIsTrue(reply.isArtist);
        SessionIsCoherent(old(storage), reply);
      }
      r := res;
    }

    /** `logout()`: removes the three session entries and nothing else. */
    method Logout()
      modifies this
      ensures storage == old(storage) - SessionKeys
      ensures Coherent(storage)
      ensures forall k :: k !in SessionKeys ==> GetItem(k) == old(GetItem(k))
      ensures !IsAuthenticated() && !GetIsArtist()
      ensures GetToken() == Null && GetUserId() == Null
    {
      storage := storage - {TokenKey};
      storage := storage - {IsArtistKey};
      storage := storage - {UserIdKey};
    }
  }

  /** `isAuthenticated()` holds exactly when a non-empty token entry is stored. */
  lemma AuthenticatedIffToken(s: AuthService)
    ensures s.IsAuthenticated() <==> TokenKey in s.storage && s.storage[TokenKey] != ""
  {
  }

  /** In a coherent store the role implies a session: `getIsArtist()` never
      holds while `isAuthenticated()` does not. */
  lemma CoherentGivesRole(s: AuthService)
    requires Coherent(s.storage)
    ensures s.GetIsArtist() ==> s.IsAuthenticated()
  {
  }

  /** A numeric user id survives the trip through the store: after `login`
      has stored a reply whose `user_id` is a safe integer, the text that
      `getUserId()` reads is that integer's decimal form and parses back to it.
      (Beyond 2^53 the server's JSON number is already rounded, so the bound
      is where JavaScript keeps integers exact.) */
  lemma StoredUserIdReadsBack(s: AuthService, before: map<string, string>, reply: LoginReply, id: int)
    requires Truthy(reply.token) && reply.userId == Num(id)
    requires -9007199254740991 <= id <= 9007199254740991
    requires s.storage == WithSession(before, reply)
    ensures s.GetUserId().Str?
    ensures var stored := s.GetUserId().s;
      (AllDigits(stored) || (stored[0] == '-' && AllDigits(stored[1..]))) && ParseIntString(stored) == id
  {
    assert s.storage[UserIdKey] == IntToString(id);
    IntToStringRoundTrip(id);
  }
}
