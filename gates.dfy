/**
 * The authentication gates that run before the file and user routes
 * (routes/requireAuth.js and routes/middlewares.js). Each reads the token
 * cache, a map from `auth_<token>` keys to user-id strings, and never
 * writes it: they are functions of the cache. What a gate stores on the
 * request (`req.userId`, `req.token`) is its result.
 */
module Gates {
  import opened Common

  /** The cache key under which a session token is stored. */
  function AuthKey(token: string): (key: string)
    ensures |key| == |token| + 5 && key[5..] == token
  {
    "auth_" + token
  }

  /** Distinct tokens live under distinct keys. */
  lemma AuthKeyInjective(t1: string, t2: string)
    requires AuthKey(t1) == AuthKey(t2)
    ensures t1 == t2
  {
    assert t1 == AuthKey(t1)[5..];
  }

  /** The user id a token resolves to: the cached value, provided the token
      and the value are both truthy (`if (!token)`, `if (!userId)`). */
  function Resolve(token: Option<string>, cache: map<string, string>): (userId: Option<string>)
    ensures userId.Some? <==> Truthy(token) && AuthKey(token.value) in cache && cache[AuthKey(token.value)] != ""
    ensures userId.Some? ==> userId.value == cache[AuthKey(token.value)] && userId.value != ""
  {
    if !Truthy(token) then None
    else if AuthKey(token.value) !in cache then None
    else
      var v := cache[AuthKey(token.value)];
      if v == "" then None else Some(v)
  }

  /** Outcome of a gate: the request is answered 401 and `next` is not
      called, or `next` is called with what the gate recorded. */
  datatype Gate<+T> = Reject401 | Next(recorded: T)

  /** routes/requireAuth.js: 401 unless the token resolves; otherwise
      `req.userId` is set to the cached string and `next` runs. */
  function RequireAuthJs(token: Option<string>, cache: map<string, string>): (g: Gate<string>)
    ensures g.Reject401? <==> !Truthy(token) || AuthKey(token.value) !in cache || cache[AuthKey(token.value)] == ""
    ensures g.Next? ==> g.recorded == cache[AuthKey(token.value)]
  {
    match Resolve(token, cache)
    case None => Reject401
    case Some(userId) => Next(userId)
  }

  /** What routes/middlewares.js records on the request. */
  datatype Session = Session(token: string, userId: string)

  /** routes/middlewares.js `requireAuth`: 401 unless the token resolves;
      otherwise both `req.token` and `req.userId` are set and `next` runs. */
  function RequireAuth(token: Option<string>, cache: map<string, string>): (g: Gate<Session>)
    ensures g.Reject401? <==> !Truthy(token) || AuthKey(token.value) !in cache || cache[AuthKey(token.value)] == ""
    ensures g.Next? ==> g.recorded == Session(token.value, cache[AuthKey(token.value)])
  {
    match Resolve(token, cache)
    case None => Reject401
    case Some(userId) => Next(Session(token.value, userId))
  }

  /** routes/middlewares.js `optionalAuth`: `next` always runs; the session
      is recorded only when the token resolves, otherwise nothing is set. */
  function OptionalAuth(token: Option<string>, cache: map<string, string>): (g: Gate<Option<Session>>)
    ensures g.Next?
    ensures g.recorded.Some? <==> Truthy(token) && AuthKey(token.value) in cache && cache[AuthKey(token.value)] != ""
    ensures g.recorded.Some? ==> g.recorded.value == Session(token.value, cache[AuthKey(token.value)])
  {
    match Resolve(token, cache)
    case None => Next(None)
    case Some(userId) => Next(Some(Session(token.value, userId)))
  }

  /** The optional gate records exactly what the required gate would let
      through, and records nothing exactly when the required gate rejects. */
  lemma OptionalAgreesWithRequired(token: Option<string>, cache: map<string, string>)
    ensures RequireAuth(token, cache).Reject401? <==> OptionalAuth(token, cache) == Next(None)
    ensures RequireAuth(token, cache).Next? ==> OptionalAuth(token, cache) == Next(Some(RequireAuth(token, cache).recorded))
  {
  }

  /** The two `requireAuth` gates of the code base accept the same tokens and
      resolve them to the same user id. */
  lemma RequireAuthVariantsAgree(token: Option<string>, cache: map<string, string>)
    ensures RequireAuthJs(token, cache).Reject401? <==> RequireAuth(token, cache).Reject401?
    ensures RequireAuthJs(token, cache).Next? ==> RequireAuthJs(token, cache).recorded == RequireAuth(token, cache).recorded.userId
  {
  }

  /** A gate's verdict on a token depends only on that token's entry:
      adding or removing any other key leaves it unchanged. */
  lemma ResolveLocal(token: string, cache: map<string, string>, key: string, v: string)
    requires key != AuthKey(token)
    ensures Resolve(Some(token), cache[key := v]) == Resolve(Some(token), cache)
    ensures Resolve(Some(token), cache - {key}) == Resolve(Some(token), cache)
  {
  }
}
