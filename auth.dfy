/**
 * Session lifecycle (controllers/AuthController.js): `GET /connect`
 * authenticates a `Basic` Authorization header against the user
 * collection and issues a token; `GET /disconnect` revokes one.
 *
 * The token cache holds `auth_<token>` keys mapped to user-id strings,
 * each set with a time-to-live that is recorded here as data; expiry
 * itself is not modelled. Tokens come from the uuid oracle `Uuid(n)`,
 * n counting the tokens issued so far. Base64 decoding of the credentials
 * is the parameter `decode`.
 */
module Auth {
  import opened Common
  import opened Strings
  import opened Gates
  import opened Users

  /** Lifetime of a session token, in seconds (24 hours). */
  const TOKEN_TTL: nat := 24 * 60 * 60

  /** The decision `getConnect` reaches before it touches the cache. */
  datatype Verdict = Granted(userId: string) | Rejected | Thrown(error: string)

  /** The credentials part of an Authorization value: the second
      space-separated piece, when the first piece is exactly `Basic`; none
      when the header is absent or carries nothing after the scheme. */
  function BasicCredentials(header: Option<string>): (c: Option<string>)
    ensures c.Some? <==> header.Some? && |Split(header.value, ' ')| >= 2 && Split(header.value, ' ')[0] == "Basic"
    ensures c.Some? ==> c.value == Split(header.value, ' ')[1]
  {
    if header.None? then None
    else
      var parts := Split(header.value, ' ');
      if parts[0] != "Basic" || |parts| < 2 then None else Some(parts[1])
  }

  /** The password check of controllers/AuthController.js: the first user stored under `email`
      is granted exactly when the digest of `password` is its stored one. */
  function CheckPassword(users: seq<User>, email: string, password: string): (v: Verdict)
    ensures !v.Thrown?
    ensures v.Granted? <==> FindByEmail(users, email).Some? && users[FindByEmail(users, email).value].password == Sha1(password)
    ensures v.Granted? ==> v.userId == users[FindByEmail(users, email).value].id
  {
    match FindByEmail(users, email)
    case None => Rejected
    case Some(i) => if users[i].password == Sha1(password) then Granted(users[i].id) else Rejected
  }

  /** `getConnect` up to the token issue, with the two defects of the
      source corrected: an absent header, or one without credentials after
      `Basic`, is rejected rather than thrown on, and the decoded
      credentials are split at the first colon only, as section 2 of
      RFC 7617 prescribes, so that the password may itself hold colons. */
  function Authenticate(header: Option<string>, decode: string -> string, users: seq<User>): (v: Verdict)
    ensures !v.Thrown?
    ensures BasicCredentials(header).None? ==> v == Rejected
    ensures BasicCredentials(header).Some? ==>
      var pair := SplitOnce(decode(BasicCredentials(header).value), ':');
      && (pair.None? ==> v == Rejected)
      && (pair.Some? ==> v == CheckPassword(users, pair.value.0, pair.value.1))
    ensures v.Granted? ==> exists k :: 0 <= k < |users| && users[k].id == v.userId
  {
    match BasicCredentials(header)
    case None => Rejected
    case Some(c) =>
      match SplitOnce(decode(c), ':')
      case None => Rejected
      case Some(pair) => CheckPassword(users, pair.0, pair.1)
  }

  /** `getConnect` up to the token issue, as the source writes it:
      `authorization.split(' ')` on an absent header throws, `Buffer.from`
      of an absent credentials piece throws, the decoded text is split on
      every colon with only the second piece taken as the password, and
      `sha1` of an absent password throws. */
  function AuthenticateAsWritten(header: Option<string>, decode: string -> string, users: seq<User>): (v: Verdict)
    ensures header.None? ==> v.Thrown?
    ensures header.Some? && Split(header.value, ' ')[0] != "Basic" ==> v == Rejected
    ensures header.Some? && Split(header.value, ' ') == ["Basic"] ==> v.Thrown?
    ensures BasicCredentials(header).None? ==> !v.Granted?
    ensures BasicCredentials(header).Some? ==>
      var creds := Split(decode(BasicCredentials(header).value), ':');
      var found := FindByEmail(users, creds[0]);
      && (v.Thrown? <==> found.Some? && |creds| == 1)
      && (v.Granted? <==> found.Some? && |creds| >= 2 && users[found.value].password == Sha1(creds[1]))
      && (v.Granted? ==> v.userId == users[found.value].id)
    ensures v.Granted? ==> exists k :: 0 <= k < |users| && users[k].id == v.userId
  {
    if header.None? then Thrown("TypeError: cannot read property 'split' of undefined")
    else
      var parts := Split(header.value, ' ');
      if parts[0] != "Basic" then Rejected
      else if |parts| < 2 then Thrown("TypeError: Buffer.from of undefined")
      else
        var creds := Split(decode(parts[1]), ':');
        match FindByEmail(users, creds[0])
        case None => Rejected
        case Some(i) =>
          if |creds| < 2 then Thrown("Error: Illegal argument undefined")
          else if users[i].password == Sha1(creds[1]) then Granted(users[i].id)
          else Rejected
  }

  /** `Split(h, ' ')` of `Basic <c>` is the two pieces, when `c` has no space. */
  lemma SplitBasic(c: string)
    requires ' ' !in c
    ensures Split("Basic " + c, ' ') == ["Basic", c]
  {
    assert Join(["Basic", c], ' ') == "Basic " + c;
    SplitJoin(["Basic", c], ' ');
  }

  /** A user who presents the email and password they registered with is
      granted: the first user stored under `email` whose digest is that of
      `password` gets its id back, whatever the password contains. */
  lemma {:induction false} AuthenticateGrantsRegistered(
      users: seq<User>, email: string, password: string, c: string, decode: string -> string)
    requires ':' !in email && ' ' !in c
    requires decode(c) == email + ":" + password
    requires FindByEmail(users, email).Some?
    requires users[FindByEmail(users, email).value].password == Sha1(password)
    ensures Authenticate(Some("Basic " + c), decode, users) == Granted(users[FindByEmail(users, email).value].id)
  {
    SplitBasic(c);
    SplitOnceJoin(email, ':', password);
    assert email + ":" + password == email + [':'] + password;
  }

  /** Registration followed by connection: once `postNew` has inserted a
      user whose email needed no trimming, connecting with that email and
      the password registered grants exactly the new user's id. */
  lemma {:induction false} RegisteredUserCanConnect(
      users: seq<User>, email: string, password: string, c: string, decode: string -> string)
    requires RegistrationError(Some(email), Some(password), users).None?
    requires Trim(email) == email && ':' !in email && ' ' !in c
    requires decode(c) == email + ":" + password
    ensures var registered := users + [User(ObjectIdOf(|users|), Trim(email), Sha1(password))];
      Authenticate(Some("Basic " + c), decode, registered) == Granted(ObjectIdOf(|users|))
  {
    var registered := users + [User(ObjectIdOf(|users|), Trim(email), Sha1(password))];
    assert !Duplicate(users, email);
    forall k | 0 <= k < |users| ensures users[k].email != email {
      assert users[k].email != Trim(email);
    }
    FindByEmailAppended(users, registered[|users|]);
    AuthenticateGrantsRegistered(registered, email, password, c, decode);
  }

  /** A wrong password is rejected: whatever the header, a grant names the
      first user stored under the presented email, and the presented
      password has that user's digest. */
  lemma {:induction false} AuthenticateOnlyWithPassword(header: Option<string>, decode: string -> string, users: seq<User>)
    requires Authenticate(header, decode, users).Granted?
    ensures var c := BasicCredentials(header).value;
      var pair := SplitOnce(decode(c), ':').value;
      && decode(c) == pair.0 + ":" + pair.1
      && FindByEmail(users, pair.0).Some?
      && users[FindByEmail(users, pair.0).value].password == Sha1(pair.1)
      && Authenticate(header, decode, users).userId == users[FindByEmail(users, pair.0).value].id
  {
    var c := BasicCredentials(header).value;
    var pair := SplitOnce(decode(c), ':').value;
    assert pair.0 + ":" + pair.1 == pair.0 + [':'] + pair.1;
  }

  /** As written, a user whose password holds a colon can never connect
      with the credentials they registered: only the text between the first
      and second colon is hashed, and it differs from the password. */
  lemma {:induction false} ColonPasswordLocksOut(
      users: seq<User>, email: string, password: string, c: string, decode: string -> string)
    requires ':' !in email && ' ' !in c && ':' in password
    requires decode(c) == email + ":" + password
    requires FindByEmail(users, email).Some?
    requires users[FindByEmail(users, email).value].password == Sha1(password)
    ensures AuthenticateAsWritten(Some("Basic " + c), decode, users) == Rejected
    ensures Authenticate(Some("Basic " + c), decode, users).Granted?
  {
    SplitBasic(c);
    var s := email + ":" + password;
    assert s == email + [':'] + password;
    SplitOnceJoin(email, ':', password);
    SplitOnceAgreesWithSplit(s, ':');
    var creds := Split(s, ':');
    assert creds[0] == email;
    assert ':' !in creds[1];
    assert creds[1] != password;
    AuthenticateGrantsRegistered(users, email, password, c, decode);
  }

  /** As written, whatever follows a second colon is ignored: a user whose
      password `p` holds no colon is granted with `email:p:anything`, which
      the corrected decision rejects, since `p:anything` is not `p`. */
  lemma {:induction false} TrailingPiecesIgnored(
      users: seq<User>, email: string, password: string, extra: string, c: string, decode: string -> string)
    requires ':' !in email && ':' !in password && ' ' !in c
    requires decode(c) == email + ":" + password + ":" + extra
    requires FindByEmail(users, email).Some?
    requires users[FindByEmail(users, email).value].password == Sha1(password)
    ensures AuthenticateAsWritten(Some("Basic " + c), decode, users) == Granted(users[FindByEmail(users, email).value].id)
    ensures Authenticate(Some("Basic " + c), decode, users) == Rejected
  {
    SplitBasic(c);
    var tail := password + ":" + extra;
    assert tail == password + [':'] + extra;
    assert decode(c) == email + [':'] + tail;
    SplitCons(email, ':', tail);
    SplitCons(password, ':', extra);
    SplitOnceJoin(email, ':', tail);
    assert |tail| > |password|;
  }

  /** As written and corrected agree whenever the header is present, has
      credentials after `Basic`, and the decoded text has exactly one colon. */
  lemma {:induction false} AsWrittenAgreesOnPlainCredentials(header: Option<string>, decode: string -> string, users: seq<User>)
    requires BasicCredentials(header).Some?
    requires |Split(decode(BasicCredentials(header).value), ':')| == 2
    ensures AuthenticateAsWritten(header, decode, users) == Authenticate(header, decode, users)
  {
    var d := decode(BasicCredentials(header).value);
    SplitOnceAgreesWithSplit(d, ':');
    assert Split(d, ':')[1..] == [Split(d, ':')[1]];
  }

  /** The token cache. */
  class TokenCache {
    /** `auth_<token>` keys and the user-id strings they map to. */
    var entries: map<string, string>
    /** The time-to-live, in seconds, each key was set with. */
    var ttl: map<string, nat>
    /** How many tokens the uuid oracle has handed out. */
    var issued: nat

    /** Every key has its time-to-live, and no key of a token yet to be
        issued is present, so each new token's key is fresh. */
    ghost predicate Valid()
      reads this
    {
      && entries.Keys == ttl.Keys
      && forall n: nat :: n >= issued ==> AuthKey(Uuid(n)) !in entries
    }

    constructor ()
      ensures Valid() && entries == map[] && ttl == map[] && issued == 0
    {
      entries, ttl, issued := map[], map[], 0;
    }

    /** `GET /connect`: on a granted verdict, store a fresh token under
        `auth_<token>` with the user's id and a 24-hour lifetime and answer
        200 with the token; otherwise answer 401 and change nothing. */
    method Connect(header: Option<string>, decode: string -> string, users: seq<User>) returns (r: Reply<string>)
      requires Valid() && IdsTruthy(users)
      modifies this
      ensures Valid()
      ensures Authenticate(header, decode, users).Granted? ==>
        r.Done? && Resolve(Some(r.body), entries) == Some(Authenticate(header, decode, users).userId)
      ensures var v := Authenticate(header, decode, users);
        && (!v.Granted? ==> r == Unauthorized() && entries == old(entries) && ttl == old(ttl) && issued == old(issued))
        && (v.Granted? ==>
              && r == Done(200, Uuid(old(issued)))
              && AuthKey(r.body) !in old(entries)
              && entries == old(entries)[AuthKey(r.body) := v.userId]
              && ttl == old(ttl)[AuthKey(r.body) := TOKEN_TTL]
              && issued == old(issued) + 1)
    {
      var v := Authenticate(header, decode, users);
      if !v.Granted? {
        return Unauthorized();
      }
      var token := Uuid(issued);
      forall n: nat | n >= issued + 1 ensures AuthKey(Uuid(n)) != AuthKey(token) {
        UuidFresh(n, issued);
        if AuthKey(Uuid(n)) == AuthKey(token) { AuthKeyInjective(Uuid(n), token); }
      }
      entries := entries[AuthKey(token) := v.userId];
      ttl := ttl[AuthKey(token) := TOKEN_TTL];
      issued := issued + 1;
      r := Done(200, token);
    }

    /** `GET /disconnect`: when the X-Token resolves, delete exactly its key
        and answer 204; otherwise answer 401 and change nothing. Afterwards
        the token no longer resolves. */
    method Disconnect(token: Option<string>) returns (r: Reply<()>)
      requires Valid()
      modifies this
      ensures Valid() && issued == old(issued)
      ensures Resolve(token, old(entries)).None? ==> r == Unauthorized() && entries == old(entries) && ttl == old(ttl)
      ensures Resolve(token, old(entries)).Some? ==>
        && r == Done(204, ())
        && entries == old(entries) - {AuthKey(token.value)}
        && ttl == old(ttl) - {AuthKey(token.value)}
      ensures Resolve(token, entries).None?
    {
      if Resolve(token, entries).None? {
        return Unauthorized();
      }
      entries := entries - {AuthKey(token.value)};
      ttl := ttl - {AuthKey(token.value)};
      r := Done(204, ());
    }
  }

  /** Two successful connects hand out different tokens. */
  method ConnectTwice(cache: TokenCache, header: Option<string>, decode: string -> string, users: seq<User>)
    returns (first: Reply<string>, second: Reply<string>)
    requires cache.Valid() && IdsTruthy(users)
    modifies cache
    ensures first.Done? <==> Authenticate(header, decode, users).Granted?
    ensures first.Done? ==> second.Done? && first.body != second.body
  {
    first := cache.Connect(header, decode, users);
    second := cache.Connect(header, decode, users);
    if first.Done? {
      UuidFresh(cache.issued - 2, cache.issued - 1);
    }
  }

  /** Revoking the same token twice: the second attempt is answered 401. */
  method DisconnectTwice(cache: TokenCache, token: Option<string>) returns (first: Reply<()>, second: Reply<()>)
    requires cache.Valid()
    modifies cache
    ensures second == Unauthorized()
  {
    first := cache.Disconnect(token);
    second := cache.Disconnect(token);
  }
}
