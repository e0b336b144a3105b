/**
 * `GET /connect` and `GET /disconnect`: HTTP Basic sign-in (section 2 of
 * RFC 7617, credentials in base64 per section 4 of RFC 4648) issuing a
 * session token, and sign-out revoking it.
 */
module AuthController {
  import opened Values
  import opened JsText
  import opened ObjectIds
  import opened Stores
  import opened Sessions
  import opened Http

  /** What the `Authorization` header yields before any user is looked up. */
  datatype HeaderReading =
    | Refused                                    // answered 401
    | Crashed                                    // `Buffer.from(undefined, 'base64')` throws
    | Credentials(email: string, password: string)

  /** `decoded` starts with `email:password`, followed by nothing or by another `:`. */
  predicate StartsWithFields(decoded: string, email: string, password: string) {
    var head := email + [':'] + password;
    decoded == head || (|decoded| > |head| && decoded[..|head| + 1] == head + [':'])
  }

  /**
   * The header handling of `getConnect`. The header is split on spaces into a
   * scheme and a credential word; the credential is decoded (`base64Text`
   * stands for `Buffer.from(c, 'base64').toString()`) and split on `:`. The
   * email is the text before the first colon and the password the text
   * between the first and the second colon.
   */
  function ReadAuthorization(header: Option<string>, base64Text: string -> string): (h: HeaderReading)
    ensures !Truthy(header) ==> h == Refused
    ensures Truthy(header) && Split(header.value, ' ')[0] != "Basic" ==> h == Refused
    ensures Truthy(header) && Split(header.value, ' ') == ["Basic"] ==> h == Crashed
    ensures h.Credentials? ==>
      && |Split(header.value, ' ')| >= 2 && Split(header.value, ' ')[0] == "Basic"
      && h.email != "" && h.password != ""
      && ':' !in h.email && ':' !in h.password
      && StartsWithFields(base64Text(Split(header.value, ' ')[1]), h.email, h.password)
    ensures Truthy(header) && |Split(header.value, ' ')| >= 2 && Split(header.value, ' ')[0] == "Basic" ==>
      && var fields := Split(base64Text(Split(header.value, ' ')[1]), ':');
      && (fields[0] == "" || |fields| < 2 || fields[1] == "" ==> h == Refused)
      && (fields[0] != "" && |fields| >= 2 && fields[1] != "" ==> h == Credentials(fields[0], fields[1]))
  {
    if !Truthy(header) then Refused
    else
      var words := Split(header.value, ' ');
      if words[0] != "Basic" then Refused
      else if |words| < 2 then Crashed
      else
        var decoded := base64Text(words[1]);
        var fields := Split(decoded, ':');
        var password := Element(fields, 1);
        if fields[0] == "" || !Truthy(password) then Refused
        else
          FieldsPrefix(decoded);
          Credentials(fields[0], password.value)
  }

  /** The first two fields of a split text, when there are two, are its prefix. */
  lemma FieldsPrefix(decoded: string)
    requires |Split(decoded, ':')| >= 2
    ensures StartsWithFields(decoded, Split(decoded, ':')[0], Split(decoded, ':')[1])
  {
    var fields := Split(decoded, ':');
    JoinSplit(decoded, ':');
    JoinHead(fields, ':');
    var head := fields[0] + [':'] + fields[1];
    if decoded != head {
      assert decoded == (head + [':']) + Join(fields[2..], ':');
    }
  }

  /**
   * A credential of the form `email:password`, with the password free of
   * colons, reads back as exactly that email and password.
   */
  lemma ReadsWhatWasSent(header: string, base64Text: string -> string, email: string, password: string)
    requires |Split(header, ' ')| >= 2 && Split(header, ' ')[0] == "Basic"
    requires base64Text(Split(header, ' ')[1]) == email + ":" + password
    requires email != "" && password != "" && ':' !in email && ':' !in password
    ensures ReadAuthorization(Some(header), base64Text) == Credentials(email, password)
  {
    SplitJoin([email, password], ':');
    assert Join([email, password], ':') == email + ":" + password;
  }

  /**
   * Unlike section 2 of RFC 7617, which lets the password contain colons, a
   * password is cut at its first colon: the password read is never one that
   * contains a colon.
   */
  lemma ColonPasswordIsCut(header: string, base64Text: string -> string, email: string, password: string)
    requires ':' in password
    ensures ReadAuthorization(Some(header), base64Text) != Credentials(email, password)
  {
  }

  /**
   * A credential `email:password:rest` reads as `email` and `password` and
   * drops the rest: what section 2 of RFC 7617 reads as a password with a
   * colon is cut at that colon.
   */
  lemma ThirdFieldDropped(header: string, base64Text: string -> string, email: string, password: string, rest: string)
    requires |Split(header, ' ')| >= 2 && Split(header, ' ')[0] == "Basic"
    requires base64Text(Split(header, ' ')[1]) == email + ":" + password + ":" + rest
    requires email != "" && password != "" && ':' !in email && ':' !in password
    ensures ReadAuthorization(Some(header), base64Text) == Credentials(email, password)
  {
    var words := Split(header, ' ');
    var tail := password + [':'] + rest;
    var decoded := base64Text(words[1]);
    assert decoded == email + [':'] + tail;
    SplitAfterFirst(email, tail, ':');
    SplitAfterFirst(password, rest, ':');
    var fields := Split(decoded, ':');
    assert fields == [email] + Split(tail, ':');
    assert Split(tail, ':') == [password] + Split(rest, ':');
    assert fields[0] == email && fields[1] == password;
  }

  datatype LoginDecision = Deny(response: Response) | Grant(user: UserDoc)

  /**
   * The decision of `getConnect`: the credentials read from the header, then
   * the first user with that email and with `sha1(password)` as password.
   */
  function DecideLogin(users: seq<UserDoc>, header: Option<string>, base64Text: string -> string,
                       sha1: string -> string): (d: LoginDecision)
    ensures ReadAuthorization(header, base64Text).Refused? ==> d == Deny(Unauthorized)
    ensures ReadAuthorization(header, base64Text).Crashed? ==> d.Deny? && d.response.Unanswered?
    ensures d.Grant? ==>
      && var c := ReadAuthorization(header, base64Text);
      && c.Credentials? && d.user in users
      && d.user.email == c.email && d.user.password == sha1(c.password)
    ensures (ReadAuthorization(header, base64Text).Credentials? &&
             exists j :: 0 <= j < |users| && users[j].email == ReadAuthorization(header, base64Text).email &&
                         users[j].password == sha1(ReadAuthorization(header, base64Text).password)) <==> d.Grant?
    ensures d.Deny? ==> d.response == Unauthorized || d.response.Unanswered?
  {
    match ReadAuthorization(header, base64Text)
    case Refused => Deny(Unauthorized)
    case Crashed => Deny(Unanswered("TypeError: the credential word is undefined"))
    case Credentials(email, password) =>
      match FindUser(users, ByCredentials(email, sha1(password)))
      case None => Deny(Unauthorized)
      case Some(j) => Grant(users[j])
  }

  datatype SessionEffect = SessionEffect(response: Response, sessions: map<string, CacheEntry>)

  /**
   * `getConnect`: on success the token (the value of `uuidv4()`) is mapped to
   * the user's id text for 24 hours; otherwise the sessions are unchanged.
   */
  function Connect(users: seq<UserDoc>, sessions: map<string, CacheEntry>, header: Option<string>,
                   base64Text: string -> string, sha1: string -> string, token: string): (e: SessionEffect)
    ensures DecideLogin(users, header, base64Text, sha1).Deny? ==>
      e == SessionEffect(DecideLogin(users, header, base64Text, sha1).response, sessions)
    ensures DecideLogin(users, header, base64Text, sha1).Grant? ==>
      && e.response == Answered(200, TokenJson(token))
      && e.sessions.Keys == sessions.Keys + {AuthPrefix + token}
      && e.sessions[AuthPrefix + token] == CacheEntry(OidText(DecideLogin(users, header, base64Text, sha1).user.id), SessionTtl)
      && forall k :: k in sessions && k != AuthPrefix + token ==> e.sessions[k] == sessions[k]
  {
    match DecideLogin(users, header, base64Text, sha1)
    case Deny(r) => SessionEffect(r, sessions)
    case Grant(u) =>
      SessionEffect(Answered(200, TokenJson(token)), sessions[AuthPrefix + token := CacheEntry(OidText(u.id), SessionTtl)])
  }

  /** `getDisconnect`: a present token that resolves is deleted; anything else is a 401. */
  function Disconnect(sessions: map<string, CacheEntry>, token: Option<string>): (e: SessionEffect)
    ensures e.response == Unauthorized || e.response == Answered(204, NoContent)
    ensures e.response == Answered(204, NoContent) <==> Truthy(token) && SessionUser(sessions, token).Some?
    ensures e.response == Unauthorized ==> e.sessions == sessions
    ensures e.response == Answered(204, NoContent) ==>
      e.sessions.Keys == sessions.Keys - {SessionKey(token)} && forall k :: k in e.sessions ==> e.sessions[k] == sessions[k]
  {
    if !Truthy(token) then SessionEffect(Unauthorized, sessions)
    else if SessionUser(sessions, token).None? then SessionEffect(Unauthorized, sessions)
    else SessionEffect(Answered(204, NoContent), sessions - {SessionKey(token)})
  }

  /** A token that has been revoked is refused: a second disconnect is a 401. */
  lemma SecondDisconnectRefused(sessions: map<string, CacheEntry>, token: Option<string>)
    ensures var once := Disconnect(sessions, token);
      Disconnect(once.sessions, token) == SessionEffect(Unauthorized, once.sessions)
  {
  }

  /**
   * A session issued by a sign-in resolves to the user who signed in, both
   * as id text and, through `ObjectId(userId)`, as that user's id.
   */
  lemma ConnectedTokenResolves(users: seq<UserDoc>, sessions: map<string, CacheEntry>, header: Option<string>,
                               base64Text: string -> string, sha1: string -> string, token: string)
    requires DecideLogin(users, header, base64Text, sha1).Grant?
    requires DecideLogin(users, header, base64Text, sha1).user.id < OidSpace
    ensures var u := DecideLogin(users, header, base64Text, sha1).user;
      var after := Connect(users, sessions, header, base64Text, sha1, token).sessions;
      SessionUser(after, Some(token)) == Some(OidText(u.id)) && ParseOid(SessionUser(after, Some(token)).value) == Some(u.id)
  {
    var u := DecideLogin(users, header, base64Text, sha1).user;
    OidTextRoundTrip(u.id);
  }

  /**
   * Signing in with a fresh token and then signing out with it answers 204
   * and leaves the sessions as they were before the sign-in.
   */
  lemma ConnectThenDisconnect(users: seq<UserDoc>, sessions: map<string, CacheEntry>, header: Option<string>,
                              base64Text: string -> string, sha1: string -> string, token: string)
    requires DecideLogin(users, header, base64Text, sha1).Grant?
    requires token != "" && AuthPrefix + token !in sessions
    ensures var after := Connect(users, sessions, header, base64Text, sha1, token).sessions;
      Disconnect(after, Some(token)) == SessionEffect(Answered(204, NoContent), sessions)
  {
    var after := Connect(users, sessions, header, base64Text, sha1, token).sessions;
    assert after - {AuthPrefix + token} == sessions;
  }

  /** The `getConnect` handler. */
  method GetConnect(users: UsersCollection, cache: SessionCache, header: Option<string>,
                    base64Text: string -> string, sha1: string -> string, token: string) returns (res: Response)
    modifies cache
    ensures Connect(users.users, old(cache.entries), header, base64Text, sha1, token) == SessionEffect(res, cache.entries)
  {
    if !Truthy(header) {
      return Unauthorized;
    }
    var words := Split(header.value, ' ');
    if words[0] != "Basic" {
      return Unauthorized;
    }
    if |words| < 2 {
      return Unanswered("TypeError: the credential word is undefined");
    }
    var fields := Split(base64Text(words[1]), ':');
    var email := fields[0];
    var password := Element(fields, 1);
    if email == "" || !Truthy(password) {
      return Unauthorized;
    }
    var hashed := sha1(password.value);
    var found := FindUser(users.users, ByCredentials(email, hashed));
    if found.None? {
      return Unauthorized;
    }
    var user := users.users[found.value];
    cache.Set(AuthPrefix + token, OidText(user.id), SessionTtl);
    res := Answered(200, TokenJson(token));
  }

  /** The `getDisconnect` handler. */
  method GetDisconnect(cache: SessionCache, token: Option<string>) returns (res: Response)
    modifies cache
    ensures Disconnect(old(cache.entries), token) == SessionEffect(res, cache.entries)
  {
    if !Truthy(token) {
      return Unauthorized;
    }
    var userId := cache.Get(SessionKey(token));
    if userId.None? {
      return Unauthorized;
    }
    cache.Del(SessionKey(token));
    res := Answered(204, NoContent);
  }
}
