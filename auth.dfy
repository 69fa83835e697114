/**
 * The proxy's credential check (grpcproxy/auth.go): HTTP Basic credentials in
 * gRPC metadata, checked against a list of accounts read from the environment,
 * each with a bcrypt hash and an expiry date.
 *
 * bcrypt is a parameter `matches(hash, password)`, the current time an integer
 * `now` on the same scale as the accounts' expiry dates, and the JSON and RFC 3339
 * decoders of the environment entries are parameters too.
 */
module Auth {
  import opened Wrappers
  import opened Strings
  import opened Status
  import opened Base64

  /** One account. expDate is expDateStr as parsed, on the scale of `now`. */
  datatype AuthItem = AuthItem(name: string, hash: string, expDateStr: string, expDate: int)

  /** doPasswordsMatch: bcrypt's verdict on a hash and a candidate password. */
  type PasswordMatcher = (string, string) -> bool

  /** The ways isAuthenticated can fail. */
  datatype AuthFailure =
    | EmptyToken
    | BadBase64(token: string)
    | NoColon(token: string)
    | WrongCredentials
    | Expired

  /** The error text of each failure; the decoder's own message is reduced to its first words. */
  function FailureText(f: AuthFailure): string {
    match f
    case EmptyToken => "received empty authorization token from client"
    case BadBase64(t) => "base64 decoding of received token \"" + t + "\": illegal base64 data"
    case NoColon(t) => "token \"" + t + "\" misses ':' for the formatting user:password"
    case WrongCredentials => "wrong user and/or password"
    case Expired => "expired user account"
  }

  datatype Credentials = Credentials(user: string, pass: string)

  /** The base64 text of the first authorization value, after an optional "Basic ". */
  function Token(authorization: seq<string>): string
    requires authorization != []
  {
    TrimPrefix(authorization[0], "Basic ")
  }

  /**
   * The decoding half of isAuthenticated: first value, "Basic " stripped,
   * standard base64, split at the first ':'.
   */
  function DecodeCredentials(authorization: seq<string>): (r: Result<Credentials, AuthFailure>)
    ensures authorization == [] <==> r == Failure(EmptyToken)
    ensures authorization != [] ==> (r == Failure(BadBase64(Token(authorization))) <==> Decode(Token(authorization)).None?)
    ensures r.Success? ==> (authorization != [] && Decode(Token(authorization)).Some? &&
      CharsOf(Decode(Token(authorization)).value) == r.value.user + ":" + r.value.pass && ':' !in r.value.user)
    ensures authorization != [] && r == Failure(NoColon(Token(authorization))) ==>
      Decode(Token(authorization)).Some? && ':' !in CharsOf(Decode(Token(authorization)).value)
    ensures authorization != [] && Decode(Token(authorization)).Some? ==>
      (r.Success? <==> ':' in CharsOf(Decode(Token(authorization)).value))
    ensures authorization != [] && Decode(Token(authorization)).Some? && ':' !in CharsOf(Decode(Token(authorization)).value) ==>
      r == Failure(NoColon(Token(authorization)))
  {
    if |authorization| < 1 then Failure(EmptyToken)
    else
      var token := Token(authorization);
      match Decode(token)
      case None => Failure(BadBase64(token))
      case Some(b) =>
        var creds := CharsOf(b);
        match IndexOf(creds, ':')
        case None => Failure(NoColon(token))
        case Some(i) =>
          assert creds[i] == ':';
          assert creds == creds[..i] + ":" + creds[i + 1..];
          Success(Credentials(creds[..i], creds[i + 1..]))
  }

  /** The loop of isAuthenticated: the first item named after the user decides; none means a wrong user. */
  function Lookup(lst: seq<AuthItem>, c: Credentials, now: int, matches: PasswordMatcher): (r: Option<AuthFailure>)
    ensures r.None? ==> exists i | 0 <= i < |lst| ::
      lst[i].name == c.user && matches(lst[i].hash, c.pass) && !(lst[i].expDate < now)
    ensures r.Some? ==> r.value == WrongCredentials || r.value == Expired
    ensures r == Some(Expired) ==> exists i | 0 <= i < |lst| ::
      lst[i].name == c.user && matches(lst[i].hash, c.pass) && lst[i].expDate < now
  {
    if lst == [] then Some(WrongCredentials)
    else if lst[0].name != c.user then Lookup(lst[1..], c, now, matches)
    else if !matches(lst[0].hash, c.pass) then Some(WrongCredentials)
    else if lst[0].expDate < now then Some(Expired)
    else None
  }

  /** The position of the first item with the given name. */
  function FirstNamed(lst: seq<AuthItem>, user: string): (r: Option<nat>)
    ensures r.Some? ==> (r.value < |lst| && lst[r.value].name == user &&
      forall j | 0 <= j < r.value :: lst[j].name != user)
    ensures r.None? ==> forall j | 0 <= j < |lst| :: lst[j].name != user
  {
    if lst == [] then None
    else if lst[0].name == user then Some(0)
    else match FirstNamed(lst[1..], user)
      case None => None
      case Some(i) => Some(i + 1)
  }

  /** The verdict on one item: password first, then expiry (Before is strict). */
  function Verdict(item: AuthItem, pass: string, now: int, matches: PasswordMatcher): Option<AuthFailure> {
    if !matches(item.hash, pass) then Some(WrongCredentials)
    else if item.expDate < now then Some(Expired)
    else None
  }

  /** The scan consults exactly one item: the first one carrying the user's name. */
  lemma {:induction false} LookupDecidedByFirstNamed(lst: seq<AuthItem>, c: Credentials, now: int, matches: PasswordMatcher)
    ensures Lookup(lst, c, now, matches) ==
      match FirstNamed(lst, c.user)
      case None => Some(WrongCredentials)
      case Some(i) => Verdict(lst[i], c.pass, now, matches)
  {
    if lst != [] && lst[0].name != c.user {
      LookupDecidedByFirstNamed(lst[1..], c, now, matches);
    }
  }

  /** isAuthenticated: None is a nil error. */
  function IsAuthenticated(authorization: seq<string>, lst: seq<AuthItem>, now: int, matches: PasswordMatcher): (r: Option<AuthFailure>)
    ensures DecodeCredentials(authorization).Failure? ==> r == Some(DecodeCredentials(authorization).error)
    ensures r.None? <==> (DecodeCredentials(authorization).Success? &&
      var c := DecodeCredentials(authorization).value;
      FirstNamed(lst, c.user).Some? && Verdict(lst[FirstNamed(lst, c.user).value], c.pass, now, matches).None?)
    ensures DecodeCredentials(authorization).Success? ==> r == Lookup(lst, DecodeCredentials(authorization).value, now, matches)
  {
    match DecodeCredentials(authorization)
    case Failure(f) => Some(f)
    case Success(c) =>
      LookupDecidedByFirstNamed(lst, c, now, matches);
      Lookup(lst, c, now, matches)
  }

  /** With no accounts configured, every request is rejected. */
  lemma EmptyListRejectsAll(authorization: seq<string>, now: int, matches: PasswordMatcher)
    ensures IsAuthenticated(authorization, [], now, matches).Some?
  {
  }

  /** Items after the first one with the user's name never matter, whatever they hold. */
  lemma {:induction false} LaterItemsIgnored(pre: seq<AuthItem>, first: AuthItem, post: seq<AuthItem>, c: Credentials, now: int, matches: PasswordMatcher)
    requires first.name == c.user
    requires forall j | 0 <= j < |pre| :: pre[j].name != c.user
    ensures Lookup(pre + [first] + post, c, now, matches) == Verdict(first, c.pass, now, matches)
  {
    if pre == [] {
      assert (pre + [first] + post)[0] == first;
    } else {
      assert (pre + [first] + post)[1..] == pre[1..] + [first] + post;
      LaterItemsIgnored(pre[1..], first, post, c, now, matches);
    }
  }

  predicate UniqueNames(lst: seq<AuthItem>) {
    forall i, j | 0 <= i < j < |lst| :: lst[i].name != lst[j].name
  }

  /**
   * When account names are unique, the credentials pass exactly when some account
   * has the user's name, a hash the password matches and an expiry not before now.
   */
  lemma LookupUniqueNames(lst: seq<AuthItem>, c: Credentials, now: int, matches: PasswordMatcher)
    requires UniqueNames(lst)
    ensures Lookup(lst, c, now, matches).None? <==>
      exists i | 0 <= i < |lst| :: lst[i].name == c.user && matches(lst[i].hash, c.pass) && !(lst[i].expDate < now)
  {
    LookupDecidedByFirstNamed(lst, c, now, matches);
    match FirstNamed(lst, c.user)
    case None =>
    case Some(k) =>
      if Lookup(lst, c, now, matches).None? {
        assert lst[k].name == c.user && matches(lst[k].hash, c.pass) && !(lst[k].expDate < now);
      }
  }

  /**
   * With a duplicated name the first item shadows the second: the second item
   * would accept the password, yet the request is rejected.
   */
  lemma DuplicateNameShadows(now: int)
    ensures var lst := [AuthItem("root", "h1", "", now), AuthItem("root", "h2", "", now)];
      var matches := (h: string, p: string) => h == "h2";
      Lookup(lst, Credentials("root", "pw"), now, matches) == Some(WrongCredentials) &&
      matches(lst[1].hash, "pw") && !(lst[1].expDate < now)
  {
  }

  /** doAuth: no metadata is InvalidArgument; a failed check is Unauthenticated carrying its text. */
  function DoAuth(md: Option<map<string, seq<string>>>, lst: seq<AuthItem>, now: int, matches: PasswordMatcher): (r: Option<Error>)
    ensures md.None? ==> r == Some(StatusError(InvalidArgument, "missing metadata"))
    ensures md.Some? ==> (r.None? <==> IsAuthenticated(Authorization(md.value), lst, now, matches).None?)
    ensures md.Some? && r.Some? ==>
      r.value == StatusError(Unauthenticated, FailureText(IsAuthenticated(Authorization(md.value), lst, now, matches).value))
  {
    match md
    case None => Some(StatusError(InvalidArgument, "missing metadata"))
    case Some(m) =>
      match IsAuthenticated(Authorization(m), lst, now, matches)
      case Some(f) => Some(StatusError(Unauthenticated, FailureText(f)))
      case None => None
  }

  /** md["authorization"]: a missing key reads as an empty list. */
  function Authorization(md: map<string, seq<string>>): seq<string> {
    if "authorization" in md then md["authorization"] else []
  }

  /** What an interceptor does with a call: rejects it with an error or hands it to the handler. */
  datatype Intercepted<R> = Rejected(err: Error) | Handled(reply: R)

  /** AuthInterceptor.ProcessUnary: the handler's reply only for an authenticated call. */
  function ProcessUnary<Q, R>(md: Option<map<string, seq<string>>>, lst: seq<AuthItem>, now: int,
                              matches: PasswordMatcher, req: Q, handler: Q -> R): (r: Intercepted<R>)
    ensures r.Handled? <==> DoAuth(md, lst, now, matches).None?
    ensures r.Handled? ==> r.reply == handler(req)
    ensures r.Rejected? ==> DoAuth(md, lst, now, matches) == Some(r.err)
  {
    match DoAuth(md, lst, now, matches)
    case Some(e) => Rejected(e)
    case None => Handled(handler(req))
  }

  /** AuthInterceptor.ProcessStream: the handler's error only for an authenticated stream, else doAuth's. */
  function ProcessStream<S>(md: Option<map<string, seq<string>>>, lst: seq<AuthItem>, now: int,
                            matches: PasswordMatcher, srv: S, handler: S -> Option<Error>): (r: Intercepted<Option<Error>>)
    ensures r.Handled? <==> DoAuth(md, lst, now, matches).None?
    ensures r.Handled? ==> r.reply == handler(srv)
    ensures r.Rejected? ==> DoAuth(md, lst, now, matches) == Some(r.err)
  {
    match DoAuth(md, lst, now, matches)
    case Some(e) => Rejected(e)
    case None => Handled(handler(srv))
  }

  /** A call without metadata never reaches its handler, whatever the account list. */
  lemma NoMetadataNeverHandled<Q, R>(lst: seq<AuthItem>, now: int, matches: PasswordMatcher, req: Q, handler: Q -> R)
    ensures ProcessUnary(None, lst, now, matches, req, handler) == Rejected(StatusError(InvalidArgument, "missing metadata"))
  {
  }

  // ---------------------------------------------------------------------------
  // The client side: BasicAuthCredentials.GetRequestMetadata.

  /** {"authorization": "Basic " + base64(auth)}. */
  function GetRequestMetadata(auth: string): (md: map<string, string>)
    requires IsByteString(auth)
    ensures md.Keys == {"authorization"}
    ensures HasPrefix(md["authorization"], "Basic ")
  {
    map["authorization" := "Basic " + Encode(BytesOf(auth))]
  }

  /**
   * The metadata the client attaches decodes back, on the server, to the same
   * user and password, for any user without ':' (the password may contain ':').
   */
  lemma MetadataRoundTrip(user: string, pass: string)
    requires IsByteString(user) && IsByteString(pass) && ':' !in user
    ensures var auth := user + ":" + pass;
      IsByteString(auth) &&
      DecodeCredentials([GetRequestMetadata(auth)["authorization"]]) == Success(Credentials(user, pass))
  {
    var auth := user + ":" + pass;
    assert IsByteString(auth) by {
      forall i | 0 <= i < |auth| ensures auth[i] as int < 256 {
        if i < |user| { assert auth[i] == user[i]; }
        else if i > |user| { assert auth[i] == pass[i - |user| - 1]; }
      }
    }
    var encoded := Encode(BytesOf(auth));
    TrimPrefixJoin("Basic ", encoded);
    assert Token(["Basic " + encoded]) == encoded;
    DecodeEncode(BytesOf(auth));
    CharsOfBytesOf(auth);
    IndexOfJoin(user, ':', pass);
    assert auth == user + [':'] + pass;
    var creds := CharsOf(BytesOf(auth));
    assert creds[..|user|] == user;
    assert creds[|user| + 1..] == pass;
  }

  /** A client configured with an account's user and password is let through while the account is valid. */
  lemma MetadataAuthenticates(user: string, pass: string, lst: seq<AuthItem>, i: nat, now: int, matches: PasswordMatcher)
    requires IsByteString(user) && IsByteString(pass) && ':' !in user
    requires FirstNamed(lst, user) == Some(i)
    requires matches(lst[i].hash, pass) && !(lst[i].expDate < now)
    ensures IsByteString(user + ":" + pass)
    ensures DoAuth(Some(map["authorization" := [GetRequestMetadata(user + ":" + pass)["authorization"]]]), lst, now, matches).None?
  {
    MetadataRoundTrip(user, pass);
    LookupDecidedByFirstNamed(lst, Credentials(user, pass), now, matches);
  }

  // ---------------------------------------------------------------------------
  // ParseAuthList.

  const AuthEnvPrefix: string := "POG_AUTH_"

  /** The three JSON fields of an account (ExpDate is not read from JSON). */
  datatype AuthJson = AuthJson(name: string, hash: string, expDateStr: string)

  /** json.Unmarshal of an entry's value. */
  type JsonDecoder = string -> Option<AuthJson>

  /** time.Parse(time.RFC3339, ·), on the scale of `now`. */
  type TimeParser = string -> Option<int>

  /** One environment entry KEY=VALUE: an account, or nothing when it is not one or is malformed. */
  function ParseEntry(e: string, unmarshal: JsonDecoder, parseTime: TimeParser): (r: Option<AuthItem>)
    ensures r.Some? ==> HasPrefix(e, AuthEnvPrefix) && parseTime(r.value.expDateStr) == Some(r.value.expDate)
    ensures r.Some? ==> (IndexOf(e, '=').Some? &&
      var i := IndexOf(e, '=').value;
      HasPrefix(e[..i], AuthEnvPrefix) &&
      unmarshal(e[i + 1..]) == Some(AuthJson(r.value.name, r.value.hash, r.value.expDateStr)))
    ensures !HasPrefix(e, AuthEnvPrefix) ==> r.None?
  {
    match IndexOf(e, '=')
    case None => None
    case Some(i) =>
      var key := e[..i];
      var value := e[i + 1..];
      if !HasPrefix(key, AuthEnvPrefix) then None
      else
        assert e[..|AuthEnvPrefix|] == key[..|AuthEnvPrefix|];
        match unmarshal(value)
        case None => None
        case Some(j) =>
          match parseTime(j.expDateStr)
          case None => None
          case Some(t) => Some(AuthItem(j.name, j.hash, j.expDateStr, t))
  }

  /**
   * An entry KEY=VALUE whose key has the POG_AUTH_ prefix, whose value unmarshals
   * and whose expiry parses yields that account; the value may itself hold '='.
   */
  lemma AcceptsWellFormed(key: string, value: string, unmarshal: JsonDecoder, parseTime: TimeParser, j: AuthJson, t: int)
    requires '=' !in key && HasPrefix(key, AuthEnvPrefix)
    requires unmarshal(value) == Some(j) && parseTime(j.expDateStr) == Some(t)
    ensures ParseEntry(key + "=" + value, unmarshal, parseTime) == Some(AuthItem(j.name, j.hash, j.expDateStr, t))
  {
    var e := key + "=" + value;
    IndexOfJoin(key, '=', value);
    assert e[..|key|] == key;
    assert e[|key| + 1..] == value;
  }

  /** The accounts of an environment, in its order, malformed entries skipped. */
  function ParseEntries(env: seq<string>, unmarshal: JsonDecoder, parseTime: TimeParser): seq<AuthItem> {
    Collect(env, EntryParser(unmarshal, parseTime))
  }

  /** The accounts one environment entry contributes: none or one. */
  function EntryItems(e: string, unmarshal: JsonDecoder, parseTime: TimeParser): seq<AuthItem> {
    match ParseEntry(e, unmarshal, parseTime)
    case None => []
    case Some(a) => [a]
  }

  function EntryParser(unmarshal: JsonDecoder, parseTime: TimeParser): string -> seq<AuthItem> {
    e => EntryItems(e, unmarshal, parseTime)
  }

  /** What `items` gives for each entry of `env`, concatenated in order. */
  function Collect(env: seq<string>, items: string -> seq<AuthItem>): seq<AuthItem> {
    if env == [] then [] else items(env[0]) + Collect(env[1..], items)
  }

  lemma {:induction false} CollectAppend(a: seq<string>, b: seq<string>, items: string -> seq<AuthItem>)
    ensures Collect(a + b, items) == Collect(a, items) + Collect(b, items)
  {
    if a == [] {
      assert a + b == b;
    } else {
      assert (a + b)[0] == a[0];
      assert (a + b)[1..] == a[1..] + b;
      CollectAppend(a[1..], b, items);
    }
  }

  /** Parsing is entry by entry: the accounts of two parts of the environment, in order. */
  lemma ParseEntriesAppend(a: seq<string>, b: seq<string>, unmarshal: JsonDecoder, parseTime: TimeParser)
    ensures ParseEntries(a + b, unmarshal, parseTime) == ParseEntries(a, unmarshal, parseTime) + ParseEntries(b, unmarshal, parseTime)
  {
    CollectAppend(a, b, EntryParser(unmarshal, parseTime));
  }

  /** A malformed entry is skipped; it does not stop the parse. */
  lemma SkipsMalformed(a: seq<string>, bad: string, b: seq<string>, unmarshal: JsonDecoder, parseTime: TimeParser)
    requires ParseEntry(bad, unmarshal, parseTime).None?
    ensures ParseEntries(a + [bad] + b, unmarshal, parseTime) ==
      ParseEntries(a, unmarshal, parseTime) + ParseEntries(b, unmarshal, parseTime)
  {
    ParseEntriesAppend(a + [bad], b, unmarshal, parseTime);
    ParseEntriesAppend(a, [bad], unmarshal, parseTime);
    OneEntry(bad, unmarshal, parseTime);
  }

  /** A well-formed entry adds its account, in place, between the accounts of the entries around it. */
  lemma KeepsWellFormed(a: seq<string>, key: string, value: string, b: seq<string>,
                        unmarshal: JsonDecoder, parseTime: TimeParser, j: AuthJson, t: int)
    requires '=' !in key && HasPrefix(key, AuthEnvPrefix)
    requires unmarshal(value) == Some(j) && parseTime(j.expDateStr) == Some(t)
    ensures ParseEntries(a + [key + "=" + value] + b, unmarshal, parseTime) ==
      ParseEntries(a, unmarshal, parseTime) + [AuthItem(j.name, j.hash, j.expDateStr, t)] + ParseEntries(b, unmarshal, parseTime)
  {
    var e := key + "=" + value;
    ParseEntriesAppend(a + [e], b, unmarshal, parseTime);
    ParseEntriesAppend(a, [e], unmarshal, parseTime);
    OneEntry(e, unmarshal, parseTime);
    AcceptsWellFormed(key, value, unmarshal, parseTime, j, t);
  }

  /** A one-entry environment contributes exactly that entry's accounts. */
  lemma OneEntry(e: string, unmarshal: JsonDecoder, parseTime: TimeParser)
    ensures ParseEntries([e], unmarshal, parseTime) == EntryItems(e, unmarshal, parseTime)
  {
    var f := EntryParser(unmarshal, parseTime);
    assert [e][1..] == [];
    assert Collect([e], f) == f(e) + Collect([], f);
    assert f(e) == EntryItems(e, unmarshal, parseTime);
  }

  /** Every account read has an expiry date that parses to its recorded date. */
  lemma {:induction false} ParsedItemsWellFormed(env: seq<string>, unmarshal: JsonDecoder, parseTime: TimeParser)
    ensures forall k | 0 <= k < |ParseEntries(env, unmarshal, parseTime)| ::
      parseTime(ParseEntries(env, unmarshal, parseTime)[k].expDateStr) == Some(ParseEntries(env, unmarshal, parseTime)[k].expDate)
  {
    if env != [] {
      ParsedItemsWellFormed(env[1..], unmarshal, parseTime);
      var x := EntryItems(env[0], unmarshal, parseTime);
      assert EntryParser(unmarshal, parseTime)(env[0]) == x;
      assert ParseEntries(env, unmarshal, parseTime) == x + ParseEntries(env[1..], unmarshal, parseTime);
    }
  }

  /** An environment without POG_AUTH_ entries configures no account, so every client is rejected. */
  lemma {:induction false} NoPrefixedEntriesNoAccounts(env: seq<string>, unmarshal: JsonDecoder, parseTime: TimeParser)
    requires forall k | 0 <= k < |env| :: !HasPrefix(env[k], AuthEnvPrefix)
    ensures ParseEntries(env, unmarshal, parseTime) == []
  {
    if env != [] {
      NoPrefixedEntriesNoAccounts(env[1..], unmarshal, parseTime);
    }
  }

  /** ParseAuthList over os.Environ(): appends each account in turn. */
  method ParseAuthList(env: seq<string>, unmarshal: JsonDecoder, parseTime: TimeParser) returns (lst: seq<AuthItem>)
    ensures lst == ParseEntries(env, unmarshal, parseTime)
  {
    lst := [];
    var i := 0;
    while i < |env|
      invariant 0 <= i <= |env|
      invariant lst == ParseEntries(env[..i], unmarshal, parseTime)
    {
      ParseEntriesAppend(env[..i], [env[i]], unmarshal, parseTime);
      OneEntry(env[i], unmarshal, parseTime);
      assert env[..i + 1] == env[..i] + [env[i]];
      var e := env[i];
      i := i + 1;
      var eq := IndexOf(e, '=');
      if eq.None? {
        continue;
      }
      var key := e[..eq.value];
      var value := e[eq.value + 1..];
      if !HasPrefix(key, AuthEnvPrefix) {
        continue;
      }
      var ai := unmarshal(value);
      if ai.None? {
        continue;
      }
      var expDate := parseTime(ai.value.expDateStr);
      if expDate.None? {
        continue;
      }
      lst := lst + [AuthItem(ai.value.name, ai.value.hash, ai.value.expDateStr, expDate.value)];
    }
    assert env[..|env|] == env;
  }
}
