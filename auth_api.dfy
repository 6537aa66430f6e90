/** The mock session client: registration, credential check, profile lookup and logout
    against a record store whose answers are given as parameters, plus the two request
    interceptors that read and clear the shared store. */
module AuthApi {
  import opened Wrappers
  import opened UserJson
  import opened LocalStorage

  /** A record as the store keeps it, password in clear text. */
  datatype UserRecord = UserRecord(id: string, name: string, email: string, password: string)

  /** A failed request: the response's status code, `None` when no response arrived. */
  datatype HttpError = HttpError(status: Option<int>)

  /** The outcome of one request to the record store. */
  datatype Response<T> = Ok(data: T) | Failed(error: HttpError)

  /** The result object every operation returns; fields it leaves out are `None`. */
  datatype Envelope = Envelope(success: bool, message: Option<string>, user: Option<User>, token: Option<string>)

  const RegisteredMessage := "Registration completed successfully"
  const EmailTakenMessage := "Email already exists"
  const RegisterErrorMessage := "Registration error. Please try again"
  const LoginMessage := "Login successful"
  const BadCredentialsMessage := "Invalid email or password"
  const LoginErrorMessage := "Login error. Please try again"
  const NotFoundMessage := "User not found"
  const ProfileErrorMessage := "Error fetching user information"
  const LogoutMessage := "Logout successful"

  const TokenPrefix := "mock_token_"
  /** The login entry point, target of the 401 navigation and of the route guard's redirect. */
  const LoginPath := "/login"
  const AuthorizationHeader := "Authorization"
  const Unauthorized := 401
  const BadRequest := 400

  function Failure(message: string): Envelope
  {
    Envelope(false, Some(message), None, None)
  }

  /** The identity handed to callers: the record without its password. */
  function Public(r: UserRecord): (u: User)
    ensures u.id == r.id && u.name == r.name && u.email == r.email
  {
    User(r.id, r.name, r.email)
  }

  /** The identity handed out never depends on the password the record holds. */
  lemma PublicIgnoresPassword(r: UserRecord, password: string)
    ensures Public(r.(password := password)) == Public(r)
  {
  }

  /** `Array.prototype.find`, returning the position of the element it finds. */
  function Find<T>(s: seq<T>, p: T -> bool): (r: Option<nat>)
    ensures r.Some? ==> r.value < |s| && p(s[r.value])
    ensures r.Some? ==> forall j :: 0 <= j < r.value ==> !p(s[j])
    ensures r.None? <==> forall j :: 0 <= j < |s| ==> !p(s[j])
  {
    if s == [] then None
    else if p(s[0]) then Some(0)
    else
      match Find(s[1..], p)
      case None => None
      case Some(k) => Some(k + 1)
  }

  /** Decimal text of a non-negative integer, as a template literal prints `Date.now()`. */
  function Decimal(n: nat): (digits: string)
    ensures |digits| >= 1
    ensures forall i :: 0 <= i < |digits| ==> '0' <= digits[i] <= '9'
  {
    if n < 10 then [(n + '0' as int) as char]
    else Decimal(n / 10) + [(n % 10 + '0' as int) as char]
  }

  /** The number a string of decimal digits denotes. */
  function DecimalValue(digits: string): nat
  {
    if digits == [] then 0
    else
      var last := digits[|digits| - 1] as int - '0' as int;
      DecimalValue(digits[..|digits| - 1]) * 10 + (if 0 <= last then last else 0)
  }

  lemma {:induction false} DecimalRoundTrip(n: nat)
    ensures DecimalValue(Decimal(n)) == n
  {
    if n >= 10 {
      DecimalRoundTrip(n / 10);
      var d := Decimal(n);
      assert d[..|d| - 1] == Decimal(n / 10);
    }
  }

  /** `s.split(sep)` for a one-character separator. */
  function Split(s: string, sep: char): (parts: seq<string>)
    ensures |parts| >= 1
    ensures forall i :: 0 <= i < |parts| ==> sep !in parts[i]
  {
    if s == [] then [[]]
    else
      var tail := Split(s[1..], sep);
      if s[0] == sep then [[]] + tail
      else [[s[0]] + tail[0]] + tail[1..]
  }

  /** `parts.join(sep)`. */
  function Join(parts: seq<string>, sep: char): string
    requires |parts| >= 1
  {
    if |parts| == 1 then parts[0] else parts[0] + [sep] + Join(parts[1..], sep)
  }

  lemma {:induction false} SplitThrough(a: string, sep: char, rest: string)
    requires sep !in a
    ensures Split(a + rest, sep) == [a + Split(rest, sep)[0]] + Split(rest, sep)[1..]
  {
    var parts := Split(rest, sep);
    if a == [] {
      assert a + rest == rest && a + parts[0] == parts[0];
      assert parts == [parts[0]] + parts[1..];
    } else {
      SplitThrough(a[1..], sep, rest);
      assert (a + rest)[0] == a[0] != sep;
      assert (a + rest)[1..] == a[1..] + rest;
      var tail := Split(a[1..] + rest, sep);
      assert Split(a + rest, sep) == [[a[0]] + tail[0]] + tail[1..];
      assert tail[0] == a[1..] + parts[0] && tail[1..] == parts[1..];
      assert [a[0]] + (a[1..] + parts[0]) == a + parts[0];
    }
  }

  /** Splitting undoes joining when no part holds the separator. */
  lemma {:induction false} SplitJoin(parts: seq<string>, sep: char)
    requires |parts| >= 1
    requires forall i :: 0 <= i < |parts| ==> sep !in parts[i]
    ensures Split(Join(parts, sep), sep) == parts
  {
    if |parts| == 1 {
      SplitThrough(parts[0], sep, []);
      assert parts[0] + [] == parts[0];
    } else {
      SplitJoin(parts[1..], sep);
      var rest := Join(parts[1..], sep);
      assert parts[0] + [sep] + rest == parts[0] + ([sep] + rest);
      SplitThrough(parts[0], sep, [sep] + rest);
      assert ([sep] + rest)[1..] == rest;
      assert Split([sep] + rest, sep) == [[]] + Split(rest, sep);
      assert Join(parts, sep) == parts[0] + ([sep] + rest);
      assert Split(Join(parts, sep), sep) == [parts[0] + []] + parts[1..];
      assert parts[0] + [] == parts[0];
      assert parts == [parts[0]] + parts[1..];
    }
  }

  /** Joining undoes splitting. */
  lemma {:induction false} JoinSplit(s: string, sep: char)
    ensures Join(Split(s, sep), sep) == s
  {
    if s != [] {
      JoinSplit(s[1..], sep);
      var tail := Split(s[1..], sep);
      if s[0] == sep {
        assert ([[]] + tail)[1..] == tail;
        assert s == [s[0]] + s[1..];
      } else {
        var parts := [[s[0]] + tail[0]] + tail[1..];
        assert parts[1..] == tail[1..];
        if |tail| == 1 {
          assert s == [s[0]] + s[1..];
        } else {
          assert Join(tail, sep) == tail[0] + [sep] + Join(tail[1..], sep);
          assert s == [s[0]] + s[1..];
        }
      }
    }
  }

  /** The token `login` fabricates: `mock_token_<id>_<now>`. */
  function MakeToken(id: string, now: nat): (token: string)
    ensures |token| > |TokenPrefix| + |id| && token[..|TokenPrefix|] == TokenPrefix
    ensures token[|TokenPrefix|..|TokenPrefix| + |id|] == id
  {
    TokenPrefix + id + "_" + Decimal(now)
  }

  /** `token.split("_")[2]`; `None` is the `undefined` of a token with fewer than three parts. */
  function ExtractUserId(token: string): (userId: Option<string>)
    ensures userId.Some? ==> '_' !in userId.value
  {
    var parts := Split(token, '_');
    if |parts| > 2 then Some(parts[2]) else None
  }

  /** A token splits into `mock`, `token`, the id and the timestamp when the id holds no `_`. */
  lemma TokenParts(id: string, now: nat)
    requires '_' !in id
    ensures Split(MakeToken(id, now), '_') == ["mock", "token", id, Decimal(now)]
    ensures MakeToken(id, now) != ""
  {
    var digits := Decimal(now);
    var parts := ["mock", "token", id, digits];
    assert parts[1..] == ["token", id, digits] && parts[2..] == [id, digits] && parts[3..] == [digits];
    assert Join(parts[2..], '_') == id + "_" + digits;
    assert Join(parts[1..], '_') == "token" + "_" + (id + "_" + digits);
    assert Join(parts, '_') == "mock" + "_" + ("token" + "_" + (id + "_" + digits));
    assert Join(parts, '_') == MakeToken(id, now);
    SplitJoin(parts, '_');
  }

  /** The profile lookup recovers exactly the id the login put in the token, and the timestamp
      field denotes the login time. */
  lemma TokenRoundTrip(id: string, now: nat)
    requires '_' !in id
    ensures ExtractUserId(MakeToken(id, now)) == Some(id)
    ensures |Split(MakeToken(id, now), '_')| == 4
    ensures DecimalValue(Split(MakeToken(id, now), '_')[3]) == now
  {
    TokenParts(id, now);
    DecimalRoundTrip(now);
  }

  /** The first part of a split is unchanged by what follows a separator. */
  lemma {:induction false} SplitHead(a: string, sep: char, rest: string)
    requires rest != [] && rest[0] == sep
    ensures Split(a + rest, sep)[0] == Split(a, sep)[0]
  {
    if a == [] {
      assert a + rest == rest;
    } else {
      SplitHead(a[1..], sep, rest);
      assert (a + rest)[0] == a[0] && (a + rest)[1..] == a[1..] + rest;
    }
  }

  /** The first part of a split is the string up to its first separator, or all of it. */
  lemma {:induction false} SplitFirst(s: string, sep: char)
    ensures |Split(s, sep)[0]| <= |s| && s[..|Split(s, sep)[0]|] == Split(s, sep)[0]
    ensures sep !in s ==> Split(s, sep)[0] == s
    ensures sep in s ==> |Split(s, sep)[0]| < |s| && s[|Split(s, sep)[0]|] == sep
  {
    if s != [] && s[0] != sep {
      SplitFirst(s[1..], sep);
      var h := Split(s[1..], sep)[0];
      assert Split(s, sep)[0] == [s[0]] + h;
      assert s == [s[0]] + s[1..];
      assert sep in s ==> sep in s[1..];
    }
  }

  /** A part free of the separator, the separator, then the rest: the part comes off whole. */
  lemma SplitAfter(a: string, sep: char, rest: string)
    requires sep !in a
    ensures Split(a + [sep] + rest, sep) == [a] + Split(rest, sep)
  {
    assert a + [sep] + rest == a + ([sep] + rest);
    SplitThrough(a, sep, [sep] + rest);
    assert ([sep] + rest)[0] == sep && ([sep] + rest)[1..] == rest;
    assert Split([sep] + rest, sep) == [[]] + Split(rest, sep);
    assert a + [] == a;
  }

  /** A login token is `mock`, `_`, `token`, `_`, then the id and the stamp `_<now>`. */
  lemma TokenShape(id: string, now: nat)
    ensures MakeToken(id, now) == "mock" + ['_'] + ("token" + ['_'] + (id + ("_" + Decimal(now))))
  {
    assert TokenPrefix == "mock" + ['_'] + "token" + ['_'];
  }

  /** The third `_`-separated part of a login token is the first part of the id. */
  lemma TokenThirdPart(id: string, now: nat)
    ensures |Split(MakeToken(id, now), '_')| > 2
    ensures Split(MakeToken(id, now), '_')[2] == Split(id, '_')[0]
  {
    var stamp := "_" + Decimal(now);
    var tail := id + stamp;
    TokenShape(id, now);
    SplitAfter("mock", '_', "token" + ['_'] + tail);
    SplitAfter("token", '_', tail);
    SplitHead(id, '_', stamp);
  }

  /** For every id, the profile lookup reads back from a login token the id up to its first
      `_`: all of an id without `_`, and only a prefix of one that holds `_`. */
  lemma ExtractedIdIsFirstSegment(id: string, now: nat)
    ensures ExtractUserId(MakeToken(id, now)) == Some(Split(id, '_')[0])
    ensures '_' !in id ==> ExtractUserId(MakeToken(id, now)) == Some(id)
    ensures '_' in id ==>
      var cut := Split(id, '_')[0]; |cut| < |id| && id[..|cut|] == cut && id[|cut|] == '_'
  {
    TokenThirdPart(id, now);
    SplitFirst(id, '_');
  }

  predicate HasCredentials(r: UserRecord, email: string, password: string)
  {
    r.email == email && r.password == password
  }

  /** `authAPI.register` once the store has answered the creation request. */
  function RegisterResult(response: Response<UserRecord>): (e: Envelope)
    ensures e.success <==> response.Ok?
    ensures e.success ==> e == Envelope(true, Some(RegisteredMessage), Some(Public(response.data)), None)
    ensures response.Failed? && response.error.status == Some(BadRequest) ==> e == Failure(EmailTakenMessage)
    ensures response.Failed? && response.error.status != Some(BadRequest) ==> e == Failure(RegisterErrorMessage)
  {
    match response
    case Ok(created) => Envelope(true, Some(RegisteredMessage), Some(Public(created)), None)
    case Failed(error) =>
      if error.status == Some(BadRequest) then Failure(EmailTakenMessage) else Failure(RegisterErrorMessage)
  }

  /** `authAPI.login` once the store has answered the list request at time `now`. */
  function LoginResult(email: string, password: string, response: Response<seq<UserRecord>>, now: nat): (e: Envelope)
    ensures response.Failed? ==> e == Failure(LoginErrorMessage)
    ensures response.Ok? ==>
      (e.success <==> exists i :: 0 <= i < |response.data| && HasCredentials(response.data[i], email, password))
    ensures response.Ok? && !e.success ==> e == Failure(BadCredentialsMessage)
    ensures e.success ==>
      exists i :: 0 <= i < |response.data| && HasCredentials(response.data[i], email, password) &&
        (forall j :: 0 <= j < i ==> !HasCredentials(response.data[j], email, password)) &&
        e == Envelope(true, Some(LoginMessage), Some(Public(response.data[i])), Some(MakeToken(response.data[i].id, now)))
  {
    match response
    case Failed(_) => Failure(LoginErrorMessage)
    case Ok(users) =>
      match Find(users, (r: UserRecord) => HasCredentials(r, email, password))
      case Some(i) => Envelope(true, Some(LoginMessage), Some(Public(users[i])), Some(MakeToken(users[i].id, now)))
      case None => Failure(BadCredentialsMessage)
  }

  /** `authAPI.getProfile` once the store has answered the list request, given the stored token. */
  function ProfileResult(response: Response<seq<UserRecord>>, storedToken: Option<string>): (e: Envelope)
    ensures response.Failed? ==> e == Failure(ProfileErrorMessage)
    ensures response.Ok? && (!Truthy(storedToken) || ExtractUserId(storedToken.value).None?) ==> e == Failure(NotFoundMessage)
    ensures response.Ok? && !e.success ==> e == Failure(NotFoundMessage)
    ensures e.success <==>
      response.Ok? && Truthy(storedToken) && ExtractUserId(storedToken.value).Some? &&
      exists i :: 0 <= i < |response.data| && response.data[i].id == ExtractUserId(storedToken.value).value
    ensures e.success ==>
      exists i :: 0 <= i < |response.data| && response.data[i].id == ExtractUserId(storedToken.value).value &&
        (forall j :: 0 <= j < i ==> response.data[j].id != response.data[i].id) &&
        e == Envelope(true, None, Some(Public(response.data[i])), None)
  {
    match response
    case Failed(_) => Failure(ProfileErrorMessage)
    case Ok(users) =>
      if Truthy(storedToken) then
        match ExtractUserId(storedToken.value)
        case None => Failure(NotFoundMessage)
        case Some(userId) =>
          match Find(users, (r: UserRecord) => r.id == userId)
          case Some(i) => Envelope(true, None, Some(Public(users[i])), None)
          case None => Failure(NotFoundMessage)
      else Failure(NotFoundMessage)
  }

  /** When record `i` is the first to hold the credentials, has an id without `_`, and no
      earlier record shares its id, the login succeeds and a profile fetched with its token
      names that record's identity. */
  lemma ProfileAfterLogin(email: string, password: string, users: seq<UserRecord>, now: nat, i: nat)
    requires i < |users| && HasCredentials(users[i], email, password)
    requires forall j :: 0 <= j < i ==> !HasCredentials(users[j], email, password) && users[j].id != users[i].id
    requires '_' !in users[i].id
    ensures LoginResult(email, password, Ok(users), now).success
    ensures ProfileResult(Ok(users), LoginResult(email, password, Ok(users), now).token) ==
            Envelope(true, None, Some(Public(users[i])), None)
  {
    var login := LoginResult(email, password, Ok(users), now);
    var m :| 0 <= m < |users| && HasCredentials(users[m], email, password) &&
      (forall j :: 0 <= j < m ==> !HasCredentials(users[j], email, password)) &&
      login == Envelope(true, Some(LoginMessage), Some(Public(users[m])), Some(MakeToken(users[m].id, now)));
    assert m == i;
    TokenParts(users[i].id, now);
    TokenRoundTrip(users[i].id, now);
    var profile := ProfileResult(Ok(users), login.token);
    assert profile.success;
    var k :| 0 <= k < |users| && users[k].id == users[i].id &&
      (forall j :: 0 <= j < k ==> users[j].id != users[k].id) &&
      profile == Envelope(true, None, Some(Public(users[k])), None);
    assert k == i;
  }

  /** The store once the response interceptor has seen the outcome of a request. */
  function AfterResponse<T>(items: map<string, string>, response: Response<T>): (r: map<string, string>)
    ensures r.Keys <= items.Keys && forall k :: k in r ==> r[k] == items[k]
    ensures response.Ok? ==> r == items
    ensures response.Failed? && response.error.status == Some(Unauthorized) ==> AuthTokenKey !in r && UserKey !in r
  {
    if response.Failed? && response.error.status == Some(Unauthorized) then Cleared(items) else items
  }

  /** The response interceptor's error path: a 401 from any request removes both session keys
      and sends the page to the login route; the error then reaches the caller's handler. */
  method OnResponseError(storage: Storage, error: HttpError) returns (navigateTo: Option<string>)
    modifies storage
    ensures error.status == Some(Unauthorized) ==> storage.items == Cleared(old(storage.items)) && navigateTo == Some(LoginPath)
    ensures error.status != Some(Unauthorized) ==> storage.items == old(storage.items) && navigateTo == None
  {
    navigateTo := None;
    if error.status == Some(Unauthorized) {
      storage.RemoveSession();
      navigateTo := Some(LoginPath);
    }
  }

  /** The headers of one outgoing request, which the request interceptor changes in place. */
  class RequestConfig {
    var headers: map<string, string>

    constructor (headers: map<string, string>)
      ensures this.headers == headers
    {
      this.headers := headers;
    }
  }

  /** The request interceptor: a bearer header exactly when a (non-empty) token is stored. */
  method AttachToken(config: RequestConfig, storage: Storage)
    modifies config
    ensures Truthy(Get(storage.items, AuthTokenKey)) ==>
      config.headers == old(config.headers)[AuthorizationHeader := "Bearer " + storage.items[AuthTokenKey]]
    ensures !Truthy(Get(storage.items, AuthTokenKey)) ==> config.headers == old(config.headers)
  {
    var token := storage.GetItem(AuthTokenKey);
    if Truthy(token) {
      config.headers := config.headers[AuthorizationHeader := "Bearer " + token.value];
    }
  }

  /** `authAPI.register`, the store's answer given. */
  method Register(storage: Storage, response: Response<UserRecord>) returns (e: Envelope)
    modifies storage
    ensures e == RegisterResult(response)
    ensures storage.items == AfterResponse(old(storage.items), response)
  {
    if response.Failed? {
      var navigateTo := OnResponseError(storage, response.error);
    }
    e := RegisterResult(response);
  }

  /** `authAPI.login`, the store's answer and the clock given. */
  method Login(storage: Storage, email: string, password: string, response: Response<seq<UserRecord>>, now: nat)
    returns (e: Envelope)
    modifies storage
    ensures e == LoginResult(email, password, response, now)
    ensures storage.items == AfterResponse(old(storage.items), response)
  {
    if response.Failed? {
      var navigateTo := OnResponseError(storage, response.error);
    }
    e := LoginResult(email, password, response, now);
  }

  /** `authAPI.getProfile`: the token is read from the store after the list request succeeds. */
  method GetProfile(storage: Storage, response: Response<seq<UserRecord>>) returns (e: Envelope)
    modifies storage
    ensures e == ProfileResult(response, Get(old(storage.items), AuthTokenKey))
    ensures storage.items == AfterResponse(old(storage.items), response)
  {
    if response.Failed? {
      var navigateTo := OnResponseError(storage, response.error);
      e := ProfileResult(response, None);
    } else {
      var token := storage.GetItem(AuthTokenKey);
      e := ProfileResult(response, token);
    }
  }

  /** `authAPI.logout`: purely local, always succeeds. */
  method Logout(storage: Storage) returns (e: Envelope)
    modifies storage
    ensures e == Envelope(true, Some(LogoutMessage), None, None)
    ensures AuthTokenKey !in storage.items && UserKey !in storage.items
    ensures storage.items == Cleared(old(storage.items))
  {
    storage.RemoveSession();
    e := Envelope(true, Some(LogoutMessage), None, None);
  }
}
