/**
 * The login-response resolver. A successful sign-in answer is searched, in a
 * fixed order of fallbacks, for a bearer token, a display name, a user id and
 * a refresh token; a failed one is searched for an error message. The body
 * is what Gson made of the answer: typed top-level fields, and `data` and
 * `user` left as generic JSON objects.
 */
module AuthRepository {
  import opened Wrappers
  import opened Text
  import opened JsonTree

  /** The deserialised success body. `success` and `message` are never read. */
  datatype LoginResponse = LoginResponse(
    success: Option<bool>,
    message: Option<string>,
    token: Option<string>,
    accessTokenSnake: Option<string>,
    accessTokenCamel: Option<string>,
    refreshToken: Option<string>,
    data: Option<JsonObject>,
    user: Option<JsonObject>,
    name: Option<string>)

  /**
   * One HTTP answer to the sign-in request: its status code and status
   * message, the success body if there is one, and what Gson parsed from the
   * error body (`None` when there is no error body, or it is empty or not a
   * JSON object).
   */
  datatype HttpResponse = HttpResponse(
    code: int,
    statusMessage: string,
    body: Option<LoginResponse>,
    errorJson: Option<JsonObject>)

  /** What a successful login yields. */
  datatype AuthResult = AuthResult(
    token: string,
    refreshToken: Option<string>,
    userName: string,
    rawUserData: string,
    userId: Option<string>)

  /**
   * Why a login fails: an `IllegalStateException` raised by the resolver
   * with the given message, or Gson refusing to read the member `key` as a
   * string (it holds an object, or an array that does not have exactly one
   * element, or a JSON null inside such an array).
   */
  datatype LoginError = Raised(message: string) | NotAString(key: string)

  const EMPTY_BODY := "Respuesta vacía del servidor"
  const NO_VALID_TOKEN := "El servidor no devolvió un token válido"

  const DATA_TOKEN_KEYS: seq<string> := ["accessToken", "token", "access_token"]
  const USER_TOKEN_KEYS: seq<string> := ["token", "access_token", "accessToken"]
  const NAME_KEYS: seq<string> := ["name", "username"]

  /** Retrofit's `isSuccessful`: a 2xx status. */
  predicate IsSuccessful(code: int) {
    200 <= code < 300
  }

  /** Gson's `JsonElement.getAsString`; `Err` where Gson throws. */
  function AsString(j: Json): (r: Result<string, ()>)
    ensures j.JStr? ==> r == Ok(j.str)
    ensures j.JNum? ==> r == Ok(j.literal)
    ensures j.JBool? ==> r == Ok(if j.truth then "true" else "false")
    ensures j.JArr? ==> r == (if |j.items| == 1 then AsString(j.items[0]) else Err(()))
    ensures (j.JObj? || j.JNull?) ==> r.Err?
  {
    match j
    case JStr(s) => Ok(s)
    case JNum(literal) => Ok(literal)
    case JBool(b) => Ok(if b then "true" else "false")
    case JNull => Err(())
    case JObj(_) => Err(())
    case JArr(items) => if |items| == 1 then AsString(items[0]) else Err(())
  }

  /**
   * `JsonObject.safeString(key)`: null when the member is absent or JSON
   * null, else the member read as a string, which may throw.
   */
  function SafeString(o: JsonObject, key: string): (r: Result<Option<string>, LoginError>)
    ensures r == Ok(None) <==> key !in o || o[key].JNull?
    ensures r.Err? <==> key in o && !o[key].JNull? && AsString(o[key]).Err?
    ensures r.Err? ==> r.error == NotAString(key)
    ensures key in o && !o[key].JNull? && AsString(o[key]).Ok? ==> r == Ok(Some(AsString(o[key]).value))
    ensures key in o && o[key].JStr? ==> r == Ok(Some(o[key].str))
  {
    if key in o && !o[key].JNull? then
      match AsString(o[key])
      case Ok(s) => Ok(Some(s))
      case Err(_) => Err(NotAString(key))
    else
      Ok(None)
  }

  /** `JsonObject.safeObject(key)`: the member if it is a JSON object, else null. */
  function SafeObject(o: JsonObject, key: string): (r: Option<JsonObject>)
    ensures r.Some? <==> key in o && o[key].JObj?
    ensures r.Some? ==> r.value == o[key].fields
  {
    if key in o && o[key].JObj? then Some(o[key].fields) else None
  }

  /** `o?.safeString(key)` on an object that may itself be null. */
  function Field(o: Option<JsonObject>, key: string): Result<Option<string>, LoginError> {
    if o.None? then Ok(None) else SafeString(o.value, key)
  }

  /**
   * The candidates `o?.safeString(k)` for each key, all evaluated (Kotlin
   * evaluates every argument of `listOfNotNull` first), left to right: the
   * first key that throws is the error.
   */
  function Fields(o: Option<JsonObject>, keys: seq<string>): (r: Result<seq<Option<string>>, LoginError>)
    ensures r.Ok? ==> |r.value| == |keys|
    ensures r.Ok? ==> forall i :: 0 <= i < |keys| ==> Field(o, keys[i]) == Ok(r.value[i])
    ensures r.Ok? <==> forall i :: 0 <= i < |keys| ==> Field(o, keys[i]).Ok?
  {
    if keys == [] then Ok([])
    else
      var head :- Field(o, keys[0]);
      var tail :- Fields(o, keys[1..]);
      assert forall i :: 1 <= i < |keys| ==> keys[i] == keys[1..][i - 1];
      Ok([head] + tail)
  }

  /** Reading each key of `keys` in turn, when none throws. */
  lemma FieldsWhenReadable(o: Option<JsonObject>, keys: seq<string>, vals: seq<Option<string>>)
    requires |vals| == |keys|
    requires forall i :: 0 <= i < |keys| ==> Field(o, keys[i]) == Ok(vals[i])
    ensures Fields(o, keys) == Ok(vals)
  {
    assert Fields(o, keys).value == vals;
  }

  /** A candidate `firstOrNull { !it.isNullOrBlank() }` accepts. */
  predicate Usable(c: Option<string>) {
    c.Some? && !IsBlank(c.value)
  }

  /**
   * `listOfNotNull(candidates).firstOrNull { !it.isNullOrBlank() }?.trim()`:
   * the first usable candidate, trimmed. What it returns is never blank and
   * carries no outer whitespace.
   */
  function FirstNonBlank(cands: seq<Option<string>>): (r: Option<string>)
    ensures r.Some? ==> !IsBlank(r.value) && IsTrimmed(r.value)
  {
    if cands == [] then None
    else if Usable(cands[0]) then
      TrimNonBlank(cands[0].value);
      Some(Trim(cands[0].value))
    else FirstNonBlank(cands[1..])
  }

  /** The candidate at `i` wins when it is usable and nothing before it is. */
  lemma {:induction false} FirstNonBlankPicksFirstUsable(cands: seq<Option<string>>, i: nat)
    requires i < |cands| && Usable(cands[i])
    requires forall j :: 0 <= j < i ==> !Usable(cands[j])
    ensures FirstNonBlank(cands) == Some(Trim(cands[i].value))
  {
    if i > 0 {
      FirstNonBlankPicksFirstUsable(cands[1..], i - 1);
    }
  }

  /** Nothing is found exactly when no candidate is usable. */
  lemma {:induction false} FirstNonBlankNone(cands: seq<Option<string>>)
    ensures FirstNonBlank(cands).None? <==> forall j :: 0 <= j < |cands| ==> !Usable(cands[j])
  {
    if cands != [] {
      FirstNonBlankNone(cands[1..]);
      assert forall j :: 1 <= j < |cands| ==> cands[j] == cands[1..][j - 1];
    }
  }

  /**
   * Searching two lists in turn is searching their concatenation: the
   * staged fallbacks of the source give the same answer as one ordered list.
   */
  lemma {:induction false} FirstNonBlankAppend(a: seq<Option<string>>, b: seq<Option<string>>)
    ensures FirstNonBlank(a + b) == if FirstNonBlank(a).Some? then FirstNonBlank(a) else FirstNonBlank(b)
  {
    if a != [] {
      assert (a + b)[0] == a[0];
      assert (a + b)[1..] == a[1..] + b;
      FirstNonBlankAppend(a[1..], b);
    } else {
      assert a + b == b;
    }
  }

  /** The top-level candidates, in precedence order. */
  function DirectTokens(body: LoginResponse): seq<Option<string>> {
    [body.accessTokenCamel, body.accessTokenSnake, body.token]
  }

  /** `extractToken`: three stages, each searched only when the ones before found nothing. */
  function ExtractToken(body: LoginResponse): (r: Result<Option<string>, LoginError>)
    ensures r.Ok? && r.value.Some? ==> !IsBlank(r.value.value) && IsTrimmed(r.value.value)
    ensures FirstNonBlank(DirectTokens(body)).Some? ==> r == Ok(FirstNonBlank(DirectTokens(body)))
    ensures FirstNonBlank(DirectTokens(body)).None? && Fields(body.data, DATA_TOKEN_KEYS).Ok?
            && FirstNonBlank(Fields(body.data, DATA_TOKEN_KEYS).value).Some?
            ==> r == Ok(FirstNonBlank(Fields(body.data, DATA_TOKEN_KEYS).value))
    ensures FirstNonBlank(DirectTokens(body)).None? && Fields(body.data, DATA_TOKEN_KEYS).Ok?
            && FirstNonBlank(Fields(body.data, DATA_TOKEN_KEYS).value).None? && Fields(body.user, USER_TOKEN_KEYS).Ok?
            ==> r == Ok(FirstNonBlank(Fields(body.user, USER_TOKEN_KEYS).value))
    ensures r.Err? <==> FirstNonBlank(DirectTokens(body)).None?
                        && (Fields(body.data, DATA_TOKEN_KEYS).Err?
                            || (FirstNonBlank(Fields(body.data, DATA_TOKEN_KEYS).value).None?
                                && Fields(body.user, USER_TOKEN_KEYS).Err?))
    ensures r.Err? && Fields(body.data, DATA_TOKEN_KEYS).Err? ==> r.error == Fields(body.data, DATA_TOKEN_KEYS).error
    ensures r.Err? && Fields(body.data, DATA_TOKEN_KEYS).Ok? ==> r.error == Fields(body.user, USER_TOKEN_KEYS).error
  {
    var directToken := FirstNonBlank(DirectTokens(body));
    if Usable(directToken) then Ok(directToken)
    else
      var dataCands :- Fields(body.data, DATA_TOKEN_KEYS);
      var dataToken := FirstNonBlank(dataCands);
      if Usable(dataToken) then Ok(dataToken)
      else
        var userCands :- Fields(body.user, USER_TOKEN_KEYS);
        var userToken := FirstNonBlank(userCands);
        if Usable(userToken) then Ok(userToken)
        else Ok(None)
  }

  /**
   * The token precedence: when every candidate can be read, the token is the
   * first usable of `accessToken`, `access_token`, `token`,
   * `data.accessToken`, `data.token`, `data.access_token`, `user.token`,
   * `user.access_token`, `user.accessToken`, trimmed.
   */
  lemma ExtractTokenPrecedence(body: LoginResponse, d: seq<Option<string>>, u: seq<Option<string>>)
    requires Fields(body.data, DATA_TOKEN_KEYS) == Ok(d)
    requires Fields(body.user, USER_TOKEN_KEYS) == Ok(u)
    ensures ExtractToken(body) == Ok(FirstNonBlank(DirectTokens(body) + d + u))
  {
    FirstNonBlankAppend(DirectTokens(body), d);
    FirstNonBlankAppend(DirectTokens(body) + d, u);
    FirstNonBlankAppend(d, u);
  }

  /** `extractUserName`: all seven candidates are read, then the first usable one wins. */
  function ExtractUserName(body: LoginResponse): (r: Result<Option<string>, LoginError>)
    ensures r.Ok? && r.value.Some? ==> !IsBlank(r.value.value) && IsTrimmed(r.value.value)
    ensures r.Err? <==> Fields(body.data, NAME_KEYS).Err? || Fields(DataUser(body), NAME_KEYS).Err?
                        || Fields(body.user, NAME_KEYS).Err?
    ensures Fields(body.data, NAME_KEYS).Err? ==> r == Err(Fields(body.data, NAME_KEYS).error)
    ensures Fields(body.data, NAME_KEYS).Ok? && Fields(DataUser(body), NAME_KEYS).Err?
            ==> r == Err(Fields(DataUser(body), NAME_KEYS).error)
    ensures Fields(body.data, NAME_KEYS).Ok? && Fields(DataUser(body), NAME_KEYS).Ok? && Fields(body.user, NAME_KEYS).Err?
            ==> r == Err(Fields(body.user, NAME_KEYS).error)
  {
    var inData :- Fields(body.data, NAME_KEYS);
    var inDataUser :- Fields(DataUser(body), NAME_KEYS);
    var inUser :- Fields(body.user, NAME_KEYS);
    Ok(FirstNonBlank([body.name] + inData + inDataUser + inUser))
  }

  /** `data?.safeObject("user")`. */
  function DataUser(body: LoginResponse): Option<JsonObject> {
    if body.data.Some? then SafeObject(body.data.value, "user") else None
  }

  /** `extractUserName` once its three groups of candidates have been read. */
  lemma ExtractUserNameOfGroups(body: LoginResponse, inData: seq<Option<string>>,
                                inDataUser: seq<Option<string>>, inUser: seq<Option<string>>)
    requires Fields(body.data, NAME_KEYS) == Ok(inData)
    requires Fields(DataUser(body), NAME_KEYS) == Ok(inDataUser)
    requires Fields(body.user, NAME_KEYS) == Ok(inUser)
    ensures ExtractUserName(body) == Ok(FirstNonBlank([body.name] + inData + inDataUser + inUser))
  {
  }

  /**
   * The display-name precedence: `name`, `data.name`, `data.username`,
   * `data.user.name`, `data.user.username`, `user.name`, `user.username`;
   * `data.user` is consulted only when it is a JSON object.
   */
  lemma ExtractUserNamePrecedence(body: LoginResponse, dn: Option<string>, du: Option<string>,
                                  dun: Option<string>, duu: Option<string>, un: Option<string>, uu: Option<string>)
    requires Field(body.data, "name") == Ok(dn) && Field(body.data, "username") == Ok(du)
    requires body.data.Some? && "user" in body.data.value && body.data.value["user"].JObj?
    requires SafeString(body.data.value["user"].fields, "name") == Ok(dun)
    requires SafeString(body.data.value["user"].fields, "username") == Ok(duu)
    requires Field(body.user, "name") == Ok(un) && Field(body.user, "username") == Ok(uu)
    ensures ExtractUserName(body) == Ok(FirstNonBlank([body.name, dn, du, dun, duu, un, uu]))
  {
    FieldsWhenReadable(body.data, NAME_KEYS, [dn, du]);
    FieldsWhenReadable(body.user, NAME_KEYS, [un, uu]);
    FieldsWhenReadable(DataUser(body), NAME_KEYS, [dun, duu]);
    ExtractUserNameOfGroups(body, [dn, du], [dun, duu], [un, uu]);
    Flatten7(body.name, dn, du, dun, duu, un, uu);
  }

  lemma Flatten7<T>(a: T, b: T, c: T, d: T, e: T, f: T, g: T)
    ensures [a] + [b, c] + [d, e] + [f, g] == [a, b, c, d, e, f, g]
  {
  }

  lemma Flatten5<T>(a: T, b: T, c: T, d: T, e: T)
    ensures [a] + [b, c] + [d, e] == [a, b, c, d, e]
  {
  }

  /** When `data.user` is not a JSON object it contributes no candidate. */
  lemma ExtractUserNameSkipsNonObjectUser(body: LoginResponse, dn: Option<string>, du: Option<string>,
                                          un: Option<string>, uu: Option<string>)
    requires Field(body.data, "name") == Ok(dn) && Field(body.data, "username") == Ok(du)
    requires body.data.None? || "user" !in body.data.value || !body.data.value["user"].JObj?
    requires Field(body.user, "name") == Ok(un) && Field(body.user, "username") == Ok(uu)
    ensures ExtractUserName(body) == Ok(FirstNonBlank([body.name, dn, du, un, uu]))
  {
    FieldsWhenReadable(body.data, NAME_KEYS, [dn, du]);
    FieldsWhenReadable(body.user, NAME_KEYS, [un, uu]);
    assert DataUser(body) == None;
    FieldsWhenReadable(None, NAME_KEYS, [None, None]);
    ExtractUserNameOfGroups(body, [dn, du], [None, None], [un, uu]);
    FirstNonBlankAppend([body.name] + [dn, du], [None, None]);
    FirstNonBlankAppend([body.name] + [dn, du] + [None, None], [un, uu]);
    FirstNonBlankAppend([body.name] + [dn, du], [un, uu]);
    Flatten5(body.name, dn, du, un, uu);
  }

  /** `extractUserId`: `data.id` trimmed, with no other source and no blank check. */
  function ExtractUserId(body: LoginResponse): (r: Result<Option<string>, LoginError>)
    ensures (body.data.None? || "id" !in body.data.value || body.data.value["id"].JNull?) ==> r == Ok(None)
    ensures body.data.Some? && "id" in body.data.value && body.data.value["id"].JStr?
            ==> r == Ok(Some(Trim(body.data.value["id"].str)))
    ensures body.data.Some? && SafeString(body.data.value, "id").Ok? && SafeString(body.data.value, "id").value.Some?
            ==> r == Ok(Some(Trim(SafeString(body.data.value, "id").value.value)))
    ensures r.Err? <==> body.data.Some? && SafeString(body.data.value, "id").Err?
    ensures r.Err? ==> r.error == NotAString("id")
    ensures r.Ok? && r.value.Some? ==> IsTrimmed(r.value.value)
  {
    var id :- Field(body.data, "id");
    if id.Some? then
      TrimIsCore(id.value);
      Ok(Some(Trim(id.value)))
    else Ok(None)
  }

  /** `extractErrorMessage`: `message`, else `error`; any failure to read gives null. */
  function ExtractErrorMessage(parsed: Option<JsonObject>): (r: Option<string>)
    ensures parsed.None? ==> r.None?
    ensures parsed.Some? && SafeString(parsed.value, "message").Ok? && SafeString(parsed.value, "message").value.Some?
            ==> r == SafeString(parsed.value, "message").value
    ensures parsed.Some? && SafeString(parsed.value, "message") == Ok(None) && SafeString(parsed.value, "error").Ok?
            ==> r == SafeString(parsed.value, "error").value
    ensures parsed.Some? && SafeString(parsed.value, "message") == Ok(None) && SafeString(parsed.value, "error").Err?
            ==> r.None?
    ensures r.Some? ==> parsed.Some? && SafeString(parsed.value, "message").Ok?
  {
    match parsed
    case None => None
    case Some(o) =>
      match SafeString(o, "message")
      case Err(_) => None
      case Ok(Some(m)) => Some(m)
      case Ok(None) =>
        match SafeString(o, "error")
        case Err(_) => None
        case Ok(e) => e
  }

  /** The message of a non-2xx answer. */
  function HttpErrorMessage(response: HttpResponse): string {
    ExtractErrorMessage(response.errorJson).GetOr(
      "Error " + IntToDecimal(response.code) + ": " + response.statusMessage)
  }

  /**
   * `AuthRepository.login` from the moment the answer is in. `serialize`
   * stands for `gson.toJson(body)`; the request itself is not modelled.
   */
  function Login(username: string, response: HttpResponse, serialize: LoginResponse -> string)
    : (r: Result<AuthResult, LoginError>)
    ensures r.Ok? ==> IsSuccessful(response.code) && response.body.Some?
    ensures r.Ok? ==> !IsBlank(r.value.token) && IsTrimmed(r.value.token)
    ensures r.Ok? ==> ExtractToken(response.body.value) == Ok(Some(r.value.token))
    ensures r.Ok? ==> ExtractUserName(response.body.value).Ok?
                      && r.value.userName == ExtractUserName(response.body.value).value.GetOr(username)
    ensures r.Ok? ==> r.value.rawUserData == serialize(response.body.value)
    ensures r.Ok? ==> ExtractUserId(response.body.value) == Ok(r.value.userId)
    ensures r.Ok? && response.body.value.refreshToken.Some? ==> r.value.refreshToken == response.body.value.refreshToken
    ensures r.Ok? && response.body.value.refreshToken.None?
            ==> Field(response.body.value.data, "refreshToken") == Ok(r.value.refreshToken)
    ensures IsSuccessful(response.code) && response.body.None? ==> r == Err(Raised(EMPTY_BODY))
    ensures !IsSuccessful(response.code) ==> r == Err(Raised(HttpErrorMessage(response)))
  {
    if IsSuccessful(response.code) then
      if response.body.None? then Err(Raised(EMPTY_BODY))
      else
        var body := response.body.value;
        var token :- ExtractToken(body);
        if token.None? then Err(Raised(NO_VALID_TOKEN))
        else
          var userName :- ExtractUserName(body);
          var userId :- ExtractUserId(body);
          var rawJson := serialize(body);
          var refreshToken :- if body.refreshToken.Some? then Ok(body.refreshToken) else Field(body.data, "refreshToken");
          Ok(AuthResult(token.value, refreshToken, userName.GetOr(username), rawJson, userId))
    else
      Err(Raised(HttpErrorMessage(response)))
  }

  /**
   * A 2xx answer in which none of the nine token candidates is usable is
   * refused: a missing token is never tolerated.
   */
  lemma LoginWithoutTokenFails(username: string, response: HttpResponse, serialize: LoginResponse -> string,
                               d: seq<Option<string>>, u: seq<Option<string>>)
    requires IsSuccessful(response.code) && response.body.Some?
    requires Fields(response.body.value.data, DATA_TOKEN_KEYS) == Ok(d)
    requires Fields(response.body.value.user, USER_TOKEN_KEYS) == Ok(u)
    requires var all := DirectTokens(response.body.value) + d + u;
             forall i :: 0 <= i < |all| ==> !Usable(all[i])
    ensures Login(username, response, serialize) == Err(Raised(NO_VALID_TOKEN))
  {
    ExtractTokenPrecedence(response.body.value, d, u);
    FirstNonBlankNone(DirectTokens(response.body.value) + d + u);
  }

  function Body(data: Option<JsonObject>, user: Option<JsonObject>, token: Option<string>,
                accessTokenSnake: Option<string>, accessTokenCamel: Option<string>): LoginResponse {
    LoginResponse(None, None, token, accessTokenSnake, accessTokenCamel, None, data, user, None)
  }

  /** The candidate at position `i` of the nine is the token when it is the first usable one. */
  lemma TokenIsCandidate(body: LoginResponse, d: seq<Option<string>>, u: seq<Option<string>>, i: nat)
    requires Fields(body.data, DATA_TOKEN_KEYS) == Ok(d)
    requires Fields(body.user, USER_TOKEN_KEYS) == Ok(u)
    requires i < |DirectTokens(body) + d + u| && Usable((DirectTokens(body) + d + u)[i])
    requires forall j :: 0 <= j < i ==> !Usable((DirectTokens(body) + d + u)[j])
    ensures ExtractToken(body) == Ok(Some(Trim((DirectTokens(body) + d + u)[i].value)))
  {
    ExtractTokenPrecedence(body, d, u);
    FirstNonBlankPicksFirstUsable(DirectTokens(body) + d + u, i);
  }

  lemma AbcIsUsable()
    ensures Usable(Some("abc")) && Trim("abc") == "abc"
  {
    assert !IsWhitespace("abc"[0]) && !IsWhitespace("abc"[2]);
    TrimmedIsFixed("abc");
  }

  /** A token nested under `data` is found when the top-level ones are blank or absent. */
  lemma DataTokenShape()
    ensures ExtractToken(Body(Some(map["accessToken" := JStr("abc")]), None, Some(" "), None, None)) == Ok(Some("abc"))
  {
    var body := Body(Some(map["accessToken" := JStr("abc")]), None, Some(" "), None, None);
    assert IsBlank(" ");
    assert FirstNonBlank(DirectTokens(body)) == None;
    FieldsWhenReadable(body.data, DATA_TOKEN_KEYS, [Some("abc"), None, None]);
    AbcIsUsable();
    assert FirstNonBlank([Some("abc"), None, None]) == Some("abc");
  }

  /** A token nested under `user` is the last resort. */
  lemma UserTokenShape()
    ensures ExtractToken(Body(Some(map["token" := JStr("")]), Some(map["access_token" := JStr("abc")]), None, None, None))
            == Ok(Some("abc"))
  {
    var body := Body(Some(map["token" := JStr("")]), Some(map["access_token" := JStr("abc")]), None, None, None);
    assert FirstNonBlank(DirectTokens(body)) == None;
    FieldsWhenReadable(body.data, DATA_TOKEN_KEYS, [None, Some(""), None]);
    assert IsBlank("");
    assert FirstNonBlank([None, Some(""), None]) == None;
    FieldsWhenReadable(body.user, USER_TOKEN_KEYS, [None, Some("abc"), None]);
    AbcIsUsable();
    assert FirstNonBlank([None, Some("abc"), None]) == Some("abc");
  }

  /** A top-level `accessToken` wins over everything else, trimmed. */
  lemma TopLevelTokenShape()
    ensures ExtractToken(Body(Some(map["accessToken" := JStr("xyz")]), None, Some("t"), None, Some(" abc\n")))
            == Ok(Some("abc"))
  {
    var body := Body(Some(map["accessToken" := JStr("xyz")]), None, Some("t"), None, Some(" abc\n"));
    AbcIsUsable();
    assert !IsWhitespace(" abc\n"[1]);
    assert Trim(" abc\n") == "abc" by {
      assert StartIndex(" abc\n", 0) == 1;
      assert EndIndex(" abc\n", 1, 5) == 4;
      assert " abc\n"[1..4] == "abc";
    }
    FirstNonBlankPicksFirstUsable(DirectTokens(body), 0);
  }

  /** Gson refuses to read a member holding an object as a string, and the login fails. */
  lemma ObjectTokenFails()
    ensures ExtractToken(Body(Some(map["token" := JObj(map[])]), None, None, None, None)) == Err(NotAString("token"))
  {
    var body := Body(Some(map["token" := JObj(map[])]), None, None, None, None);
    assert Field(body.data, "accessToken") == Ok(None);
    assert Field(body.data, DATA_TOKEN_KEYS[1]) == Err(NotAString("token"));
  }

  /**
   * A usable `data` token is returned without looking at `user`: a `user`
   * whose `token` is an object, which Gson cannot read as a string, is
   * never read.
   */
  lemma DataTokenShortCircuits()
    ensures ExtractToken(Body(Some(map["token" := JStr("t")]), Some(map["token" := JObj(map[])]), None, None, None))
            == Ok(Some("t"))
  {
    var body := Body(Some(map["token" := JStr("t")]), Some(map["token" := JObj(map[])]), None, None, None);
    assert FirstNonBlank(DirectTokens(body)) == None;
    FieldsWhenReadable(body.data, DATA_TOKEN_KEYS, [None, Some("t"), None]);
    assert Usable(Some("t")) && Trim("t") == "t" by {
      assert !IsWhitespace("t"[0]);
      TrimmedIsFixed("t");
    }
    assert FirstNonBlank([None, Some("t"), None]) == Some("t");
  }

  /** A numeric `data.id` is read as its literal text, as Gson's `getAsString` does. */
  lemma NumericUserId()
    ensures ExtractUserId(Body(Some(map["id" := JNum("42")]), None, None, None, None)) == Ok(Some("42"))
  {
    assert Trim("42") == "42" by {
      assert !IsWhitespace("42"[0]) && !IsWhitespace("42"[1]);
      TrimmedIsFixed("42");
    }
  }

  /** With no `message` and an `error` that is an object, the error body yields no message. */
  lemma UnreadableErrorGivesNoMessage()
    ensures ExtractErrorMessage(Some(map["error" := JObj(map["code" := JNum("1")])])) == None
  {
    var o := map["error" := JObj(map["code" := JNum("1")])];
    assert "message" !in o;
  }

  /**
   * The seven name candidates are all read before any is chosen, so an
   * unreadable `user.username` fails the login even though a usable
   * top-level token was found.
   */
  lemma UnreadableNameFailsLogin(serialize: LoginResponse -> string)
    ensures Login("ana", HttpResponse(200, "OK", Some(Body(None, Some(map["username" := JObj(map[])]), None, None, Some("abc"))), None),
                  serialize)
            == Err(NotAString("username"))
  {
    var body := Body(None, Some(map["username" := JObj(map[])]), None, None, Some("abc"));
    AbcIsUsable();
    assert FirstNonBlank(DirectTokens(body)) == Some("abc");
    assert Field(body.user, "name") == Ok(None);
    assert Field(body.user, NAME_KEYS[1]) == Err(NotAString("username"));
  }

  /** A 2xx answer whose every extraction succeeds yields exactly these values. */
  lemma LoginSucceeds(username: string, response: HttpResponse, serialize: LoginResponse -> string,
                      token: string, userName: Option<string>, userId: Option<string>, refreshToken: Option<string>)
    requires IsSuccessful(response.code) && response.body.Some?
    requires ExtractToken(response.body.value) == Ok(Some(token))
    requires ExtractUserName(response.body.value) == Ok(userName)
    requires ExtractUserId(response.body.value) == Ok(userId)
    requires (if response.body.value.refreshToken.Some? then Ok(response.body.value.refreshToken)
              else Field(response.body.value.data, "refreshToken")) == Ok(refreshToken)
    ensures Login(username, response, serialize)
            == Ok(AuthResult(token, refreshToken, userName.GetOr(username), serialize(response.body.value), userId))
  {
  }

  function ExampleBody(): LoginResponse {
    Body(Some(map["accessToken" := JStr("abc"), "id" := JStr("42"), "name" := JStr("Ana")]), None, None, None, None)
  }

  lemma ExampleToken()
    ensures ExtractToken(ExampleBody()) == Ok(Some("abc"))
  {
    var body := ExampleBody();
    assert FirstNonBlank(DirectTokens(body)) == None;
    FieldsWhenReadable(body.data, DATA_TOKEN_KEYS, [Some("abc"), None, None]);
    AbcIsUsable();
    assert FirstNonBlank([Some("abc"), None, None]) == Some("abc");
  }

  lemma ExampleUserName()
    ensures ExtractUserName(ExampleBody()) == Ok(Some("Ana"))
  {
    var body := ExampleBody();
    assert Usable(Some("Ana")) && Trim("Ana") == "Ana" by {
      assert !IsWhitespace("Ana"[0]) && !IsWhitespace("Ana"[2]);
      TrimmedIsFixed("Ana");
    }
    ExtractUserNameSkipsNonObjectUser(body, Some("Ana"), None, None, None);
    assert FirstNonBlank([None, Some("Ana"), None, None, None]) == Some("Ana");
  }

  lemma ExampleUserId()
    ensures ExtractUserId(ExampleBody()) == Ok(Some("42"))
  {
    assert Trim("42") == "42" by {
      assert !IsWhitespace("42"[0]) && !IsWhitespace("42"[1]);
      TrimmedIsFixed("42");
    }
  }

  lemma ExampleRefreshToken()
    ensures Field(ExampleBody().data, "refreshToken") == Ok(None)
  {
    assert "refreshToken" !in ExampleBody().data.value;
  }

  /**
   * The example answer `{"data":{"accessToken":"abc","id":"42","name":"Ana"}}`
   * logs in with token "abc", user id "42" and display name "Ana".
   */
  lemma ExampleLogin(serialize: LoginResponse -> string)
    ensures Login("ana", HttpResponse(200, "OK", Some(ExampleBody()), None), serialize)
            == Ok(AuthResult("abc", None, "Ana", serialize(ExampleBody()), Some("42")))
  {
    ExampleToken();
    ExampleUserName();
    ExampleUserId();
    ExampleRefreshToken();
    var response := HttpResponse(200, "OK", Some(ExampleBody()), None);
    LoginSucceeds("ana", response, serialize, "abc", Some("Ana"), Some("42"), None);
  }
}
