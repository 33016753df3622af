/**
 * The Sber ID provider: its fixed endpoints, scopes and requested fields,
 * the token-request fields it posts, the check it applies to the user-info
 * response, and the login flow `user()` runs on top of the host framework.
 */
module SberProvider {
  import opened Wrappers
  import opened PhpValue
  import opened Socialite
  import opened SberMapping

  /** The common prefix of the three endpoints: Sber ID's OpenID Connect realm. */
  const Realm: string := "https://sberid.api.sberbank.ru:9443/auth/realms/sberid/protocol/openid-connect/"

  const AuthEndpoint: string := "https://sberid.api.sberbank.ru:9443/auth/realms/sberid/protocol/openid-connect/auth"
  const TokenEndpoint: string := "https://sberid.api.sberbank.ru:9443/auth/realms/sberid/protocol/openid-connect/token"
  const UserInfoEndpoint: string := "https://sberid.api.sberbank.ru:9443/auth/realms/sberid/protocol/openid-connect/userinfo"

  /** The scopes requested at authorization. */
  const DefaultScopes: seq<string> := [
    "openid", "profile", "email", "phone", "address",
    "passport", "inn", "snils", "driving_license",
    "international_passport", "priority_doc", "citizenship",
    "place_of_birth", "job_info", "education", "marital_status"
  ]

  /** The user fields a new provider lists as requested. */
  const DefaultFields: seq<string> := [
    "sub", "email", "phone_number", "given_name", "family_name", "middle_name", "birthdate",
    "passport", "inn", "snils", "driving_license", "international_passport", "priority_doc",
    "citizenship", "place_of_birth", "address", "job_info", "education", "marital_status"
  ]

  /** The text that precedes the raw body in the error for a rejected user-info response. */
  const InvalidResponsePrefix: string := "Invalid JSON response from Sber ID: "

  /** The token-request keys the provider sets itself, whatever the host put there. */
  const OverriddenKeys: set<string> := {"grant_type", "client_id", "client_secret"}

  /**
   * `getAuthUrl`: whatever the host's URL builder makes of the state and the
   * authorize endpoint of Sber ID's realm.
   */
  function AuthUrl(buildAuthUrlFromBase: (string, string) -> string, state: string): (url: string)
    ensures url == buildAuthUrlFromBase(Realm + "auth", state)
  {
    assert AuthEndpoint == Realm + "auth";
    buildAuthUrlFromBase(AuthEndpoint, state)
  }

  /** `getTokenUrl`: the token endpoint of Sber ID's realm. */
  function TokenUrl(): (url: string)
    ensures |url| > |Realm| && url[..|Realm|] == Realm && url[|Realm|..] == "token"
  {
    TokenEndpoint
  }

  /** The user-info URL: the fixed endpoint, then the access token as a query string. */
  function UserInfoUrl(query: string): (url: string)
    ensures |url| == |UserInfoEndpoint| + 1 + |query|
    ensures url[..|UserInfoEndpoint|] == UserInfoEndpoint && url[|UserInfoEndpoint|] == '?'
    ensures url[|UserInfoEndpoint| + 1..] == query
  {
    UserInfoEndpoint + "?" + query
  }

  /**
   * `getTokenFields`: the host's fields with `grant_type`, `client_id` and
   * `client_secret` set by the provider (`array_merge`, later array wins).
   * Every other field of the host is kept as it is and no other field is added.
   */
  function TokenFields(base: Form, clientId: string, clientSecret: string): (form: Form)
    ensures form.Keys == base.Keys + OverriddenKeys
    ensures form["grant_type"] == "authorization_code"
    ensures form["client_id"] == clientId && form["client_secret"] == clientSecret
    ensures forall k :: k in base && k !in OverriddenKeys ==> form[k] == base[k]
  {
    base + map["grant_type" := "authorization_code", "client_id" := clientId, "client_secret" := clientSecret]
  }

  /**
   * The check `getUserByToken` applies to the decoded body: it passes exactly
   * when the decoded value is an array whose `sub` is set, and then yields
   * that array unchanged; otherwise the error quotes the raw body.
   */
  function ValidateUserInfo(contents: string, decoded: Value): (r: Result<map<string, Value>, Error>)
    ensures r.Success? <==> decoded.Object? && "sub" in decoded.fields && decoded.fields["sub"] != Null
    ensures r.Success? ==> r.value == decoded.fields
    ensures r.Failure? ==> r.error == Runtime(InvalidResponsePrefix + contents)
  {
    if !IsArray(decoded) || !IsSet(decoded, "sub") then
      Failure(Runtime(InvalidResponsePrefix + contents))
    else
      Success(decoded.fields)
  }

  /**
   * `getUserByToken` as a function of the host: the GET, the decoding and
   * the check. A failed GET passes its transport error on; a body whose
   * decoded value has no non-null `sub` fails with the body quoted; any
   * other body is returned decoded and unchanged.
   */
  function FetchUserInfo(host: Host, token: Value): (r: Result<map<string, Value>, Error>)
    ensures var got := host.httpGet(UserInfoUrl(host.accessTokenQuery(token)));
      && (got.Failure? ==> r == Failure(Transport(got.error)))
      && (r.Success? <==> got.Success? && IsSet(host.jsonDecode(got.value), "sub"))
      && (r.Success? ==> r.value == host.jsonDecode(got.value).fields && r.value["sub"] != Null)
      && (got.Success? && r.Failure? ==> r.error == Runtime(InvalidResponsePrefix + got.value))
  {
    match host.httpGet(UserInfoUrl(host.accessTokenQuery(token)))
    case Failure(detail) => Failure(Transport(detail))
    case Success(contents) => ValidateUserInfo(contents, host.jsonDecode(contents))
  }

  /**
   * What one call of `user()` comes to: its result, the token response it
   * records as `credentialsResponseBody` (None: left as it was), and the
   * requests it sends, in order.
   */
  datatype Outcome = Outcome(result: Result<User, Error>, recorded: Option<TokenResponse>, requests: seq<Request>)

  /**
   * `user()` as a function of the host. Every path but the successful one
   * stops at its first failure; only a successful login sends both requests
   * and records a token response.
   */
  function Login(clientId: string, clientSecret: string, host: Host): (o: Outcome)
    ensures o.requests == [] <==> host.invalidState
    ensures |o.requests| <= 2
    ensures o.result.Success? <==> o.recorded.Some?
    ensures o.result.Success? ==> |o.requests| == 2 && o.result.value.accessTokenResponseBody == o.recorded
    ensures o.recorded.Some? ==>
      host.postToken(TokenEndpoint, TokenFields(host.baseTokenFields(host.code), clientId, clientSecret)) == Success(o.recorded.value)
  {
    if host.invalidState then
      Outcome(Failure(InvalidState), None, [])
    else
      var form := TokenFields(host.baseTokenFields(host.code), clientId, clientSecret);
      var tokenRequest := TokenRequest(TokenUrl(), form);
      match host.postToken(TokenUrl(), form)
      case Failure(detail) => Outcome(Failure(Transport(detail)), None, [tokenRequest])
      case Success(response) =>
        if "access_token" !in response then
          Outcome(Failure(UndefinedKey("access_token")), None, [tokenRequest])
        else
          var token := response["access_token"];
          var requests := [tokenRequest, UserInfoRequest(UserInfoUrl(host.accessTokenQuery(token)))];
          match FetchUserInfo(host, token)
          case Failure(e) => Outcome(Failure(e), None, requests)
          case Success(raw) =>
            var user := MapUserToObject(raw)
              .SetAccessTokenResponseBody(response)
              .SetToken(host.parseAccessToken(response))
              .SetExpiresIn(host.parseExpiresIn(response));
            Outcome(Success(user), Some(response), requests)
  }

  /** The provider object: its configuration, its requested fields and the last token response it recorded. */
  class Provider {
    const clientId: string
    const clientSecret: string
    const redirectUrl: string
    var scopes: seq<string>
    var fields: seq<string>
    var credentialsResponseBody: Option<TokenResponse>
    /** The network requests this provider has sent, oldest first. */
    ghost var Requests: seq<Request>

    constructor (clientId: string, clientSecret: string, redirectUrl: string)
      ensures this.clientId == clientId && this.clientSecret == clientSecret && this.redirectUrl == redirectUrl
      ensures scopes == DefaultScopes && fields == DefaultFields
      ensures credentialsResponseBody == None && Requests == []
    {
      this.clientId := clientId;
      this.clientSecret := clientSecret;
      this.redirectUrl := redirectUrl;
      scopes := DefaultScopes;
      fields := DefaultFields;
      credentialsResponseBody := None;
      Requests := [];
    }

    /** `fields($fields)`: replaces the requested fields and returns the same provider. */
    method Fields(f: seq<string>) returns (p: Provider)
      modifies this`fields
      ensures p == this && fields == f
    {
      fields := f;
      p := this;
    }

    /** `getUserByToken`: one GET of the user-info endpoint, then the check of its body. */
    method GetUserByToken(host: Host, token: Value) returns (r: Result<map<string, Value>, Error>)
      modifies this`Requests
      ensures Requests == old(Requests) + [UserInfoRequest(UserInfoUrl(host.accessTokenQuery(token)))]
      ensures r == FetchUserInfo(host, token)
    {
      var url := UserInfoUrl(host.accessTokenQuery(token));
      Requests := Requests + [UserInfoRequest(url)];
      var got := host.httpGet(url);
      if got.Failure? {
        return Failure(Transport(got.error));
      }
      var contents := got.value;
      var decoded := host.jsonDecode(contents);
      r := ValidateUserInfo(contents, decoded);
    }

    /**
     * `user()`: state check, code exchange, user-info fetch and check,
     * mapping, then recording the token response and setting token and
     * expiry. The first failure ends the call.
     */
    method User(host: Host) returns (r: Result<User, Error>)
      modifies this`credentialsResponseBody, this`Requests
      ensures var o := Login(clientId, clientSecret, host);
        && r == o.result
        && Requests == old(Requests) + o.requests
        && credentialsResponseBody == (if o.recorded.Some? then o.recorded else old(credentialsResponseBody))
    {
      if host.invalidState {
        return Failure(InvalidState);
      }
      var form := TokenFields(host.baseTokenFields(host.code), clientId, clientSecret);
      Requests := Requests + [TokenRequest(TokenUrl(), form)];
      var exchanged := host.postToken(TokenUrl(), form);
      if exchanged.Failure? {
        return Failure(Transport(exchanged.error));
      }
      var response := exchanged.value;
      if "access_token" !in response {
        return Failure(UndefinedKey("access_token"));
      }
      var fetched := GetUserByToken(host, response["access_token"]);
      if fetched.Failure? {
        return Failure(fetched.error);
      }
      var user := MapUserToObject(fetched.value);
      credentialsResponseBody := Some(response);
      user := user.SetAccessTokenResponseBody(response);
      r := Success(user.SetToken(host.parseAccessToken(response)).SetExpiresIn(host.parseExpiresIn(response)));
    }
  }
}
