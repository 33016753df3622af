/** Properties of the token request, the user-info check and the login flow. */
module SberProviderProperties {
  import opened Wrappers
  import opened PhpValue
  import opened Socialite
  import opened SberMapping
  import opened SberProvider

  /**
   * The host's own `grant_type`, `client_id` and `client_secret` never reach
   * the token request: host fields that differ only there give the same request.
   */
  lemma TokenFieldsIgnoreBaseCredentials(base1: Form, base2: Form, clientId: string, clientSecret: string)
    requires base1.Keys - OverriddenKeys == base2.Keys - OverriddenKeys
    requires forall k :: k in base1 && k !in OverriddenKeys ==> k in base2 && base1[k] == base2[k]
    ensures TokenFields(base1, clientId, clientSecret) == TokenFields(base2, clientId, clientSecret)
  {
    var form1, form2 := TokenFields(base1, clientId, clientSecret), TokenFields(base2, clientId, clientSecret);
    assert form1.Keys == form2.Keys by {
      assert base1.Keys + OverriddenKeys == (base1.Keys - OverriddenKeys) + OverriddenKeys;
      assert base2.Keys + OverriddenKeys == (base2.Keys - OverriddenKeys) + OverriddenKeys;
    }
    forall k | k in form1
      ensures form1[k] == form2[k]
    {
      if k !in OverriddenKeys {
        assert k in base1;
      }
    }
  }

  /** Applying the provider's fields a second time changes nothing. */
  lemma TokenFieldsIdempotent(base: Form, clientId: string, clientSecret: string)
    ensures var form := TokenFields(base, clientId, clientSecret);
      TokenFields(form, clientId, clientSecret) == form
  {
  }

  /** The code and redirect URI the host supplies reach the token request unchanged. */
  lemma TokenFieldsKeepCode(code: string, redirectUri: string)
    ensures var form := TokenFields(map["code" := code, "redirect_uri" := redirectUri, "client_id" := "host"], "cid", "secret");
      && form == map["grant_type" := "authorization_code", "client_id" := "cid",
                     "client_secret" := "secret", "code" := code, "redirect_uri" := redirectUri]
  {
  }

  /** A `sub` that is the empty string is accepted: `isset` only rejects null. */
  lemma EmptySubAccepted(contents: string, claims: map<string, Value>)
    requires "sub" in claims && claims["sub"] == Str("")
    ensures ValidateUserInfo(contents, Object(claims)) == Success(claims)
  {
  }

  /** A decoded list is an array but never has `sub`, so it is rejected. */
  lemma ListRejected(contents: string, items: seq<Value>)
    ensures ValidateUserInfo(contents, List(items)) == Failure(Runtime(InvalidResponsePrefix + contents))
  {
  }

  /** A response without `sub` fails with the raw body attached. */
  lemma MissingSubRejected(contents: string, claims: map<string, Value>)
    requires "sub" !in claims || claims["sub"] == Null
    ensures var r := ValidateUserInfo(contents, Object(claims));
      && r.Failure? && r.error.Runtime?
      && r.error.message[|InvalidResponsePrefix|..] == contents
  {
  }

  /** A response that passes the check maps to a user whose id is its non-null `sub`. */
  lemma AcceptedResponseHasId(contents: string, decoded: Value)
    requires ValidateUserInfo(contents, decoded).Success?
    ensures var u := MapUserToObject(ValidateUserInfo(contents, decoded).value);
      && u.attrs.id == decoded.fields["sub"] && u.attrs.id != Null
      && u.raw == decoded.fields
  {
  }

  /** With an invalid state the login fails at once: no request is sent and nothing is recorded. */
  lemma InvalidStateStopsLogin(clientId: string, clientSecret: string, host: Host)
    requires host.invalidState
    ensures Login(clientId, clientSecret, host) == Outcome(Failure(InvalidState), None, [])
  {
  }

  /**
   * Past the state check, the first request is the code exchange, posted to
   * the token endpoint with the provider's grant type and credentials.
   */
  lemma TokenRequestComesFirst(clientId: string, clientSecret: string, host: Host)
    requires !host.invalidState
    ensures var o := Login(clientId, clientSecret, host);
      && 1 <= |o.requests| <= 2
      && o.requests[0].TokenRequest? && o.requests[0].url == TokenEndpoint
      && o.requests[0].form == TokenFields(host.baseTokenFields(host.code), clientId, clientSecret)
      && o.requests[0].form["grant_type"] == "authorization_code"
      && o.requests[0].form["client_id"] == clientId
      && o.requests[0].form["client_secret"] == clientSecret
      && (|o.requests| == 2 ==> o.requests[1].UserInfoRequest?)
  {
  }

  /**
   * When the state is valid, the exchange succeeds with an access token and
   * the user-info body passes the check, the login records the token POST's
   * own response and returns the user mapped from the decoded body, carrying
   * that response and the token and expiry parsed from it.
   */
  lemma SuccessfulLogin(clientId: string, clientSecret: string, host: Host, response: TokenResponse, contents: string)
    requires !host.invalidState
    requires host.postToken(TokenEndpoint, TokenFields(host.baseTokenFields(host.code), clientId, clientSecret)) == Success(response)
    requires "access_token" in response
    requires host.httpGet(UserInfoUrl(host.accessTokenQuery(response["access_token"]))) == Success(contents)
    requires IsSet(host.jsonDecode(contents), "sub")
    ensures var o := Login(clientId, clientSecret, host);
      && o.recorded == Some(response)
      && o.result == Success(MapUserToObject(host.jsonDecode(contents).fields)
           .SetAccessTokenResponseBody(response)
           .SetToken(host.parseAccessToken(response))
           .SetExpiresIn(host.parseExpiresIn(response)))
  {
  }

  /**
   * The converse: a login succeeds only along that path. Its state was
   * valid, the exchange gave a response with an access token, the
   * user-info body passed the check, and the user and the recorded response
   * are the ones `SuccessfulLogin` names.
   */
  lemma SuccessfulLoginHasCheckedUser(clientId: string, clientSecret: string, host: Host)
    requires Login(clientId, clientSecret, host).result.Success?
    ensures !host.invalidState
    ensures var posted := host.postToken(TokenEndpoint, TokenFields(host.baseTokenFields(host.code), clientId, clientSecret));
      && posted.Success? && "access_token" in posted.value
      && var got := host.httpGet(UserInfoUrl(host.accessTokenQuery(posted.value["access_token"])));
      && got.Success? && IsSet(host.jsonDecode(got.value), "sub")
      && var o := Login(clientId, clientSecret, host);
      && o.recorded == Some(posted.value)
      && o.result.value == MapUserToObject(host.jsonDecode(got.value).fields)
           .SetAccessTokenResponseBody(posted.value)
           .SetToken(host.parseAccessToken(posted.value))
           .SetExpiresIn(host.parseExpiresIn(posted.value))
  {
  }

  /** A failed code exchange ends the login with the host's transport error, after the one POST. */
  lemma TokenExchangeFailureStops(clientId: string, clientSecret: string, host: Host, detail: string)
    requires !host.invalidState
    requires host.postToken(TokenEndpoint, TokenFields(host.baseTokenFields(host.code), clientId, clientSecret)) == Failure(detail)
    ensures Login(clientId, clientSecret, host) == Outcome(Failure(Transport(detail)), None,
      [TokenRequest(TokenEndpoint, TokenFields(host.baseTokenFields(host.code), clientId, clientSecret))])
  {
  }

  /**
   * A token response without `access_token` ends the login when the
   * provider reads that key: no user-info request is sent and nothing is recorded.
   */
  lemma MissingAccessTokenStops(clientId: string, clientSecret: string, host: Host, response: TokenResponse)
    requires !host.invalidState
    requires host.postToken(TokenEndpoint, TokenFields(host.baseTokenFields(host.code), clientId, clientSecret)) == Success(response)
    requires "access_token" !in response
    ensures var o := Login(clientId, clientSecret, host);
      && o.result == Failure(UndefinedKey("access_token"))
      && o.recorded == None && |o.requests| == 1
  {
  }

  /**
   * Once the exchange succeeds, the second request is the GET of the
   * user-info endpoint with the response's `access_token` as its query string.
   */
  lemma UserInfoRequestCarriesAccessToken(clientId: string, clientSecret: string, host: Host, response: TokenResponse)
    requires !host.invalidState
    requires host.postToken(TokenEndpoint, TokenFields(host.baseTokenFields(host.code), clientId, clientSecret)) == Success(response)
    requires "access_token" in response
    ensures var o := Login(clientId, clientSecret, host);
      && |o.requests| == 2 && o.requests[1].UserInfoRequest?
      && o.requests[1].url[..|UserInfoEndpoint|] == UserInfoEndpoint
      && o.requests[1].url[|UserInfoEndpoint|] == '?'
      && o.requests[1].url[|UserInfoEndpoint| + 1..] == host.accessTokenQuery(response["access_token"])
  {
    var query := host.accessTokenQuery(response["access_token"]);
    assert Login(clientId, clientSecret, host).requests[1] == UserInfoRequest(UserInfoUrl(query));
  }

  /** A transport failure of the user-info GET reaches the caller unchanged, after both requests. */
  lemma UserInfoTransportFailureStops(clientId: string, clientSecret: string, host: Host, response: TokenResponse, detail: string)
    requires !host.invalidState
    requires host.postToken(TokenEndpoint, TokenFields(host.baseTokenFields(host.code), clientId, clientSecret)) == Success(response)
    requires "access_token" in response
    requires host.httpGet(UserInfoUrl(host.accessTokenQuery(response["access_token"]))) == Failure(detail)
    ensures var o := Login(clientId, clientSecret, host);
      && o.result == Failure(Transport(detail))
      && o.recorded == None && |o.requests| == 2
  {
  }

  /**
   * When the exchange succeeds and the user-info body does not pass the
   * check, the login fails and records nothing; for a body that decodes to
   * an array, the error quotes that body.
   */
  lemma RejectedUserInfoFailsLogin(clientId: string, clientSecret: string, host: Host, response: TokenResponse, contents: string)
    requires !host.invalidState
    requires host.postToken(TokenEndpoint, TokenFields(host.baseTokenFields(host.code), clientId, clientSecret)) == Success(response)
    requires "access_token" in response
    requires host.httpGet(UserInfoUrl(host.accessTokenQuery(response["access_token"]))) == Success(contents)
    requires !IsSet(host.jsonDecode(contents), "sub")
    ensures var o := Login(clientId, clientSecret, host);
      && o.result.Failure? && o.recorded == None && |o.requests| == 2
    ensures IsArray(host.jsonDecode(contents)) ==>
      Login(clientId, clientSecret, host).result == Failure(Runtime(InvalidResponsePrefix + contents))
  {
  }

  /**
   * The claims the mapping reads are the default requested fields plus
   * `preferred_username`, which the list does not name.
   */
  lemma MappedClaimsAreDefaultFieldsAndNickname()
    ensures forall a :: a != Nickname <==> Claim(a) in DefaultFields
    ensures forall i :: 0 <= i < |DefaultFields| ==> exists a :: Claim(a) == DefaultFields[i]
  {
    forall i | 0 <= i < |DefaultFields|
      ensures exists a :: Claim(a) == DefaultFields[i]
    {
      if i == 0 { assert Claim(Id) == DefaultFields[i]; }
      else if i == 1 { assert Claim(Email) == DefaultFields[i]; }
      else if i == 2 { assert Claim(Phone) == DefaultFields[i]; }
      else if i == 3 { assert Claim(Name) == DefaultFields[i]; }
      else if i == 4 { assert Claim(Surname) == DefaultFields[i]; }
      else if i == 5 { assert Claim(MiddleName) == DefaultFields[i]; }
      else if i == 6 { assert Claim(Birthdate) == DefaultFields[i]; }
      else if i == 7 { assert Claim(Passport) == DefaultFields[i]; }
      else if i == 8 { assert Claim(Inn) == DefaultFields[i]; }
      else if i == 9 { assert Claim(Snils) == DefaultFields[i]; }
      else if i == 10 { assert Claim(DrivingLicense) == DefaultFields[i]; }
      else if i == 11 { assert Claim(InternationalPassport) == DefaultFields[i]; }
      else if i == 12 { assert Claim(PriorityDoc) == DefaultFields[i]; }
      else if i == 13 { assert Claim(Citizenship) == DefaultFields[i]; }
      else if i == 14 { assert Claim(PlaceOfBirth) == DefaultFields[i]; }
      else if i == 15 { assert Claim(Address) == DefaultFields[i]; }
      else if i == 16 { assert Claim(JobInfo) == DefaultFields[i]; }
      else if i == 17 { assert Claim(Education) == DefaultFields[i]; }
      else if i == 18 { assert Claim(MaritalStatus) == DefaultFields[i]; }
    }
  }
}
