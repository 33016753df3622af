# Sber ID provider for Laravel Socialite — a Dafny model

This project models the Sber ID adapter of a Socialite provider package: a
class that extends the host framework's generic OAuth2 provider with Sber ID's
fixed endpoints, scopes and requested fields. It then adds four pieces of
behaviour of its own:

- the form fields it posts when it exchanges an authorization code for a token;
- the check it applies to the user-info response;
- the mapping of user-info claims onto the host's user object;
- the order of steps in `user()`, the login callback.

Modules and files:

- `wrappers.dfy` (`Wrappers`): `Option` and `Result`.
- `php_value.dfy` (`PhpValue`): what `json_decode($contents, true)` produces, as a datatype. The PHP primitives the provider applies to it are functions here: `Arr::get` with a null default (`Lookup`), `isset` on a string key (`IsSet`) and `is_array` (`IsArray`).
- `socialite.dfy` (`Socialite`): the host side. It holds the errors a login can end in (including the exception the host raises for a missing array key), the network requests the provider sends, and a `Host` value. `Host` gathers the host operations that `user()` and `getUserByToken` call: the state check, the authorization code, the base token fields, the token POST, the user-info GET, JSON decoding, query encoding, and the parsing of token and expiry. Two host calls are outside it: the authorization-URL builder, which is a parameter of `AuthUrl`, and `Log::info`, which is not modelled.
- `sber_mapping.dfy` (`SberMapping`): the twenty-entry claim table (`Attribute`, `PropertyName`, `Claim`), the user record and `MapUserToObject`. `sber_mapping_lemmas.dfy` (`SberMappingProperties`) holds what is proved about them.
- `sber_provider.dfy` (`SberProvider`): the endpoints and default lists, `TokenFields`, `ValidateUserInfo`, and `Login`, a function giving what one call of `user()` comes to. It also holds the `Provider` class. Its `Fields`, `GetUserByToken` and `User` methods update the requested fields, the recorded token response and a ghost log of sent requests. Each of them is proved against the functions. `sber_provider_lemmas.dfy` (`SberProviderProperties`) holds the lemmas about those functions.

Points where the code's behaviour is easy to misread:

- A `sub` that is the empty string is accepted. `isset` rejects only a missing or null `sub`.
- A decoded JSON list is an array, so `is_array` accepts it. It still fails the check because it has no `sub` key.
- The token request's `code` field comes from the host's base fields. The provider itself sets only `grant_type`, `client_id` and `client_secret`.
- Every request goes through the host. Only its state check comes before any of them.

The requested-fields list (`$fields`) is stored by the constructor and by `fields()`. Nothing in the provider reads it, so `Login` does not depend on it. `MappedClaimsAreDefaultFieldsAndNickname` relates the default list to the claims that the mapping reads.

## Model

| member | source | states |
|---|---|---|
| `SberMapping.MapUserToObject` | Provider.php:112-136 | the user keeps the raw claims unchanged; each of the twenty attributes is the claim the table names for it, or null when that claim is absent; token, expiry and token response are not yet set |
| `SberMappingProperties.RenamedAttributes` | Provider.php:115-134 | exactly five attributes read a claim with another name (id←sub, nickname←preferred_username, name←given_name, surname←family_name, phone←phone_number); every other attribute reads the claim of its own name |
| `SberMappingProperties.MissingClaimIsNull` | Provider.php:115-134 | an attribute whose claim is missing from the response is null |
| `SberMappingProperties.SameAttributesIffSameClaims` | Provider.php:114-135 | two responses map to the same attributes if and only if they agree on every claim the table reads |
| `SberMappingProperties.MapSampleResponse` | Provider.php:115-134 | a response with sub, given_name, family_name and email gives id, name, surname and email from them, and null nickname, phone and passport |
| `SberProvider.AuthUrl` | Provider.php:43-49 | the authorization URL is what the host's builder makes of the state and the authorize endpoint of Sber ID's OpenID Connect realm |
| `SberProvider.TokenUrl` | Provider.php:54-57 | the token URL is the realm's `token` endpoint |
| `SberProvider.UserInfoUrl` | Provider.php:64-68 | the user-info URL is the fixed endpoint, then `?`, then the access-token query string |
| `SberProvider.TokenFields` | Provider.php:141-148 | grant_type is authorization_code and client_id and client_secret are the provider's, whatever the host supplied; every other host field is kept with its value; no other field is added |
| `SberProviderProperties.TokenFieldsIgnoreBaseCredentials` | Provider.php:143-147 | host fields that differ only in grant_type, client_id or client_secret give the same token request |
| `SberProviderProperties.TokenFieldsIdempotent` | Provider.php:143-147 | applying the provider's overrides to their own result changes nothing |
| `SberProviderProperties.TokenFieldsKeepCode` | Provider.php:143-147 | for host fields code, redirect_uri and a stale client_id, the request is exactly the four expected fields plus redirect_uri |
| `SberProvider.ValidateUserInfo` | Provider.php:76-83 | the response passes exactly when it decoded to an associative array whose sub is present and not null, and then it is returned unchanged; otherwise the error is a RuntimeException whose message is the fixed prefix followed by the raw body |
| `SberProviderProperties.EmptySubAccepted` | Provider.php:76 | an empty-string sub passes the check |
| `SberProviderProperties.ListRejected` | Provider.php:76-81 | a decoded JSON list fails the check, with the raw body in the error |
| `SberProviderProperties.MissingSubRejected` | Provider.php:76-81 | a response without sub, or with a null sub, fails the check, and the error message ends with the raw body |
| `SberProviderProperties.AcceptedResponseHasId` | Provider.php:97 | a response that passes the check maps to a user whose id is its sub, which is not null, and whose raw claims are the response |
| `SberProviderProperties.MappedClaimsAreDefaultFieldsAndNickname` | Provider.php:14-18 | every attribute except nickname reads a claim in the default requested-fields list, nickname's preferred_username is not in it, and every listed field is read by some attribute |
| `SberProvider.FetchUserInfo` | Provider.php:62-84 | a failed GET gives its transport error unchanged; the fetch succeeds if and only if the GET succeeds and the decoded body has a non-null sub, and then it returns the decoded map unchanged; a body that fails the check gives the RuntimeException quoting that body |
| `SberProvider.Login` | Provider.php:89-107 | no request is sent exactly when the state is invalid; at most two requests are sent; a token response is recorded if and only if the login succeeds, and it is the token POST's own response; on success both requests were sent and the user carries that response |
| `SberProvider.Provider.constructor` | Provider.php:14-38 | a new provider has the default scopes and fields, no recorded token response and no sent requests |
| `SberProvider.Provider.Fields` | Provider.php:157-162 | the requested fields become exactly the argument, the same provider is returned, and nothing else changes |
| `SberProvider.Provider.GetUserByToken` | Provider.php:62-84 | exactly one GET of the user-info URL for the token is sent; the result is the check applied to the decoded body, or the transport error |
| `SberProvider.Provider.User` | Provider.php:89-107 | the result, the requests sent and the recorded token response are those `Login` gives; on failure the recorded token response is left as it was |
| `SberProviderProperties.InvalidStateStopsLogin` | Provider.php:91-93 | with an invalid state the login fails with InvalidState, sends no request and records nothing |
| `SberProviderProperties.TokenRequestComesFirst` | Provider.php:95-97 | once past the state check, the first request is the POST to the token endpoint with the provider's token fields; any second request is the user-info GET |
| `SberProviderProperties.TokenExchangeFailureStops` | Provider.php:95 | a failed code exchange ends the login with the host's transport error, after the one POST, recording nothing |
| `SberProviderProperties.MissingAccessTokenStops` | Provider.php:97 | a token response without access_token ends the login with the undefined-key error after the one POST; no user-info request is sent and nothing is recorded |
| `SberProviderProperties.UserInfoRequestCarriesAccessToken` | Provider.php:64-68 | after a successful exchange the second request is the GET of the user-info endpoint, `?`, then the query string of the response's access_token |
| `SberProviderProperties.UserInfoTransportFailureStops` | Provider.php:68 | a transport failure of the user-info GET reaches the caller unchanged, after both requests, recording nothing |
| `SberProviderProperties.SuccessfulLogin` | Provider.php:95-106 | with a valid state, a token response holding access_token and a user-info body that passes the check, the login records that token response and returns the user mapped from the decoded body, carrying that response and the token and expiry parsed from it |
| `SberProviderProperties.SuccessfulLoginHasCheckedUser` | Provider.php:91-106 | conversely, a successful login had a valid state, a token response holding access_token and a user-info body that passed the check; it recorded that token response and returned the user mapped from that body, with token and expiry parsed from the response |
| `SberProviderProperties.RejectedUserInfoFailsLogin` | Provider.php:95-99 | when the exchange succeeds but the user-info body has no non-null sub, the login fails after both requests and records nothing; for a body that decodes to an array, the error quotes that body |

## Left out

- The registration of the key `sber` with the host's provider registry (SberExtendSocialite.php) is pure wiring. It is not modelled.
- HTTP transport, `json_decode` and `http_build_query` are taken as parameters of the login: the `Host` fields `postToken`, `httpGet`, `jsonDecode` and `accessTokenQuery`. Their behaviour, errors and encodings are not modelled.
- The host framework's internals are inputs as well: `hasInvalidState`, `getCode`, `parent::getTokenFields`, `parseAccessToken`, `parseExpiresIn`, and the internals of `getAccessTokenResponse` other than the URL and fields it posts. The token response is assumed to decode to an array.
- Login: reading `access_token` from a token response that lacks it is modelled as the failure `UndefinedKey`. That relies on the host's error handler turning PHP's undefined-key warning into an exception; without that handler PHP would go on with a null token.
- AuthUrl: modelled only as handing the fixed authorize endpoint and the state to the host's URL builder. The query string it builds is not specified. Building it twice for one state gives the same URL only because it is a function.
- ValidateUserInfo: the diagnostic `Log::info` call that precedes the check is not modelled. For a body that does not decode to an array, that call may fail first with a different error. The model reports the provider's own RuntimeException for every rejected body.
- TokenFields: returns a map. The key order of PHP's `array_merge` is not modelled. Neither is its renumbering of integer keys, which the host's string-keyed fields do not have.
- The raw claims (`User.raw`, the result of `ValidateUserInfo`) are a map as well. It loses the key order of the PHP array and the integer keys `json_decode` makes from numeric-string object keys. Nothing in the provider relies on either: it only reads the fixed string keys of the table and `sub`.
- `Lookup` is `Arr::get` without dot notation: no key the provider looks up contains a dot.
- JSON numbers are kept as their literal text. The model never inspects them, and the provider only copies them.
- `setAccessTokenResponseBody` is applied unconditionally: `mapUserToObject` always returns a `User`, so the `instanceof` test always holds.
- The `IDENTIFIER` constant and the `stateless` flag are not modelled: no operation of the provider reads them. Whether the state is checked at all is decided inside the host's `hasInvalidState`, which the model takes as an input.
