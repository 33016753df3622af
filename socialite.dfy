/**
 * What the provider receives from, and hands to, the host OAuth2 framework
 * it extends: the errors a login can end in, the requests it sends over the
 * network, and the host operations it calls but does not define.
 */
module Socialite {
  import opened Wrappers
  import opened PhpValue

  /** A decoded token response: `access_token`, `expires_in` and whatever else the server sent. */
  type TokenResponse = map<string, Value>

  /** The form fields posted to the token endpoint. */
  type Form = map<string, string>

  /** How a login attempt fails. */
  datatype Error =
    | InvalidState               // InvalidStateException: the anti-forgery state did not match
    | Transport(detail: string)  // an HTTP failure raised by the host's client, passed on unchanged
    | Runtime(message: string)   // RuntimeException raised by the provider itself
    | UndefinedKey(key: string)  // the ErrorException the host raises when an array is read at a missing key

  /** An outgoing network request, in the order the provider issues them. */
  datatype Request =
    | TokenRequest(url: string, form: Form)  // POST of the code exchange
    | UserInfoRequest(url: string)           // GET of the user-info endpoint

  /**
   * The host operations one login attempt consults. Each is fixed for the
   * attempt, so that the model of the provider is a function of them.
   */
  datatype Host = Host(
    invalidState: bool,                                   // hasInvalidState()
    code: string,                                         // getCode()
    baseTokenFields: string -> Form,                      // parent::getTokenFields($code)
    postToken: (string, Form) -> Result<TokenResponse, string>, // POST and decode of the token response
    accessTokenQuery: Value -> string,                    // http_build_query(['access_token' => $token])
    httpGet: string -> Result<string, string>,            // GET, giving the body as text
    jsonDecode: string -> Value,                          // json_decode($contents, true)
    parseAccessToken: TokenResponse -> Value,             // parseAccessToken($response)
    parseExpiresIn: TokenResponse -> Value                // parseExpiresIn($response)
  )
}
