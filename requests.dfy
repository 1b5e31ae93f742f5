/** The requests the script composes: the authorize URL it navigates to after
    a submission, and the two grant bodies it posts to the token endpoint.
    Each is a fixed-order concatenation; the lemmas show that splitting
    at `&` and `=` gives back exactly the intended fields when no value holds
    an `&`. */
module Requests {
  import opened Form
  import opened Credentials

  const AuthorizeEndpoint: string := "https://accounts.secure.freee.co.jp/public_api/authorize"
  const TokenEndpoint: string := "https://accounts.secure.freee.co.jp/public_api/token"
  const CompaniesEndpoint: string := "https://api.freee.co.jp/api/1/companies"

  /** The header of both token requests. */
  /** An HTTP header name and value, as passed to the proxy. */
  type Header = (string, string)

  const FormHeaders: seq<Header> := [("Content-Type", "application/x-www-form-urlencoded")]

  /** The decimal rendering of an app id, as a template literal produces it. */
  function Decimal(n: nat): string {
    if n < 10 then [('0' as int + n) as char]
    else Decimal(n / 10) + [('0' as int + n % 10) as char]
  }

  /** The callback URL `https://<host>/k/<app id>/`, before percent-encoding. */
  function RedirectUri(host: string, app: nat): string {
    "https://" + host + "/k/" + Decimal(app) + "/"
  }

  /** The URL the submit-success handler navigates to; `redirect` is the
      already-encoded callback URL. */
  function AuthorizeUrl(clientId: string, redirect: string, state: string): string {
    AuthorizeEndpoint + "?" + AuthorizeQuery(clientId, redirect, state)
  }

  /** The query string of the authorize URL, concatenated as the script does. */
  function AuthorizeQuery(clientId: string, redirect: string, state: string): string {
    "client_id=" + clientId +
    "&redirect_uri=" + redirect +
    "&response_type=code" +
    "&state=" + state
  }

  /** The body of the refresh_token grant. */
  function RefreshBody(record: KintoneRecord, redirect: string): string {
    "grant_type=refresh_token" +
    "&client_id=" + record.clientId +
    "&client_secret=" + record.clientSecret +
    "&redirect_uri=" + redirect +
    "&refresh_token=" + record.refreshToken
  }

  /** The body of the authorization_code grant. */
  function CodeBody(record: KintoneRecord, redirect: string, code: string): string {
    "grant_type=authorization_code" +
    "&client_id=" + record.clientId +
    "&client_secret=" + record.clientSecret +
    "&redirect_uri=" + redirect +
    "&code=" + code
  }

  /** The field names and fixed values of the authorize URL hold no delimiter. */
  lemma AuthorizeNamesPlain()
    ensures '&' !in "client_id" && '=' !in "client_id"
    ensures '&' !in "redirect_uri" && '=' !in "redirect_uri"
    ensures '&' !in "response_type" && '=' !in "response_type" && '&' !in "code"
    ensures '&' !in "state" && '=' !in "state"
  {
  }

  /** The field names shared by both grant bodies hold no delimiter. */
  lemma GrantNamesPlain()
    ensures '&' !in "grant_type" && '=' !in "grant_type"
    ensures '&' !in "client_id" && '=' !in "client_id"
    ensures '&' !in "client_secret" && '=' !in "client_secret"
    ensures '&' !in "redirect_uri" && '=' !in "redirect_uri"
  {
  }

  /** The names and fixed values only the refresh body writes hold no delimiter. */
  lemma RefreshNamesPlain()
    ensures '&' !in "refresh_token" && '=' !in "refresh_token"
  {
  }

  /** The names and fixed values only the code body writes hold no delimiter. */
  lemma CodeNamesPlain()
    ensures '&' !in "authorization_code"
    ensures '&' !in "code" && '=' !in "code"
  {
  }

  /** The authorize URL's query string is the form encoding of the client id, the encoded callback, `response_type=code` and the state, in
      this order. */
  lemma AuthorizeQueryIsEncoding(clientId: string, redirect: string, state: string)
    ensures AuthorizeQuery(clientId, redirect, state) ==
      Encode([("client_id", clientId), ("redirect_uri", redirect), ("response_type", "code"), ("state", state)])
  {
    assert "client_id" + "=" == "client_id=";
    assert "&" + "redirect_uri" + "=" == "&redirect_uri=";
    assert "&" + "response_type" + "=" + "code" == "&response_type=code";
    assert "&" + "state" + "=" == "&state=";
    EncodeFour(("client_id", clientId), ("redirect_uri", redirect), ("response_type", "code"), ("state", state));
  }

  /** Splitting the authorize URL's query string at `&` and `=` gives back
      those four fields, in that order, when no value holds an `&`. */
  lemma AuthorizeUrlFields(clientId: string, redirect: string, state: string)
    requires '&' !in clientId && '&' !in redirect && '&' !in state
    ensures var url := AuthorizeUrl(clientId, redirect, state);
      var n := |AuthorizeEndpoint| + 1;
      n <= |url| && url[..n] == AuthorizeEndpoint + "?" &&
      Decode(url[n..]) ==
        [("client_id", clientId), ("redirect_uri", redirect), ("response_type", "code"), ("state", state)]
  {
    var fields := [("client_id", clientId), ("redirect_uri", redirect), ("response_type", "code"), ("state", state)];
    AuthorizeNamesPlain();
    assert AllPlain(fields);
    AuthorizeQueryIsEncoding(clientId, redirect, state);
    DecodeEncode(fields);
    var head := AuthorizeEndpoint + "?";
    var url := AuthorizeUrl(clientId, redirect, state);
    assert url[..|head|] == head && url[|head|..] == AuthorizeQuery(clientId, redirect, state);
  }

  /** When no value holds an `&`, the only `state` a split of the authorize
      query finds is the one the script put there. */
  lemma AuthorizeUrlState(clientId: string, redirect: string, state: string, read: string)
    requires '&' !in clientId && '&' !in redirect && '&' !in state
    requires var url := AuthorizeUrl(clientId, redirect, state);
      |AuthorizeEndpoint| + 1 <= |url| && ("state", read) in Decode(url[|AuthorizeEndpoint| + 1..])
    ensures read == state
  {
    AuthorizeUrlFields(clientId, redirect, state);
    assert |"client_id"| != |"state"| && |"redirect_uri"| != |"state"| && |"response_type"| != |"state"|;
  }

  /** The refresh body is the form encoding of `grant_type=refresh_token`, the
      client id, the client secret, the encoded callback and the refresh
      token, in this order. */
  lemma RefreshBodyIsEncoding(record: KintoneRecord, redirect: string)
    ensures RefreshBody(record, redirect) ==
      Encode([("grant_type", "refresh_token"), ("client_id", record.clientId),
              ("client_secret", record.clientSecret), ("redirect_uri", redirect),
              ("refresh_token", record.refreshToken)])
  {
    assert Pair(("grant_type", "refresh_token")) == "grant_type=refresh_token";
    assert "&" + "client_id" + "=" == "&client_id=";
    assert "&" + "client_secret" + "=" == "&client_secret=";
    assert "&" + "redirect_uri" + "=" == "&redirect_uri=";
    assert "&" + "refresh_token" + "=" == "&refresh_token=";
    EncodeFive(("grant_type", "refresh_token"), ("client_id", record.clientId),
               ("client_secret", record.clientSecret), ("redirect_uri", redirect),
               ("refresh_token", record.refreshToken));
  }

  /** Splitting the refresh body at `&` and `=` gives back those five fields,
      in that order, when no value holds an `&`. */
  lemma RefreshBodyFields(record: KintoneRecord, redirect: string)
    requires '&' !in record.clientId && '&' !in record.clientSecret
    requires '&' !in redirect && '&' !in record.refreshToken
    ensures Decode(RefreshBody(record, redirect)) ==
      [("grant_type", "refresh_token"), ("client_id", record.clientId),
       ("client_secret", record.clientSecret), ("redirect_uri", redirect),
       ("refresh_token", record.refreshToken)]
  {
    RefreshBodyIsEncoding(record, redirect);
    GrantNamesPlain();
    RefreshNamesPlain();
    DecodeFive(("grant_type", "refresh_token"), ("client_id", record.clientId),
               ("client_secret", record.clientSecret), ("redirect_uri", redirect),
               ("refresh_token", record.refreshToken));
  }

  /** The code body is the form encoding of `grant_type=authorization_code`,
      the same client id, client secret and callback fields as the refresh
      body, and the authorization code last. */
  lemma CodeBodyIsEncoding(record: KintoneRecord, redirect: string, code: string)
    ensures CodeBody(record, redirect, code) ==
      Encode([("grant_type", "authorization_code"), ("client_id", record.clientId),
              ("client_secret", record.clientSecret), ("redirect_uri", redirect),
              ("code", code)])
  {
    assert Pair(("grant_type", "authorization_code")) == "grant_type=authorization_code";
    assert "&" + "client_id" + "=" == "&client_id=";
    assert "&" + "client_secret" + "=" == "&client_secret=";
    assert "&" + "redirect_uri" + "=" == "&redirect_uri=";
    assert "&" + "code" + "=" == "&code=";
    EncodeFive(("grant_type", "authorization_code"), ("client_id", record.clientId),
               ("client_secret", record.clientSecret), ("redirect_uri", redirect),
               ("code", code));
  }

  /** Splitting the code body at `&` and `=` gives back those five fields, in
      that order, when no value holds an `&`. */
  lemma CodeBodyFields(record: KintoneRecord, redirect: string, code: string)
    requires '&' !in record.clientId && '&' !in record.clientSecret
    requires '&' !in redirect && '&' !in code
    ensures Decode(CodeBody(record, redirect, code)) ==
      [("grant_type", "authorization_code"), ("client_id", record.clientId),
       ("client_secret", record.clientSecret), ("redirect_uri", redirect),
       ("code", code)]
  {
    var fields := [("grant_type", "authorization_code"), ("client_id", record.clientId),
                   ("client_secret", record.clientSecret), ("redirect_uri", redirect),
                   ("code", code)];
    CodeBodyIsEncoding(record, redirect, code);
    GrantNamesPlain();
    CodeNamesPlain();
    DecodeFive(("grant_type", "authorization_code"), ("client_id", record.clientId),
               ("client_secret", record.clientSecret), ("redirect_uri", redirect),
               ("code", code));
  }
}
