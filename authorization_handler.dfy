/**
 The stand-alone authorization handler: it POSTs the configured credentials
 to the authentication endpoint, with any default Authorization header of the
 shared HTTP client cleared first, and hands back the body of a successful
 response as the token. A cancelled call returns no token and touches nothing.

 The HTTP client is represented by the state the handler changes on it (its
 default Authorization header) and by a log of the POSTs sent through it;
 `server(n)` is how the n-th POST ends.
 */
module Authorization {
  import opened Http

  /** A value of the `Authorization` request header: a scheme and its parameter. */
  datatype AuthenticationHeader = AuthenticationHeader(scheme: string, parameter: string)

  /** An authorization POST as it went out: its URI, the credentials it
      carried, and the client's default Authorization header at that moment. */
  datatype CredentialsPost = CredentialsPost(uri: string, username: string, password: string,
                                             authorization: Option<AuthenticationHeader>)

  /** Lines 36-41: the token is the body of a response with a success status,
      and there is none for any other status. */
  function TokenFromResponse(response: HttpResponse): (token: Option<string>)
    ensures token.Some? <==> IsSuccessStatusCode(response)
    ensures token.Some? ==> token.value == response.body
  {
    if IsSuccessStatusCode(response) then Some(response.body) else None
  }

  /** A token is handed back exactly for the statuses 200 through 299: the
      redirects, 401 and the server errors all give none. */
  lemma TokenOnlyForSuccess(body: string)
    ensures TokenFromResponse(HttpResponse(200, body)) == Some(body)
    ensures TokenFromResponse(HttpResponse(299, body)) == Some(body)
    ensures TokenFromResponse(HttpResponse(199, body)) == None
    ensures TokenFromResponse(HttpResponse(300, body)) == None
    ensures TokenFromResponse(HttpResponse(Unauthorized, body)) == None
    ensures TokenFromResponse(HttpResponse(500, body)) == None
  {
  }

  class AuthorizationHandler {
    const authenticationUri: string
    const username: string
    const password: string
    const server: nat -> Completion<HttpResponse>

    /** `DefaultRequestHeaders.Authorization` of the shared client. */
    var defaultAuthorization: Option<AuthenticationHeader>
    /** The authorization POSTs sent so far, oldest first. */
    var posts: seq<CredentialsPost>

    /** Every POST went to the configured endpoint with the configured
        credentials and without an Authorization header. */
    ghost predicate Valid()
      reads this
    {
      forall p | p in posts :: p == CredentialsPost(authenticationUri, username, password, None)
    }

    /** Lines 16-22: the handler keeps the client and the credentials it is
        given; the client's default header is whatever it was. */
    constructor (authenticationUri: string, username: string, password: string,
                 server: nat -> Completion<HttpResponse>,
                 defaultAuthorization: Option<AuthenticationHeader>)
      ensures Valid()
      ensures this.authenticationUri == authenticationUri && this.username == username && this.password == password
      ensures this.server == server
      ensures this.defaultAuthorization == defaultAuthorization
      ensures posts == []
    {
      this.authenticationUri := authenticationUri;
      this.username := username;
      this.password := password;
      this.server := server;
      this.defaultAuthorization := defaultAuthorization;
      posts := [];
    }

    /** Lines 24-43. A cancelled call returns null at once. Otherwise the
        default Authorization header is cleared, the credentials are POSTed,
        and the body of a successful response is the token; an exception the
        POST throws, a cancellation during the POST included, propagates. */
    method Authorize(cancellationRequested: bool) returns (r: Completion<Option<string>>)
      requires Valid()
      modifies this`defaultAuthorization, this`posts
      ensures Valid()
      ensures cancellationRequested ==>
        && r == Normal(None)
        && defaultAuthorization == old(defaultAuthorization)
        && posts == old(posts)
      ensures !cancellationRequested ==>
        && defaultAuthorization == None
        && posts == old(posts) + [CredentialsPost(authenticationUri, username, password, None)]
        && r == match server(|old(posts)|)
                case Exceptional => Exceptional
                case Normal(response) => Normal(TokenFromResponse(response))
    {
      if cancellationRequested {
        return Normal(None);
      }
      defaultAuthorization := None;
      var outcome := server(|posts|);
      posts := posts + [CredentialsPost(authenticationUri, username, password, defaultAuthorization)];
      match outcome
      case Exceptional =>
        r := Exceptional;
      case Normal(response) =>
        if IsSuccessStatusCode(response) {
          r := Normal(Some(response.body));
        } else {
          r := Normal(None);
        }
    }
  }
}
