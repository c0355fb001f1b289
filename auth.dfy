/**
 * auth/auth.go: exchanging credentials for an authenticated session, and the
 * read-only accessors of that session.
 */
module Authentication {
  import opened Wrappers
  import opened Http

  const Version := "1.1"

  /** The identity endpoint every authentication is posted to. */
  const IdentityUrl := "https://identity.api.rackspacecloud.com/v1.1/auth"

  datatype Credentials = Credentials(username: string, key: string)

  datatype AuthRequest = AuthRequest(credentials: Credentials)

  datatype AuthToken = AuthToken(id: string, expires: string)

  /** One entry of the service catalog; only its public URL is used by the core. */
  datatype Endpoint = Endpoint(publicUrl: string)

  /** The catalog of services a session may use; the core reads only the CloudDNS endpoints. */
  datatype Catalog = Catalog(cloudDns: seq<Endpoint>)

  datatype Auth = Auth(authToken: AuthToken, serviceCatalog: Catalog)

  datatype AuthResponse = AuthResponse(auth: Auth)

  /** The session `Authenticate` hands out; its fields are read through the accessors only. */
  datatype AuthSession = AuthSession(client: HttpClient, authToken: AuthToken, serviceCatalog: Catalog) {

    function Client(): HttpClient {
      client
    }

    function Id(): string {
      authToken.id
    }

    function Expires(): string {
      authToken.expires
    }

    function ServiceCatalog(): Catalog {
      serviceCatalog
    }
  }

  /** The accessors together give back the whole session: they are exact projections of its fields. */
  lemma AccessorsDetermineSession(s: AuthSession)
    ensures s == AuthSession(s.Client(), AuthToken(s.Id(), s.Expires()), s.ServiceCatalog())
  {
  }

  /** `json.Marshal(AuthRequest{credentials})`. */
  function AuthRequestJson(r: AuthRequest): Json {
    JObject(map["credentials" := JObject(map[
      "username" := JString(r.credentials.username),
      "key" := JString(r.credentials.key)])])
  }

  /** Reading credentials back out of a request body, as the identity service would. */
  function CredentialsFromJson(j: Json): Option<Credentials> {
    match j
    case JObject(m) =>
      if "credentials" in m && m["credentials"].JObject? then
        var c := m["credentials"].members;
        var user := StringMember(c, "username");
        var key := StringMember(c, "key");
        if user.Some? && key.Some? then Some(Credentials(user.value, key.value)) else None
      else None
    case _ => None
  }

  /** The request `Authenticate` sends: a POST of the credentials as JSON to the identity URL. */
  function AuthenticateRequest(credentials: Credentials): (req: Request)
    ensures req.verb == Post && req.url == IdentityUrl
    ensures req.header == map["Content-Type" := "application/json"]
    ensures req.body.Some? && CredentialsFromJson(req.body.value) == Some(credentials)
  {
    Request(Post, IdentityUrl, map["Content-Type" := "application/json"], Some(AuthRequestJson(AuthRequest(credentials))))
  }

  /**
   * Authenticate: the request goes through the shared client; 200 and 203 succeed and
   * every other code is an `AuthFaultError` carrying the code and the body. On success
   * the session holds exactly the decoded token and catalog and the shared client.
   */
  function Authenticate(credentials: Credentials, network: Network, decode: string -> Unmarshal<AuthResponse>)
    : (r: Result<AuthSession, Error>)
    ensures var out := network(SharedClient, AuthenticateRequest(credentials));
      && (out.NoResponse? ==> r == Err(TransportError(out.cause)))
      && (out.Response? && out.statusCode != 200 && out.statusCode != 203 ==>
            r == Err(AuthFaultError(out.statusCode, out.body)))
      && (out.Response? && (out.statusCode == 200 || out.statusCode == 203) ==>
            var u := decode(out.body);
            && (u.err.Some? ==> r == Err(JsonError(u.err.value)))
            && (u.err.None? ==>
                  && r.Ok?
                  && r.value.Id() == u.written.auth.authToken.id
                  && r.value.Expires() == u.written.auth.authToken.expires
                  && r.value.ServiceCatalog() == u.written.auth.serviceCatalog
                  && r.value.Client() == SharedClient))
  {
    Exchange(network(SharedClient, AuthenticateRequest(credentials)), {401, 403, 400, 500, 503}, {200, 203},
      (code, body) => AuthFaultError(code, body), decode,
      (resp: AuthResponse) => AuthSession(SharedClient, resp.auth.authToken, resp.auth.serviceCatalog))
  }
}
