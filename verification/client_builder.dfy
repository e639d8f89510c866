/**
 The client builder of the Monero RPC client library: a mutable accumulator
 of configuration (HTTP client, headers, credentials, logger) around a fixed
 URL, which builds one of three RPC client variants.

 The builder's fields are a class; the value of those fields is the datatype
 BuilderState, and the effect of every builder call on it is the pure
 function Step, so that properties of whole call sequences (Run) can be
 proved as lemmas.
 */
module Builder {
  import opened Wrappers
  import PhpArray

  /** A PSR-18 HTTP client instance, known only by its identity. */
  datatype HttpClient = HttpClient(id: nat)

  /** A PSR-3 logger instance, known only by its identity. */
  datatype Logger = Logger(id: nat)

  /** The client-type enumeration passed to `build`. */
  datatype RpcClientType = Wallet | Daemon | DaemonOther

  /** The three client classes `build` can instantiate. */
  datatype ClientKind = WalletRpcClient | DaemonRpcClient | DaemonOtherClient

  /** HTTP-client discovery found no client and threw. */
  datatype BuildError = HttpClientNotFound

  /** What a built client holds: the arguments of its constructor (HTTP
      client, URL, logger), the credentials passed to `setCredentials` (None
      when it was not called) and the headers passed to `setHeaders`. */
  datatype Built = Built(
    kind: ClientKind,
    url: string,
    logger: Option<Logger>,
    headers: seq<(string, string)>,
    credentials: Option<(string, string)>,
    http: HttpClient)

  /** The values of the builder's six fields. */
  datatype BuilderState = BuilderState(
    url: string,
    httpClient: Option<HttpClient>,
    headers: seq<(string, string)>,
    username: Option<string>,
    password: Option<string>,
    logger: Option<Logger>)

  /** What every reachable builder satisfies: the header array has unique
      keys, and username and password are set together, since
      `withAuthentication` is the only writer of either and takes both. */
  predicate Consistent(s: BuilderState)
  {
    PhpArray.UniqueKeys(s.headers) && (s.username.Some? <==> s.password.Some?)
  }

  /** One call on a builder. `discovery` is what PSR-18 discovery would
      yield if `build` asked for it: None when discovery throws. */
  datatype Call =
    | UseHttpClient(client: HttpClient)
    | AddHttpHeader(name: string, value: string)
    | Authenticate(username: string, password: string)
    | UseLogger(logger: Logger)
    | BuildClient(clientType: RpcClientType, discovery: Option<HttpClient>)

  /** `$this->httpClient ??= Psr18ClientDiscovery::find()`: a client already
      present is kept; otherwise the discovered one, if any. */
  function ResolveHttpClient(current: Option<HttpClient>, discovery: Option<HttpClient>): (r: Option<HttpClient>)
    ensures current.Some? ==> r == current
    ensures current.None? ==> r == discovery
  {
    if current.Some? then current else discovery
  }

  /** The effect of one call on the builder's fields. */
  function Step(s: BuilderState, c: Call): (t: BuilderState)
    ensures t.url == s.url
  {
    match c
    case UseHttpClient(client) => s.(httpClient := Some(client))
    case AddHttpHeader(name, value) => s.(headers := PhpArray.Set(s.headers, name, value))
    case Authenticate(username, password) => s.(username := Some(username), password := Some(password))
    case UseLogger(logger) => s.(logger := Some(logger))
    case BuildClient(_, discovery) => s.(httpClient := ResolveHttpClient(s.httpClient, discovery))
  }

  /** No single call breaks the builder's consistency. */
  lemma StepKeepsConsistent(s: BuilderState, c: Call)
    requires Consistent(s)
    ensures Consistent(Step(s, c))
  {
    if c.AddHttpHeader? {
      PhpArray.SetKeepsUniqueKeys(s.headers, c.name, c.value);
    }
  }

  /** The fields after a sequence of calls, the last call applied last. */
  function Run(s: BuilderState, cs: seq<Call>): BuilderState
    decreases |cs|
  {
    if cs == [] then s else Step(Run(s, cs[..|cs| - 1]), cs[|cs| - 1])
  }

  /** The `match` in `build`: DAEMON and DAEMON_OTHER have their own client;
      every other type falls through to the wallet client. */
  function KindOf(t: RpcClientType): (k: ClientKind)
    ensures k == DaemonRpcClient <==> t == Daemon
    ensures k == DaemonOtherClient <==> t == DaemonOther
    ensures k == WalletRpcClient <==> t != Daemon && t != DaemonOther
  {
    match t
    case Daemon => DaemonRpcClient
    case DaemonOther => DaemonOtherClient
    case _ => WalletRpcClient
  }

  /** What `build` returns from a builder whose fields are `s`. */
  function Assemble(s: BuilderState, t: RpcClientType, discovery: Option<HttpClient>): (r: Result<Built, BuildError>)
    ensures r.Failure? <==> s.httpClient.None? && discovery.None?
    ensures r.Success? ==> r.value.kind == KindOf(t) && r.value.url == s.url
    ensures r.Success? ==> r.value.logger == s.logger && r.value.headers == s.headers
    ensures r.Success? ==> (r.value.credentials.Some? <==> s.username.Some? && s.password.Some?)
    ensures r.Success? && r.value.credentials.Some? ==>
              r.value.credentials.value == (s.username.value, s.password.value)
    ensures r.Success? && s.httpClient.Some? ==> r.value.http == s.httpClient.value
    ensures r.Success? && s.httpClient.None? ==> discovery == Some(r.value.http)
  {
    match ResolveHttpClient(s.httpClient, discovery)
    case None => Failure(HttpClientNotFound)
    case Some(http) =>
      var credentials :=
        if s.username.Some? && s.password.Some? then Some((s.username.value, s.password.value)) else None;
      Success(Built(KindOf(t), s.url, s.logger, s.headers, credentials, http))
  }

  /** No sequence of calls changes the URL. */
  lemma {:induction false} RunKeepsUrl(s: BuilderState, cs: seq<Call>)
    ensures Run(s, cs).url == s.url
  {
    if cs != [] {
      RunKeepsUrl(s, cs[..|cs| - 1]);
    }
  }

  /** Every client built after any sequence of calls has the builder's URL. */
  lemma BuiltUrlIsConstructorUrl(s: BuilderState, cs: seq<Call>, t: RpcClientType, discovery: Option<HttpClient>)
    ensures Assemble(Run(s, cs), t, discovery).Success? ==> Assemble(Run(s, cs), t, discovery).value.url == s.url
  {
    RunKeepsUrl(s, cs);
  }

  /** No sequence of calls breaks the builder's consistency. */
  lemma {:induction false} RunKeepsConsistent(s: BuilderState, cs: seq<Call>)
    requires Consistent(s)
    ensures Consistent(Run(s, cs))
  {
    if cs != [] {
      RunKeepsConsistent(s, cs[..|cs| - 1]);
      StepKeepsConsistent(Run(s, cs[..|cs| - 1]), cs[|cs| - 1]);
    }
  }

  /** The header value is the one of the last `withHttpHeader` call for that
      name, whatever other calls come after it. */
  lemma {:induction false} LastHeaderWins(s: BuilderState, cs: seq<Call>, i: nat)
    requires i < |cs| && cs[i].AddHttpHeader?
    requires forall j :: i < j < |cs| ==> !(cs[j].AddHttpHeader? && cs[j].name == cs[i].name)
    ensures PhpArray.Get(Run(s, cs).headers, cs[i].name) == Some(cs[i].value)
  {
    var name := cs[i].name;
    var prefix := cs[..|cs| - 1];
    var last := cs[|cs| - 1];
    assert Run(s, cs) == Step(Run(s, prefix), last);
    if i < |cs| - 1 {
      LastHeaderWins(s, prefix, i);
      assert !(last.AddHttpHeader? && last.name == name);
      if last.AddHttpHeader? {
        var h := Run(s, prefix).headers;
        assert PhpArray.Get(PhpArray.Set(h, last.name, last.value), name) == PhpArray.Get(h, name);
      }
    }
  }

  /** Once `withAuthentication(u, p)` has been called, every client built
      later carries exactly (u, p) unless authentication is set again. */
  lemma {:induction false} LastAuthenticationWins(s: BuilderState, cs: seq<Call>, i: nat)
    requires i < |cs| && cs[i].Authenticate?
    requires forall j :: i < j < |cs| ==> !cs[j].Authenticate?
    ensures Run(s, cs).username == Some(cs[i].username) && Run(s, cs).password == Some(cs[i].password)
    ensures forall t, d :: Assemble(Run(s, cs), t, d).Success? ==>
              Assemble(Run(s, cs), t, d).value.credentials == Some((cs[i].username, cs[i].password))
  {
    if i < |cs| - 1 {
      LastAuthenticationWins(s, cs[..|cs| - 1], i);
    }
  }

  /** Without any `withAuthentication` call, no client gets credentials. */
  lemma {:induction false} NoAuthenticationNoCredentials(s: BuilderState, cs: seq<Call>)
    requires s.username.None? && s.password.None?
    requires forall j :: 0 <= j < |cs| ==> !cs[j].Authenticate?
    ensures Run(s, cs).username.None? && Run(s, cs).password.None?
    ensures forall t, d :: Assemble(Run(s, cs), t, d).Success? ==> Assemble(Run(s, cs), t, d).value.credentials.None?
  {
    if cs != [] {
      NoAuthenticationNoCredentials(s, cs[..|cs| - 1]);
    }
  }

  /** A builder that holds an HTTP client keeps it through any calls other
      than `withHttpClient`, builds included, whatever discovery would yield. */
  lemma {:induction false} HttpClientKept(s: BuilderState, cs: seq<Call>)
    requires s.httpClient.Some?
    requires forall j :: 0 <= j < |cs| ==> !cs[j].UseHttpClient?
    ensures Run(s, cs).httpClient == s.httpClient
  {
    if cs != [] {
      HttpClientKept(s, cs[..|cs| - 1]);
    }
  }

  /** An explicitly set HTTP client is the client of every later build until
      another one is set: discovery never replaces it. */
  lemma ExplicitHttpClientUsed(s: BuilderState, cs: seq<Call>, i: nat, t: RpcClientType, discovery: Option<HttpClient>)
    requires i < |cs| && cs[i].UseHttpClient?
    requires forall j :: i < j < |cs| ==> !cs[j].UseHttpClient?
    ensures Assemble(Run(s, cs), t, discovery) == Assemble(Run(s, cs), t, None)
    ensures Assemble(Run(s, cs), t, discovery).Success?
    ensures Assemble(Run(s, cs), t, discovery).value.http == cs[i].client
  {
    var before := Run(s, cs[..i + 1]);
    assert cs[..i + 1][..i] == cs[..i];
    assert cs[..i + 1] + cs[i + 1..] == cs;
    HttpClientKept(before, cs[i + 1..]);
    RunConcat(s, cs[..i + 1], cs[i + 1..]);
  }

  /** Once a build has discovered an HTTP client, every later build until
      `withHttpClient` uses that same client, and discovery is not asked again. */
  lemma DiscoveredHttpClientReused(s: BuilderState, t1: RpcClientType, d1: Option<HttpClient>,
                                   cs: seq<Call>, t2: RpcClientType, d2: Option<HttpClient>)
    requires s.httpClient.None? && Assemble(s, t1, d1).Success?
    requires forall j :: 0 <= j < |cs| ==> !cs[j].UseHttpClient?
    ensures Assemble(Run(s, [BuildClient(t1, d1)] + cs), t2, d2).Success?
    ensures Assemble(Run(s, [BuildClient(t1, d1)] + cs), t2, d2).value.http == Assemble(s, t1, d1).value.http
  {
    var after := Step(s, BuildClient(t1, d1));
    assert Run(s, [BuildClient(t1, d1)]) == after;
    HttpClientKept(after, cs);
    RunConcat(s, [BuildClient(t1, d1)], cs);
  }

  /** Running two call sequences one after the other is running their concatenation. */
  lemma {:induction false} RunConcat(s: BuilderState, xs: seq<Call>, ys: seq<Call>)
    ensures Run(s, xs + ys) == Run(Run(s, xs), ys)
    decreases |ys|
  {
    if ys != [] {
      assert (xs + ys)[..|xs + ys| - 1] == xs + ys[..|ys| - 1];
      RunConcat(s, xs, ys[..|ys| - 1]);
    } else {
      assert xs + ys == xs;
    }
  }

  /** The builder object: PHP's `ClientBuilder`. */
  class ClientBuilder {
    var httpClient: Option<HttpClient>
    const url: string
    var headers: seq<(string, string)>
    var username: Option<string>
    var password: Option<string>
    var logger: Option<Logger>

    /** The current values of the fields. */
    function State(): BuilderState
      reads this
    {
      BuilderState(url, httpClient, headers, username, password, logger)
    }

    ghost predicate Valid()
      reads this
    {
      Consistent(State())
    }

    /** Stores the URL; every other field starts empty. */
    constructor (url: string)
      ensures Valid()
      ensures State() == BuilderState(url, None, [], None, None, None)
    {
      this.url := url;
      httpClient := None;
      headers := [];
      username := None;
      password := None;
      logger := None;
    }

    method WithHttpClient(client: HttpClient) returns (self: ClientBuilder)
      requires Valid()
      modifies this`httpClient
      ensures Valid() && self == this
      ensures httpClient == Some(client)
      ensures State() == Step(old(State()), UseHttpClient(client))
    {
      httpClient := Some(client);
      return this;
    }

    method WithHttpHeader(name: string, value: string) returns (self: ClientBuilder)
      requires Valid()
      modifies this`headers
      ensures Valid() && self == this
      ensures PhpArray.Get(headers, name) == Some(value)
      ensures forall n :: n != name ==> PhpArray.Get(headers, n) == PhpArray.Get(old(headers), n)
      ensures State() == Step(old(State()), AddHttpHeader(name, value))
    {
      PhpArray.SetKeepsUniqueKeys(headers, name, value);
      headers := PhpArray.Set(headers, name, value);
      return this;
    }

    method WithAuthentication(username: string, password: string) returns (self: ClientBuilder)
      requires Valid()
      modifies this`username, this`password
      ensures Valid() && self == this
      ensures this.username == Some(username) && this.password == Some(password)
      ensures State() == Step(old(State()), Authenticate(username, password))
    {
      this.username := Some(username);
      this.password := Some(password);
      return this;
    }

    method WithLogger(logger: Logger) returns (self: ClientBuilder)
      requires Valid()
      modifies this`logger
      ensures Valid() && self == this
      ensures this.logger == Some(logger)
      ensures State() == Step(old(State()), UseLogger(logger))
    {
      this.logger := Some(logger);
      return this;
    }

    /** Builds a client of the given type. `discovery` stands for the result
        of PSR-18 discovery, consulted only when no HTTP client is held. */
    method Build(clientType: RpcClientType, discovery: Option<HttpClient>) returns (r: Result<Built, BuildError>)
      requires Valid()
      modifies this`httpClient
      ensures Valid()
      ensures r == Assemble(old(State()), clientType, discovery)
      ensures State() == Step(old(State()), BuildClient(clientType, discovery))
    {
      if httpClient.None? {
        if discovery.None? {
          return Failure(HttpClientNotFound);
        }
        httpClient := discovery;
      }
      var client := Built(KindOf(clientType), url, logger, [], None, httpClient.value);
      if username.Some? && password.Some? {
        client := client.(credentials := Some((username.value, password.value)));
      }
      client := client.(headers := headers);
      r := Success(client);
    }

    method BuildWalletClient(discovery: Option<HttpClient>) returns (r: Result<Built, BuildError>)
      requires Valid()
      modifies this`httpClient
      ensures Valid()
      ensures r == Assemble(old(State()), Wallet, discovery)
      ensures r.Success? ==> r.value.kind == WalletRpcClient
      ensures State() == Step(old(State()), BuildClient(Wallet, discovery))
    {
      r := Build(Wallet, discovery);
    }

    method BuildDaemonClient(discovery: Option<HttpClient>) returns (r: Result<Built, BuildError>)
      requires Valid()
      modifies this`httpClient
      ensures Valid()
      ensures r == Assemble(old(State()), Daemon, discovery)
      ensures r.Success? ==> r.value.kind == DaemonRpcClient
      ensures State() == Step(old(State()), BuildClient(Daemon, discovery))
    {
      r := Build(Daemon, discovery);
    }

    method BuildDaemonOtherClient(discovery: Option<HttpClient>) returns (r: Result<Built, BuildError>)
      requires Valid()
      modifies this`httpClient
      ensures Valid()
      ensures r == Assemble(old(State()), DaemonOther, discovery)
      ensures r.Success? ==> r.value.kind == DaemonOtherClient
      ensures State() == Step(old(State()), BuildClient(DaemonOther, discovery))
    {
      r := Build(DaemonOther, discovery);
    }
  }
}
