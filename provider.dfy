/** The provider's `configure` step: choosing between the CLI authorizer and
    the client-credentials authorizer, setting the client's transport
    settings, and recording failures in the package-level diagnostics. */
module Provider {
  import opened Wrappers
  import opened Diagnostics

  /** The audience every authorizer is requested for. */
  const RESOURCE := "https://management.azure.com"

  /** Go's `time.Duration` counts nanoseconds. */
  const SECOND := 1_000_000_000

  /** The transport settings configure assigns; the polling delay is the bare
      duration 20, that is 20 nanoseconds. */
  const POLLING_DELAY := 20
  const RETRY_ATTEMPTS := 20
  const RETRY_DURATION := 5 * SECOND

  const CLI_FAILURE_PREFIX := "Failed to create authorizer from CLI: "
  const CREDENTIALS_FAILURE_PREFIX := "Failed to create authorizer with credentials: "

  /** An authorizer handed out by the authentication library; opaque here. */
  datatype Authorizer = Authorizer(handle: string)

  /** The client-credentials configuration, with its resource overridden. */
  datatype ClientCredentialsConfig = ClientCredentialsConfig(
    clientId: string, clientSecret: string, tenantId: string, resource: string)

  /** The two ways configure can obtain an authorizer. */
  datatype CredentialPath = CliPath | ClientCredentialsPath(config: ClientCredentialsConfig)

  /** The constructors of the authentication library, as abstract outcomes:
      each yields an authorizer or the library's error text. */
  type CliAuthorizerFactory = string -> Result<Authorizer, string>
  type CredentialsAuthorizerFactory = ClientCredentialsConfig -> Result<Authorizer, string>

  /** The credential choice: any empty value among the three sends configure
      to the CLI; only a complete triple is used as client credentials, and
      then exactly as given. */
  function ChoosePath(tenantId: string, clientId: string, clientSecret: string): (path: CredentialPath)
    ensures path.CliPath? <==> (tenantId == "" || clientId == "" || clientSecret == "")
    ensures path.ClientCredentialsPath? ==>
      path.config == ClientCredentialsConfig(clientId, clientSecret, tenantId, RESOURCE)
  {
    if clientId == "" || clientSecret == "" || tenantId == "" then CliPath
    else ClientCredentialsPath(ClientCredentialsConfig(clientId, clientSecret, tenantId, RESOURCE))
  }

  /** The outcome of the one constructor the path selects. */
  function Build(path: CredentialPath, newCli: CliAuthorizerFactory,
                 newClientCredentials: CredentialsAuthorizerFactory): Result<Authorizer, string>
  {
    match path
    case CliPath => newCli(RESOURCE)
    case ClientCredentialsPath(config) => newClientCredentials(config)
  }

  /** The error diagnostic recorded when the selected constructor fails. */
  function FailureDiagnostic(path: CredentialPath, cause: string): Diagnostic {
    Diagnostic(Error, (if path.CliPath? then CLI_FAILURE_PREFIX else CREDENTIALS_FAILURE_PREFIX) + cause)
  }

  /** The package-level diagnostics after a series of configure calls made
      from a fresh start: entry i of `failures` is the diagnostic of call i
      when that call failed, and None when it succeeded. */
  function Accumulated(failures: seq<Option<Diagnostic>>): seq<Diagnostic>
    decreases |failures|
  {
    if failures == [] then []
    else
      Accumulated(failures[..|failures| - 1]) +
      match failures[|failures| - 1]
      case Some(d) => [d]
      case None => []
  }

  /** The resource-graph client. */
  class BaseClient {
    var pollingDelay: int
    var retryAttempts: int
    var retryDuration: int
    var authorizer: Option<Authorizer>

    /** A new client has no authorizer; the library's default transport
        settings are not part of this model and are overwritten by configure. */
    constructor ()
      ensures authorizer == None
    {
      pollingDelay, retryAttempts, retryDuration := 0, 0, 0;
      authorizer := None;
    }

    predicate HasConfiguredTransport()
      reads this
    {
      pollingDelay == POLLING_DELAY && retryAttempts == RETRY_ATTEMPTS && retryDuration == RETRY_DURATION
    }
  }

  /** What configure hands to the data sources. */
  datatype Clients = Clients(resourceGraph: BaseClient)

  /** The provider package's mutable state: the package-level diagnostics
      list, which outlives any single configure call. */
  class ProviderState {
    var diags: seq<Diagnostic>
    ghost var history: seq<Option<Diagnostic>>

    ghost predicate Valid()
      reads this
    {
      diags == Accumulated(history)
    }

    constructor ()
      ensures Valid() && diags == [] && history == []
    {
      diags := [];
      history := [];
    }

    /** One configure call. On success it returns the clients and no
        diagnostics; on failure it appends one error diagnostic to the
        package-level list and returns no clients and that whole list. */
    method Configure(tenantId: string, clientId: string, clientSecret: string,
                     newCli: CliAuthorizerFactory, newClientCredentials: CredentialsAuthorizerFactory)
      returns (meta: Option<Clients>, returned: seq<Diagnostic>)
      requires Valid()
      modifies this
      ensures Valid()
      ensures var path := ChoosePath(tenantId, clientId, clientSecret);
        match Build(path, newCli, newClientCredentials)
        case Ok(authorizer) =>
          && meta.Some? && fresh(meta.value.resourceGraph)
          && meta.value.resourceGraph.authorizer == Some(authorizer)
          && meta.value.resourceGraph.HasConfiguredTransport()
          && returned == []
          && diags == old(diags) && history == old(history) + [None]
        case Err(cause) =>
          && meta.None?
          && diags == old(diags) + [FailureDiagnostic(path, cause)]
          && history == old(history) + [Some(FailureDiagnostic(path, cause))]
          && returned == diags
    {
      var client := new BaseClient();
      client.pollingDelay := POLLING_DELAY;
      client.retryAttempts := RETRY_ATTEMPTS;
      client.retryDuration := RETRY_DURATION;

      var path := ChoosePath(tenantId, clientId, clientSecret);
      var built;
      match path {
        case CliPath =>
          built := newCli(RESOURCE);
        case ClientCredentialsPath(config) =>
          built := newClientCredentials(config);
      }
      if built.Err? {
        var failure := FailureDiagnostic(path, built.error);
        diags := diags + [failure];
        history := history + [Some(failure)];
        assert history[..|history| - 1] == old(history);
        return None, diags;
      }
      client.authorizer := Some(built.value);
      history := history + [None];
      assert history[..|history| - 1] == old(history);
      meta := Some(Clients(client));
      returned := [];
    }
  }

  /** The package-level list never shrinks: whatever later calls do, the
      diagnostics recorded so far stay at its front, in order. */
  lemma {:induction false} AccumulatedNeverShrinks(a: seq<Option<Diagnostic>>, b: seq<Option<Diagnostic>>)
    ensures Accumulated(a) <= Accumulated(a + b)
    decreases |b|
  {
    if b == [] {
      assert a + b == a;
    } else {
      var ab := a + b;
      assert ab[..|ab| - 1] == a + b[..|b| - 1];
      AccumulatedNeverShrinks(a, b[..|b| - 1]);
    }
  }

  /** A diagnostic is in the package-level list exactly when some earlier
      call failed with it. */
  lemma {:induction false} AccumulatedMembership(failures: seq<Option<Diagnostic>>, d: Diagnostic)
    ensures d in Accumulated(failures) <==>
      exists i :: 0 <= i < |failures| && failures[i] == Some(d)
    decreases |failures|
  {
    if failures != [] {
      var front := failures[..|failures| - 1];
      AccumulatedMembership(front, d);
      if d in Accumulated(failures) && failures[|failures| - 1] != Some(d) {
        var i :| 0 <= i < |front| && front[i] == Some(d);
        assert failures[i] == front[i];
      }
      if exists i :: 0 <= i < |failures| && failures[i] == Some(d) {
        var i :| 0 <= i < |failures| && failures[i] == Some(d);
        if i < |front| {
          assert front[i] == failures[i];
        }
      }
    }
  }

  /** What a caller can conclude from the contracts alone: a second failed
      configure call reports the first call's diagnostic as well. */
  method StaleDiagnosticsScenario()
  {
    var state := new ProviderState();
    var noCli: CliAuthorizerFactory := _ => Err("az login required");
    var rejecting: CredentialsAuthorizerFactory := _ => Err("invalid client secret");
    var meta, returned := state.Configure("", "", "", noCli, rejecting);
    assert meta.None? && |returned| == 1;
    var first := returned[0];
    meta, returned := state.Configure("tenant", "client", "secret", noCli, rejecting);
    assert meta.None? && |returned| == 2 && returned[0] == first;
    assert returned[1].summary == CREDENTIALS_FAILURE_PREFIX + "invalid client secret";
  }
}
