/**
 * Connection-source resolution (`BuildKubernetesConfig`).
 *
 * Four credential sources are tried in a fixed order. The first source whose
 * trigger is present decides the outcome, including its failure: there is no
 * fall-through to a later source. The process environment, the file system and
 * the client-go loaders are inputs, bundled in `Environment`.
 */
module KubeConfig {
  import opened Wrappers

  const KubeconfigDataVar := "KUBECONFIG_DATA"
  const ServerVar := "KUBERNETES_SERVER"
  const TokenVar := "KUBERNETES_TOKEN"
  const InsecureVar := "KUBERNETES_INSECURE"
  const CaCertVar := "KUBERNETES_CA_CERT"
  const CaCertPathVar := "KUBERNETES_CA_CERT_PATH"
  const KubeconfigVar := "KUBECONFIG"
  const ServiceAccountTokenPath := "/var/run/secrets/kubernetes.io/serviceaccount/token"
  const DefaultKubeconfigSuffix := "/.kube/config"

  /** The four credential sources, in priority order. */
  datatype Source = InlineKubeconfig | ServerAndToken | InCluster | KubeconfigFile

  /** The parts of a REST config this layer decides or passes on. `caData` is None when no CA was configured. */
  datatype Connection = Connection(host: string, bearerToken: string, insecure: bool, caData: Option<string>)

  /** The connection descriptor: the selected source, the connection, and the kubeconfig path used (source 4 only). */
  datatype Descriptor = Descriptor(source: Source, connection: Connection, kubeconfigPath: string)

  /** What `clientcmd.Load` followed by `ClientConfig()` makes of the inline kubeconfig text. */
  datatype LoadOutcome = Loaded(connection: Connection) | LoadFailed | BuildFailed

  /**
   * Everything the resolution reads:
   * `vars` the process environment; `tokenFileExists` whether `os.Stat` succeeds on the
   * service-account token path; `readableFiles` the files `os.ReadFile` can read, with
   * their contents; `home` the user's home directory ("" when unknown);
   * `inlineKubeconfig` the loader's verdict on KUBECONFIG_DATA; `inClusterConfig` what
   * `rest.InClusterConfig()` yields; `kubeconfigFiles` the paths from which
   * `clientcmd.BuildConfigFromFlags` builds a config, with the config it builds.
   */
  datatype Environment = Environment(
    vars: map<string, string>,
    tokenFileExists: bool,
    readableFiles: map<string, string>,
    home: string,
    inlineKubeconfig: LoadOutcome,
    inClusterConfig: Option<Connection>,
    kubeconfigFiles: map<string, Connection>)

  datatype ConfigError =
    | InlineKubeconfigInvalid
    | InlineKubeconfigUnbuildable
    | TokenRequired
    | CaCertUnreadable(path: string)
    | InClusterUnavailable
    | KubeconfigUnusable(path: string)

  /** `os.Getenv`: an unset variable reads as the empty string. */
  function Getenv(env: Environment, name: string): string {
    if name in env.vars then env.vars[name] else ""
  }

  /** The source whose trigger is present first, in priority order. */
  function Trigger(env: Environment): Source {
    if Getenv(env, KubeconfigDataVar) != "" then InlineKubeconfig
    else if Getenv(env, ServerVar) != "" then ServerAndToken
    else if env.tokenFileExists then InCluster
    else KubeconfigFile
  }

  /** The source an error belongs to. */
  function SourceOf(e: ConfigError): Source {
    match e
    case InlineKubeconfigInvalid => InlineKubeconfig
    case InlineKubeconfigUnbuildable => InlineKubeconfig
    case TokenRequired => ServerAndToken
    case CaCertUnreadable(_) => ServerAndToken
    case InClusterUnavailable => InCluster
    case KubeconfigUnusable(_) => KubeconfigFile
  }

  /** The kubeconfig path of source 4: the explicit argument, else KUBECONFIG, else home/.kube/config, else "". */
  function KubeconfigPath(env: Environment, explicitPath: string): (p: string)
    ensures explicitPath != "" ==> p == explicitPath
    ensures explicitPath == "" && Getenv(env, KubeconfigVar) != "" ==> p == Getenv(env, KubeconfigVar)
    ensures explicitPath == "" && Getenv(env, KubeconfigVar) == "" ==>
              p == (if env.home != "" then env.home + DefaultKubeconfigSuffix else "")
  {
    if explicitPath != "" then explicitPath
    else if Getenv(env, KubeconfigVar) != "" then Getenv(env, KubeconfigVar)
    else if env.home != "" then env.home + DefaultKubeconfigSuffix
    else ""
  }

  /** Source 2: server URL and bearer token from the environment, with an optional CA. */
  function ServerAndTokenConfig(env: Environment): (r: Result<Descriptor, ConfigError>)
    ensures r.Ok? ==> r.value.source == ServerAndToken && r.value.kubeconfigPath == ""
    ensures r.Err? ==> SourceOf(r.error) == ServerAndToken
  {
    var token := Getenv(env, TokenVar);
    if token == "" then Err(TokenRequired)
    else
      var conn := Connection(Getenv(env, ServerVar), token, Getenv(env, InsecureVar) == "true", None);
      var caCert := Getenv(env, CaCertVar);
      var caPath := Getenv(env, CaCertPathVar);
      if caCert != "" then Ok(Descriptor(ServerAndToken, conn.(caData := Some(caCert)), ""))
      else if caPath == "" then Ok(Descriptor(ServerAndToken, conn, ""))
      else if caPath in env.readableFiles then
        Ok(Descriptor(ServerAndToken, conn.(caData := Some(env.readableFiles[caPath])), ""))
      else Err(CaCertUnreadable(caPath))
  }

  /**
   * `BuildKubernetesConfig(kubeconfigPath)`: the first source whose trigger is present
   * decides the result, success or failure.
   */
  function BuildKubernetesConfig(env: Environment, kubeconfigPath: string): (r: Result<Descriptor, ConfigError>)
    ensures r.Ok? ==> r.value.source == Trigger(env)
    ensures r.Err? ==> SourceOf(r.error) == Trigger(env)
    ensures r.Ok? && r.value.source == KubeconfigFile ==>
              r.value.kubeconfigPath == KubeconfigPath(env, kubeconfigPath)
    ensures r.Ok? && r.value.source != KubeconfigFile ==> r.value.kubeconfigPath == ""
  {
    if Getenv(env, KubeconfigDataVar) != "" then
      match env.inlineKubeconfig
      case LoadFailed => Err(InlineKubeconfigInvalid)
      case BuildFailed => Err(InlineKubeconfigUnbuildable)
      case Loaded(conn) => Ok(Descriptor(InlineKubeconfig, conn, ""))
    else if Getenv(env, ServerVar) != "" then
      ServerAndTokenConfig(env)
    else if env.tokenFileExists then
      match env.inClusterConfig
      case None => Err(InClusterUnavailable)
      case Some(conn) => Ok(Descriptor(InCluster, conn, ""))
    else
      var path := KubeconfigPath(env, kubeconfigPath);
      if path in env.kubeconfigFiles then Ok(Descriptor(KubeconfigFile, env.kubeconfigFiles[path], path))
      else Err(KubeconfigUnusable(path))
  }

  /**
   * Sources 1, 3 and 4 return exactly what their loader produces: the loaded connection on
   * success, and that source's own error exactly when the loader fails. The kubeconfig
   * file source reads the path chosen by `KubeconfigPath`.
   */
  lemma LoaderSourcesReturnTheirConfig(env: Environment, kubeconfigPath: string)
    ensures Trigger(env) == InlineKubeconfig ==>
              BuildKubernetesConfig(env, kubeconfigPath) ==
                match env.inlineKubeconfig
                case LoadFailed => Err(InlineKubeconfigInvalid)
                case BuildFailed => Err(InlineKubeconfigUnbuildable)
                case Loaded(c) => Ok(Descriptor(InlineKubeconfig, c, ""))
    ensures Trigger(env) == InCluster ==>
              BuildKubernetesConfig(env, kubeconfigPath) ==
                if env.inClusterConfig.Some? then Ok(Descriptor(InCluster, env.inClusterConfig.value, ""))
                else Err(InClusterUnavailable)
    ensures Trigger(env) == KubeconfigFile ==>
              var path := KubeconfigPath(env, kubeconfigPath);
              BuildKubernetesConfig(env, kubeconfigPath) ==
                if path in env.kubeconfigFiles then Ok(Descriptor(KubeconfigFile, env.kubeconfigFiles[path], path))
                else Err(KubeconfigUnusable(path))
  {
  }

  /** Two environments present the same inputs to source `s` (given the explicit paths p1, p2). */
  predicate SameInputsFor(s: Source, e1: Environment, p1: string, e2: Environment, p2: string) {
    match s
    case InlineKubeconfig => e1.inlineKubeconfig == e2.inlineKubeconfig
    case ServerAndToken =>
      && Getenv(e1, ServerVar) == Getenv(e2, ServerVar)
      && Getenv(e1, TokenVar) == Getenv(e2, TokenVar)
      && Getenv(e1, InsecureVar) == Getenv(e2, InsecureVar)
      && Getenv(e1, CaCertVar) == Getenv(e2, CaCertVar)
      && Getenv(e1, CaCertPathVar) == Getenv(e2, CaCertPathVar)
      && (Getenv(e1, CaCertPathVar) in e1.readableFiles <==> Getenv(e2, CaCertPathVar) in e2.readableFiles)
      && (Getenv(e1, CaCertPathVar) in e1.readableFiles ==>
            e1.readableFiles[Getenv(e1, CaCertPathVar)] == e2.readableFiles[Getenv(e2, CaCertPathVar)])
    case InCluster => e1.inClusterConfig == e2.inClusterConfig
    case KubeconfigFile =>
      var path := KubeconfigPath(e1, p1);
      && path == KubeconfigPath(e2, p2)
      && (path in e1.kubeconfigFiles <==> path in e2.kubeconfigFiles)
      && (path in e1.kubeconfigFiles ==> e1.kubeconfigFiles[path] == e2.kubeconfigFiles[path])
  }

  /**
   * No fall-through: once a source's trigger is present, the result depends only on
   * that source's own inputs; every later source is never consulted.
   */
  lemma OnlyTriggeredSourceDecides(e1: Environment, p1: string, e2: Environment, p2: string)
    requires Trigger(e1) == Trigger(e2)
    requires SameInputsFor(Trigger(e1), e1, p1, e2, p2)
    ensures BuildKubernetesConfig(e1, p1) == BuildKubernetesConfig(e2, p2)
  {
  }

  /**
   * Source 2 in detail: an empty token is an error; otherwise the host and the token are
   * the environment's, `insecure` holds iff KUBERNETES_INSECURE is exactly "true", an
   * inline CA wins over a CA path, a readable CA path supplies the file's contents as the
   * CA data, and an unreadable CA path is an error naming that path.
   */
  lemma ServerAndTokenSource(env: Environment, path: string)
    requires Getenv(env, KubeconfigDataVar) == "" && Getenv(env, ServerVar) != ""
    ensures var r := BuildKubernetesConfig(env, path);
      && (r == Err(TokenRequired) <==> Getenv(env, TokenVar) == "")
      && (r.Ok? ==>
            && r.value.source == ServerAndToken
            && r.value.connection.host == Getenv(env, ServerVar)
            && r.value.connection.bearerToken == Getenv(env, TokenVar)
            && (r.value.connection.insecure <==> Getenv(env, InsecureVar) == "true"))
      && (Getenv(env, TokenVar) != "" && Getenv(env, CaCertVar) != "" ==>
            r.Ok? && r.value.connection.caData == Some(Getenv(env, CaCertVar)))
      && (Getenv(env, TokenVar) != "" && Getenv(env, CaCertVar) == "" && Getenv(env, CaCertPathVar) != "" ==>
            (r.Err? <==> Getenv(env, CaCertPathVar) !in env.readableFiles))
      && (Getenv(env, TokenVar) != "" && Getenv(env, CaCertVar) == "" && Getenv(env, CaCertPathVar) != ""
          && Getenv(env, CaCertPathVar) !in env.readableFiles ==>
            r == Err(CaCertUnreadable(Getenv(env, CaCertPathVar))))
      && (Getenv(env, TokenVar) != "" && Getenv(env, CaCertVar) == "" && Getenv(env, CaCertPathVar) != ""
          && Getenv(env, CaCertPathVar) in env.readableFiles ==>
            r.Ok? && r.value.connection.caData == Some(env.readableFiles[Getenv(env, CaCertPathVar)]))
      && (Getenv(env, TokenVar) != "" && Getenv(env, CaCertVar) == "" && Getenv(env, CaCertPathVar) == "" ==>
            r.Ok? && r.value.connection.caData == None)
  {
  }
}
