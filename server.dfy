/** The server's startup: which transport credentials it installs, on which
    port and listener it serves, and whether requests pass through the
    router first. Flags are given already parsed; the environment, the files
    and the network are parameters. */
module Server {
  import opened Wrappers
  import opened X509
  import Router
  import Strings

  /** What startup can observe of the world outside the process. */
  datatype Env = Env(
    /** `os.Getenv`: the empty string for a variable that is not set. */
    getenv: string -> string,
    /** `ioutil.ReadFile` followed by PEM decoding, or the read error. */
    readFile: string -> Result<Pem, string>,
    /** `credentials.NewServerTLSFromFile(certFile, keyFile)`: the loaded
        leaf certificate, or the loader's error. */
    loadKeyPair: (string, string) -> Result<Certificate, string>,
    /** `net.Listen("tcp", address)`: the error it returns, if any. */
    listenError: string -> Option<string>)

  /** The reasons startup ends the process with exit status 1. */
  datatype StartupError =
    | EnvNotSet(name: string)
    | ConflictingModes
    | TlsSetupFailed(msg: string, cause: string)
    | ListenFailed(cause: string)

  /** `getenv`: the value of a variable, or the fatal "not set" error when
      the variable is unset or empty. */
  function GetEnv(env: Env, name: string): (r: Result<string, StartupError>)
    ensures r.Ok? <==> env.getenv(name) != ""
    ensures r.Ok? ==> r.value == env.getenv(name)
    ensures r.Err? ==> r.error == EnvNotSet(name)
  {
    var v := env.getenv(name);
    if v == "" then Err(EnvNotSet(name)) else Ok(v)
  }

  // ---------------------------------------------------------------------
  // Credential sources

  /** The configuration handed to the ACME client (`autocert.Manager`). */
  datatype AutocertManager = AutocertManager(acceptTos: bool, cacheDir: string, hostWhitelist: seq<string>)

  /** The Vault issuer that certify asks for certificates. */
  datatype VaultIssuer = VaultIssuer(scheme: string, host: string, rootCAs: CertPool, token: string, role: string)

  datatype KeyGenerator = Rsa(bits: nat)

  /** The per-certificate request template (`certify.CertConfig`). */
  datatype CertConfig = CertConfig(dnsNames: seq<string>, ipAddresses: seq<IP>, keyGenerator: KeyGenerator)

  /** The configuration of the renewing certificate source (`certify.Certify`);
      `renewBefore` is a `time.Duration`, in nanoseconds. */
  datatype CertifyConfig = CertifyConfig(commonName: string, issuer: VaultIssuer, certConfig: CertConfig, renewBefore: nat)

  /** The server transport credentials of each kind. */
  datatype ServerCreds =
    | AcmeCreds(manager: AutocertManager)
    | FileCreds(cert: Certificate)
    | CertifyCreds(certify: CertifyConfig)

  /** `time.Hour`, in nanoseconds. */
  const Hour: nat := 3_600_000_000_000

  /** `acmeCert`: TLS credentials whose certificates an ACME client obtains
      on demand, for the configured host only, accepting the CA's terms and
      caching what it obtains on disk. */
  function AcmeCert(host: string): (c: ServerCreds)
    ensures c.AcmeCreds? && c.manager.hostWhitelist == [host]
    ensures c.manager.acceptTos && c.manager.cacheDir == "golang-autocert"
  {
    AcmeCreds(AutocertManager(true, "golang-autocert", [host]))
  }

  /** How `vaultCert` can fail: the two errors it returns, and the fatal exit
      of `getenv("TOKEN")`. */
  datatype VaultError = InputFile | AppendCerts | TokenNotSet {
    function Message(): string {
      match this
      case InputFile => "vaultCert: problem with input file"
      case AppendCerts => "vaultCert: failed to append certificates"
      case TokenNotSet => "environment variable not set"
    }
  }

  /** `vaultCert(f)`: reads the CA bundle `f` for the Vault connection and
      builds the certify configuration that renews a "localhost" certificate
      a day before it expires. It fails when `f` cannot be read, then when no
      certificate of `f` parses, then when TOKEN is not set. */
  function VaultCert(env: Env, f: string): (r: Result<ServerCreds, VaultError>)
    ensures env.readFile(f).Err? ==> r == Err(InputFile)
    ensures env.readFile(f).Ok? && env.readFile(f).value.certs == [] ==> r == Err(AppendCerts)
    ensures env.readFile(f).Ok? && env.readFile(f).value.certs != [] && env.getenv("TOKEN") == "" ==>
              r == Err(TokenNotSet)
    ensures r.Ok? <==>
              env.readFile(f).Ok? && env.readFile(f).value.certs != [] && env.getenv("TOKEN") != ""
    ensures r.Ok? ==>
              && r.value.CertifyCreds?
              && var c := r.value.certify;
              && c.commonName == "localhost"
              && c.renewBefore == 24 * Hour
              && c.certConfig.keyGenerator == Rsa(2048)
              && c.certConfig.dnsNames == ["localhost"]
              && c.certConfig.ipAddresses == [IPv4Loopback, IPv6Loopback]
              && c.issuer == VaultIssuer("https", "localhost:8200", env.readFile(f).value.certs,
                                         env.getenv("TOKEN"), "my-role")
  {
    match env.readFile(f)
    case Err(_) => Err(InputFile)
    case Ok(pem) =>
      var (pool, ok) := AppendCertsFromPem(NewCertPool, pem);
      if !ok then Err(AppendCerts)
      else
        var token := env.getenv("TOKEN");
        if token == "" then Err(TokenNotSet)
        else
          var issuer := VaultIssuer("https", "localhost:8200", pool, token, "my-role");
          var cfg := CertConfig(["localhost"], [IPv4Loopback, IPv6Loopback], Rsa(2048));
          Ok(CertifyCreds(CertifyConfig("localhost", issuer, cfg, 24 * Hour)))
  }

  /** Every IP address a certify certificate is requested for is a loopback
      address, so the certificate only names the local machine. */
  lemma VaultCertNamesOnlyLoopback(env: Env, f: string)
    requires VaultCert(env, f).Ok?
    ensures forall ip <- VaultCert(env, f).value.certify.certConfig.ipAddresses :: IsLoopback(ip)
  {
    assert IsIPv4Mapped(IPv4Loopback);
    assert IPv6Loopback.bytes[10] != 0xff;
  }

  // ---------------------------------------------------------------------
  // Deployment mode

  /** The three command-line switches, `-self` (default true), `-public` and
      `-cefy` (both default false). */
  datatype Flags = Flags(self: bool, public: bool, cefy: bool)

  const DefaultFlags: Flags := Flags(self := true, public := false, cefy := false)

  /** The deployment modes, with the files each one uses. */
  datatype Mode =
    | PublicAcme
    | SelfSigned(certFile: string, keyFile: string)
    | Certify(caFile: string)
    | Insecure

  const SelfSignedFiles: Mode := SelfSigned("service.pem", "service.key")
  const CertifyWithOrgCa: Mode := Certify("ca-org.cert")

  /** The private modes the switches ask for. */
  function PrivateRequests(f: Flags): set<Mode> {
    (if f.self then {SelfSignedFiles} else {}) + (if f.cefy then {CertifyWithOrgCa} else {})
  }

  /** The mode `main` starts in. `-public` wins over the other two switches;
      without it, asking for both private modes is an error, asking for one
      selects it, and asking for none selects an insecure server. */
  function SelectMode(f: Flags): (r: Result<Mode, StartupError>)
    ensures f.public ==> r == Ok(PublicAcme)
    ensures !f.public ==> (r.Err? <==> |PrivateRequests(f)| > 1)
    ensures r.Err? ==> r.error == ConflictingModes
    ensures !f.public && r.Ok? ==>
              if PrivateRequests(f) == {} then r.value == Insecure else PrivateRequests(f) == {r.value}
  {
    if f.public then Ok(PublicAcme)
    else if f.self && f.cefy then
      assert PrivateRequests(f) == {SelfSignedFiles, CertifyWithOrgCa};
      Err(ConflictingModes)
    else if f.self then Ok(SelfSignedFiles)
    else if f.cefy then Ok(CertifyWithOrgCa)
    else Ok(Insecure)
  }

  /** With no switch given, the server uses the self-signed files. */
  lemma DefaultFlagsSelectSelfSigned()
    ensures SelectMode(DefaultFlags) == Ok(SelfSigned("service.pem", "service.key"))
  {
  }

  /** Asking for both private modes is an error only when `-public` is off. */
  lemma ConflictOnlyWithoutPublic(public: bool)
    ensures SelectMode(Flags(true, public, true)).Err? <==> !public
  {
  }

  // ---------------------------------------------------------------------
  // Startup

  datatype ServerOption = Creds(creds: ServerCreds)

  datatype Listener = AutocertListener(host: string) | TcpListener(address: string)

  /** How the gRPC server is served: through `http.Serve`, with
      `Router.Route` choosing between it and the diagnostic page, or directly
      by the gRPC server on its own listener. */
  datatype Serving = HttpMux | GrpcDirect

  /** What startup produces, ready to serve. */
  datatype Server = Server(opts: seq<ServerOption>, port: string, listener: Listener, serving: Serving)

  const LocalFilesFailure: string := "failed to setup TLS with local files"
  const CertifyFailure: string := "failed to setup TLS with Certify"

  /** The startup sequence of `main`, from reading HOST and PORT up to the
      point where the server starts serving. */
  method Start(flags: Flags, env: Env) returns (r: Result<Server, StartupError>)
    ensures env.getenv("HOST") == "" ==> r == Err(EnvNotSet("HOST"))
    ensures env.getenv("HOST") != "" && env.getenv("PORT") == "" ==> r == Err(EnvNotSet("PORT"))
    ensures r.Ok? ==> env.getenv("HOST") != "" && env.getenv("PORT") != "" && SelectMode(flags).Ok?
    ensures env.getenv("HOST") != "" && env.getenv("PORT") != "" && SelectMode(flags).Err? ==>
              r == Err(ConflictingModes)
    // only a public server is served through the router, always on port 443
    ensures r.Ok? ==> (r.value.serving == HttpMux <==> flags.public)
    ensures r.Ok? && flags.public ==>
              r.value.port == "443" && r.value.listener == AutocertListener(env.getenv("HOST"))
    ensures r.Ok? && !flags.public ==>
              r.value.port == env.getenv("PORT") && r.value.listener == TcpListener(":" + env.getenv("PORT"))
    // the credentials of each mode
    ensures env.getenv("HOST") != "" && env.getenv("PORT") != "" && flags.public ==>
              r.Ok? && r.value.opts == [Creds(AcmeCert(env.getenv("HOST")))]
    ensures env.getenv("HOST") != "" && env.getenv("PORT") != "" && SelectMode(flags) == Ok(SelfSignedFiles) ==>
              var load := env.loadKeyPair("service.pem", "service.key");
              && (load.Err? ==> r == Err(TlsSetupFailed(LocalFilesFailure, load.error)))
              && (r.Ok? <==> load.Ok? && env.listenError(":" + env.getenv("PORT")).None?)
              && (load.Ok? && env.listenError(":" + env.getenv("PORT")).Some? ==>
                    r == Err(ListenFailed(env.listenError(":" + env.getenv("PORT")).value)))
              && (r.Ok? ==> r.value.opts == [Creds(FileCreds(load.value))])
    ensures env.getenv("HOST") != "" && env.getenv("PORT") != "" && SelectMode(flags) == Ok(CertifyWithOrgCa) ==>
              var vault := VaultCert(env, "ca-org.cert");
              && (vault == Err(TokenNotSet) ==> r == Err(EnvNotSet("TOKEN")))
              && (vault.Err? && vault != Err(TokenNotSet) ==>
                    r == Err(TlsSetupFailed(CertifyFailure, vault.error.Message())))
              && (r.Ok? <==> vault.Ok? && env.listenError(":" + env.getenv("PORT")).None?)
              && (vault.Ok? && env.listenError(":" + env.getenv("PORT")).Some? ==>
                    r == Err(ListenFailed(env.listenError(":" + env.getenv("PORT")).value)))
              && (r.Ok? ==> r.value.opts == [Creds(vault.value)])
    ensures env.getenv("HOST") != "" && env.getenv("PORT") != "" && SelectMode(flags) == Ok(Insecure) ==>
              && (r.Ok? <==> env.listenError(":" + env.getenv("PORT")).None?)
              && (env.listenError(":" + env.getenv("PORT")).Some? ==>
                    r == Err(ListenFailed(env.listenError(":" + env.getenv("PORT")).value)))
              && (r.Ok? ==> r.value.opts == [])
    // a private server that cannot listen stops with the listener's error
    ensures r.Err? && r.error.ListenFailed? ==>
              !flags.public && env.listenError(":" + env.getenv("PORT")) == Some(r.error.cause)
  {
    var host := GetEnv(env, "HOST");
    if host.Err? {
      return Err(host.error);
    }
    var portVar := GetEnv(env, "PORT");
    if portVar.Err? {
      return Err(portVar.error);
    }
    var port := portVar.value;
    var opts: seq<ServerOption> := [];
    var lis: Listener;
    if flags.public {
      opts := opts + [Creds(AcmeCert(host.value))];
      lis := AutocertListener(host.value);
      port := "443";
    } else {
      if flags.self && flags.cefy {
        return Err(ConflictingModes);
      } else if flags.self {
        var creds := env.loadKeyPair("service.pem", "service.key");
        if creds.Err? {
          return Err(TlsSetupFailed(LocalFilesFailure, creds.error));
        }
        opts := opts + [Creds(FileCreds(creds.value))];
      } else if flags.cefy {
        var creds := VaultCert(env, "ca-org.cert");
        if creds.Err? {
          if creds.error == TokenNotSet {
            return Err(EnvNotSet("TOKEN"));
          }
          return Err(TlsSetupFailed(CertifyFailure, creds.error.Message()));
        }
        opts := opts + [Creds(creds.value)];
      }
      var err := env.listenError(":" + port);
      if err.Some? {
        return Err(ListenFailed(err.value));
      }
      lis := TcpListener(":" + port);
    }
    r := Ok(Server(opts, port, lis, if flags.public then HttpMux else GrpcDirect));
  }

  /** The destination of one request on a started server: on the shared
      public listener the router decides; a private server hands every
      connection to gRPC. */
  function Dispatch(s: Server, protoMajor: int, contentType: string): (d: Router.Destination)
    ensures d == Router.GrpcServer <==>
              s.serving == GrpcDirect || (protoMajor == 2 && Strings.Contains(contentType, Router.GrpcContentType))
  {
    match s.serving
    case HttpMux => Router.Route(protoMajor, contentType)
    case GrpcDirect => Router.GrpcServer
  }

  /** Each mode, selected on its own in a world where its files load, the
      variables are set and the port is free, starts with exactly the
      credentials of that mode: one option for every mode but the insecure
      one, which has none. */
  method EachModeStartsAlone(env: Env)
    returns (public: Result<Server, StartupError>, self: Result<Server, StartupError>,
             cefy: Result<Server, StartupError>, insecure: Result<Server, StartupError>)
    requires env.getenv("HOST") != "" && env.getenv("PORT") != "" && env.getenv("TOKEN") != ""
    requires env.loadKeyPair("service.pem", "service.key").Ok?
    requires env.readFile("ca-org.cert").Ok? && env.readFile("ca-org.cert").value.certs != []
    requires env.listenError(":" + env.getenv("PORT")).None?
    ensures public.Ok? && |public.value.opts| == 1 && public.value.opts[0].creds.AcmeCreds?
    ensures self.Ok? && |self.value.opts| == 1 && self.value.opts[0].creds.FileCreds?
    ensures cefy.Ok? && |cefy.value.opts| == 1 && cefy.value.opts[0].creds.CertifyCreds?
    ensures insecure.Ok? && insecure.value.opts == []
  {
    public := Start(Flags(false, true, false), env);
    self := Start(Flags(true, false, false), env);
    cefy := Start(Flags(false, false, true), env);
    insecure := Start(Flags(false, false, false), env);
  }
}
