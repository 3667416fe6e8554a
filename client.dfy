/** The client's choice of dial options: a numeric `-mode` selects an input
    record and one of four credential builders, which is then applied. */
module Client {
  import opened Wrappers
  import opened X509

  /** The mode numbers, consecutive from 1. */
  const TlsNoVerify: nat := 1
  const TlsVerifyNoCA: nat := TlsNoVerify + 1
  const TlsVerifyWithCA: nat := TlsVerifyNoCA + 1
  const TlsWithCertFile: nat := TlsVerifyWithCA + 1
  const InsecureNoTls: nat := TlsWithCertFile + 1

  /** The five modes are numbered 1 to 5, in declaration order. */
  lemma ModeNumbers()
    ensures [TlsNoVerify, TlsVerifyNoCA, TlsVerifyWithCA, TlsWithCertFile, InsecureNoTls] == [1, 2, 3, 4, 5]
  {
  }

  /** The parameters a credential builder receives. */
  datatype Input = Input(skipVerify: bool, cert: string, ca: string)

  /** The zero value `input{}`. */
  const EmptyInput: Input := Input(false, "", "")

  /** A `tls.Config` as the client builds it; `rootCAs == None` is a nil pool,
      which means the system's trust anchors. */
  datatype TlsConfig = TlsConfig(insecureSkipVerify: bool, rootCAs: Option<CertPool>)

  /** Client transport credentials: built from a config here, or those of
      `credentials.NewClientTLSFromFile`, which verify the server against
      the certificates of one file. */
  datatype TransportCreds = TlsCreds(config: TlsConfig) | FromCertFile(certFile: string, pool: CertPool)

  datatype DialOption = WithTransportCredentials(creds: TransportCreds) | WithInsecure

  /** What the builders can observe of the world outside the process. */
  datatype Env = Env(
    /** `ioutil.ReadFile` followed by PEM decoding, or the read error's text. */
    readFile: string -> Result<Pem, string>,
    /** `credentials.NewClientTLSFromFile(certFile, "")`: the trust pool it
        loads from the file, or its error's text. */
    newClientTlsFromFile: string -> Result<CertPool, string>)

  /** `errors.Wrap(err, msg)`: the message of the wrapped error. */
  function Wrap(err: string, msg: string): (w: string)
    ensures |w| == |msg| + 2 + |err|
    ensures w[..|msg|] == msg && w[|msg|..|msg| + 2] == ": " && w[|msg| + 2..] == err
  {
    msg + ": " + err
  }

  const AppendCertsFailure: string := "credentials: failed to append certificates"
  const CredentialsFailure: string := "could not process the credentials"

  /** `tlsCredsAuto`: never fails; one option, TLS against the system's
      trust anchors, with the caller's skip-verify switch unchanged. */
  function TlsCredsAuto(i: Input): (r: Result<seq<DialOption>, string>)
    ensures r.Ok? && |r.value| == 1
    ensures r.value[0].WithTransportCredentials? && r.value[0].creds.TlsCreds?
    ensures r.value[0].creds.config.insecureSkipVerify == i.skipVerify
    ensures r.value[0].creds.config.rootCAs == None
  {
    Ok([WithTransportCredentials(TlsCreds(TlsConfig(i.skipVerify, None)))])
  }

  /** `tlsCredsAutoCA`: reads the CA bundle `i.ca`; fails with the read error,
      or when no certificate in it parses; otherwise one option, TLS trusting
      exactly those certificates, with the caller's skip-verify switch. */
  function TlsCredsAutoCA(env: Env, i: Input): (r: Result<seq<DialOption>, string>)
    ensures env.readFile(i.ca).Err? ==> r == Err(env.readFile(i.ca).error)
    ensures env.readFile(i.ca).Ok? && env.readFile(i.ca).value.certs == [] ==> r == Err(AppendCertsFailure)
    ensures r.Ok? <==> env.readFile(i.ca).Ok? && env.readFile(i.ca).value.certs != []
    ensures r.Ok? ==>
              r.value == [WithTransportCredentials(TlsCreds(
                            TlsConfig(i.skipVerify, Some(env.readFile(i.ca).value.certs))))]
  {
    match env.readFile(i.ca)
    case Err(e) => Err(e)
    case Ok(pem) =>
      var (pool, ok) := AppendCertsFromPem(NewCertPool, pem);
      if !ok then Err(AppendCertsFailure)
      else Ok([WithTransportCredentials(TlsCreds(TlsConfig(i.skipVerify, Some(pool))))])
  }

  /** `tlsCredsFile`: one option carrying what the loader returns for the
      certificate file `i.cert`, or the loader's error wrapped with
      "could not process the credentials". */
  function TlsCredsFile(env: Env, i: Input): (r: Result<seq<DialOption>, string>)
    ensures r.Ok? <==> env.newClientTlsFromFile(i.cert).Ok?
    ensures r.Ok? ==>
              r.value == [WithTransportCredentials(FromCertFile(i.cert, env.newClientTlsFromFile(i.cert).value))]
    ensures r.Err? ==> r.error == Wrap(env.newClientTlsFromFile(i.cert).error, CredentialsFailure)
  {
    match env.newClientTlsFromFile(i.cert)
    case Err(e) => Err(Wrap(e, CredentialsFailure))
    case Ok(pool) => Ok([WithTransportCredentials(FromCertFile(i.cert, pool))])
  }

  /** `noTLS`: never fails; the single option of a plaintext connection. */
  function NoTls(i: Input): (r: Result<seq<DialOption>, string>)
    ensures r == Ok([WithInsecure])
  {
    Ok([WithInsecure])
  }

  /** The four credential builders (`tlsCredsFunc` values). */
  datatype CredsFunc = Auto | AutoCA | File | Plain

  /** Calling a builder. */
  function Apply(f: CredsFunc, env: Env, i: Input): Result<seq<DialOption>, string> {
    match f
    case Auto => TlsCredsAuto(i)
    case AutoCA => TlsCredsAutoCA(env, i)
    case File => TlsCredsFile(env, i)
    case Plain => NoTls(i)
  }

  /** The `switch *mode` of `main`: the builder and input of each mode, and
      no builder (a nil function) for any other number. */
  function SelectCreds(mode: nat): (r: Option<(CredsFunc, Input)>)
    ensures r.Some? <==> TlsNoVerify <= mode <= InsecureNoTls
    ensures mode == TlsNoVerify ==> r == Some((Auto, Input(true, "", "")))
    ensures mode == TlsVerifyNoCA ==> r == Some((Auto, Input(false, "", "")))
    ensures mode == TlsVerifyWithCA ==> r == Some((AutoCA, Input(false, "", "ca.cert")))
    ensures mode == TlsWithCertFile ==> r == Some((File, Input(false, "service.pem", "")))
    ensures mode == InsecureNoTls ==> r == Some((Plain, EmptyInput))
  {
    if mode == TlsNoVerify then Some((Auto, Input(skipVerify := true, cert := "", ca := "")))
    else if mode == TlsVerifyNoCA then Some((Auto, Input(skipVerify := false, cert := "", ca := "")))
    else if mode == TlsVerifyWithCA then Some((AutoCA, Input(skipVerify := false, cert := "", ca := "ca.cert")))
    else if mode == TlsWithCertFile then Some((File, Input(skipVerify := false, cert := "service.pem", ca := "")))
    else if mode == InsecureNoTls then Some((Plain, EmptyInput))
    else None
  }

  /** How obtaining the dial options ends the client: calling the nil builder
      of an unknown mode, or a builder's error, which is fatal. */
  datatype ClientError = NilCredsFunc | CredsProblem(msg: string)

  /** The dial options `main` passes to `grpc.Dial` for a mode. */
  function DialOptions(mode: nat, env: Env): (r: Result<seq<DialOption>, ClientError>)
    ensures r == Err(NilCredsFunc) <==> !(TlsNoVerify <= mode <= InsecureNoTls)
    ensures SelectCreds(mode).Some? ==>
              var (f, i) := SelectCreds(mode).value;
              && (r.Ok? <==> Apply(f, env, i).Ok?)
              && (r.Ok? ==> r.value == Apply(f, env, i).value)
              && (r.Err? ==> r.error == CredsProblem(Apply(f, env, i).error))
    ensures r.Ok? ==> |r.value| == 1
  {
    match SelectCreds(mode)
    case None => Err(NilCredsFunc)
    case Some((f, i)) =>
      match Apply(f, env, i)
      case Err(e) => Err(CredsProblem(e))
      case Ok(opts) => Ok(opts)
  }

  /** Modes 1, 2 and 5 read no file and always succeed. */
  lemma FileFreeModesSucceed(mode: nat, env: Env)
    requires mode in {TlsNoVerify, TlsVerifyNoCA, InsecureNoTls}
    ensures DialOptions(mode, env).Ok?
  {
  }

  /** Only mode 1 turns off verification of the server's certificate, and
      only mode 5 dials without TLS. */
  lemma OnlyModeOneSkipsVerification(mode: nat, env: Env)
    requires DialOptions(mode, env).Ok?
    ensures var o := DialOptions(mode, env).value[0];
            o.WithTransportCredentials? && o.creds.TlsCreds? && o.creds.config.insecureSkipVerify
            <==> mode == TlsNoVerify
    ensures DialOptions(mode, env).value[0] == WithInsecure <==> mode == InsecureNoTls
  {
  }

  /** Mode 2 always dials with TLS that verifies the server against the
      system's trust anchors. */
  lemma ModeTwoVerifiesWithSystemRoots(env: Env)
    ensures DialOptions(TlsVerifyNoCA, env) ==
              Ok([WithTransportCredentials(TlsCreds(TlsConfig(false, None)))])
  {
  }

  /** Mode 4 dials with the credentials loaded from "service.pem", and ends
      with the loader's error, wrapped, when that file does not load. */
  lemma ModeFourUsesCertFile(env: Env)
    ensures DialOptions(TlsWithCertFile, env).Ok? <==> env.newClientTlsFromFile("service.pem").Ok?
    ensures DialOptions(TlsWithCertFile, env).Ok? ==>
              DialOptions(TlsWithCertFile, env).value ==
                [WithTransportCredentials(FromCertFile("service.pem", env.newClientTlsFromFile("service.pem").value))]
    ensures DialOptions(TlsWithCertFile, env).Err? ==>
              DialOptions(TlsWithCertFile, env).error ==
                CredsProblem(Wrap(env.newClientTlsFromFile("service.pem").error, CredentialsFailure))
  {
  }

  /** Mode 3 trusts exactly the certificates of "ca.cert", and fails when that
      file cannot be read or holds none. */
  lemma ModeThreeTrustsCaCert(env: Env)
    ensures DialOptions(TlsVerifyWithCA, env).Ok? <==>
              env.readFile("ca.cert").Ok? && env.readFile("ca.cert").value.certs != []
    ensures DialOptions(TlsVerifyWithCA, env).Ok? ==>
              DialOptions(TlsVerifyWithCA, env).value ==
                [WithTransportCredentials(TlsCreds(TlsConfig(false, Some(env.readFile("ca.cert").value.certs))))]
  {
  }
}
