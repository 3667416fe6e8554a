# grpc-tls, modelled in Dafny

A model of the decision logic of the two programs of the grpc-tls
repository: a gRPC server that looks up users by id, and the client that
calls it, each able to secure the connection in several ways.

- **Server startup** (`server.dfy`, module `Server`). The switches
  `-public`, `-self` (on by default) and `-cefy` select one deployment mode:
  ACME certificates on port 443 behind the request router, the static
  self-signed files `service.pem`/`service.key`, certificates issued by Vault
  through certify with the CA bundle `ca-org.cert`, or no TLS. `-public` wins
  over the other two; without it, `-self` together with `-cefy` stops the
  server. `Start` follows `main` step by step, from reading HOST and PORT to
  the listener and the credential options, and its contract states the
  outcome of every mode and every fatal path. `VaultCert` builds the certify
  request template: renew 24 hours before expiry, a 2048-bit RSA key, the
  name "localhost" and the two loopback addresses, the Vault role "my-role".
- **Request routing** (`router.dfy`, `strings.dfy`). On the shared public
  listener a request goes to gRPC exactly when it came over HTTP/2 and its
  Content-Type contains "application/grpc" anywhere; `Strings.Contains` is
  proved against the definition "occurs at some position".
- **User table** (`userstore.dfy`). The class `UserData` with its map of
  ids to names (which may be nil), seeded with 1 ↦ "Nicolas"; `GetByID`
  echoes the id with the stored name or fails with "user not found", and
  never changes the entries.
- **Client credentials** (`client.dfy`). Modes 1 to 5 select an input record
  and one of the builders `tlsCredsAuto`, `tlsCredsAutoCA`, `tlsCredsFile`,
  `noTLS`; any other number selects none.

The outside world is a parameter: environment variables (`os.Getenv`,
empty when unset), file reads already PEM-decoded into the certificates
they contain (`x509.dfy`), the key-pair and certificate-file loaders of the
gRPC credentials package, and whether the TCP listener can be opened.
Fatal exits (`os.Exit`, `log.Fatalf`) are error results.

Three behaviours of the code are easy to miss: `-public` silently wins over
`-self`/`-cefy`; the router matches the gRPC content type as a substring, not
as a prefix; and `GetByID` installs an empty map when its map is nil, so the
store is not strictly read-only.

## Model

| member | source | states |
|---|---|---|
| UserStore.Lookup | server/main.go:67-73 | an id gets a reply exactly when it has an entry; the reply carries the stored name and echoes the id; otherwise the error is "user not found" |
| UserStore.SeedLookups | server/main.go:56-73 | the seeded store answers id 1 with "Nicolas" and every other id with "user not found" |
| UserStore.UserData.Zero | server/main.go:52-57 | a zero `userData` has a nil map and no entries |
| UserStore.UserData.NewUserData | server/main.go:56-61 | a fresh store whose only entry is 1 ↦ "Nicolas" |
| UserStore.UserData.GetByID | server/main.go:63-74 | replaces a nil map by an empty one, leaves the entries unchanged, and answers as `Lookup` on them |
| Strings.Contains | server/main.go:139 | `strings.Contains` is true exactly when the marker occurs at some position of the string |
| Router.Route | server/main.go:136-145 | gRPC exactly when HTTP/2 and the Content-Type contains "application/grpc" somewhere; the fallback handler otherwise |
| Router.MarkerAnywhereRoutesToGrpc | server/main.go:139 | over HTTP/2, any text before or after the marker still routes to gRPC (substring, not prefix) |
| Router.GrpcContentTypesRouteToGrpc | server/main.go:139-140 | "application/grpc" alone and with the "+proto" suffix, over HTTP/2 route to gRPC |
| Router.HttpOneNeverRoutesToGrpc | server/main.go:139-142 | a request not over HTTP/2 goes to the fallback handler whatever its content type |
| Router.ShortContentTypeFallsBack | server/main.go:138-142 | an HTTP/2 request with an empty or shorter Content-Type goes to the fallback handler |
| Router.JsonFallsBack | server/main.go:139-142 | an HTTP/2 "application/json" request goes to the fallback handler |
| X509.AppendCertsFromPem | server/main.go:99-102 | the pool gains the file's certificates, in order, and success means at least one was added |
| Server.GetEnv | server/main.go:43-50 | a set, non-empty variable yields its value; otherwise the fatal "not set" error naming it |
| Server.AcmeCert | server/main.go:76-84 | ACME credentials restricted to the configured host, accepting the terms, caching in "golang-autocert" |
| Server.VaultCert | server/main.go:94-134 | fails with "problem with input file" on a read error, with "failed to append certificates" when no certificate parses, with the TOKEN not-set error when TOKEN is unset; otherwise the template: common name and DNS name "localhost", IPs 127.0.0.1 and ::1, RSA 2048, renew 24h before expiry, Vault at https://localhost:8200 with the read CA pool, the token and role "my-role" |
| Server.VaultCertNamesOnlyLoopback | server/main.go:115-119 | every IP address of the certify template is a loopback address |
| Server.SelectMode | server/main.go:165-195 | `-public` selects ACME whatever the rest; otherwise two private modes conflict, one selects itself ("service.pem"/"service.key" or "ca-org.cert"), none selects insecure |
| Server.DefaultFlagsSelectSelfSigned | server/main.go:154-156 | with no switch given the server uses the self-signed files |
| Server.ConflictOnlyWithoutPublic | server/main.go:165-176 | `-self` with `-cefy` is an error exactly when `-public` is off |
| Server.Start | server/main.go:153-214 | HOST then PORT must be set; a public server gets one ACME option, port 443, the ACME listener and the router; a private one listens on ":"+PORT and serves gRPC directly, with the credentials of its mode or the matching fatal error, and ends with the listener's error when it cannot listen; insecure adds no option |
| Server.Dispatch | server/main.go:210-220 | a request reaches gRPC exactly when the server is private or the router sends it there |
| Server.EachModeStartsAlone | server/main.go:165-201 | each mode selected alone, with its inputs available, starts with one option of its own kind (none for insecure) |
| Client.ModeNumbers | client/main.go:26-32 | the mode constants are 1, 2, 3, 4, 5 |
| Client.Wrap | client/main.go:68 | the wrapped message is the context, ": ", then the cause |
| Client.TlsCredsAuto | client/main.go:42-47 | never fails; one TLS option with the system trust anchors and the caller's skip-verify unchanged |
| Client.TlsCredsAutoCA | client/main.go:49-63 | passes the read error through, fails with "credentials: failed to append certificates" when no certificate parses, else one TLS option trusting exactly the file's certificates with the caller's skip-verify |
| Client.TlsCredsFile | client/main.go:65-71 | one option with the loader's credentials for the cert file, or the loader's error wrapped with "could not process the credentials" |
| Client.NoTls | client/main.go:73-75 | never fails; the single insecure option |
| Client.SelectCreds | client/main.go:85-101 | modes 1..5 select (auto, skip), (auto, verify), (auto CA, "ca.cert"), (file, "service.pem"), (no TLS, empty input); any other number selects nothing |
| Client.DialOptions | client/main.go:82-107 | an unknown mode is the nil-function failure and nothing else is; a known mode yields exactly its builder's options, or ends with that builder's error; success always yields exactly one option |
| Client.ModeTwoVerifiesWithSystemRoots | client/main.go:89-91 | mode 2 always succeeds with one TLS option that verifies the server against the system trust anchors |
| Client.ModeFourUsesCertFile | client/main.go:95-97 | mode 4 succeeds exactly when "service.pem" loads, then dials with the credentials of that file; otherwise it ends with the loader's error wrapped with "could not process the credentials" |
| Client.FileFreeModesSucceed | client/main.go:86-91 | modes 1, 2 and 5 always obtain their options |
| Client.OnlyModeOneSkipsVerification | client/main.go:85-101 | only mode 1 skips server verification and only mode 5 dials without TLS |
| Client.ModeThreeTrustsCaCert | client/main.go:92-94 | mode 3 succeeds exactly when "ca.cert" reads and holds a certificate, and then trusts exactly those certificates with verification on |

## Left out

- The certify renewal cache (`GetCertificate`, memory cache, renewal timing and coalescing) and the Vault issuer protocol: only the configuration handed to them is modelled.
- The ACME manager and listener (`autocert`): only their configuration (terms, cache directory, host whitelist) and the choice of that listener are modelled.
- File reads, PEM decoding, `NewServerTLSFromFile` and `NewClientTLSFromFile`: their results are inputs of the model.
- RSA key generation (`RSA.Generate`): cryptographic randomness; only the key size requested is modelled.
- `grpc.NewServer`, service registration, `Serve`, `http.Serve`, `grpc.Dial`, the client's `GetByID` call and the diagnostic page's text: network I/O and library formatting.
- Logging, flag parsing and the process exit: fatal paths are error results, and flags are given already parsed.
- Concurrency of request handlers: the store is modelled as one object called one operation at a time.
