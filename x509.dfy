/** The slice of `crypto/x509` and `net` that the credential builders use.
    Decoding PEM blocks and parsing DER certificates are not modelled: a file
    that was read is represented by the certificates its PEM blocks yield. */
module X509 {

  /** A parsed X.509 certificate, kept as its DER bytes. */
  datatype Certificate = Certificate(der: seq<bv8>)

  /** The certificates found in a PEM file, in file order: the blocks of type
      CERTIFICATE whose contents parse. Other blocks are already dropped. */
  datatype Pem = Pem(certs: seq<Certificate>)

  /** A trust-anchor pool (`*x509.CertPool`), as the certificates added to it,
      in order. Go's pool skips a certificate it already holds, so a file that
      repeats a certificate leaves a duplicate here that the real pool drops;
      the set of trusted certificates is the same either way. */
  type CertPool = seq<Certificate>

  /** `x509.NewCertPool()`. */
  const NewCertPool: CertPool := []

  /** `pool.AppendCertsFromPEM(pem)`: adds every certificate of the file and
      reports whether at least one was added. */
  function AppendCertsFromPem(pool: CertPool, pem: Pem): (r: (CertPool, bool))
    ensures r.1 <==> pem.certs != []
    ensures |r.0| == |pool| + |pem.certs|
    ensures r.0[..|pool|] == pool && r.0[|pool|..] == pem.certs
  {
    (pool + pem.certs, |pem.certs| > 0)
  }

  /** A `net.IP`: 16 bytes for every address `net.ParseIP` accepts. */
  datatype IP = IP(bytes: seq<bv8>)

  /** `net.ParseIP("127.0.0.1")`: the IPv4-mapped IPv6 form ::ffff:127.0.0.1. */
  const IPv4Loopback: IP := IP([0, 0, 0, 0, 0, 0, 0, 0, 0, 0, 0xff, 0xff, 127, 0, 0, 1])

  /** `net.ParseIP("::1")`. */
  const IPv6Loopback: IP := IP([0, 0, 0, 0, 0, 0, 0, 0, 0, 0, 0, 0, 0, 0, 0, 1])

  /** `ip.To4() != nil` for a 16-byte address: the first ten bytes are zero
      and the next two are 0xff. */
  predicate IsIPv4Mapped(ip: IP) {
    |ip.bytes| == 16 && (forall k :: 0 <= k < 10 ==> ip.bytes[k] == 0) &&
    ip.bytes[10] == 0xff && ip.bytes[11] == 0xff
  }

  /** `ip.IsLoopback()`: an IPv4 address in 127.0.0.0/8, or the IPv6 address ::1. */
  predicate IsLoopback(ip: IP) {
    if IsIPv4Mapped(ip) then ip.bytes[12] == 127 else ip == IPv6Loopback
  }
}
