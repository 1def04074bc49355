/** The parts of Go's net, net/http, net/url, crypto/tls and net/textproto
    that the client builders configure, reduced to the values they hold.
    Nothing here dials, resolves or handshakes: an `http.Transport` is the
    record of its settings, and the library calls the builders make are the
    function values of a `Runtime`. */
module NetHttp {

  datatype Option<+T> = None | Some(value: T)

  /** Nanoseconds in one second; Go's time.Duration counts nanoseconds. */
  const Second: int := 1_000_000_000

  /** A URL as url.Parse returns it; its structure is not interpreted here. */
  datatype Url = Url(raw: string)

  /** A *net.TCPAddr as net.ResolveTCPAddr returns it. */
  datatype TcpAddr = TcpAddr(ip: string, port: int, zone: string)

  /** The Transport.Proxy function: nil (never proxy), http.ProxyFromEnvironment
      (HTTP_PROXY / HTTPS_PROXY / NO_PROXY), or http.ProxyURL(u) (always u). */
  datatype ProxyRule = NoProxy | ProxyFromEnvironment | ProxyURL(url: Url)

  /** A net.Dialer: connect timeout and keep-alive period in nanoseconds, and
      the local address the socket is bound to (nil: any). */
  datatype Dialer = Dialer(timeout: int, keepAlive: int, localAddr: Option<TcpAddr>)

  /** The Transport.DialContext function: nil (net/http then dials with a zero
      net.Dialer), or the DialContext method of a given Dialer. */
  datatype DialContext = NilDialContext | DialerDialContext(dialer: Dialer)

  /** A tls.Config, as far as these builders set it. */
  datatype TlsConfig = TlsConfig(insecureSkipVerify: bool)

  /** Whether a transport with this TLSClientConfig checks the server's
      certificate chain and host name: a nil config uses crypto/tls's default,
      which verifies. */
  predicate VerifiesServerCertificates(config: Option<TlsConfig>)
  {
    config.None? || !config.value.insecureSkipVerify
  }

  /** The settings of an http.Transport that the builders touch. */
  datatype TransportSettings = TransportSettings(
    proxy: ProxyRule,
    dialContext: DialContext,
    maxConnsPerHost: int,
    maxIdleConnsPerHost: int,
    idleConnTimeout: int,
    tlsClientConfig: Option<TlsConfig>)

  /** `&http.Transport{}`: every field at its zero value. */
  const ZeroTransport := TransportSettings(NoProxy, NilDialContext, 0, 0, 0, None)

  /** The settings of an http.Client whose Transport is an *http.Transport. */
  datatype ClientSettings = ClientSettings(timeout: int, transport: TransportSettings)

  /** An *http.Transport: its fields are assigned in place by the options. */
  class Transport {
    var proxy: ProxyRule
    var dialContext: DialContext
    var maxConnsPerHost: int
    var maxIdleConnsPerHost: int
    var idleConnTimeout: int
    var tlsClientConfig: Option<TlsConfig>

    /** A transport literal with the given field values. */
    constructor (s: TransportSettings)
      ensures Settings() == s
    {
      proxy := s.proxy;
      dialContext := s.dialContext;
      maxConnsPerHost := s.maxConnsPerHost;
      maxIdleConnsPerHost := s.maxIdleConnsPerHost;
      idleConnTimeout := s.idleConnTimeout;
      tlsClientConfig := s.tlsClientConfig;
    }

    function Settings(): TransportSettings
      reads this
    {
      TransportSettings(proxy, dialContext, maxConnsPerHost, maxIdleConnsPerHost,
                        idleConnTimeout, tlsClientConfig)
    }
  }

  /** An *http.Client whose Transport field holds an *http.Transport. */
  class Client {
    var timeout: int
    var transport: Transport

    constructor (timeout: int, transport: Transport)
      ensures this.timeout == timeout && this.transport == transport
    {
      this.timeout := timeout;
      this.transport := transport;
    }

    function Settings(): ClientSettings
      reads this, transport
    {
      ClientSettings(timeout, transport.Settings())
    }
  }

  /** http.Header.Set: the key is put in canonical form and its value list
      becomes the single given value. */
  function HeaderSet(h: map<string, seq<string>>, key: string, value: string,
                     canonical: string -> string): (r: map<string, seq<string>>)
    ensures canonical(key) in r && r[canonical(key)] == [value]
    ensures forall k :: k in r && k != canonical(key) ==> k in h && r[k] == h[k]
    ensures forall k :: k in h && k != canonical(key) ==> k in r
  {
    h[canonical(key) := [value]]
  }

  /** Whether `order` is a possible order of a `for key := range m` loop:
      every key of m exactly once. */
  predicate IsRangeOrder(order: seq<string>, m: map<string, string>)
  {
    && (forall i | 0 <= i < |order| :: order[i] in m)
    && (forall k | k in m :: k in order)
    && (forall i, j | 0 <= i < j < |order| :: order[i] != order[j])
  }

  /** The library calls whose internals are not part of the model:
      url.Parse (None: it returned an error), net.ResolveTCPAddr("tcp", _),
      textproto.CanonicalMIMEHeaderKey, and the order in which `range` visits
      the keys of a map (randomised by the Go runtime). */
  datatype Runtime = Runtime(
    parseUrl: string -> Option<Url>,
    resolveTcpAddr: string -> Option<TcpAddr>,
    canonicalHeaderKey: string -> string,
    rangeOrder: map<string, string> -> seq<string>)
}
