/** client/http/client.go: the minimal client variant. Its constructor only
    records the endpoint; the package-level dialer, transport and client are
    recorded as constants, since the methods of `client` that may use them
    are not part of this model. */
module LighterHttp {
  import NetHttp

  /** The package-level `dialer`, `transport` and `httpClient` (lines 13-30):
      10s/60s dialer, pool limits 1000/100, 10s idle timeout, TLS
      certificates verified, 30s overall timeout, no proxy. */
  const PackageDialer := NetHttp.Dialer(10 * NetHttp.Second, 60 * NetHttp.Second, NetHttp.None)
  const PackageTransport := NetHttp.TransportSettings(
    NetHttp.NoProxy, NetHttp.DialerDialContext(PackageDialer), 1000, 100, 10 * NetHttp.Second,
    NetHttp.Some(NetHttp.TlsConfig(false)))
  const PackageHttpClient := NetHttp.ClientSettings(30 * NetHttp.Second, PackageTransport)

  /** The `client` struct (lines 34-41); None stands for a nil pointer,
      interface or map. */
  datatype Client = Client(
    endpoint: string,
    proxyURL: NetHttp.Option<NetHttp.Url>,
    localAddr: NetHttp.Option<NetHttp.TcpAddr>,
    customHeaders: NetHttp.Option<map<string, string>>,
    httpClient: NetHttp.Option<NetHttp.ClientSettings>)

  /** Whether every field but the endpoint is left nil. */
  predicate OnlyEndpointSet(c: Client)
  {
    c.proxyURL.None? && c.localAddr.None? && c.customHeaders.None? && c.httpClient.None?
  }

  /** NewClient (lines 43-51): nil for an empty base URL, otherwise a client
      that holds the base URL and nothing else. */
  function NewClient(baseUrl: string): (r: NetHttp.Option<Client>)
    ensures r.None? <==> baseUrl == ""
    ensures r.Some? ==> r.value.endpoint == baseUrl && OnlyEndpointSet(r.value)
  {
    if baseUrl == "" then NetHttp.None
    else NetHttp.Some(Client(baseUrl, NetHttp.None, NetHttp.None, NetHttp.None, NetHttp.None))
  }
}
