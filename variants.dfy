/** The two client variants side by side: client/http_client.go and
    client/http/client.go agree on the dialer, pool and timeout defaults and
    disagree on certificate verification and on the environment proxy. */
module Variants {
  import opened NetHttp
  import HttpClient
  import LighterHttp

  /** The minimal variant's package transport verifies certificates; both
      transports of client/http_client.go (its package-level one and the
      default NewHTTPClient installs) skip verification. */
  lemma TlsDefaultsDisagree()
    ensures VerifiesServerCertificates(LighterHttp.PackageTransport.tlsClientConfig)
    ensures !VerifiesServerCertificates(HttpClient.PackageTransport.tlsClientConfig)
    ensures !VerifiesServerCertificates(HttpClient.DefaultClient.transport.tlsClientConfig)
  {
  }

  /** The package-level clients of the two files are the same but for the
      TLS setting: 30s timeout, 10s/60s dialer, 1000 connections and 100
      idle connections per host, 10s idle timeout, no proxy. */
  lemma PackageClientsDifferOnlyInTls()
    ensures LighterHttp.PackageHttpClient
            == HttpClient.PackageHttpClient.(transport :=
                 HttpClient.PackageTransport.(tlsClientConfig := Some(TlsConfig(false))))
    ensures LighterHttp.PackageHttpClient.timeout == 30 * Second
    ensures LighterHttp.PackageTransport.dialContext == DialerDialContext(Dialer(10 * Second, 60 * Second, None))
    ensures LighterHttp.PackageTransport.maxConnsPerHost == 1000
    ensures LighterHttp.PackageTransport.maxIdleConnsPerHost == 100
    ensures LighterHttp.PackageTransport.idleConnTimeout == 10 * Second
  {
  }

  /** The default client NewHTTPClient installs is its package-level client
      with the environment proxy added. */
  lemma BuilderDefaultAddsEnvironmentProxy()
    ensures HttpClient.DefaultClient
            == HttpClient.PackageHttpClient.(transport :=
                 HttpClient.PackageTransport.(proxy := ProxyFromEnvironment))
  {
  }

  /** Both constructors refuse exactly the empty base URL, and without
      options both record the base URL they were given. */
  lemma ConstructorsAgreeOnEndpoint(baseUrl: string, rt: Runtime)
    ensures HttpClient.RangeOrdersSound(rt, [])
    ensures LighterHttp.NewClient(baseUrl).Some? <==> HttpClient.Build(baseUrl, [], rt).Returned?
    ensures LighterHttp.NewClient(baseUrl).Some? ==>
              LighterHttp.NewClient(baseUrl).value.endpoint == HttpClient.Build(baseUrl, [], rt).state.endpoint
  {
  }
}
