# lighter-go HTTP client builders, modelled in Dafny

This project models the outbound HTTP client configuration layer of
lighter-go, a Go client for a trading API. There are two variants.

- `client/http_client.go` builds an `HTTPClient` record with options.
  `NewHTTPClient(baseUrl, options...)` rejects an empty base URL and seeds the
  record: endpoint, an empty header map, an empty channel name and fat-finger
  protection on. It then runs the options in order. Each option is a closure
  that changes the record in place:
  - `WithProxy` sets the transport's proxy to a fixed URL.
  - `WithLocalAddr` replaces the transport's dial function with a 10s/60s
    dialer bound to `ip:0`.
  - `WithCustomHeaders` merges into the header map with `http.Header.Set`.

  The two transport options go through `getOrCreateTransport`. It creates a
  bare `http.Client` around `&http.Transport{}` only when the record has no
  client yet. After the options, a default client is installed only if the
  record still has no client. `SetFatFingerProtection` sets one flag.
- `client/http/client.go` is the minimal variant. `NewClient` returns nil for
  an empty base URL and otherwise a struct that holds only the endpoint. The
  package also declares a default dialer, transport and client.

Files:

- `net_http.dfy` (module `NetHttp`) holds the Go library values the builders
  configure:
  - the proxy rule, the dialer, the TLS config and the transport and client
    settings;
  - the classes `Transport` and `Client`, whose fields the options assign;
  - `Runtime`, the library calls whose internals are left out. These are
    `url.Parse`, `net.ResolveTCPAddr`, `textproto.CanonicalMIMEHeaderKey` and
    the order in which `range` visits a map. Each is a function value.
- `http_client.dfy` (module `HttpClient`) holds two halves:
  - the builder on values: `ProxyStep`, `LocalAddrStep`, `HeadersStep`,
    `RunOption`, `ApplyAll` and `Build`;
  - the record as the class `HTTPClient`, plus the method `NewHTTPClient`.
    Each method that runs an option is proved to produce the state or
    panic its value-level function describes. `SetFatFingerProtection` is
    specified directly: the new state is the old one with only the flag
    set.
- `http_client_lemmas.dfy` (module `HttpClientLemmas`) holds the properties.
  They cover:
  - the header merge;
  - which field each option writes, and that the last writer wins;
  - which option's panic ends construction;
  - when the default client is installed.
- `http_variant.dfy` (module `LighterHttp`) models the minimal variant.
- `variants.dfy` (module `Variants`) compares the two variants' defaults.

Durations are integers in nanoseconds; `Second` is 10^9.

A panic inside an option is modelled as an outcome, not as an error:
`Panicking` for one option, `Panicked` for `Build`, `Aborted` for the
method. The model says which panic occurs. It returns no client in that
case, because the Go call never returns.

Fields of a record whose client is still nil are compared as if it had the
bare client that `getOrCreateTransport` would create (`ClientOrBare`).
Whether the client exists is stated separately.

Three behaviours of `client/http_client.go` shape the model:

- **Invalid input panics.** A proxy URL that `url.Parse` rejects and a local
  address that `net.ResolveTCPAddr` cannot resolve both panic inside the
  option (`client/http_client.go:94`, `:120`). `NewHTTPClient` returns an
  error only for an empty base URL (`:48`). The model keeps each panic as an
  outcome.
- **Defaults only without a transport option.** The default client of
  `client/http_client.go:66-79` is installed only when the record still has
  no client after the options (`:65`). Once a non-empty `WithProxy` or
  `WithLocalAddr` has created the bare client of `:136-138`, that block is
  skipped, so the client keeps:
  - a zero timeout;
  - zero pool fields (`MaxConnsPerHost`, `MaxIdleConnsPerHost`), which
    net/http reads as no per-host limit and its default of 2 idle
    connections per host, and a zero idle timeout;
  - a nil TLS config, which verifies certificates;
  - no environment proxy;
  - Go's zero dialer, unless `WithLocalAddr` ran.

  `TransportOptionSkipsDefaults` and `ProxyOnlyClient` state this.
- **TLS verification.** `client/http_client.go` skips certificate
  verification in its package transport (`:22`) and in its default client
  (`:77`). `client/http/client.go` sets `InsecureSkipVerify: false`
  (`client/http/client.go:23`), so its package transport verifies.

## Model

| member | source | states |
|---|---|---|
| `NetHttp.HeaderSet` | client/http_client.go:107 | `http.Header.Set`: the canonical key gets the single value `[value]`, other keys are unchanged and none is removed |
| `NetHttp.Transport.constructor` | client/http_client.go:137 | a transport literal has exactly the given field values (`&http.Transport{}` is `ZeroTransport`) |
| `NetHttp.Client.constructor` | client/http_client.go:136-138 | an `&http.Client{…}` literal (here and at lines 66-79) holds exactly the given timeout and transport object |
| `HttpClient.EnsureTransport` | client/http_client.go:134-142 | `getOrCreateTransport` on values: afterwards a client exists; an existing client is kept as it is; a missing one becomes the bare client (zero timeout, `&http.Transport{}`); no field value changes |
| `HttpClient.ProxyStep` | client/http_client.go:86-101 | `WithProxy`: `""` is a no-op; a URL that `url.Parse` rejects panics with that URL; otherwise the transport (created if missing) routes through the parsed URL and no other field changes |
| `HttpClient.LocalAddrStep` | client/http_client.go:113-131 | `WithLocalAddr`: `""` is a no-op; an address for which `ip + ":0"` does not resolve panics; otherwise only the dial function changes, to a 10s-timeout, 60s-keep-alive dialer bound to the resolved address |
| `HttpClient.MergeHeaders` | client/http_client.go:106-108 | the loop of `WithCustomHeaders` on values, one `Header.Set` per key in `range` order: no header is removed, and every entry is either an old one left as it was or a one-element list; which keys and values those are is stated by `MergeHeadersWritten`, `MergeHeadersKeys` and `MergeHeadersLastWins` |
| `HttpClient.HeadersStep` | client/http_client.go:104-110 | `WithCustomHeaders` changes only the header map and never creates a client |
| `HttpClient.RunOption` | client/http_client.go:61 | one option panics exactly when its input is invalid, whatever the record holds; it changes only the fields that option writes; it creates a client exactly when it writes a transport field |
| `HttpClient.ApplyAll` | client/http_client.go:60-62 | running the options in order changes only the proxy, the dial function and the headers; an existing client is never dropped |
| `HttpClient.InstallDefault` | client/http_client.go:65-80 | the default client is installed when, and only when, the record has no client |
| `HttpClient.Build` | client/http_client.go:46-83 | `NewHTTPClient` returns an error exactly for an empty base URL, and then the error is the empty-base-URL one; a returned client has a client, the given endpoint, an empty channel name and fat-finger protection on |
| `HttpClient.ApplyAllAppend` | client/http_client.go:60-62 | running the options `a ++ b` is running `a` and then, unless it panicked, running `b` on the result: options act strictly in sequence |
| `HttpClient.PanicEndsApplyAll` | client/http_client.go:60-62 | a panic in option i is the outcome of the whole run: the options after it never run |
| `HttpClient.HTTPClient.constructor` | client/http_client.go:52-57 | the seeded record: the endpoint is the base URL, the header map is empty, the channel name is `""`, fat-finger protection is on, the client is nil |
| `HttpClient.HTTPClient.GetOrCreateTransport` | client/http_client.go:134-142 | on a record with a client, returns that client's transport object and changes nothing; on one without, allocates a fresh bare client and transport and returns it; the type assertion succeeds |
| `HttpClient.HTTPClient.ApplyProxy` | client/http_client.go:87-100 | the in-place closure of `WithProxy` produces the state or panic `ProxyStep` describes, and keeps an existing client and transport object |
| `HttpClient.HTTPClient.ApplyCustomHeaders` | client/http_client.go:105-109 | the in-place loop over the argument map, in the order `range` visits it, produces the header map `HeadersStep` describes |
| `HttpClient.HTTPClient.ApplyLocalAddr` | client/http_client.go:114-130 | the in-place closure of `WithLocalAddr` produces the state or panic `LocalAddrStep` describes, and keeps an existing client and transport object |
| `HttpClient.HTTPClient.Apply` | client/http_client.go:61 | `option(c)` produces the state or panic `RunOption` describes |
| `HttpClient.HTTPClient.SetFatFingerProtection` | client/http_client.go:144-146 | sets the flag to exactly the argument and changes no other field |
| `HttpClient.ApplyOptions` | client/http_client.go:60-62 | the `for` loop over the options, each run in place on the record, ends in the state or panic `ApplyAll` describes and keeps an existing client and transport object |
| `HttpClient.NewHTTPClient` | client/http_client.go:46-83 | the constructor returns, fails or panics exactly as `Build` says, with the record `Build` describes; the returned record, client and transport are freshly allocated, so no two clients share them |
| `HttpClientLemmas.MergeHeadersKeys` | client/http_client.go:106-108 | after the merge, the header keys are the old ones plus the canonical form of every argument key |
| `HttpClientLemmas.MergeHeadersWritten` | client/http_client.go:106-108 | every merged entry is an old one left as it was, or the canonical form of a visited key holding exactly `[that key's value]` |
| `HttpClientLemmas.MergeHeadersKeepsOthers` | client/http_client.go:106-108 | a key that is no argument key's canonical form keeps its presence and its values |
| `HttpClientLemmas.MergeHeadersLastWins` | client/http_client.go:106-108 | a canonical key holds exactly the value of the last visited argument key with that canonical form |
| `HttpClientLemmas.MergeHeadersDistinct` | client/http_client.go:104-110 | when no two argument keys share a canonical form, each argument key's canonical form holds `[its value]`, whatever order `range` picks |
| `HttpClientLemmas.MergeHeadersOrderIrrelevant` | client/http_client.go:106-108 | when no two argument keys share a canonical form, the merged map does not depend on Go's map iteration order |
| `HttpClientLemmas.HeadersAccumulate` | client/http_client.go:104-110 | `WithCustomHeaders({A:1})` then `WithCustomHeaders({A:2, B:3})` leaves the headers `{A:[2], B:[3]}`: applications accumulate and the last write wins |
| `HttpClientLemmas.HeaderKeptAfterLastSetter` | client/http_client.go:60-62 | when no option after `opts[i]` has an argument key whose canonical form is k, header k after all the options has the presence and value it had after `opts[..i+1]` |
| `HttpClientLemmas.HeaderLastSetterWins` | client/http_client.go:104-110 | across any list of options, header k holds `[v]`, where v is the value of the last key of the last option that sets k, in the order `range` visits that option's map |
| `HttpClientLemmas.HeaderOfLastSetter` | client/http_client.go:104-110 | when the last option that sets header k has no two keys with the same canonical form, k holds `[its key's value]` whatever order `range` picks |
| `HttpClientLemmas.ApplyAllPanicsAtFirstInvalid` | client/http_client.go:60-62 | the options panic exactly when one of them has an input that the parser or resolver rejects, and the panic is the first such option's |
| `HttpClientLemmas.BuildOutcome` | client/http_client.go:46-62 | an empty base URL gives the error and runs no option, even an invalid one; otherwise construction panics exactly when some option is invalid, with the first one's panic, and returns a client exactly when none is |
| `HttpClientLemmas.ClientCreatedIffTransportOption` | client/http_client.go:86-139 | over the loop at lines 60-62, with the no-op returns at 88-90 and 115-117 and the creation through `getOrCreateTransport` at 98 and 128 (lines 135-138): after the options a client exists exactly when one existed or some option was a non-empty `WithProxy`/`WithLocalAddr`; `WithProxy("")`, `WithLocalAddr("")` and headers create none |
| `HttpClientLemmas.FieldKeptWithoutWriter` | client/http_client.go:60-62 | a field that no option writes has the same value after all the options as before |
| `HttpClientLemmas.LastProxyWins` | client/http_client.go:98-99 | the last non-empty `WithProxy` decides the proxy, which is the URL it parsed |
| `HttpClientLemmas.LastLocalAddrWins` | client/http_client.go:122-129 | the last non-empty `WithLocalAddr` decides the dial function: a 10s/60s dialer bound to what `ip + ":0"` resolved to |
| `HttpClientLemmas.OptionsNeverRouteByDefault` | client/http_client.go:86-131 | no option installs the environment proxy or an unbound 10s/60s dialer, so a client that had neither still has neither |
| `HttpClientLemmas.DefaultInstalledIffNoTransportOption` | client/http_client.go:65-80 | a returned client is the default one (30s, environment proxy, 10s/60s dialer, 1000/100 per host, 10s idle, TLS verification skipped) exactly when no option wrote a transport field |
| `HttpClientLemmas.TransportOptionSkipsDefaults` | client/http_client.go:65 | once an option has created the transport, none of the defaults is filled in. Timeout, the two pool fields and idle timeout are 0. The TLS config is nil, so certificates are verified. There is no environment proxy and no 10s/60s unbound dialer |
| `HttpClientLemmas.ProxyOnlyClient` | client/http_client.go:134-138 | `NewHTTPClient(u, WithProxy(p))` returns the seeded record with the bare client whose only non-zero field is the proxy |
| `HttpClientLemmas.EnsureTransportIdempotent` | client/http_client.go:134-142 | a second `getOrCreateTransport` changes nothing |
| `LighterHttp.NewClient` | client/http/client.go:43-51 | nil exactly for an empty base URL; otherwise a client whose endpoint is the base URL and whose proxy URL, local address, custom headers and inner client are all nil |
| `Variants.TlsDefaultsDisagree` | client/http/client.go:23 | the minimal variant's package transport verifies TLS; `client/http_client.go`'s package transport (line 22) and default client (line 77) skip verification |
| `Variants.PackageClientsDifferOnlyInTls` | client/http/client.go:13-30 | the two files' package-level clients are equal except for TLS: 30s timeout, 10s/60s dialer, 1000 and 100 connections per host, 10s idle timeout, no proxy |
| `Variants.BuilderDefaultAddsEnvironmentProxy` | client/http_client.go:66-79 | the default client `NewHTTPClient` installs is the package-level client of the same file plus `http.ProxyFromEnvironment` |
| `Variants.ConstructorsAgreeOnEndpoint` | client/http/client.go:43-51 | both constructors refuse exactly the empty base URL and, without options, record the base URL they were given |

## Left out

- Networking is only configured, never performed. The model leaves out dialing, proxy resolution at request time, the TLS handshake and connection pooling.
- The internals of `url.Parse`, `net.ResolveTCPAddr` and `textproto.CanonicalMIMEHeaderKey` are not modelled. Each is an arbitrary function in `Runtime`, and every property holds for all of them.
- Go randomises map iteration order. In the model, `Runtime.rangeOrder` gives one order per map: any order that visits each key once. Go may visit the same map in different orders on two calls. No property here depends on the two orders being the same.
- Options written by callers are left out. Go lets a caller pass any `func(*HTTPClient)`, for example one that installs its own `Client` with another `RoundTripper`. The model covers only the package's three options. So `HttpClient.HTTPClient.GetOrCreateTransport` always returns `ok == true`. A nil element of `options`, on which `option(c)` at `client/http_client.go:61` panics, cannot be expressed either: every `HTTPClientOption` value is one of the three options.
- Panic and error values are simplified. The panic carries the rejected input, not the formatted library error. The error of `NewHTTPClient` is `EmptyBaseUrl`, not its message text.
- Only the fields these builders set are modelled. `http.Client` has others (`Jar`, `CheckRedirect`) and `http.Transport` has many more.
- The `core.MinimalHTTPClient` interface check at `client/http/client.go:32` is left out. The interface is not part of this model.
- The package-level `dialer`, `transport` and `httpClient` of both files are not read by the modelled files and are recorded as constants only. The methods of the minimal variant's `client` live in files that are not part of this model and may use them. Their sharing across clients and any concurrent use are left out.
- `client/http_types.go` holds only JSON response structs and is not part of this model.
