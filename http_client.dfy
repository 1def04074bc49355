/** client/http_client.go: the option-based builder of an HTTPClient.
    NewHTTPClient seeds a record, applies the caller's options to it in
    order (each may create the inner http.Client on demand and assign one
    field of its transport), and installs a default http.Client when no
    option created one.

    The first half states the builder over values (ClientState, Step,
    ApplyAll, Build); the second half is the record itself, a class whose
    methods do what the Go closures do and are proved against the first
    half. */
module HttpClient {
  import opened NetHttp

  // ---------------------------------------------------------------------
  // Constants

  /** The package-level `dialer`, `transport` and `httpClient` variables
      (lines 12-29); the modelled code does not read them. */
  const PackageDialer := Dialer(10 * Second, 60 * Second, None)
  const PackageTransport := TransportSettings(
    NoProxy, DialerDialContext(PackageDialer), 1000, 100, 10 * Second, Some(TlsConfig(true)))
  const PackageHttpClient := ClientSettings(30 * Second, PackageTransport)

  /** The http.Client that NewHTTPClient installs when no option created one
      (lines 66-79): environment proxy, 10s/60s dialer, pool limits 1000/100,
      10s idle timeout, TLS verification skipped, 30s overall timeout. */
  const DefaultClient := ClientSettings(
    30 * Second,
    TransportSettings(ProxyFromEnvironment, DialerDialContext(Dialer(10 * Second, 60 * Second, None)),
                      1000, 100, 10 * Second, Some(TlsConfig(true))))

  /** The http.Client that getOrCreateTransport creates (lines 136-138):
      zero timeout around `&http.Transport{}`. */
  const BareClient := ClientSettings(0, ZeroTransport)

  /** The dialer WithLocalAddr installs for a resolved local address
      (lines 122-126). */
  function LocalDialer(addr: TcpAddr): Dialer
  {
    Dialer(10 * Second, 60 * Second, Some(addr))
  }

  // ---------------------------------------------------------------------
  // Values

  /** The options the package offers, each the value its constructor
      function (WithProxy, WithCustomHeaders, WithLocalAddr) returns. */
  datatype HTTPClientOption =
    | WithProxy(proxyURL: string)
    | WithCustomHeaders(headers: map<string, string>)
    | WithLocalAddr(localIP: string)

  /** Why an option panicked (lines 94 and 120). */
  datatype Panic = InvalidProxyURL(proxyURL: string) | InvalidLocalIP(localIP: string)

  /** The error NewHTTPClient returns (line 48). */
  datatype BuildError = EmptyBaseUrl

  /** The fields of an HTTPClient record; `client` is None while
      HTTPClient.Client is nil. */
  datatype ClientState = ClientState(
    client: Option<ClientSettings>,
    endpoint: string,
    defaultHeaders: map<string, seq<string>>,
    channelName: string,
    fatFingerProtection: bool)

  /** Running an option either leaves the record in a new state or panics. */
  datatype Step = Continue(state: ClientState) | Panicking(panic: Panic)

  /** What NewHTTPClient does: return a client, return an error, or panic. */
  datatype BuildResult = Returned(state: ClientState) | ReturnedError(error: BuildError) | Panicked(panic: Panic)

  /** The fields of the record and of its client and transport, for saying
      which of them a step changes. */
  datatype Field =
    | Timeout | Proxy | Dial | MaxConnsPerHost | MaxIdleConnsPerHost | IdleConnTimeout | TlsClientConfig
    | Endpoint | DefaultHeaders | ChannelName | FatFingerProtection

  /** The client settings a record has, reading a nil Client as the bare one
      that getOrCreateTransport would create. */
  function ClientOrBare(s: ClientState): ClientSettings
  {
    if s.client.Some? then s.client.value else BareClient
  }

  /** Whether field f has the same value in a and b. */
  predicate Same(a: ClientState, b: ClientState, f: Field)
  {
    var ca, cb := ClientOrBare(a), ClientOrBare(b);
    match f
    case Timeout => ca.timeout == cb.timeout
    case Proxy => ca.transport.proxy == cb.transport.proxy
    case Dial => ca.transport.dialContext == cb.transport.dialContext
    case MaxConnsPerHost => ca.transport.maxConnsPerHost == cb.transport.maxConnsPerHost
    case MaxIdleConnsPerHost => ca.transport.maxIdleConnsPerHost == cb.transport.maxIdleConnsPerHost
    case IdleConnTimeout => ca.transport.idleConnTimeout == cb.transport.idleConnTimeout
    case TlsClientConfig => ca.transport.tlsClientConfig == cb.transport.tlsClientConfig
    case Endpoint => a.endpoint == b.endpoint
    case DefaultHeaders => a.defaultHeaders == b.defaultHeaders
    case ChannelName => a.channelName == b.channelName
    case FatFingerProtection => a.fatFingerProtection == b.fatFingerProtection
  }

  /** Every field outside fs is the same in a and b. */
  predicate OnlyChanges(a: ClientState, b: ClientState, fs: set<Field>)
  {
    && (Timeout !in fs ==> Same(a, b, Timeout))
    && (Proxy !in fs ==> Same(a, b, Proxy))
    && (Dial !in fs ==> Same(a, b, Dial))
    && (MaxConnsPerHost !in fs ==> Same(a, b, MaxConnsPerHost))
    && (MaxIdleConnsPerHost !in fs ==> Same(a, b, MaxIdleConnsPerHost))
    && (IdleConnTimeout !in fs ==> Same(a, b, IdleConnTimeout))
    && (TlsClientConfig !in fs ==> Same(a, b, TlsClientConfig))
    && (Endpoint !in fs ==> Same(a, b, Endpoint))
    && (DefaultHeaders !in fs ==> Same(a, b, DefaultHeaders))
    && (ChannelName !in fs ==> Same(a, b, ChannelName))
    && (FatFingerProtection !in fs ==> Same(a, b, FatFingerProtection))
  }

  /** The record NewHTTPClient seeds for a non-empty base URL (lines 52-57). */
  function Initial(baseUrl: string): ClientState
  {
    ClientState(None, baseUrl, map[], "", true)
  }

  // ---------------------------------------------------------------------
  // The options as functions on records

  /** getOrCreateTransport (lines 134-142): create a bare client when there
      is none, otherwise leave the record alone. */
  function EnsureTransport(s: ClientState): (r: ClientState)
    ensures r.client.Some?
    ensures s.client.Some? ==> r == s
    ensures s.client.None? ==> r.client == Some(BareClient)
    ensures OnlyChanges(s, r, {})
  {
    if s.client.Some? then s else s.(client := Some(BareClient))
  }

  /** Assign the proxy of an existing transport. */
  function SetProxy(s: ClientState, p: ProxyRule): (r: ClientState)
    requires s.client.Some?
    ensures r.client.Some? && r.client.value.transport.proxy == p
    ensures OnlyChanges(s, r, {Proxy})
  {
    var c := s.client.value;
    s.(client := Some(c.(transport := c.transport.(proxy := p))))
  }

  /** Assign the dial function of an existing transport. */
  function SetDialContext(s: ClientState, d: DialContext): (r: ClientState)
    requires s.client.Some?
    ensures r.client.Some? && r.client.value.transport.dialContext == d
    ensures OnlyChanges(s, r, {Dial})
  {
    var c := s.client.value;
    s.(client := Some(c.(transport := c.transport.(dialContext := d))))
  }

  /** The closure of WithProxy (lines 87-100): nothing for "", a panic when
      url.Parse fails, otherwise a fixed proxy on the (created if need be)
      transport. */
  function ProxyStep(s: ClientState, proxyURL: string, rt: Runtime): (r: Step)
    ensures r.Panicking? <==> proxyURL != "" && rt.parseUrl(proxyURL).None?
    ensures r.Panicking? ==> r.panic == InvalidProxyURL(proxyURL)
    ensures proxyURL == "" ==> r == Continue(s)
    ensures r.Continue? && proxyURL != "" ==>
              && r.state.client.Some?
              && r.state.client.value.transport.proxy == ProxyURL(rt.parseUrl(proxyURL).value)
              && OnlyChanges(s, r.state, {Proxy})
  {
    if proxyURL == "" then Continue(s)
    else match rt.parseUrl(proxyURL)
      case None => Panicking(InvalidProxyURL(proxyURL))
      case Some(p) => Continue(SetProxy(EnsureTransport(s), ProxyURL(p)))
  }

  /** The closure of WithLocalAddr (lines 114-130): nothing for "", a panic
      when `localIP + ":0"` does not resolve, otherwise a new dialer bound to
      the resolved address replaces the transport's dial function. */
  function LocalAddrStep(s: ClientState, localIP: string, rt: Runtime): (r: Step)
    ensures r.Panicking? <==> localIP != "" && rt.resolveTcpAddr(localIP + ":0").None?
    ensures r.Panicking? ==> r.panic == InvalidLocalIP(localIP)
    ensures localIP == "" ==> r == Continue(s)
    ensures r.Continue? && localIP != "" ==>
              && r.state.client.Some?
              && r.state.client.value.transport.dialContext
                 == DialerDialContext(LocalDialer(rt.resolveTcpAddr(localIP + ":0").value))
              && OnlyChanges(s, r.state, {Dial})
  {
    if localIP == "" then Continue(s)
    else match rt.resolveTcpAddr(localIP + ":0")
      case None => Panicking(InvalidLocalIP(localIP))
      case Some(addr) => Continue(SetDialContext(EnsureTransport(s), DialerDialContext(LocalDialer(addr))))
  }

  /** The header map after the loop of WithCustomHeaders (lines 106-108) has
      visited the keys in `order`: one http.Header.Set per key. No header is
      removed, and every entry is either an old one left as it was or the
      single value one Set wrote. */
  function MergeHeaders(h: map<string, seq<string>>, headers: map<string, string>,
                        order: seq<string>, canonical: string -> string): (r: map<string, seq<string>>)
    requires forall i | 0 <= i < |order| :: order[i] in headers
    ensures forall k | k in h :: k in r
    ensures forall k | k in r :: (k in h && r[k] == h[k]) || |r[k]| == 1
    decreases |order|
  {
    if order == [] then h
    else
      var key := order[|order| - 1];
      HeaderSet(MergeHeaders(h, headers, order[..|order| - 1], canonical), key, headers[key], canonical)
  }

  /** The runtime enumerates the header map of a WithCustomHeaders option. */
  predicate RangeOrderSound(rt: Runtime, o: HTTPClientOption)
  {
    o.WithCustomHeaders? ==> IsRangeOrder(rt.rangeOrder(o.headers), o.headers)
  }

  predicate RangeOrdersSound(rt: Runtime, opts: seq<HTTPClientOption>)
  {
    forall o | o in opts :: RangeOrderSound(rt, o)
  }

  /** The closure of WithCustomHeaders (lines 105-109). */
  function HeadersStep(s: ClientState, headers: map<string, string>, rt: Runtime): (r: Step)
    requires IsRangeOrder(rt.rangeOrder(headers), headers)
    ensures r.Continue? && OnlyChanges(s, r.state, {DefaultHeaders}) && r.state.client == s.client
  {
    Continue(s.(defaultHeaders := MergeHeaders(s.defaultHeaders, headers, rt.rangeOrder(headers),
                                               rt.canonicalHeaderKey)))
  }

  /** Whether an option writes a transport field (and so creates the
      transport if there is none). */
  predicate WritesTransport(o: HTTPClientOption)
  {
    match o
    case WithProxy(u) => u != ""
    case WithLocalAddr(ip) => ip != ""
    case WithCustomHeaders(_) => false
  }

  /** The fields an option may assign. */
  function Writes(o: HTTPClientOption): set<Field>
  {
    match o
    case WithProxy(u) => if u == "" then {} else {Proxy}
    case WithLocalAddr(ip) => if ip == "" then {} else {Dial}
    case WithCustomHeaders(_) => {DefaultHeaders}
  }

  /** The panic an option raises whatever the record holds. */
  function PanicOf(o: HTTPClientOption, rt: Runtime): Option<Panic>
  {
    match o
    case WithProxy(u) => if u != "" && rt.parseUrl(u).None? then Some(InvalidProxyURL(u)) else None
    case WithLocalAddr(ip) =>
      if ip != "" && rt.resolveTcpAddr(ip + ":0").None? then Some(InvalidLocalIP(ip)) else None
    case WithCustomHeaders(_) => None
  }

  /** `option(c)`: run one option on the record. */
  function RunOption(s: ClientState, o: HTTPClientOption, rt: Runtime): (r: Step)
    requires RangeOrderSound(rt, o)
    ensures r.Panicking? <==> PanicOf(o, rt).Some?
    ensures r.Panicking? ==> r.panic == PanicOf(o, rt).value
    ensures r.Continue? ==> OnlyChanges(s, r.state, Writes(o))
    ensures r.Continue? ==> (r.state.client.Some? <==> s.client.Some? || WritesTransport(o))
  {
    match o
    case WithProxy(u) => ProxyStep(s, u, rt)
    case WithCustomHeaders(h) => HeadersStep(s, h, rt)
    case WithLocalAddr(ip) => LocalAddrStep(s, ip, rt)
  }

  /** The loop of lines 60-62: the options in order, stopping at a panic. */
  function ApplyAll(s: ClientState, opts: seq<HTTPClientOption>, rt: Runtime): (r: Step)
    requires RangeOrdersSound(rt, opts)
    ensures r.Continue? ==> OnlyChanges(s, r.state, {Proxy, Dial, DefaultHeaders})
    ensures r.Continue? && s.client.Some? ==> r.state.client.Some?
    decreases |opts|
  {
    if opts == [] then Continue(s)
    else
      var last := opts[|opts| - 1];
      assert RangeOrderSound(rt, last);
      match ApplyAll(s, opts[..|opts| - 1], rt)
      case Panicking(p) => Panicking(p)
      case Continue(t) => RunOption(t, last, rt)
  }

  /** Lines 65-80: the default client, only when no option created one. */
  function InstallDefault(s: ClientState): (r: ClientState)
    ensures r.client.Some?
    ensures s.client.Some? ==> r == s
    ensures s.client.None? ==> r == s.(client := Some(DefaultClient))
  {
    if s.client.None? then s.(client := Some(DefaultClient)) else s
  }

  /** NewHTTPClient(baseUrl, options...) (lines 46-83). */
  function Build(baseUrl: string, opts: seq<HTTPClientOption>, rt: Runtime): (r: BuildResult)
    requires RangeOrdersSound(rt, opts)
    ensures r.ReturnedError? <==> baseUrl == ""
    ensures r.ReturnedError? ==> r.error == EmptyBaseUrl
    ensures r.Returned? ==>
              && r.state.client.Some?
              && r.state.endpoint == baseUrl
              && r.state.channelName == ""
              && r.state.fatFingerProtection
  {
    if baseUrl == "" then ReturnedError(EmptyBaseUrl)
    else match ApplyAll(Initial(baseUrl), opts, rt)
      case Panicking(p) => Panicked(p)
      case Continue(t) =>
        assert Same(Initial(baseUrl), t, Endpoint) && Same(Initial(baseUrl), t, ChannelName)
            && Same(Initial(baseUrl), t, FatFingerProtection);
        Returned(InstallDefault(t))
  }

  /** Running the options a then b is running a, then b on its result. */
  lemma {:induction false} ApplyAllAppend(s: ClientState, a: seq<HTTPClientOption>,
                                          b: seq<HTTPClientOption>, rt: Runtime)
    requires RangeOrdersSound(rt, a) && RangeOrdersSound(rt, b)
    ensures RangeOrdersSound(rt, a + b)
    ensures ApplyAll(s, a + b, rt) == match ApplyAll(s, a, rt)
                                      case Panicking(p) => Panicking(p)
                                      case Continue(t) => ApplyAll(t, b, rt)
    decreases |b|
  {
    if b == [] {
      assert a + b == a;
    } else {
      var b' := b[..|b| - 1];
      ApplyAllAppend(s, a, b', rt);
      assert (a + b)[..|a + b| - 1] == a + b';
    }
  }

  /** Running one more option of a list. */
  lemma ApplyAllPrefix(s: ClientState, opts: seq<HTTPClientOption>, i: nat, rt: Runtime)
    requires RangeOrdersSound(rt, opts) && i < |opts|
    ensures RangeOrdersSound(rt, opts[..i]) && RangeOrderSound(rt, opts[i])
    ensures ApplyAll(s, opts[..i + 1], rt) == match ApplyAll(s, opts[..i], rt)
                                             case Panicking(p) => Panicking(p)
                                             case Continue(t) => RunOption(t, opts[i], rt)
  {
    assert opts[i] in opts;
    assert opts[..i + 1][..i] == opts[..i];
  }

  /** A panic in option i ends the run: the later options do not run. */
  lemma PanicEndsApplyAll(s: ClientState, opts: seq<HTTPClientOption>, i: nat, rt: Runtime)
    requires RangeOrdersSound(rt, opts) && i < |opts|
    requires ApplyAll(s, opts[..i + 1], rt).Panicking?
    ensures ApplyAll(s, opts, rt) == ApplyAll(s, opts[..i + 1], rt)
  {
    ApplyAllAppend(s, opts[..i + 1], opts[i + 1..], rt);
    assert opts[..i + 1] + opts[i + 1..] == opts;
  }

  // ---------------------------------------------------------------------
  // The record

  /** An HTTPClient (lines 36-42). */
  class HTTPClient {
    var client: Client?
    var endpoint: string
    var defaultHeaders: map<string, seq<string>>
    var channelName: string
    var fatFingerProtection: bool

    /** The objects the record owns: itself, its client and its transport. */
    function Objects(): set<object>
      reads this, client
    {
      if client == null then {this} else var c: Client := client; {this, c, c.transport}
    }

    /** The record's fields as a value. */
    function State(): ClientState
      reads Objects()
    {
      ClientState(if client == null then None else Some(client.Settings()),
                  endpoint, defaultHeaders, channelName, fatFingerProtection)
    }

    /** The literal of lines 52-57. */
    constructor (baseUrl: string)
      ensures State() == Initial(baseUrl)
    {
      client := null;
      endpoint := baseUrl;
      defaultHeaders := map[];
      channelName := "";
      fatFingerProtection := true;
    }

    /** getOrCreateTransport (lines 134-142). The type assertion on the
        client's Transport always succeeds here, since every client of this
        record is created with an *http.Transport. */
    method GetOrCreateTransport() returns (t: Transport, ok: bool)
      modifies this
      ensures ok && client != null && t == client.transport
      ensures State() == EnsureTransport(old(State()))
      ensures old(client) != null ==> client == old(client) && t == old(client.transport)
      ensures old(client) == null ==> fresh(client) && fresh(t)
    {
      if client == null {
        var bare := new Transport(ZeroTransport);
        client := new Client(0, bare);
      }
      t, ok := client.transport, true;
    }

    /** The closure of WithProxy (lines 87-100). */
    method ApplyProxy(proxyURL: string, rt: Runtime) returns (panic: Option<Panic>)
      modifies Objects()
      ensures ProxyStep(old(State()), proxyURL, rt)
              == if panic.Some? then Panicking(panic.value) else Continue(State())
      ensures old(client) != null ==> client == old(client) && client.transport == old(client.transport)
      ensures old(client) == null && client != null ==> fresh(client) && fresh(client.transport)
    {
      if proxyURL == "" {
        return None;
      }
      var p := rt.parseUrl(proxyURL);
      if p.None? {
        return Some(InvalidProxyURL(proxyURL));
      }
      var t, _ := GetOrCreateTransport();
      t.proxy := ProxyURL(p.value);
      return None;
    }

    /** The closure of WithCustomHeaders (lines 105-109): the keys in the
        order `range` visits them, each through http.Header.Set. */
    method ApplyCustomHeaders(headers: map<string, string>, rt: Runtime)
      requires IsRangeOrder(rt.rangeOrder(headers), headers)
      modifies this
      ensures client == old(client)
      ensures Continue(State()) == HeadersStep(old(State()), headers, rt)
    {
      var order := rt.rangeOrder(headers);
      for i := 0 to |order|
        invariant client == old(client) && endpoint == old(endpoint) && channelName == old(channelName)
        invariant fatFingerProtection == old(fatFingerProtection)
        invariant defaultHeaders == MergeHeaders(old(defaultHeaders), headers, order[..i], rt.canonicalHeaderKey)
      {
        var key := order[i];
        assert order[..i + 1][..i] == order[..i];
        defaultHeaders := HeaderSet(defaultHeaders, key, headers[key], rt.canonicalHeaderKey);
      }
      assert order[..|order|] == order;
    }

    /** The closure of WithLocalAddr (lines 114-130). */
    method ApplyLocalAddr(localIP: string, rt: Runtime) returns (panic: Option<Panic>)
      modifies Objects()
      ensures LocalAddrStep(old(State()), localIP, rt)
              == if panic.Some? then Panicking(panic.value) else Continue(State())
      ensures old(client) != null ==> client == old(client) && client.transport == old(client.transport)
      ensures old(client) == null && client != null ==> fresh(client) && fresh(client.transport)
    {
      if localIP == "" {
        return None;
      }
      var addr := rt.resolveTcpAddr(localIP + ":0");
      if addr.None? {
        return Some(InvalidLocalIP(localIP));
      }
      var newDialer := LocalDialer(addr.value);
      var t, _ := GetOrCreateTransport();
      t.dialContext := DialerDialContext(newDialer);
      return None;
    }

    /** `option(c)` (line 61). */
    method Apply(o: HTTPClientOption, rt: Runtime) returns (panic: Option<Panic>)
      requires RangeOrderSound(rt, o)
      modifies Objects()
      ensures RunOption(old(State()), o, rt) == if panic.Some? then Panicking(panic.value) else Continue(State())
      ensures old(client) != null ==> client == old(client) && client.transport == old(client.transport)
      ensures old(client) == null && client != null ==> fresh(client) && fresh(client.transport)
    {
      match o
      case WithProxy(u) =>
        panic := ApplyProxy(u, rt);
      case WithCustomHeaders(h) =>
        ApplyCustomHeaders(h, rt);
        panic := None;
      case WithLocalAddr(ip) =>
        panic := ApplyLocalAddr(ip, rt);
    }

    /** SetFatFingerProtection (lines 144-146). */
    method SetFatFingerProtection(enabled: bool)
      modifies this
      ensures fatFingerProtection == enabled
      ensures client == old(client)
      ensures State() == old(State()).(fatFingerProtection := enabled)
      ensures OnlyChanges(old(State()), State(), {FatFingerProtection})
    {
      fatFingerProtection := enabled;
    }
  }

  /** What the method NewHTTPClient hands back: a client, an error, or the
      panic that unwound it. */
  datatype Construction = Built(c: HTTPClient) | Failed(error: BuildError) | Aborted(panic: Panic)

  /** The loop of lines 60-62 on a record: the options in order, stopping
      at the first panic. */
  method ApplyOptions(c: HTTPClient, options: seq<HTTPClientOption>, rt: Runtime) returns (panic: Option<Panic>)
    requires RangeOrdersSound(rt, options)
    modifies c.Objects()
    ensures ApplyAll(old(c.State()), options, rt) == if panic.Some? then Panicking(panic.value) else Continue(c.State())
    ensures old(c.client) != null ==> c.client == old(c.client) && c.client.transport == old(c.client.transport)
    ensures old(c.client) == null && c.client != null ==> fresh(c.client) && fresh(c.client.transport)
  {
    ghost var s := c.State();
    for i := 0 to |options|
      invariant old(c.client) != null ==> c.client == old(c.client) && c.client.transport == old(c.client.transport)
      invariant old(c.client) == null && c.client != null ==> fresh(c.client) && fresh(c.client.transport)
      invariant ApplyAll(s, options[..i], rt) == Continue(c.State())
    {
      ApplyAllPrefix(s, options, i, rt);
      panic := c.Apply(options[i], rt);
      if panic.Some? {
        PanicEndsApplyAll(s, options, i, rt);
        return;
      }
    }
    assert options[..|options|] == options;
    panic := None;
  }

  /** NewHTTPClient (lines 46-83). A returned client and its inner client
      and transport are freshly allocated: no two clients share them. */
  method NewHTTPClient(baseUrl: string, options: seq<HTTPClientOption>, rt: Runtime) returns (r: Construction)
    requires RangeOrdersSound(rt, options)
    ensures r.Built? ==> fresh(r.c) && r.c.client != null && fresh(r.c.client) && fresh(r.c.client.transport)
    ensures r.Built? ==> Build(baseUrl, options, rt) == Returned(r.c.State())
    ensures r.Failed? ==> Build(baseUrl, options, rt) == ReturnedError(r.error)
    ensures r.Aborted? ==> Build(baseUrl, options, rt) == Panicked(r.panic)
  {
    if baseUrl == "" {
      return Failed(EmptyBaseUrl);
    }
    var c := new HTTPClient(baseUrl);
    var panic := ApplyOptions(c, options, rt);
    if panic.Some? {
      return Aborted(panic.value);
    }
    if c.client == null {
      var t := new Transport(DefaultClient.transport);
      c.client := new Client(30 * Second, t);
    }
    return Built(c);
  }
}
