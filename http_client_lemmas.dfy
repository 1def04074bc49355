/** Properties of the builder of client/http_client.go: what the header
    merge computes, which fields the options write and in which order, when
    the options panic, and when the default client is installed. */
module HttpClientLemmas {
  import opened NetHttp
  import opened HttpClient

  // ---------------------------------------------------------------------
  // WithCustomHeaders: the merge into the default headers

  /** The canonical forms of the keys in `order`. */
  function CanonicalKeys(order: seq<string>, canonical: string -> string): set<string>
  {
    set key | key in order :: canonical(key)
  }

  /** No two keys of the argument map have the same canonical form. */
  predicate CanonicallyDistinct(headers: map<string, string>, canonical: string -> string)
  {
    forall k1, k2 | k1 in headers && k2 in headers && canonical(k1) == canonical(k2) :: k1 == k2
  }

  /** The merge adds exactly the canonical forms of the visited keys. */
  lemma {:induction false} MergeHeadersKeys(h: map<string, seq<string>>, headers: map<string, string>,
                                            order: seq<string>, canonical: string -> string)
    requires forall i | 0 <= i < |order| :: order[i] in headers
    ensures MergeHeaders(h, headers, order, canonical).Keys == h.Keys + CanonicalKeys(order, canonical)
    decreases |order|
  {
    if order != [] {
      var prefix := order[..|order| - 1];
      MergeHeadersKeys(h, headers, prefix, canonical);
      assert order == prefix + [order[|order| - 1]];
      assert CanonicalKeys(order, canonical)
          == CanonicalKeys(prefix, canonical) + {canonical(order[|order| - 1])};
    }
  }

  /** Every entry of the merged map is an old one left as it was, or the
      canonical form of a visited key holding that key's value alone. */
  lemma {:induction false} MergeHeadersWritten(h: map<string, seq<string>>, headers: map<string, string>,
                                               order: seq<string>, canonical: string -> string)
    requires forall i | 0 <= i < |order| :: order[i] in headers
    ensures var r := MergeHeaders(h, headers, order, canonical);
            forall k | k in r ::
              || (k in h && r[k] == h[k])
              || exists i | 0 <= i < |order| :: canonical(order[i]) == k && r[k] == [headers[order[i]]]
    decreases |order|
  {
    if order != [] {
      var n := |order|;
      var prefix := order[..n - 1];
      MergeHeadersWritten(h, headers, prefix, canonical);
      var r0, r := MergeHeaders(h, headers, prefix, canonical), MergeHeaders(h, headers, order, canonical);
      forall k | k in r
        ensures || (k in h && r[k] == h[k])
                || exists i | 0 <= i < n :: canonical(order[i]) == k && r[k] == [headers[order[i]]]
      {
        if k == canonical(order[n - 1]) {
          assert canonical(order[n - 1]) == k && r[k] == [headers[order[n - 1]]];
        } else if !(k in h && r0[k] == h[k]) {
          var i :| 0 <= i < n - 1 && canonical(prefix[i]) == k && r0[k] == [headers[prefix[i]]];
          assert prefix[i] == order[i];
        }
      }
    }
  }

  /** A key that is no visited key's canonical form keeps its presence and
      its values. */
  lemma {:induction false} MergeHeadersKeepsOthers(h: map<string, seq<string>>, headers: map<string, string>,
                                                   order: seq<string>, canonical: string -> string, k: string)
    requires forall i | 0 <= i < |order| :: order[i] in headers
    requires forall i | 0 <= i < |order| :: canonical(order[i]) != k
    ensures var r := MergeHeaders(h, headers, order, canonical);
            (k in r <==> k in h) && (k in h ==> r[k] == h[k])
    decreases |order|
  {
    if order != [] {
      MergeHeadersKeepsOthers(h, headers, order[..|order| - 1], canonical, k);
    }
  }

  /** Last write wins: a visited key that no later visited key shares a
      canonical form with leaves its own value, alone in the list. */
  lemma {:induction false} MergeHeadersLastWins(h: map<string, seq<string>>, headers: map<string, string>,
                                                order: seq<string>, canonical: string -> string, i: nat)
    requires forall j | 0 <= j < |order| :: order[j] in headers
    requires i < |order|
    requires forall j | i < j < |order| :: canonical(order[j]) != canonical(order[i])
    ensures var r := MergeHeaders(h, headers, order, canonical);
            canonical(order[i]) in r && r[canonical(order[i])] == [headers[order[i]]]
    decreases |order|
  {
    var n := |order|;
    if i < n - 1 {
      MergeHeadersLastWins(h, headers, order[..n - 1], canonical, i);
    }
  }

  /** With canonically distinct keys, every argument key ends up under its
      canonical form with its own value, whatever order `range` picks. */
  lemma MergeHeadersDistinct(h: map<string, seq<string>>, headers: map<string, string>,
                             order: seq<string>, canonical: string -> string)
    requires IsRangeOrder(order, headers)
    requires CanonicallyDistinct(headers, canonical)
    ensures forall k | k in headers ::
              var r := MergeHeaders(h, headers, order, canonical);
              canonical(k) in r && r[canonical(k)] == [headers[k]]
  {
    forall k | k in headers
      ensures var r := MergeHeaders(h, headers, order, canonical);
              canonical(k) in r && r[canonical(k)] == [headers[k]]
    {
      var i :| 0 <= i < |order| && order[i] == k;
      forall j | i < j < |order|
        ensures canonical(order[j]) != canonical(order[i])
      {
        assert order[j] != order[i];
      }
      MergeHeadersLastWins(h, headers, order, canonical, i);
    }
  }

  /** With canonically distinct keys the merge does not depend on the
      order in which `range` visits the argument map. */
  lemma MergeHeadersOrderIrrelevant(h: map<string, seq<string>>, headers: map<string, string>,
                                    order1: seq<string>, order2: seq<string>, canonical: string -> string)
    requires IsRangeOrder(order1, headers) && IsRangeOrder(order2, headers)
    requires CanonicallyDistinct(headers, canonical)
    ensures MergeHeaders(h, headers, order1, canonical) == MergeHeaders(h, headers, order2, canonical)
  {
    var r1, r2 := MergeHeaders(h, headers, order1, canonical), MergeHeaders(h, headers, order2, canonical);
    MergeHeadersSameKeys(h, headers, order1, order2, canonical);
    forall k | k in r1
      ensures r1[k] == r2[k]
    {
      MergeHeadersSameEntry(h, headers, order1, order2, canonical, k);
    }
  }

  /** Two `range` orders of the same map merge the same set of keys. */
  lemma MergeHeadersSameKeys(h: map<string, seq<string>>, headers: map<string, string>,
                             order1: seq<string>, order2: seq<string>, canonical: string -> string)
    requires IsRangeOrder(order1, headers) && IsRangeOrder(order2, headers)
    ensures MergeHeaders(h, headers, order1, canonical).Keys == MergeHeaders(h, headers, order2, canonical).Keys
  {
    MergeHeadersKeys(h, headers, order1, canonical);
    MergeHeadersKeys(h, headers, order2, canonical);
    assert CanonicalKeys(order1, canonical) == CanonicalKeys(order2, canonical);
  }

  /** One entry of MergeHeadersOrderIrrelevant: a merged key holds the same
      values under both orders. */
  lemma MergeHeadersSameEntry(h: map<string, seq<string>>, headers: map<string, string>,
                              order1: seq<string>, order2: seq<string>, canonical: string -> string, k: string)
    requires IsRangeOrder(order1, headers) && IsRangeOrder(order2, headers)
    requires CanonicallyDistinct(headers, canonical)
    requires k in MergeHeaders(h, headers, order1, canonical)
    ensures var r1, r2 := MergeHeaders(h, headers, order1, canonical), MergeHeaders(h, headers, order2, canonical);
            k in r2 && r1[k] == r2[k]
  {
    MergeHeadersKeys(h, headers, order1, canonical);
    if k in CanonicalKeys(order1, canonical) {
      var key :| key in order1 && canonical(key) == k;
      assert key in headers;
      MergeHeadersDistinct(h, headers, order1, canonical);
      MergeHeadersDistinct(h, headers, order2, canonical);
    } else {
      forall i | 0 <= i < |order2|
        ensures canonical(order2[i]) != k
      {
        assert order2[i] in order1;
      }
      MergeHeadersKeepsOthers(h, headers, order1, canonical, k);
      MergeHeadersKeepsOthers(h, headers, order2, canonical, k);
    }
  }

  // ---------------------------------------------------------------------
  // Panics

  /** The panic of the first option, in the caller's order, that panics. */
  function FirstPanic(opts: seq<HTTPClientOption>, rt: Runtime): Option<Panic>
  {
    if opts == [] then None
    else if PanicOf(opts[0], rt).Some? then PanicOf(opts[0], rt)
    else FirstPanic(opts[1..], rt)
  }

  /** Running the options panics exactly when one of them is invalid, and
      with the panic of the first invalid one: the options before it have
      run, the ones after it never run. */
  lemma {:induction false} ApplyAllPanicsAtFirstInvalid(s: ClientState, opts: seq<HTTPClientOption>, rt: Runtime)
    requires RangeOrdersSound(rt, opts)
    ensures ApplyAll(s, opts, rt).Panicking? <==> FirstPanic(opts, rt).Some?
    ensures ApplyAll(s, opts, rt).Panicking? ==> ApplyAll(s, opts, rt).panic == FirstPanic(opts, rt).value
    decreases |opts|
  {
    if opts != [] {
      var o := opts[0];
      ApplyAllAppend(s, [o], opts[1..], rt);
      assert [o] + opts[1..] == opts;
      assert ApplyAll(s, [o], rt) == RunOption(s, o, rt) by {
        assert [o][..0] == [];
      }
      match RunOption(s, o, rt)
      case Panicking(_) =>
      case Continue(t) => ApplyAllPanicsAtFirstInvalid(t, opts[1..], rt);
    }
  }

  /** NewHTTPClient returns an error exactly for an empty base URL, without
      running any option; otherwise it panics exactly when some option is
      invalid, with the first such option's panic, and returns a client
      when none is. */
  lemma BuildOutcome(baseUrl: string, opts: seq<HTTPClientOption>, rt: Runtime)
    requires RangeOrdersSound(rt, opts)
    ensures baseUrl == "" ==> Build(baseUrl, opts, rt) == ReturnedError(EmptyBaseUrl)
    ensures Build(baseUrl, opts, rt).Panicked? <==> baseUrl != "" && FirstPanic(opts, rt).Some?
    ensures Build(baseUrl, opts, rt).Panicked? ==> Build(baseUrl, opts, rt).panic == FirstPanic(opts, rt).value
    ensures Build(baseUrl, opts, rt).Returned? <==> baseUrl != "" && FirstPanic(opts, rt).None?
  {
    if baseUrl != "" {
      ApplyAllPanicsAtFirstInvalid(Initial(baseUrl), opts, rt);
    }
  }

  // ---------------------------------------------------------------------
  // Which fields the options write

  /** Some option writes a transport field (a non-empty WithProxy or
      WithLocalAddr). */
  predicate AnyWritesTransport(opts: seq<HTTPClientOption>)
  {
    exists o | o in opts :: WritesTransport(o)
  }

  /** After the options the record has a client exactly when it had one or
      some option wrote a transport field: a no-op WithProxy("") or
      WithLocalAddr("") and WithCustomHeaders never create one. */
  lemma {:induction false} ClientCreatedIffTransportOption(s: ClientState, opts: seq<HTTPClientOption>, rt: Runtime)
    requires RangeOrdersSound(rt, opts)
    requires ApplyAll(s, opts, rt).Continue?
    ensures ApplyAll(s, opts, rt).state.client.Some? <==> s.client.Some? || AnyWritesTransport(opts)
    decreases |opts|
  {
    if opts != [] {
      var prefix := opts[..|opts| - 1];
      ClientCreatedIffTransportOption(s, prefix, rt);
      assert opts == prefix + [opts[|opts| - 1]];
    }
  }

  /** A field that no option writes keeps its value through all of them. */
  lemma {:induction false} FieldKeptWithoutWriter(s: ClientState, opts: seq<HTTPClientOption>, rt: Runtime, f: Field)
    requires RangeOrdersSound(rt, opts)
    requires forall o | o in opts :: f !in Writes(o)
    requires ApplyAll(s, opts, rt).Continue?
    ensures Same(s, ApplyAll(s, opts, rt).state, f)
    decreases |opts|
  {
    if opts != [] {
      var prefix := opts[..|opts| - 1];
      FieldKeptWithoutWriter(s, prefix, rt, f);
      var t0 := ApplyAll(s, prefix, rt).state;
      assert Same(t0, ApplyAll(s, opts, rt).state, f);
    }
  }

  /** Whether an option assigns the transport's proxy. */
  predicate SetsProxy(o: HTTPClientOption)
  {
    o.WithProxy? && o.proxyURL != ""
  }

  /** Whether an option assigns the transport's dial function. */
  predicate SetsLocalAddr(o: HTTPClientOption)
  {
    o.WithLocalAddr? && o.localIP != ""
  }

  /** The last WithProxy with a non-empty URL decides the proxy: the
      transport always routes through the URL it parsed. */
  lemma {:induction false} LastProxyWins(s: ClientState, opts: seq<HTTPClientOption>, rt: Runtime, i: nat)
    requires RangeOrdersSound(rt, opts)
    requires i < |opts| && SetsProxy(opts[i])
    requires forall j | i < j < |opts| :: !SetsProxy(opts[j])
    requires ApplyAll(s, opts, rt).Continue?
    ensures rt.parseUrl(opts[i].proxyURL).Some?
    ensures var t := ApplyAll(s, opts, rt).state;
            t.client.Some? && t.client.value.transport.proxy == ProxyURL(rt.parseUrl(opts[i].proxyURL).value)
    decreases |opts|
  {
    var n := |opts|;
    var prefix := opts[..n - 1];
    if i < n - 1 {
      LastProxyWins(s, prefix, rt, i);
      assert Same(ApplyAll(s, prefix, rt).state, ApplyAll(s, opts, rt).state, Proxy);
    }
  }

  /** The last WithLocalAddr with a non-empty address decides the dial
      function: a 10s/60s dialer bound to what `ip + ":0"` resolved to. */
  lemma {:induction false} LastLocalAddrWins(s: ClientState, opts: seq<HTTPClientOption>, rt: Runtime, i: nat)
    requires RangeOrdersSound(rt, opts)
    requires i < |opts| && SetsLocalAddr(opts[i])
    requires forall j | i < j < |opts| :: !SetsLocalAddr(opts[j])
    requires ApplyAll(s, opts, rt).Continue?
    ensures rt.resolveTcpAddr(opts[i].localIP + ":0").Some?
    ensures var t := ApplyAll(s, opts, rt).state;
            && t.client.Some?
            && t.client.value.transport.dialContext
               == DialerDialContext(Dialer(10 * Second, 60 * Second, Some(rt.resolveTcpAddr(opts[i].localIP + ":0").value)))
    decreases |opts|
  {
    var n := |opts|;
    var prefix := opts[..n - 1];
    if i < n - 1 {
      LastLocalAddrWins(s, prefix, rt, i);
      assert Same(ApplyAll(s, prefix, rt).state, ApplyAll(s, opts, rt).state, Dial);
    }
  }

  /** Neither the environment proxy nor the plain 10s/60s dialer of the
      default client. */
  predicate NoDefaultRouting(c: ClientSettings)
  {
    && c.transport.proxy != ProxyFromEnvironment
    && (c.transport.dialContext.DialerDialContext? ==> c.transport.dialContext.dialer.localAddr.Some?)
  }

  /** No option installs the environment proxy or the unbound dialer. */
  lemma {:induction false} OptionsNeverRouteByDefault(s: ClientState, opts: seq<HTTPClientOption>, rt: Runtime)
    requires RangeOrdersSound(rt, opts)
    requires NoDefaultRouting(ClientOrBare(s))
    requires ApplyAll(s, opts, rt).Continue?
    ensures NoDefaultRouting(ClientOrBare(ApplyAll(s, opts, rt).state))
    decreases |opts|
  {
    if opts != [] {
      var prefix := opts[..|opts| - 1];
      OptionsNeverRouteByDefault(s, prefix, rt);
      var t0 := ApplyAll(s, prefix, rt).state;
      var t := ApplyAll(s, opts, rt).state;
      match opts[|opts| - 1]
      case WithProxy(u) =>
        assert Same(t0, t, Dial);
      case WithLocalAddr(ip) =>
        assert Same(t0, t, Proxy);
      case WithCustomHeaders(_) =>
        assert Same(t0, t, Proxy) && Same(t0, t, Dial);
    }
  }

  // ---------------------------------------------------------------------
  // The default client

  /** The default client is installed exactly when no option wrote a
      transport field. */
  lemma DefaultInstalledIffNoTransportOption(baseUrl: string, opts: seq<HTTPClientOption>, rt: Runtime)
    requires RangeOrdersSound(rt, opts)
    requires Build(baseUrl, opts, rt).Returned?
    ensures Build(baseUrl, opts, rt).state.client == Some(DefaultClient) <==> !AnyWritesTransport(opts)
  {
    var t := ApplyAll(Initial(baseUrl), opts, rt).state;
    ClientCreatedIffTransportOption(Initial(baseUrl), opts, rt);
    assert Same(Initial(baseUrl), t, Timeout);
  }

  /** The ordering trap: once an option has created the transport, none of
      the defaults is filled in. The overall timeout, the pool fields and
      the idle timeout are zero, the TLS config is nil (so, unlike the
      default client, it verifies certificates), and there is neither the
      environment proxy nor the 10s/60s dialer. */
  lemma TransportOptionSkipsDefaults(baseUrl: string, opts: seq<HTTPClientOption>, rt: Runtime)
    requires RangeOrdersSound(rt, opts)
    requires Build(baseUrl, opts, rt).Returned?
    requires AnyWritesTransport(opts)
    ensures var c := Build(baseUrl, opts, rt).state.client.value;
            && c.timeout == 0
            && c.transport.maxConnsPerHost == 0
            && c.transport.maxIdleConnsPerHost == 0
            && c.transport.idleConnTimeout == 0
            && c.transport.tlsClientConfig == None
            && VerifiesServerCertificates(c.transport.tlsClientConfig)
            && NoDefaultRouting(c)
  {
    var s := Initial(baseUrl);
    var t := ApplyAll(s, opts, rt).state;
    ClientCreatedIffTransportOption(s, opts, rt);
    OptionsNeverRouteByDefault(s, opts, rt);
    assert Same(s, t, Timeout) && Same(s, t, MaxConnsPerHost) && Same(s, t, MaxIdleConnsPerHost);
    assert Same(s, t, IdleConnTimeout) && Same(s, t, TlsClientConfig);
  }

  /** With only a proxy option the client is the bare one with that proxy:
      zero timeouts and pool fields, nil dial function and TLS config. */
  lemma ProxyOnlyClient(baseUrl: string, proxyURL: string, rt: Runtime)
    requires baseUrl != "" && proxyURL != "" && rt.parseUrl(proxyURL).Some?
    ensures RangeOrdersSound(rt, [WithProxy(proxyURL)])
    ensures Build(baseUrl, [WithProxy(proxyURL)], rt)
            == Returned(Initial(baseUrl).(client := Some(ClientSettings(
                 0, ZeroTransport.(proxy := ProxyURL(rt.parseUrl(proxyURL).value))))))
  {
    var s := Initial(baseUrl);
    var p := rt.parseUrl(proxyURL).value;
    assert [WithProxy(proxyURL)][..0] == [];
    assert ApplyAll(s, [WithProxy(proxyURL)], rt) == ProxyStep(s, proxyURL, rt);
    assert ProxyStep(s, proxyURL, rt) == Continue(SetProxy(EnsureTransport(s), ProxyURL(p)));
  }

  /** getOrCreateTransport is idempotent. */
  lemma EnsureTransportIdempotent(s: ClientState)
    ensures EnsureTransport(EnsureTransport(s)) == EnsureTransport(s)
  {
  }

  // ---------------------------------------------------------------------
  // Accumulating headers

  /** Whether an option is a WithCustomHeaders with an argument key whose
      canonical form is k. */
  predicate SetsHeader(o: HTTPClientOption, k: string, canonical: string -> string)
  {
    o.WithCustomHeaders? && exists key | key in o.headers :: canonical(key) == k
  }

  /** Header k after all the options is header k after opts[..i + 1] when no
      later option sets it: the later WithCustomHeaders leave it alone and
      the other options do not touch the header map. */
  lemma HeaderKeptAfterLastSetter(s: ClientState, opts: seq<HTTPClientOption>, rt: Runtime,
                                  i: nat, k: string)
    requires RangeOrdersSound(rt, opts)
    requires i < |opts|
    requires forall j | i < j < |opts| :: !SetsHeader(opts[j], k, rt.canonicalHeaderKey)
    requires ApplyAll(s, opts, rt).Continue?
    ensures RangeOrdersSound(rt, opts[..i + 1])
    ensures ApplyAll(s, opts[..i + 1], rt).Continue?
    ensures var before, after := ApplyAll(s, opts[..i + 1], rt).state.defaultHeaders,
                                 ApplyAll(s, opts, rt).state.defaultHeaders;
            (k in after <==> k in before) && (k in before ==> after[k] == before[k])
  {
    var head, rest := opts[..i + 1], opts[i + 1..];
    SplitSound(rt, opts, i + 1);
    ApplyAllAppend(s, head, rest, rt);
    forall m | 0 <= m < |rest|
      ensures !SetsHeader(rest[m], k, rt.canonicalHeaderKey)
    {
      assert rest[m] == opts[i + 1 + m];
    }
    HeaderKeptThrough(ApplyAll(s, head, rt).state, rest, rt, k);
  }

  /** Both halves of a split option list are enumerated soundly. */
  lemma SplitSound(rt: Runtime, opts: seq<HTTPClientOption>, n: nat)
    requires RangeOrdersSound(rt, opts) && n <= |opts|
    ensures RangeOrdersSound(rt, opts[..n]) && RangeOrdersSound(rt, opts[n..])
    ensures opts[..n] + opts[n..] == opts
  {
    forall o | o in opts[..n]
      ensures o in opts
    {
      var m :| 0 <= m < n && opts[..n][m] == o;
      assert opts[m] == o;
    }
    forall o | o in opts[n..]
      ensures o in opts
    {
      var m :| 0 <= m < |opts| - n && opts[n..][m] == o;
      assert opts[n + m] == o;
    }
  }

  /** Options none of which sets header k leave its presence and value. */
  lemma {:induction false} HeaderKeptThrough(t: ClientState, opts: seq<HTTPClientOption>, rt: Runtime, k: string)
    requires RangeOrdersSound(rt, opts)
    requires forall m | 0 <= m < |opts| :: !SetsHeader(opts[m], k, rt.canonicalHeaderKey)
    requires ApplyAll(t, opts, rt).Continue?
    ensures var before, after := t.defaultHeaders, ApplyAll(t, opts, rt).state.defaultHeaders;
            (k in after <==> k in before) && (k in before ==> after[k] == before[k])
    decreases |opts|
  {
    var n := |opts|;
    if n > 0 {
      var prefix := opts[..n - 1];
      ApplyAllPrefix(t, opts, n - 1, rt);
      assert opts[..n] == opts;
      HeaderKeptThrough(t, prefix, rt, k);
      OptionKeepsHeader(ApplyAll(t, prefix, rt).state, opts[n - 1], rt, k);
    }
  }

  /** One option that does not set header k leaves its presence and value. */
  lemma OptionKeepsHeader(t0: ClientState, o: HTTPClientOption, rt: Runtime, k: string)
    requires RangeOrderSound(rt, o)
    requires !SetsHeader(o, k, rt.canonicalHeaderKey)
    requires RunOption(t0, o, rt).Continue?
    ensures var before, after := t0.defaultHeaders, RunOption(t0, o, rt).state.defaultHeaders;
            (k in after <==> k in before) && (k in before ==> after[k] == before[k])
  {
    if o.WithCustomHeaders? {
      var order := rt.rangeOrder(o.headers);
      forall j | 0 <= j < |order|
        ensures rt.canonicalHeaderKey(order[j]) != k
      {
        assert order[j] in o.headers;
      }
      MergeHeadersKeepsOthers(t0.defaultHeaders, o.headers, order, rt.canonicalHeaderKey, k);
    } else {
      assert Same(t0, RunOption(t0, o, rt).state, DefaultHeaders);
    }
  }

  /** Last write wins across WithCustomHeaders options: when opts[i] is the
      last option that sets header k, and its p-th key in `range` order is
      the last one it visits with canonical form k, header k after all the
      options is that key's value, alone in the list. */
  lemma HeaderLastSetterWins(s: ClientState, opts: seq<HTTPClientOption>, rt: Runtime,
                             i: nat, k: string, p: nat)
    requires RangeOrdersSound(rt, opts)
    requires i < |opts| && opts[i].WithCustomHeaders?
    requires var order := rt.rangeOrder(opts[i].headers);
             && p < |order| && rt.canonicalHeaderKey(order[p]) == k
             && forall q | p < q < |order| :: rt.canonicalHeaderKey(order[q]) != k
    requires forall j | i < j < |opts| :: !SetsHeader(opts[j], k, rt.canonicalHeaderKey)
    requires ApplyAll(s, opts, rt).Continue?
    ensures var order, after := rt.rangeOrder(opts[i].headers), ApplyAll(s, opts, rt).state.defaultHeaders;
            && RangeOrderSound(rt, opts[i]) && order[p] in opts[i].headers
            && k in after && after[k] == [opts[i].headers[order[p]]]
  {
    var o := opts[i];
    var order := rt.rangeOrder(o.headers);
    ApplyAllPrefix(s, opts, i, rt);
    HeaderKeptAfterLastSetter(s, opts, rt, i, k);
    var t0 := ApplyAll(s, opts[..i], rt).state;
    assert ApplyAll(s, opts[..i + 1], rt).state.defaultHeaders
        == MergeHeaders(t0.defaultHeaders, o.headers, order, rt.canonicalHeaderKey);
    MergeHeadersLastWins(t0.defaultHeaders, o.headers, order, rt.canonicalHeaderKey, p);
  }

  /** When the last option to set header k has no two keys with the same
      canonical form, header k ends up holding exactly the value of its key
      for k, whatever order `range` visits its map in. */
  lemma HeaderOfLastSetter(s: ClientState, opts: seq<HTTPClientOption>, rt: Runtime, i: nat, key: string)
    requires RangeOrdersSound(rt, opts)
    requires i < |opts| && opts[i].WithCustomHeaders? && key in opts[i].headers
    requires CanonicallyDistinct(opts[i].headers, rt.canonicalHeaderKey)
    requires forall j | i < j < |opts| :: !SetsHeader(opts[j], rt.canonicalHeaderKey(key), rt.canonicalHeaderKey)
    requires ApplyAll(s, opts, rt).Continue?
    ensures var after := ApplyAll(s, opts, rt).state.defaultHeaders;
            rt.canonicalHeaderKey(key) in after && after[rt.canonicalHeaderKey(key)] == [opts[i].headers[key]]
  {
    var o := opts[i];
    var order := rt.rangeOrder(o.headers);
    assert opts[i] in opts;
    var p :| 0 <= p < |order| && order[p] == key;
    forall q | p < q < |order|
      ensures rt.canonicalHeaderKey(order[q]) != rt.canonicalHeaderKey(key)
    {
      assert order[q] != order[p];
    }
    HeaderLastSetterWins(s, opts, rt, i, rt.canonicalHeaderKey(key), p);
  }

  /** Two WithCustomHeaders options accumulate, the later value winning:
      {A: 1} then {A: 2, B: 3} leaves {A: [2], B: [3]}. */
  lemma HeadersAccumulate(baseUrl: string, rt: Runtime)
    requires baseUrl != ""
    requires rt.canonicalHeaderKey("A") == "A" && rt.canonicalHeaderKey("B") == "B"
    requires IsRangeOrder(rt.rangeOrder(map["A" := "1"]), map["A" := "1"])
    requires IsRangeOrder(rt.rangeOrder(map["A" := "2", "B" := "3"]), map["A" := "2", "B" := "3"])
    ensures RangeOrdersSound(rt, [WithCustomHeaders(map["A" := "1"]), WithCustomHeaders(map["A" := "2", "B" := "3"])])
    ensures var r := Build(baseUrl, [WithCustomHeaders(map["A" := "1"]), WithCustomHeaders(map["A" := "2", "B" := "3"])], rt);
            r.Returned? && r.state.defaultHeaders == map["A" := ["2"], "B" := ["3"]]
  {
    var m1, m2 := map["A" := "1"], map["A" := "2", "B" := "3"];
    var opts := [WithCustomHeaders(m1), WithCustomHeaders(m2)];
    var s := Initial(baseUrl);
    var h1 := MergeHeaders(map[], m1, rt.rangeOrder(m1), rt.canonicalHeaderKey);
    var h2 := MergeHeaders(h1, m2, rt.rangeOrder(m2), rt.canonicalHeaderKey);
    assert opts[..1] == [WithCustomHeaders(m1)] && opts[..1][..0] == [];
    assert ApplyAll(s, opts[..1], rt) == Continue(s.(defaultHeaders := h1));
    assert ApplyAll(s, opts, rt) == Continue(s.(defaultHeaders := h2));
    TwoMerges(rt.canonicalHeaderKey, rt.rangeOrder(m1), rt.rangeOrder(m2));
  }

  /** The header maps of HeadersAccumulate. */
  lemma TwoMerges(canonical: string -> string, order1: seq<string>, order2: seq<string>)
    requires canonical("A") == "A" && canonical("B") == "B"
    requires IsRangeOrder(order1, map["A" := "1"])
    requires IsRangeOrder(order2, map["A" := "2", "B" := "3"])
    ensures var h1 := MergeHeaders(map[], map["A" := "1"], order1, canonical);
            MergeHeaders(h1, map["A" := "2", "B" := "3"], order2, canonical) == map["A" := ["2"], "B" := ["3"]]
  {
    var h1 := MergeHeaders(map[], map["A" := "1"], order1, canonical);
    MergeHeadersKeysWithin(map[], map["A" := "1"], order1, canonical, {"A"});
    SecondMerge(h1, canonical, order2);
  }

  /** The second header map of HeadersAccumulate, from any first map over at
      most the key A. */
  lemma SecondMerge(h1: map<string, seq<string>>, canonical: string -> string, order2: seq<string>)
    requires canonical("A") == "A" && canonical("B") == "B"
    requires h1.Keys <= {"A"}
    requires IsRangeOrder(order2, map["A" := "2", "B" := "3"])
    ensures MergeHeaders(h1, map["A" := "2", "B" := "3"], order2, canonical) == map["A" := ["2"], "B" := ["3"]]
  {
    var m2 := map["A" := "2", "B" := "3"];
    var h2 := MergeHeaders(h1, m2, order2, canonical);
    MergeHeadersKeysWithin(h1, m2, order2, canonical, {"A", "B"});
    assert CanonicallyDistinct(m2, canonical);
    MergeHeadersDistinct(h1, m2, order2, canonical);
    assert "A" in m2 && "B" in m2;
    TwoKeyMap(h2, "A", "B", ["2"], ["3"]);
  }

  /** A map over at most the keys a and b that maps them to x and y. */
  lemma TwoKeyMap(h: map<string, seq<string>>, a: string, b: string, x: seq<string>, y: seq<string>)
    requires h.Keys <= {a, b} && a in h && b in h && h[a] == x && h[b] == y
    ensures h == map[a := x, b := y]
  {
  }

  /** The merge adds no key outside a set holding the canonical form of
      every argument key. */
  lemma MergeHeadersKeysWithin(h: map<string, seq<string>>, headers: map<string, string>,
                               order: seq<string>, canonical: string -> string, allowed: set<string>)
    requires forall i | 0 <= i < |order| :: order[i] in headers
    requires forall k | k in headers :: canonical(k) in allowed
    ensures MergeHeaders(h, headers, order, canonical).Keys <= h.Keys + allowed
  {
    MergeHeadersKeys(h, headers, order, canonical);
  }
}
