/**
 * The development HTTP interceptor of SISR's injected scripts: requests
 * whose URL matches an entry of the mock table are answered from the table
 * with a 200 JSON response instead of reaching the network.
 *
 * JavaScript values are reduced to what the interceptor inspects: whether
 * a mock is a function, and whether a value is falsy or `null`.
 */
module HttpInterceptor {
  import opened Wrappers
  import opened Text
  import Search

  /** The values a mock yields; objects are opaque tokens. */
  datatype Data = Undefined | Null | Bool(b: bool) | Num(n: int) | Str(s: string) | Obj(id: nat)

  /** JavaScript falsiness (NaN aside). */
  predicate Falsy(d: Data) {
    d.Undefined? || d.Null? || d == Bool(false) || d == Num(0) || d == Str("")
  }

  /** A mock: a function, called for its result, or a value returned as it is. */
  datatype Mock = FnMock(result: Data) | ValueMock(value: Data)

  /** `if (!mock) continue`: a missing or falsy mock is skipped; a function never is. */
  predicate Usable(m: Option<Mock>) {
    m.Some? && (m.value.FnMock? || !Falsy(m.value.value))
  }

  /** `typeof mock === 'function' ? mock() : mock`. */
  function Invoke(m: Mock): (r: Data)
    ensures m.FnMock? ==> r == m.result
    ensures m.ValueMock? ==> r == m.value
  {
    match m
    case FnMock(d) => d
    case ValueMock(v) => v
  }

  /** A URL pattern and the mock for each HTTP method, in the table's entry order. */
  type MockTable = seq<(string, map<string, Mock>)>

  const HostPlaceholder: string := "${SISR_HOST}"

  /** `window.SISR_HOST || fallback`. */
  function HostOr(sisrHost: Option<string>, fallback: string): (r: string)
    ensures sisrHost.Some? && sisrHost.value != [] ==> r == sisrHost.value
    ensures sisrHost.None? || sisrHost.value == [] ==> r == fallback
  {
    if sisrHost.Some? && sisrHost.value != [] then sisrHost.value else fallback
  }

  /** The fallback as written: a full origin, although the patterns already carry the scheme. */
  const FallbackHostAsWritten: string := "http://localhost"

  /** The fallback the patterns call for: a bare host, like the `localhost:<port>` SISR injects. */
  const FallbackHost: string := "localhost"

  function ResolvedHostAsWritten(sisrHost: Option<string>): (r: string)
    ensures sisrHost.None? ==> r == FallbackHostAsWritten
  {
    HostOr(sisrHost, FallbackHostAsWritten)
  }

  function ResolvedHost(sisrHost: Option<string>): (r: string)
    ensures sisrHost.None? ==> r == FallbackHost
    ensures sisrHost.Some? && sisrHost.value != [] ==> r == sisrHost.value
  {
    HostOr(sisrHost, FallbackHost)
  }

  /** `pattern.replace('${SISR_HOST}', host)`: only the first placeholder is replaced. */
  function Resolve(pattern: string, host: string): (r: string)
    ensures !Contains(pattern, HostPlaceholder) ==> r == pattern
    ensures IndexOf(pattern, HostPlaceholder).Some? ==>
              var i := IndexOf(pattern, HostPlaceholder).value; r == pattern[..i] + host + pattern[i + |HostPlaceholder|..]
  {
    ReplaceFirst(pattern, HostPlaceholder, host)
  }

  /** `url === resolved || url.startsWith(resolved)`. */
  predicate Matches(url: string, resolved: string) {
    url == resolved || StartsWith(url, resolved)
  }

  /** `methods[method]`: the entry's mock for the method, if it has one. */
  function MockFor(methods: map<string, Mock>, verb: string): (r: Option<Mock>)
    ensures r.Some? <==> verb in methods
    ensures r.Some? ==> r.value == methods[verb]
  {
    if verb in methods then Some(methods[verb]) else None
  }

  /** An entry that answers the request: its pattern matches and its mock for the method is usable. */
  predicate Serves(entry: (string, map<string, Mock>), url: string, verb: string, host: string) {
    Matches(url, Resolve(entry.0, host)) && Usable(MockFor(entry.1, verb))
  }

  /** `Serves` as a test on entries, for the linear search. */
  function ServesRequest(url: string, verb: string, host: string): ((string, map<string, Mock>)) -> bool {
    e => Serves(e, url, verb, host)
  }

  /** The search finds the first serving entry, whichever that is. */
  lemma FirstServingFound(mocks: MockTable, url: string, verb: string, host: string)
    ensures forall i :: 0 <= i < |mocks| && Serves(mocks[i], url, verb, host)
                        && (forall j :: 0 <= j < i ==> !Serves(mocks[j], url, verb, host))
                        ==> Search.FirstWhere(mocks, ServesRequest(url, verb, host)) == Some(i)
  {
    forall i | 0 <= i < |mocks| && Serves(mocks[i], url, verb, host)
               && (forall j :: 0 <= j < i ==> !Serves(mocks[j], url, verb, host))
      ensures Search.FirstWhere(mocks, ServesRequest(url, verb, host)) == Some(i)
    {
      Search.FirstWhereIs(mocks, ServesRequest(url, verb, host), i);
    }
  }

  /**
   * The lookup `getMockResponse` performs with the resolved `host`: the
   * first serving entry's mock, invoked, or `null` when none serves.
   */
  function MockResponse(mocks: MockTable, url: string, verb: string, host: string): (r: Data)
    ensures (forall i :: 0 <= i < |mocks| ==> !Serves(mocks[i], url, verb, host)) ==> r == Null
    ensures forall i :: 0 <= i < |mocks| && Serves(mocks[i], url, verb, host)
                        && (forall j :: 0 <= j < i ==> !Serves(mocks[j], url, verb, host))
                        ==> r == Invoke(MockFor(mocks[i].1, verb).value)
  {
    FirstServingFound(mocks, url, verb, host);
    match Search.FirstWhere(mocks, ServesRequest(url, verb, host))
    case None => Null
    case Some(i) => Invoke(MockFor(mocks[i].1, verb).value)
  }

  /** A matching entry without a usable mock for the method is passed over, and the search goes on. */
  lemma {:induction false} SkipsUnservedEntry(mocks: MockTable, url: string, verb: string, host: string)
    requires mocks != [] && Matches(url, Resolve(mocks[0].0, host))
    requires !Usable(MockFor(mocks[0].1, verb))
    ensures MockResponse(mocks, url, verb, host) == MockResponse(mocks[1..], url, verb, host)
  {
    var p := ServesRequest(url, verb, host);
    assert forall i :: 1 <= i < |mocks| ==> mocks[i] == mocks[1..][i - 1];
    match Search.FirstWhere(mocks[1..], p)
    case None =>
    case Some(k) =>
      Search.FirstWhereIs(mocks, p, k + 1);
  }

  /** The entries are tried in order: an earlier serving entry wins over any later one. */
  lemma {:induction false} EarlierEntryWins(first: (string, map<string, Mock>), rest: MockTable, url: string, verb: string, host: string)
    requires Serves(first, url, verb, host)
    ensures MockResponse([first] + rest, url, verb, host) == Invoke(MockFor(first.1, verb).value)
  {
    assert ([first] + rest)[0] == first;
    Search.FirstWhereIs([first] + rest, ServesRequest(url, verb, host), 0);
  }

  /** `getMockResponse(url, method)` given `window.SISR_HOST`, with the fallback as written. */
  method GetMockResponse(mocks: MockTable, url: string, verb: string, sisrHost: Option<string>) returns (r: Data)
    ensures r == MockResponse(mocks, url, verb, ResolvedHostAsWritten(sisrHost))
  {
    var host := if sisrHost.Some? && sisrHost.value != [] then sisrHost.value else FallbackHostAsWritten;
    for i := 0 to |mocks|
      invariant forall j :: 0 <= j < i ==> !Serves(mocks[j], url, verb, host)
    {
      var resolved := ReplaceFirst(mocks[i].0, HostPlaceholder, host);
      if url == resolved || StartsWith(url, resolved) {
        if verb !in mocks[i].1 {
          continue;
        }
        var mock := mocks[i].1[verb];
        if !(mock.FnMock? || !Falsy(mock.value)) {
          continue;
        }
        Search.FirstWhereIs(mocks, ServesRequest(url, verb, host), i);
        return Invoke(mock);
      }
    }
    return Null;
  }

  // ---------------------------------------------------------------------------
  // The patched `fetch`

  /** What `fetch` was called with: a URL string, a `Request` or a `URL`. */
  datatype Resource = UrlString(s: string) | RequestObject(url: string) | UrlObject(href: string)

  function ResourceUrl(r: Resource): string {
    match r
    case UrlString(s) => s
    case RequestObject(u) => u
    case UrlObject(h) => h
  }

  const DefaultMethod: string := "GET"
  const MockStatus: nat := 200
  const JsonContentType: string := "application/json"

  /** `config?.method || 'GET'`. */
  function RequestMethod(configMethod: Option<string>): (r: string)
    ensures configMethod.None? || configMethod.value == [] ==> r == DefaultMethod
    ensures configMethod.Some? && configMethod.value != [] ==> r == configMethod.value
  {
    if configMethod.Some? && configMethod.value != [] then configMethod.value else DefaultMethod
  }

  /**
   * What the patched `fetch` does: answer from the table (status 200, a JSON
   * body holding the mock's data), or hand the request to the original `fetch`.
   */
  datatype FetchOutcome =
    | Mocked(status: nat, contentType: string, data: Data)
    | Original(url: string, verb: string)

  /** The patched `fetch` applied to one request, looking mocks up with the fallback as written. */
  function Fetch(mocks: MockTable, sisrHost: Option<string>, resource: Resource, configMethod: Option<string>): (r: FetchOutcome)
    ensures var data := MockResponse(mocks, ResourceUrl(resource), RequestMethod(configMethod), ResolvedHostAsWritten(sisrHost));
      (r.Mocked? <==> data != Null)
      && (r.Mocked? ==> r == Mocked(MockStatus, JsonContentType, data))
      && (r.Original? ==> r == Original(ResourceUrl(resource), RequestMethod(configMethod)))
  {
    var url := ResourceUrl(resource);
    var verb := RequestMethod(configMethod);
    var data := MockResponse(mocks, url, verb, ResolvedHostAsWritten(sisrHost));
    if data != Null then Mocked(MockStatus, JsonContentType, data) else Original(url, verb)
  }

  /** A request with no method given is looked up as a GET. */
  lemma FetchDefaultsToGet(mocks: MockTable, sisrHost: Option<string>, resource: Resource)
    ensures Fetch(mocks, sisrHost, resource, None) == Fetch(mocks, sisrHost, resource, Some(DefaultMethod))
  {
  }

  /** A mock function that returns `null` does not short-circuit: the request goes to the network. */
  lemma {:induction false} NullMockPassesThrough(pattern: string, verb: string, url: string, sisrHost: Option<string>, rest: MockTable)
    requires verb != [] && Matches(url, Resolve(pattern, ResolvedHostAsWritten(sisrHost)))
    ensures Fetch([(pattern, map[verb := FnMock(Null)])] + rest, sisrHost, UrlString(url), Some(verb)) == Original(url, verb)
  {
    EarlierEntryWins((pattern, map[verb := FnMock(Null)]), rest, url, verb, ResolvedHostAsWritten(sisrHost));
  }

  // ---------------------------------------------------------------------------
  // The shipped mock table and its host placeholder

  const Scheme: string := "http://"
  const TestPath: string := "/test"
  const PingPath: string := "/ping"

  /** `mocks.ts`: `/test` and `/ping` under the SISR host, both for GET, both functions. */
  const ShippedMocks: MockTable := [
    (Scheme + HostPlaceholder + TestPath, map[DefaultMethod := FnMock(Obj(0))]),
    (Scheme + HostPlaceholder + PingPath, map[DefaultMethod := FnMock(Obj(1))])
  ]

  /** A pattern of the shipped form resolves to the scheme, the host and the path. */
  lemma {:induction false} ResolveShipped(path: string, host: string)
    ensures Resolve(Scheme + HostPlaceholder + path, host) == Scheme + host + path
  {
    var s := Scheme + HostPlaceholder + path;
    assert ContainsAt(s, HostPlaceholder, |Scheme|) by {
      assert s[|Scheme|..][..|HostPlaceholder|] == HostPlaceholder;
    }
    forall j | 0 <= j < |Scheme|
      ensures !ContainsAt(s, HostPlaceholder, j)
    {
      assert s[j] == Scheme[j] && HostPlaceholder[0] == '$';
    }
    var found := IndexOf(s, HostPlaceholder);
    assert found == Some(|Scheme|);
    assert s[..|Scheme|] == Scheme;
    assert s[|Scheme| + |HostPlaceholder|..] == path;
  }

  /**
   * As written, with `window.SISR_HOST` unset the shipped patterns resolve
   * to `http://http://localhost/...`, so a request to the local `/ping`
   * is never mocked: the patched `fetch` hands it to the original one.
   */
  lemma {:induction false} FallbackDoublesScheme()
    ensures Resolve(ShippedMocks[1].0, ResolvedHostAsWritten(None)) == Scheme + FallbackHostAsWritten + PingPath
    ensures MockResponse(ShippedMocks, Scheme + FallbackHost + PingPath, DefaultMethod, ResolvedHostAsWritten(None)) == Null
    ensures Fetch(ShippedMocks, None, UrlString(Scheme + FallbackHost + PingPath), None) == Original(Scheme + FallbackHost + PingPath, DefaultMethod)
  {
    ResolveShipped(TestPath, FallbackHostAsWritten);
    ResolveShipped(PingPath, FallbackHostAsWritten);
    var url := Scheme + FallbackHost + PingPath;
    assert |url| < |Scheme + FallbackHostAsWritten + TestPath|;
    assert |url| < |Scheme + FallbackHostAsWritten + PingPath|;
    assert !Serves(ShippedMocks[0], url, DefaultMethod, FallbackHostAsWritten);
    assert !Serves(ShippedMocks[1], url, DefaultMethod, FallbackHostAsWritten);
  }

  /**
   * With the bare-host fallback of `ResolvedHost` the same request is
   * answered by the `/ping` mock.
   */
  lemma {:induction false} FallbackServesPing()
    ensures Resolve(ShippedMocks[1].0, ResolvedHost(None)) == Scheme + FallbackHost + PingPath
    ensures MockResponse(ShippedMocks, Scheme + FallbackHost + PingPath, DefaultMethod, ResolvedHost(None)) == Obj(1)
  {
    ResolveShipped(TestPath, FallbackHost);
    ResolveShipped(PingPath, FallbackHost);
    var url := Scheme + FallbackHost + PingPath;
    var test := Scheme + FallbackHost + TestPath;
    var k := |Scheme| + |FallbackHost| + 1;
    assert |url| == |test| && url[k] == PingPath[1] && test[k] == TestPath[1];
    assert !Serves(ShippedMocks[0], url, DefaultMethod, FallbackHost);
    assert Serves(ShippedMocks[1], url, DefaultMethod, FallbackHost);
    Search.FirstWhereIs(ShippedMocks, ServesRequest(url, DefaultMethod, FallbackHost), 1);
  }
}
