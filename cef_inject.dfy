/**
 * Injecting JavaScript into a Steam CEF tab over the Chrome DevTools
 * Protocol: the port of SISR's own WebSocket server is recorded once, the
 * target tab is picked by title, a `Runtime.evaluate` command carrying the
 * payload is sent, and the single reply is classified.
 *
 * Listing the tabs, connecting, sending and receiving are I/O; their
 * outcomes are parameters.
 */
module CefInject {
  import opened Wrappers
  import opened Text
  import opened Search

  /** A `u16` port number. */
  type Port = n: nat | n < 0x1_0000

  /** The once-settable `WS_SERVER_PORT`. */
  class PortCell {
    var port: Option<Port>

    constructor ()
      ensures port.None?
    {
      port := None;
    }

    /** `set_ws_server_port`: only the first call stores its port and reports success. */
    method Set(p: Port) returns (ok: bool)
      modifies this
      ensures ok <==> old(port).None?
      ensures port == if old(port).None? then Some(p) else old(port)
    {
      if port.Some? {
        return false;
      }
      port := Some(p);
      ok := true;
    }

    /** `get_ws_server_port`. */
    method Get() returns (r: Option<Port>)
      ensures r == port
    {
      r := port;
    }
  }

  const HostPrefix: string := "localhost:"

  /** `sisr_host`: `localhost:` and the recorded port, or port 0 before one is recorded. */
  function SisrHost(port: Option<Port>): (r: string)
    ensures StartsWith(r, HostPrefix)
    ensures ParseUnsigned(r[|HostPrefix|..], 0x1_0000) == Some(port.GetOr(0))
  {
    var n: nat := match port case Some(p) => p case None => 0;
    DecimalRoundTrip(n, 0x1_0000);
    var r := HostPrefix + NatToDecimal(n);
    assert r[|HostPrefix|..] == NatToDecimal(n);
    r
  }

  /** Hosts name their ports, so different recorded ports give different hosts. */
  lemma SisrHostInjective(a: Option<Port>, b: Option<Port>)
    requires SisrHost(a) == SisrHost(b)
    ensures a.GetOr(0) == b.GetOr(0)
  {
    assert SisrHost(a)[|HostPrefix|..] == SisrHost(b)[|HostPrefix|..];
  }

  /** The tab fields injection uses: its title and its debugger WebSocket URL. */
  datatype CefTab = CefTab(title: string, wsUrl: string)

  const OverlayTitle: string := "Overlay"

  datatype InjectError =
    | ListFailed(reason: string)
    | OverlayTabNotFound
    | TabNotFound(title: string)
    | ConnectFailed
    | SendFailed
    | ReceiveFailed
    | BadJson
    | JsException(details: string)
    | ProtocolError(details: string)
    | UnexpectedMessageType
    | NoResponse

  predicate IsOverlayTab(t: CefTab)
  {
    Contains(t.title, OverlayTitle)
  }

  function HasTitle(title: string): CefTab -> bool
  {
    (t: CefTab) => t.title == title
  }

  /**
   * The title injection looks for: "Overlay" stands for the title of the
   * first tab whose title contains it, and is an error when no tab does.
   */
  function ResolvedTitle(tabs: seq<CefTab>, title: string): (r: Result<string, InjectError>)
    ensures title != OverlayTitle ==> r == Ok(title)
    ensures title == OverlayTitle ==> (r == Err(OverlayTabNotFound) <==> forall i :: 0 <= i < |tabs| ==> !IsOverlayTab(tabs[i]))
    ensures title == OverlayTitle && r.Ok? ==> exists i :: 0 <= i < |tabs| && IsOverlayTab(tabs[i]) && r.value == tabs[i].title
    ensures r.Err? ==> r == Err(OverlayTabNotFound)
  {
    if title != OverlayTitle then Ok(title)
    else
      match FirstWhere(tabs, IsOverlayTab)
      case None => Err(OverlayTabNotFound)
      case Some(i) => Ok(tabs[i].title)
  }

  /** The tab injected into: the first whose title is exactly the resolved title. */
  function TargetTab(tabs: seq<CefTab>, title: string): (r: Result<CefTab, InjectError>)
    ensures r.Ok? ==> ResolvedTitle(tabs, title).Ok? && r.value in tabs && r.value.title == ResolvedTitle(tabs, title).value
    ensures ResolvedTitle(tabs, title).Err? ==> r == Err(OverlayTabNotFound)
    ensures ResolvedTitle(tabs, title).Ok? && r.Err? ==>
              r == Err(TabNotFound(ResolvedTitle(tabs, title).value)) &&
              forall i :: 0 <= i < |tabs| ==> tabs[i].title != ResolvedTitle(tabs, title).value
  {
    match ResolvedTitle(tabs, title)
    case Err(e) => Err(e)
    case Ok(t) =>
      match FirstWhere(tabs, HasTitle(t))
      case None => Err(TabNotFound(t))
      case Some(i) => Ok(tabs[i])
  }

  /** A tab asked for by its exact title is the first with that title. */
  lemma ExactTitleFindsFirst(tabs: seq<CefTab>, i: nat)
    requires i < |tabs| && tabs[i].title != OverlayTitle
    requires forall j :: 0 <= j < i ==> tabs[j].title != tabs[i].title
    ensures TargetTab(tabs, tabs[i].title) == Ok(tabs[i])
  {
    FirstWhereIs(tabs, HasTitle(tabs[i].title), i);
  }

  /**
   * "Overlay" lands on the first overlay tab itself: an earlier tab with
   * the same title would have been an overlay tab too.
   */
  lemma OverlayFindsFirstOverlayTab(tabs: seq<CefTab>, i: nat)
    requires i < |tabs| && IsOverlayTab(tabs[i])
    requires forall j :: 0 <= j < i ==> !IsOverlayTab(tabs[j])
    ensures TargetTab(tabs, OverlayTitle) == Ok(tabs[i])
  {
    FirstWhereIs(tabs, IsOverlayTab, i);
    assert ResolvedTitle(tabs, OverlayTitle) == Ok(tabs[i].title);
    forall j | 0 <= j < i
      ensures !HasTitle(tabs[i].title)(tabs[j])
    {
      if tabs[j].title == tabs[i].title {
        assert IsOverlayTab(tabs[j]);
      }
    }
    FirstWhereIs(tabs, HasTitle(tabs[i].title), i);
  }

  const HostDeclOpen: string := "var SISR_HOST = '"
  const HostDeclClose: string := "';\n "

  /** The evaluated expression: a declaration of `SISR_HOST` followed by the payload. */
  function Expression(port: Port, payload: string): (r: string)
    ensures EndsWith(r, payload)
    ensures StartsWith(r, HostDeclOpen + SisrHost(Some(port)) + HostDeclClose)
  {
    var decl := HostDeclOpen + SisrHost(Some(port)) + HostDeclClose;
    var r := decl + payload;
    assert r[|r| - |payload|..] == payload;
    assert r[..|decl|] == decl;
    r
  }

  /** The `Runtime.evaluate` command, by value and awaiting promises. */
  datatype Command = Command(id: nat, methodName: string, expression: string, returnByValue: bool, awaitPromise: bool)

  const EvaluateMethod: string := "Runtime.evaluate"

  function EvaluateCommand(port: Port, payload: string): (c: Command)
    ensures c.id == 1 && c.methodName == EvaluateMethod && c.returnByValue && c.awaitPromise
    ensures c.expression == Expression(port, payload)
  {
    Command(1, EvaluateMethod, Expression(port, payload), true, true)
  }

  /**
   * The parts of a parsed reply that classification looks at, as JSON
   * text: `result.exceptionDetails`, `exceptionDetails`, `error` and
   * `result.result.value`, each when present.
   */
  datatype Reply = Reply(
    resultExceptionDetails: Option<string>,
    exceptionDetails: Option<string>,
    error: Option<string>,
    resultValue: Option<string>)

  const Undefined: string := "undefined"

  /**
   * Reply classification: a JavaScript exception (nested, then top-level),
   * then a protocol error, each fail; otherwise the value's JSON text, or
   * `undefined` without one.
   */
  function Classify(reply: Reply): (r: Result<string, InjectError>)
    ensures r.Ok? <==> reply.resultExceptionDetails.None? && reply.exceptionDetails.None? && reply.error.None?
    ensures r.Ok? ==> r.value == reply.resultValue.GetOr(Undefined)
    ensures reply.resultExceptionDetails.Some? ==> r == Err(JsException(reply.resultExceptionDetails.value))
    ensures reply.resultExceptionDetails.None? && reply.exceptionDetails.Some? ==> r == Err(JsException(reply.exceptionDetails.value))
    ensures reply.resultExceptionDetails.None? && reply.exceptionDetails.None? && reply.error.Some? ==>
              r == Err(ProtocolError(reply.error.value))
  {
    if reply.resultExceptionDetails.Some? then Err(JsException(reply.resultExceptionDetails.value))
    else if reply.exceptionDetails.Some? then Err(JsException(reply.exceptionDetails.value))
    else if reply.error.Some? then Err(ProtocolError(reply.error.value))
    else if reply.resultValue.Some? then Ok(reply.resultValue.value)
    else Ok(Undefined)
  }

  /** The first frame read after sending, if any. */
  datatype Incoming =
    | NoMessage
    | ReadError
    | NonText
    | TextReply(parsed: Option<Reply>)

  /** The outcome of reading the reply: only a parsable text frame can succeed. */
  function ReplyOutcome(m: Incoming): (r: Result<string, InjectError>)
    ensures r.Ok? ==> m.TextReply? && m.parsed.Some? && r == Classify(m.parsed.value)
    ensures m == NoMessage ==> r == Err(NoResponse)
    ensures m == NonText ==> r == Err(UnexpectedMessageType)
    ensures m == ReadError ==> r == Err(ReceiveFailed)
    ensures m == TextReply(None) ==> r == Err(BadJson)
    ensures m.TextReply? && m.parsed.Some? ==> r == Classify(m.parsed.value)
  {
    match m
    case NoMessage => Err(NoResponse)
    case ReadError => Err(ReceiveFailed)
    case NonText => Err(UnexpectedMessageType)
    case TextReply(parsed) =>
      match parsed
      case None => Err(BadJson)
      case Some(reply) => Classify(reply)
  }

  /**
   * `inject`, given the tab listing, which debugger URLs accept a
   * connection, whether sending succeeds and the first frame received:
   * the command sent, if one was, and the result.
   */
  function InjectOutcome(port: Port, title: string, payload: string, tabs: Result<seq<CefTab>, string>,
                         connects: string -> bool, sendOk: bool, m: Incoming): (r: (Option<Command>, Result<string, InjectError>))
    ensures r.1.Ok? ==> tabs.Ok? && TargetTab(tabs.value, title).Ok? && connects(TargetTab(tabs.value, title).value.wsUrl)
    ensures r.1.Ok? ==> sendOk && r.0 == Some(EvaluateCommand(port, payload)) && r.1 == ReplyOutcome(m)
    ensures r.0.Some? ==> r.0 == Some(EvaluateCommand(port, payload))
    ensures tabs.Ok? && TargetTab(tabs.value, title).Err? ==> r == (None, Err(TargetTab(tabs.value, title).error))
    ensures tabs.Err? ==> r == (None, Err(ListFailed(tabs.error)))
    ensures tabs.Ok? && TargetTab(tabs.value, title).Ok? && !connects(TargetTab(tabs.value, title).value.wsUrl) ==>
              r == (None, Err(ConnectFailed))
    ensures tabs.Ok? && TargetTab(tabs.value, title).Ok? && connects(TargetTab(tabs.value, title).value.wsUrl) ==>
              r.0 == Some(EvaluateCommand(port, payload)) && r.1 == (if sendOk then ReplyOutcome(m) else Err(SendFailed))
  {
    match tabs
    case Err(e) => (None, Err(ListFailed(e)))
    case Ok(ts) =>
      match TargetTab(ts, title)
      case Err(e) => (None, Err(e))
      case Ok(tab) =>
        if !connects(tab.wsUrl) then (None, Err(ConnectFailed))
        else if !sendOk then (Some(EvaluateCommand(port, payload)), Err(SendFailed))
        else (Some(EvaluateCommand(port, payload)), ReplyOutcome(m))
  }

  /**
   * A run of `inject`: the `expect` on the unset server port panics before
   * any tab is listed or any command sent; otherwise the command sent, if
   * one was, and the result.
   */
  datatype InjectRun =
    | PortNotSetPanic
    | Ran(sent: Option<Command>, result: Result<string, InjectError>)

  /** `inject`: panics unless the server port was recorded first. */
  method Inject(cell: PortCell, title: string, payload: string, tabs: Result<seq<CefTab>, string>,
                connects: string -> bool, sendOk: bool, m: Incoming)
    returns (run: InjectRun)
    ensures run.PortNotSetPanic? <==> cell.port.None?
    ensures run.Ran? ==> (run.sent, run.result) == InjectOutcome(cell.port.value, title, payload, tabs, connects, sendOk, m)
  {
    if cell.port.None? {
      return PortNotSetPanic;
    }
    var sent, r := InjectWithPort(cell.port.value, title, payload, tabs, connects, sendOk, m);
    run := Ran(sent, r);
  }

  /** The rest of `inject`, once the port is known. */
  method InjectWithPort(port: Port, title: string, payload: string, tabs: Result<seq<CefTab>, string>,
                        connects: string -> bool, sendOk: bool, m: Incoming)
    returns (sent: Option<Command>, r: Result<string, InjectError>)
    ensures (sent, r) == InjectOutcome(port, title, payload, tabs, connects, sendOk, m)
  {
    sent := None;
    if tabs.Err? {
      return None, Err(ListFailed(tabs.error));
    }
    var ts := tabs.value;
    var tabTitle := title;
    if tabTitle == OverlayTitle {
      var k := FirstWhere(ts, IsOverlayTab);
      if k.None? {
        return None, Err(OverlayTabNotFound);
      }
      tabTitle := ts[k.value].title;
    }
    var found := FirstWhere(ts, HasTitle(tabTitle));
    if found.None? {
      return None, Err(TabNotFound(tabTitle));
    }
    var tab := ts[found.value];
    if !connects(tab.wsUrl) {
      return None, Err(ConnectFailed);
    }
    sent := Some(EvaluateCommand(port, payload));
    if !sendOk {
      return sent, Err(SendFailed);
    }
    r := ReplyOutcome(m);
  }
}
