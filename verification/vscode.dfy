/** The provider that supervises the single worker process
    (src/node/vscode.ts): the `_vscode` slot and its events, the
    first-message decisions of readiness and initialization, the `send`
    guard, the WebSocket upgrade reply, request routing and the root page
    placeholders. */
module Vscode {
  import opened Common
  import opened Ipc
  import opened JsStrings

  /** The errors the provider's promises reject with, or that it throws. */
  datatype Failure =
    | UnexpectedReadyResponse
    | UnexpectedInitResponse
    | ProcessError(message: string)
    | Exited(code: string)
    | NotRunning
  {
    /** The message of the thrown `Error`; `code` is the exit code as the
        template literal renders it. */
    function Text(): string {
      match this
      case UnexpectedReadyResponse => "Unexpected response waiting for ready response"
      case UnexpectedInitResponse => "Unexpected response during initialization"
      case ProcessError(m) => m
      case Exited(code) => "VS Code exited unexpectedly with code " + code
      case NotRunning => "vscode is not running"
    }
  }

  /** What a worker process emits: a message, an `error` or an `exit`. */
  datatype ProcEvent = Message(msg: WorkerMessage) | ErrorEvent(message: string) | ExitEvent(code: string)

  /** The state of a promise created by `fork`. */
  datatype Settlement = Pending | Fulfilled | Rejected(reason: Failure)

  // ---------------------------------------------------------------------
  // First-event decisions

  /** The readiness promise of a fork settles on the first of its process's
      message, `error` and `exit` events. */
  function ReadinessAfter(first: ProcEvent): (s: Settlement)
    ensures s != Pending
    ensures s == Fulfilled <==> first == Message(Ready)
    ensures first.Message? && first.msg != Ready ==> s == Rejected(UnexpectedReadyResponse)
    ensures first.ErrorEvent? ==> s == Rejected(ProcessError(first.message))
    ensures first.ExitEvent? ==> s == Rejected(Exited(first.code))
  {
    match first
    case Message(m) => if m.Ready? then Fulfilled else Rejected(UnexpectedReadyResponse)
    case ErrorEvent(e) => Rejected(ProcessError(e))
    case ExitEvent(code) => Rejected(Exited(code))
  }

  /** The initialization promise settles on the first event after `init`
      was sent: only an `options` answer carrying the same id resolves it. */
  function AcceptOptions(id: string, first: ProcEvent): (r: Result<WorkbenchOptions, Failure>)
    ensures r.Success? <==> first.Message? && first.msg.Options? && first.msg.id == id
    ensures r.Success? ==> r.value == first.msg.options
    ensures first.Message? && r.Failure? ==> r.error == UnexpectedInitResponse
    ensures first.ErrorEvent? ==> r == Failure(ProcessError(first.message))
    ensures first.ExitEvent? ==> r == Failure(Exited(first.code))
  {
    match first
    case Message(m) =>
      if m.Options? && m.id == id then Success(m.options) else Failure(UnexpectedInitResponse)
    case ErrorEvent(e) => Failure(ProcessError(e))
    case ExitEvent(code) => Failure(Exited(code))
  }

  /** Two initializations waiting on the same worker both see its next
      message, so at most one of them can succeed: the answer to one
      rejects the other. */
  lemma ConcurrentInitializationsCrossTalk(id1: string, id2: string, options: WorkbenchOptions)
    requires id1 != id2
    ensures AcceptOptions(id2, Message(Options(id2, options))) == Success(options)
    ensures AcceptOptions(id1, Message(Options(id2, options))) == Failure(UnexpectedInitResponse)
    ensures forall first :: !(AcceptOptions(id1, first).Success? && AcceptOptions(id2, first).Success?)
  {
  }

  // ---------------------------------------------------------------------
  // Sending to the worker

  /** A worker process as `send` sees it. */
  datatype Proc = Proc(pid: nat, killed: bool)

  /** What `vscode.send(message, socket)` hands to the process. */
  datatype Delivery = Delivery(pid: nat, message: ServerMessage, socket: Option<nat>)

  /** `send`: refuses when there is no process or it was killed, and
      otherwise forwards the message and socket unchanged. */
  function Send(message: ServerMessage, worker: Option<Proc>, socket: Option<nat>): (r: Result<Delivery, Failure>)
    ensures r.Failure? <==> worker.None? || worker.value.killed
    ensures r.Failure? ==> r.error == NotRunning
    ensures r.Success? ==> r.value == Delivery(worker.value.pid, message, socket)
  {
    if worker.None? || worker.value.killed then Failure(NotRunning)
    else Success(Delivery(worker.value.pid, message, socket))
  }

  /** `initialize` once `await this.fork()` gave `forked`: it sends `init`
      with its generated `id` and settles on the worker's next event
      `first`. A failed fork or a refused send rejects it outright. */
  function Initialize(id: string, options: SessionOptions, forked: Result<Proc, Failure>, first: ProcEvent)
    : (r: Result<WorkbenchOptions, Failure>)
    ensures forked.Failure? ==> r == Failure(forked.error)
    ensures forked.Success? && forked.value.killed ==> r == Failure(NotRunning)
    ensures forked.Success? && !forked.value.killed ==> r == AcceptOptions(id, first)
    ensures r.Success? <==>
      forked.Success? && !forked.value.killed && first.Message? && first.msg.Options? && first.msg.id == id
    ensures r.Success? ==> r.value == first.msg.options
  {
    match forked
    case Failure(e) => Failure(e)
    case Success(worker) =>
      match Send(Init(id, options), Some(worker), None)
      case Failure(e) => Failure(e)
      case Success(_) => AcceptOptions(id, first)
  }

  // ---------------------------------------------------------------------
  // WebSocket upgrade

  /** The fixed GUID of section 4.2.2 of RFC 6455. */
  const Magic := "258EAFA5-E914-47DA-95CA-C5AB0DC85B11"
  const CRLF := "\r\n"

  /** The request's `sec-websocket-key` as string concatenation renders
      it: a missing header becomes the text "undefined". */
  function KeyText(key: Option<string>): string {
    if key.Some? then key.value else "undefined"
  }

  /** The text whose SHA-1 digest, in base64, is the accept value. */
  function AcceptInput(key: Option<string>): (r: string)
    ensures |r| == |KeyText(key)| + |Magic|
    ensures r[|r| - |Magic|..] == Magic
    ensures key.Some? ==> r[..|r| - |Magic|] == key.value
    ensures key.None? ==> r[..|r| - |Magic|] == "undefined"
  {
    KeyText(key) + Magic
  }

  /** `lines.join(sep)`. */
  function Join(lines: seq<string>, sep: string): string {
    if lines == [] then ""
    else if |lines| == 1 then lines[0]
    else lines[0] + sep + Join(lines[1..], sep)
  }

  const StatusLine := "HTTP/1.1 101 Switching Protocols"
  const UpgradeLine := "Upgrade: websocket"
  const ConnectionLine := "Connection: Upgrade"
  const AcceptField := "Sec-WebSocket-Accept: "

  /** Everything of the reply that comes before the accept value. */
  const ResponseHead := StatusLine + CRLF + UpgradeLine + CRLF + ConnectionLine + CRLF + AcceptField

  lemma JoinFour(a: string, b: string, c: string, d: string, sep: string)
    ensures Join([a, b, c, d], sep) == a + sep + b + sep + c + sep + d
  {
    assert Join([d], sep) == d;
    assert [c, d][1..] == [d];
    assert Join([c, d], sep) == c + sep + d;
    assert [b, c, d][1..] == [c, d];
    assert Join([b, c, d], sep) == b + sep + (c + sep + d);
    assert [a, b, c, d][1..] == [b, c, d];
    assert Join([a, b, c, d], sep) == a + sep + (b + sep + (c + sep + d));
  }

  /** Four lines joined and ended by an empty line, regrouped as the text
      before the last line's value, the value, and the two line ends. */
  lemma FourLinesLayout(l0: string, l1: string, l2: string, field: string, value: string, sep: string)
    ensures Join([l0, l1, l2, field + value], sep) + sep + sep
         == (l0 + sep + l1 + sep + l2 + sep + field) + value + sep + sep
    ensures Join([l0, l1, l2, field + value], sep) + sep + sep
         == (l0 + sep) + (l1 + sep + l2 + sep + field + value + sep + sep)
  {
    JoinFour(l0, l1, l2, field + value, sep);
  }

  /** The upgrade reply carrying accept value `accept`: the status line
      and the three header lines, each ended by CRLF, then the empty line. */
  function UpgradeResponse(accept: string): (r: string)
    ensures r == ResponseHead + accept + CRLF + CRLF
    ensures StartsWith(r, StatusLine + CRLF)
  {
    var r := Join([StatusLine, UpgradeLine, ConnectionLine, AcceptField + accept], CRLF) + CRLF + CRLF;
    FourLinesLayout(StatusLine, UpgradeLine, ConnectionLine, AcceptField, accept, CRLF);
    var first := StatusLine + CRLF;
    assert (first + (UpgradeLine + CRLF + ConnectionLine + CRLF + AcceptField + accept + CRLF + CRLF))[..|first|]
        == first;
    r
  }

  /** Reads the accept value back out of an upgrade reply. */
  function AcceptOf(response: string): string
    requires |ResponseHead| + |CRLF + CRLF| <= |response|
  {
    response[|ResponseHead|..|response| - |CRLF + CRLF|]
  }

  /** The accept value can be read back from the reply, so two replies are
      equal only when their accept values are. */
  lemma AcceptRoundTrip(accept: string)
    ensures |ResponseHead| + |CRLF + CRLF| <= |UpgradeResponse(accept)|
    ensures AcceptOf(UpgradeResponse(accept)) == accept
  {
    var r := ResponseHead + accept + (CRLF + CRLF);
    assert UpgradeResponse(accept) == r;
    assert r[|ResponseHead|..|r| - |CRLF + CRLF|] == accept;
  }

  /** What `sendWebsocket` does: the reply it writes to the socket and the
      hand-off to the worker. `digest` stands for SHA-1 followed by base64;
      `stored` is what `await this._vscode` produced (None when the slot
      was empty). It never forks. */
  datatype Handoff = Handoff(written: string, sent: Result<Delivery, Failure>)

  function SendWebsocket(query: Query, key: Option<string>, digest: string -> string,
                         stored: Option<Result<Proc, Failure>>, socket: nat): (h: Handoff)
    ensures h.written == UpgradeResponse(digest(AcceptInput(key)))
    ensures h.sent.Success? <==> stored.Some? && stored.value.Success? && !stored.value.value.killed
    ensures h.sent.Success? ==> h.sent.value == Delivery(stored.value.value.pid, Socket(query), Some(socket))
    ensures stored.None? ==> h.sent == Failure(NotRunning)
    ensures stored.Some? && stored.value.Failure? ==> h.sent == Failure(stored.value.error)
  {
    var reply := digest(AcceptInput(key));
    var written := UpgradeResponse(reply);
    match stored
    case None => Handoff(written, Send(Socket(query), None, Some(socket)))
    case Some(Failure(e)) => Handoff(written, Failure(e))
    case Some(Success(worker)) => Handoff(written, Send(Socket(query), Some(worker), Some(socket)))
  }

  // ---------------------------------------------------------------------
  // Request routing

  /** A parsed request: `base` is its first path segment, `requestPath`
      the remainder. */
  datatype Route = Route(base: string, requestPath: string, query: Query)

  /** What `handleRequest` answers. `Resource(parts)` is `getResource`
      called with these path parts. */
  datatype Response =
    | RootPage(content: string)
    | Resource(parts: seq<string>)
    | Unauthorized
    | NotFound

  const ResourcePrefix := "/vscode-resource"
  const FilePrefix := "/file"
  const WebviewPre := "out/vs/workbench/contrib/webview/browser/pre"

  /** `path.replace(/^\/vscode-resource(\/file)?/, "")`. */
  function StripResourcePrefix(path: string): (r: string)
    ensures |r| <= |path| && r == path[|path| - |r|..]
    ensures !StartsWith(path, ResourcePrefix) ==> r == path
    ensures StartsWith(path, ResourcePrefix) ==> |r| <= |path| - |ResourcePrefix|
  {
    if StartsWith(path, ResourcePrefix) then
      var rest := path[|ResourcePrefix|..];
      if StartsWith(rest, FilePrefix) then rest[|FilePrefix|..] else rest
    else path
  }

  /** Stripping undoes prefixing: the path after the scheme prefix, or
      after the prefix and `/file`, comes back unchanged. */
  lemma StripResourcePrefixRoundTrip(rest: string)
    ensures !StartsWith(rest, FilePrefix) ==> StripResourcePrefix(ResourcePrefix + rest) == rest
    ensures StripResourcePrefix(ResourcePrefix + FilePrefix + rest) == rest
  {
  }

  predicate IsResourceBase(base: string) {
    base == "/resource" || base == "/vscode-remote-resource"
  }

  /** `handleRequest` after the method check. `root` is what `getRoot`
      produced for `/`, None when it threw; `authenticated` is what
      `ensureAuthenticated` decides; `toFsPath` is `pathToFsPath` and
      `vsRootPath` the bundled editor's root. */
  function HandleRequest(route: Route, root: Option<string>, authenticated: bool,
                         toFsPath: string -> string, vsRootPath: string): (r: Response)
    // `/` is tried first and needs no authentication; its failure falls through
    ensures r.RootPage? <==> route.base == "/" && root.Some?
    ensures r.RootPage? ==> r.content == root.value
    // everything else is gated
    ensures r == Unauthorized <==> !authenticated && !(route.base == "/" && root.Some?)
    ensures r.Resource? ==> authenticated && (IsResourceBase(route.base) || route.base == "/webview")
    // resources only with a string `path`
    ensures authenticated && IsResourceBase(route.base) ==>
      (r.Resource? <==> Lookup(route.query, "path").Str?)
    ensures r.Resource? && IsResourceBase(route.base) ==>
      r.parts == [toFsPath(Lookup(route.query, "path").s)]
    // webview: scheme paths are stripped, all others come from the preload bundle
    ensures authenticated && route.base == "/webview" && StartsWith(route.requestPath, ResourcePrefix) ==>
      r == Resource([StripResourcePrefix(route.requestPath)])
    ensures authenticated && route.base == "/webview" && !StartsWith(route.requestPath, ResourcePrefix) ==>
      r == Resource([vsRootPath, WebviewPre, route.requestPath])
    ensures r == NotFound <==>
      authenticated && !(route.base == "/" && root.Some?) &&
      !(route.base == "/webview") &&
      !(IsResourceBase(route.base) && Lookup(route.query, "path").Str?)
  {
    if route.base == "/" && root.Some? then RootPage(root.value)
    else if !authenticated then Unauthorized
    else if IsResourceBase(route.base) then
      var path := Lookup(route.query, "path");
      if path.Str? then Resource([toFsPath(path.s)]) else NotFound
    else if route.base == "/webview" then
      if StartsWith(route.requestPath, ResourcePrefix) then
        Resource([StripResourcePrefix(route.requestPath)])
      else Resource([vsRootPath, WebviewPre, route.requestPath])
    else NotFound
  }

  /** A failed root page does not become a login prompt for a signed-in
      user: it ends as "Not found". */
  lemma RootFailureIsNotFound(route: Route, toFsPath: string -> string, vsRootPath: string)
    requires route.base == "/"
    ensures HandleRequest(route, None, true, toFsPath, vsRootPath) == NotFound
    ensures HandleRequest(route, None, false, toFsPath, vsRootPath) == Unauthorized
  {
  }

  // ---------------------------------------------------------------------
  // Root page placeholders

  const RemoteUserDataUriSlot := "\"{{REMOTE_USER_DATA_URI}}\""
  const ProductConfigurationSlot := "\"{{PRODUCT_CONFIGURATION}}\""
  const WorkbenchWebConfigurationSlot := "\"{{WORKBENCH_WEB_CONFIGURATION}}\""
  const NlsConfigurationSlot := "\"{{NLS_CONFIGURATION}}\""

  /** `'${json}'`: a JSON text inserted between single quotes. */
  function Quoted(json: string): string {
    "'" + json + "'"
  }

  /** `getRoot`'s four `replace` calls, in order, each filling the first
      occurrence of its quoted placeholder with the quoted JSON text. */
  function FillWorkbenchOptions(content: string, options: WorkbenchOptions): (r: string)
    ensures !Contains(content, RemoteUserDataUriSlot) && !Contains(content, ProductConfigurationSlot)
         && !Contains(content, WorkbenchWebConfigurationSlot) && !Contains(content, NlsConfigurationSlot)
        ==> r == content
  {
    var c1 := ReplaceFirst(content, RemoteUserDataUriSlot, Quoted(options.remoteUserDataUri));
    var c2 := ReplaceFirst(c1, ProductConfigurationSlot, Quoted(options.productConfiguration));
    var c3 := ReplaceFirst(c2, WorkbenchWebConfigurationSlot, Quoted(options.workbenchWebConfiguration));
    ReplaceFirst(c3, NlsConfigurationSlot, Quoted(options.nlsConfiguration))
  }

  /** One replacement of a page seen as `pre + pat + post`. */
  lemma ReplaceStep(page: string, pre: string, pat: string, post: string, rep: string)
    requires page == pre + pat + post && NoOccurrenceBefore(pre, pat, post)
    ensures ReplaceFirst(page, pat, rep) == pre + rep + post
  {
    ReplaceFirstSplice(pre, pat, post, rep);
  }

  lemma Regroup(a: string, b: string, c: string, d: string, e: string)
    ensures a + b + (c + d + e) == (a + b + c) + d + e
  {
  }

  /** Four first-occurrence replacements in turn, each finding its pattern
      where the page had it once the earlier ones are filled in. */
  lemma ReplaceFourInTurn(x0: string, x1: string, x2: string, x3: string, x4: string,
                          s1: string, s2: string, s3: string, s4: string,
                          q1: string, q2: string, q3: string, q4: string)
    requires NoOccurrenceBefore(x0, s1, x1 + s2 + x2 + s3 + x3 + s4 + x4)
    requires NoOccurrenceBefore(x0 + q1 + x1, s2, x2 + s3 + x3 + s4 + x4)
    requires NoOccurrenceBefore(x0 + q1 + x1 + q2 + x2, s3, x3 + s4 + x4)
    requires NoOccurrenceBefore(x0 + q1 + x1 + q2 + x2 + q3 + x3, s4, x4)
    ensures ReplaceFirst(ReplaceFirst(ReplaceFirst(ReplaceFirst(
              x0 + s1 + x1 + s2 + x2 + s3 + x3 + s4 + x4, s1, q1), s2, q2), s3, q3), s4, q4)
         == x0 + q1 + x1 + q2 + x2 + q3 + x3 + q4 + x4
  {
    var y3 := x3 + s4 + x4;
    var y2 := x2 + s3 + y3;
    var y1 := x1 + s2 + y2;
    var p1 := x0 + q1 + x1;
    var p2 := p1 + q2 + x2;
    var p3 := p2 + q3 + x3;
    var page := x0 + s1 + x1 + s2 + x2 + s3 + x3 + s4 + x4;
    assert y1 == x1 + s2 + x2 + s3 + x3 + s4 + x4;
    assert page == x0 + s1 + y1;
    ReplaceStep(page, x0, s1, y1, q1);
    Regroup(x0, q1, x1, s2, y2);
    assert y2 == x2 + s3 + x3 + s4 + x4;
    ReplaceStep(x0 + q1 + y1, p1, s2, y2, q2);
    Regroup(p1, q2, x2, s3, y3);
    ReplaceStep(p1 + q2 + y2, p2, s3, y3, q3);
    Regroup(p2, q3, x3, s4, x4);
    ReplaceStep(p2 + q3 + y3, p3, s4, x4, q4);
  }

  /** A page holding the four placeholders, in order, gets each one filled
      with its quoted JSON text and keeps the text around them, provided no
      placeholder occurs earlier than its slot: neither in the page text
      before it nor in a JSON text filled in before it. */
  lemma FillWorkbenchOptionsSplices(x0: string, x1: string, x2: string, x3: string, x4: string,
                                    options: WorkbenchOptions)
    requires NoOccurrenceBefore(x0, RemoteUserDataUriSlot,
               x1 + ProductConfigurationSlot + x2 + WorkbenchWebConfigurationSlot + x3 + NlsConfigurationSlot + x4)
    requires NoOccurrenceBefore(x0 + Quoted(options.remoteUserDataUri) + x1, ProductConfigurationSlot,
               x2 + WorkbenchWebConfigurationSlot + x3 + NlsConfigurationSlot + x4)
    requires NoOccurrenceBefore(x0 + Quoted(options.remoteUserDataUri) + x1 + Quoted(options.productConfiguration) + x2,
               WorkbenchWebConfigurationSlot, x3 + NlsConfigurationSlot + x4)
    requires NoOccurrenceBefore(x0 + Quoted(options.remoteUserDataUri) + x1 + Quoted(options.productConfiguration) + x2
               + Quoted(options.workbenchWebConfiguration) + x3, NlsConfigurationSlot, x4)
    ensures FillWorkbenchOptions(x0 + RemoteUserDataUriSlot + x1 + ProductConfigurationSlot + x2
                                 + WorkbenchWebConfigurationSlot + x3 + NlsConfigurationSlot + x4, options)
         == x0 + Quoted(options.remoteUserDataUri) + x1 + Quoted(options.productConfiguration) + x2
            + Quoted(options.workbenchWebConfiguration) + x3 + Quoted(options.nlsConfiguration) + x4
  {
    ReplaceFourInTurn(x0, x1, x2, x3, x4,
                      RemoteUserDataUriSlot, ProductConfigurationSlot, WorkbenchWebConfigurationSlot, NlsConfigurationSlot,
                      Quoted(options.remoteUserDataUri), Quoted(options.productConfiguration),
                      Quoted(options.workbenchWebConfiguration), Quoted(options.nlsConfiguration));
  }

  // ---------------------------------------------------------------------
  // The worker slot

  /** What a `dispose` call does. */
  datatype DisposeOutcome =
    | NothingToDispose          // the slot was empty
    | Disposed(pid: nat)        // listeners removed, slot emptied, process killed
    | DisposeFailed(reason: Failure)  // the awaited promise had rejected
    | AwaitingReady(pid: nat)   // the promise is pending; disposal completes when it resolves

  /** The provider's worker state. Forks are numbered in launch order; the
      readiness promise of fork `p` is `readiness[p]`, and `slot` (the
      `_vscode` field) names the fork whose promise it holds. */
  class VscodeProvider {
    var slot: Option<nat>
    var readiness: seq<Settlement>
    var killed: seq<bool>
    /** Whether `removeAllListeners` was called on the process. */
    var detached: seq<bool>
    /** Forks whose pending readiness some `dispose` call is awaiting. */
    var disposing: set<nat>

    ghost predicate Valid()
      reads this
    {
      && |killed| == |readiness| && |detached| == |readiness|
      // the slot only ever holds the latest fork, and never a disposed one
      && (slot.Some? ==> slot.value + 1 == |readiness| && !detached[slot.value])
      // a process is only detached and killed by a dispose of its resolved promise
      && (forall p :: 0 <= p < |readiness| && detached[p] ==> readiness[p] == Fulfilled)
      && (forall p :: 0 <= p < |readiness| && killed[p] ==> detached[p])
      && (forall p :: p in disposing ==> p < |readiness| && readiness[p] == Pending && !detached[p])
    }

    /** The number of processes ever forked. */
    function Launched(): nat
      reads this
    {
      |readiness|
    }

    constructor ()
      ensures Valid() && slot == None && Launched() == 0 && disposing == {}
    {
      slot := None;
      readiness, killed, detached := [], [], [];
      disposing := {};
    }

    /** `fork`: launches a process only when the slot is empty; otherwise
        returns the promise already stored. */
    method Fork() returns (p: nat)
      requires Valid()
      modifies this
      ensures Valid()
      ensures slot == Some(p)
      ensures old(slot).Some? ==> p == old(slot).value && Launched() == old(Launched())
      ensures old(slot).None? ==> p == old(Launched()) && Launched() == old(Launched()) + 1
      ensures readiness == old(readiness) + (if old(slot).None? then [Pending] else [])
      ensures killed == old(killed) + (if old(slot).None? then [false] else [])
      ensures detached == old(detached) + (if old(slot).None? then [false] else [])
      ensures disposing == old(disposing)
    {
      if slot.None? {
        p := |readiness|;
        readiness := readiness + [Pending];
        killed := killed + [false];
        detached := detached + [false];
        slot := Some(p);
      } else {
        p := slot.value;
      }
    }

    /** Settles the readiness promise of fork `p` if it is still pending, and
        runs the continuation of every `dispose` that awaited it: on
        resolution that removes the listeners, empties the slot and kills
        the process; on rejection those calls throw and change nothing. */
    method Settle(p: nat, s: Settlement)
      requires Valid() && p < Launched() && !detached[p] && s != Pending
      modifies this
      ensures Valid()
      ensures old(readiness[p]) != Pending ==> unchanged(this)
      ensures old(readiness[p]) == Pending ==>
        && readiness == old(readiness)[p := s]
        && disposing == old(disposing) - {p}
        && (p in old(disposing) && s == Fulfilled ==>
              slot == None && killed == old(killed)[p := true] && detached == old(detached)[p := true])
        && (!(p in old(disposing) && s == Fulfilled) ==>
              slot == old(slot) && killed == old(killed) && detached == old(detached))
    {
      if readiness[p] == Pending {
        readiness := readiness[p := s];
        if p in disposing {
          disposing := disposing - {p};
          if s == Fulfilled {
            detached := detached[p := true];
            slot := None;
            killed := killed[p := true];
          }
        }
      }
    }

    /** Fork `p` sends a message. Only its readiness listener reacts, and
        only to the process's first event. */
    method OnMessage(p: nat, m: WorkerMessage)
      requires Valid() && p < Launched()
      modifies this
      ensures Valid()
      ensures old(detached[p]) || old(readiness[p]) != Pending ==> unchanged(this)
      ensures !old(detached[p]) && old(readiness[p]) == Pending ==>
        && readiness == old(readiness)[p := ReadinessAfter(Message(m))]
        && disposing == old(disposing) - {p}
        && (m == Ready && p in old(disposing) ==>
              slot == None && killed == old(killed)[p := true] && detached == old(detached)[p := true])
        && (!(m == Ready && p in old(disposing)) ==>
              slot == old(slot) && killed == old(killed) && detached == old(detached))
    {
      if !detached[p] && readiness[p] == Pending {
        Settle(p, ReadinessAfter(Message(m)));
      }
    }

    /** Fork `p` emits `error`: unless its listeners were removed, the slot is
        emptied (whichever fork it holds) and a pending readiness rejects. */
    method OnError(p: nat, message: string)
      requires Valid() && p < Launched()
      modifies this
      ensures Valid()
      ensures old(detached[p]) ==> unchanged(this)
      ensures !old(detached[p]) ==>
        && slot == None
        && readiness == (if old(readiness[p]) == Pending
                         then old(readiness)[p := Rejected(ProcessError(message))] else old(readiness))
        && disposing == old(disposing) - {p}
        && killed == old(killed) && detached == old(detached)
    {
      if !detached[p] {
        slot := None;
        Settle(p, ReadinessAfter(ErrorEvent(message)));
      }
    }

    /** Fork `p` emits `exit`: as for `error`, with the exit code. */
    method OnExit(p: nat, code: string)
      requires Valid() && p < Launched()
      modifies this
      ensures Valid()
      ensures old(detached[p]) ==> unchanged(this)
      ensures !old(detached[p]) ==>
        && slot == None
        && readiness == (if old(readiness[p]) == Pending
                         then old(readiness)[p := Rejected(Exited(code))] else old(readiness))
        && disposing == old(disposing) - {p}
        && killed == old(killed) && detached == old(detached)
    {
      if !detached[p] {
        slot := None;
        Settle(p, ReadinessAfter(ExitEvent(code)));
      }
    }

    /** `dispose`: nothing when the slot is empty; otherwise it awaits the
        stored promise, then removes the process's listeners, empties the
        slot and kills the process. */
    method Dispose() returns (outcome: DisposeOutcome)
      requires Valid()
      modifies this
      ensures Valid()
      ensures old(slot).None? ==> outcome == NothingToDispose && unchanged(this)
      ensures old(slot).Some? && old(readiness[slot.value]) == Fulfilled ==>
        var p := old(slot).value;
        && outcome == Disposed(p) && slot == None
        && killed == old(killed)[p := true] && detached == old(detached)[p := true]
        && readiness == old(readiness) && disposing == old(disposing)
      ensures old(slot).Some? && old(readiness[slot.value]).Rejected? ==>
        outcome == DisposeFailed(old(readiness[slot.value]).reason) && unchanged(this)
      ensures old(slot).Some? && old(readiness[slot.value]) == Pending ==>
        && outcome == AwaitingReady(old(slot).value)
        && disposing == old(disposing) + {old(slot).value}
        && slot == old(slot) && readiness == old(readiness)
        && killed == old(killed) && detached == old(detached)
    {
      if slot.None? {
        return NothingToDispose;
      }
      var p := slot.value;
      match readiness[p]
      case Fulfilled =>
        detached := detached[p := true];
        slot := None;
        killed := killed[p := true];
        outcome := Disposed(p);
      case Rejected(e) =>
        outcome := DisposeFailed(e);
      case Pending =>
        disposing := disposing + {p};
        outcome := AwaitingReady(p);
    }

    /** What `await` on fork `p`'s settled readiness gives to `initialize`. */
    function Awaited(p: nat): (r: Result<Proc, Failure>)
      reads this
      requires Valid() && p < Launched() && readiness[p] != Pending
      ensures r.Success? <==> readiness[p] == Fulfilled
      ensures r.Success? ==> r.value == Proc(p, killed[p])
      ensures r.Failure? ==> readiness[p] == Rejected(r.error)
    {
      if readiness[p] == Fulfilled then Success(Proc(p, killed[p])) else Failure(readiness[p].reason)
    }
  }

  // ---------------------------------------------------------------------
  // Event sequences

  /** However often `fork` is called while a promise is stored, there is one
      launch and every caller gets the same promise. */
  method ForkTwice(v: VscodeProvider) returns (p: nat, q: nat)
    requires v.Valid()
    modifies v
    ensures v.Valid()
    ensures p == q && v.slot == Some(p)
    ensures v.Launched() <= old(v.Launched()) + 1
  {
    p := v.Fork();
    q := v.Fork();
  }

  /** After an `exit` (or `error`) the next `fork` launches a new process. */
  method ExitThenFork(v: VscodeProvider, p: nat, code: string) returns (q: nat)
    requires v.Valid() && p < v.Launched() && !v.detached[p]
    modifies v
    ensures v.Valid()
    ensures q == old(v.Launched()) && v.Launched() == q + 1 && v.readiness[q] == Pending
    ensures old(v.readiness[p]) == Pending ==> v.readiness[p] == Rejected(Exited(code))
  {
    v.OnExit(p, code);
    q := v.Fork();
  }

  /** `dispose` of a ready worker kills it, and the next `fork` launches anew. */
  method DisposeThenFork(v: VscodeProvider) returns (disposed: DisposeOutcome, q: nat)
    requires v.Valid() && v.slot.Some? && v.readiness[v.slot.value] == Fulfilled
    modifies v
    ensures v.Valid() && v.Launched() == old(v.Launched()) + 1
    ensures disposed == Disposed(old(v.slot).value) && v.killed[old(v.slot).value]
    ensures q == old(v.Launched()) && q != old(v.slot).value
  {
    disposed := v.Dispose();
    q := v.Fork();
  }

  /** A first message other than `ready` rejects the readiness promise but,
      unlike `error` and `exit`, leaves it in the slot: later forks return
      the rejected promise and `dispose` fails, until the process errors or
      exits. */
  method WrongFirstMessageStays(v: VscodeProvider, id: string, options: WorkbenchOptions)
    returns (p: nat, q: nat, disposed: DisposeOutcome)
    requires v.Valid() && v.slot.Some? && v.readiness[v.slot.value] == Pending
    modifies v
    ensures v.Valid()
    ensures p == q && v.Launched() == old(v.Launched()) && v.slot == Some(q)
    ensures v.readiness[q] == Rejected(UnexpectedReadyResponse)
    ensures disposed == DisposeFailed(UnexpectedReadyResponse)
  {
    p := v.slot.value;
    v.OnMessage(p, Options(id, options));
    q := v.Fork();
    disposed := v.Dispose();
  }

  /** The `error`/`exit` handlers empty the slot whatever it holds: an older
      process that errored and was replaced, exiting later, empties the
      newer fork's slot, and the next `fork` starts a further process
      while the newer one still runs. */
  method LateExitOfReplacedProcess(v: VscodeProvider, p: nat)
    returns (q: nat, r: nat)
    requires v.Valid() && p < v.Launched() && !v.detached[p] && v.slot == Some(p)
    modifies v
    ensures v.Valid()
    ensures p < q < r && v.Launched() == r + 1
    ensures !v.killed[q] && !v.detached[q] && v.slot == Some(r)
  {
    v.OnError(p, "spawn failed");
    q := v.Fork();
    v.OnExit(p, "1");
    r := v.Fork();
  }

  /** A fresh worker that sends `ready` serves both callers: `initialize`
      (whose own `fork` returns the stored promise) settles on the worker's
      next event alone, and `sendWebsocket` hands the socket to that worker. */
  method ReadyWorkerServes(v: VscodeProvider, id: string, options: SessionOptions, first: ProcEvent,
                           query: Query, key: Option<string>, digest: string -> string, socket: nat)
    returns (p: nat, init: Result<WorkbenchOptions, Failure>, h: Handoff)
    requires v.Valid() && v.slot.None?
    modifies v
    ensures v.Valid() && p < v.Launched() && v.slot == Some(p) && v.readiness[p] == Fulfilled
    ensures v.Awaited(p) == Success(Proc(p, false))
    ensures init == AcceptOptions(id, first)
    ensures h.sent == Success(Delivery(p, Socket(query), Some(socket)))
  {
    p := v.Fork();
    v.OnMessage(p, Ready);
    var q := v.Fork();
    init := Initialize(id, options, v.Awaited(q), first);
    h := SendWebsocket(query, key, digest, Some(v.Awaited(v.slot.value)), socket);
  }

  /** A worker whose first message is not `ready` keeps its rejected promise
      in the slot, so every later `initialize` and `sendWebsocket` fails
      with that rejection, whatever the worker says next. */
  method RejectedWorkerRefuses(v: VscodeProvider, id: string, options: SessionOptions, first: ProcEvent,
                               wrong: WorkerMessage, query: Query, key: Option<string>,
                               digest: string -> string, socket: nat)
    returns (p: nat, init: Result<WorkbenchOptions, Failure>, h: Handoff)
    requires v.Valid() && v.slot.None? && wrong != Ready
    modifies v
    ensures v.Valid() && p < v.Launched() && v.slot == Some(p)
    ensures v.readiness[p] == Rejected(UnexpectedReadyResponse)
    ensures v.Awaited(p) == Failure(UnexpectedReadyResponse)
    ensures init == Failure(UnexpectedReadyResponse)
    ensures h.sent == Failure(UnexpectedReadyResponse)
  {
    p := v.Fork();
    v.OnMessage(p, wrong);
    var q := v.Fork();
    init := Initialize(id, options, v.Awaited(q), first);
    h := SendWebsocket(query, key, digest, Some(v.Awaited(v.slot.value)), socket);
  }

  /** After `dispose` of a ready worker the slot is empty, so a WebSocket
      upgrade still gets its reply but the hand-off fails with "vscode is
      not running". */
  method DisposedWorkerRefusesSocket(v: VscodeProvider, query: Query, key: Option<string>,
                                     digest: string -> string, socket: nat)
    returns (disposed: DisposeOutcome, h: Handoff)
    requires v.Valid() && v.slot.Some? && v.readiness[v.slot.value] == Fulfilled
    modifies v
    ensures v.Valid() && v.slot.None?
    ensures disposed == Disposed(old(v.slot).value)
    ensures h.written == UpgradeResponse(digest(AcceptInput(key)))
    ensures h.sent == Failure(NotRunning)
  {
    disposed := v.Dispose();
    // `await this._vscode` on the emptied slot gives undefined
    assert v.slot.None?;
    h := SendWebsocket(query, key, digest, None, socket);
  }
}
