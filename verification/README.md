# code-server editor provider, modelled in Dafny

This project models the part of code-server that runs the bundled VS Code
server as one worker process and bridges browser requests to it. It is
written in Dafny 4.11 and covers two files.

- `src/node/vscode.ts` has the `VscodeProvider` class. Its `_vscode` field
  holds at most one promise of a forked worker process. That slot is filled
  by `fork`, emptied by the process's `error`/`exit` handlers, and emptied by
  `dispose`, which also kills the process. `initialize` decides on the
  worker's first message after `init`. `send` refuses to talk to a missing
  or killed process. `sendWebsocket` writes the WebSocket upgrade reply and
  hands the socket to the worker. `handleRequest` routes a request.
  `getRoot` fills the workbench options into the page.
- `src/node/routes/vscode.ts` has the `/` page handler. `getFirstPath`
  picks the start path from the `workspace` and `folder` queries, the last
  command-line path and the last visit. The handler then persists the
  last visit and, outside development builds, removes the `PROD_ONLY`
  comment markers from the page.

The modules are as follows.

- `Common`: `Option` and `Result`.
- `Ipc`: the IPC messages, `StartPath`, and the values of query parameters.
- `JsStrings`: JavaScript's `replace` with a string pattern (first
  occurrence only) and with a global literal regular expression
  (left-to-right removal).
- `Vscode`: the provider. The `VscodeProvider` class holds the slot state.
  It has one method per event: `Fork`, `OnMessage`, `OnError`, `OnExit`
  and `Dispose`. Pure functions cover the decisions.
- `VscodeRoutes`: start-path selection, the persisted last visit and the
  production page.

The class numbers forks in launch order. `readiness[p]` is the state of
the promise created for fork `p`. `killed[p]` and `detached[p]` record
`kill()` and `removeAllListeners()`. `slot` names the fork whose promise
`_vscode` holds.

Behaviour of the code worth knowing:

- A failed `stat` makes `isFile` return `false`, so a command-line path
  that cannot be probed opens as a folder.
- `initialize` does not keep a table keyed by correlation id. Its
  `once("message")` listener accepts only the first message that arrives.
  Two initializations waiting on the same worker therefore see the same
  message, and the answer to one rejects the other
  (`ConcurrentInitializationsCrossTalk`).
- Apart from `dispose`, only `error` and `exit` empty the slot. A first
  message other than `ready` rejects the readiness promise but leaves it
  in the slot. Later forks return that rejected promise, `dispose` throws,
  and every `initialize` and `sendWebsocket` fails with the same reason
  (`WrongFirstMessageStays`, `RejectedWorkerRefuses`).
- The `error`/`exit` handlers empty the slot whatever fork it holds. A
  replaced process that exits late therefore empties its successor's slot
  (`LateExitOfReplacedProcess`).
- `sendWebsocket` awaits the stored promise and never forks. With an
  empty slot the socket hand-off fails with "vscode is not running"
  (`DisposedWorkerRefusesSocket`).

## Model

| member | source | states |
|---|---|---|
| `Vscode.VscodeProvider.constructor` | src/node/vscode.ts:24-32 | a new provider has an empty slot and has launched nothing |
| `Vscode.VscodeProvider.Fork` | src/node/vscode.ts:61-87 | launches a process only when the slot is empty, and then stores its new pending promise; otherwise returns the stored promise and launches nothing |
| `Vscode.VscodeProvider.OnMessage` | src/node/vscode.ts:74-80 | only the first event settles readiness: `ready` fulfils it and any other message rejects it with "Unexpected response waiting for ready response"; after removeAllListeners nothing reacts; a dispose waiting on the promise completes when it is fulfilled |
| `Vscode.VscodeProvider.OnError` | src/node/vscode.ts:65-81 | an `error` empties the slot and rejects a still-pending readiness with the error; a detached process changes nothing |
| `Vscode.VscodeProvider.OnExit` | src/node/vscode.ts:69-82 | an `exit` empties the slot and rejects a still-pending readiness with "VS Code exited unexpectedly with code …"; a detached process changes nothing |
| `Vscode.VscodeProvider.Dispose` | src/node/vscode.ts:34-41 | nothing happens with an empty slot; for a resolved promise it removes the listeners, empties the slot and kills that process; it fails with the reason of a rejected promise; it waits on a pending one |
| `Vscode.VscodeProvider.Settle` | src/node/vscode.ts:74-83 | the first settlement of a pending readiness promise is final; a `dispose` awaiting it (lines 36-39) then removes the listeners, empties the slot and kills the process on fulfilment, and changes nothing on rejection |
| `Vscode.ForkTwice` | src/node/vscode.ts:61-86 | repeated forks return the same promise and launch at most one process |
| `Vscode.ExitThenFork` | src/node/vscode.ts:61-72 | after an `exit` the next fork launches a fresh process; a readiness still pending at the exit is rejected |
| `Vscode.DisposeThenFork` | src/node/vscode.ts:34-62 | disposing a ready worker kills it, and the next fork launches a new process |
| `Vscode.WrongFirstMessageStays` | src/node/vscode.ts:74-86 | a wrong first message leaves the rejected promise in the slot: fork returns it again and dispose fails |
| `Vscode.ReadyWorkerServes` | src/node/vscode.ts:43-109 | after a fresh fork says `ready`, awaiting the slot gives the live process, so `initialize` (whose `fork` returns the stored promise) decides on the next event alone and `sendWebsocket` hands the socket to that process |
| `Vscode.RejectedWorkerRefuses` | src/node/vscode.ts:43-109 | after a wrong first message, `initialize` and `sendWebsocket` both fail with "Unexpected response waiting for ready response", whatever the worker says next |
| `Vscode.DisposedWorkerRefusesSocket` | src/node/vscode.ts:34-109 | after disposing a ready worker the slot is empty: the upgrade reply is still written, and the hand-off fails with "vscode is not running" |
| `Vscode.LateExitOfReplacedProcess` | src/node/vscode.ts:65-72 | a process that errored, was replaced and exits later empties its successor's slot, so a third process is launched while the second still runs |
| `Vscode.ReadinessAfter` | src/node/vscode.ts:74-83 | readiness is fulfilled iff the first event is a `ready` message; any other message, an `error` or an `exit` rejects it with the matching reason |
| `Vscode.AcceptOptions` | src/node/vscode.ts:49-56 | initialization resolves iff the first message is `options` with the generated id, and then with its options; any other message gives "Unexpected response during initialization"; `error`/`exit` reject |
| `Vscode.ConcurrentInitializationsCrossTalk` | src/node/vscode.ts:48-57 | with two distinct ids at most one initialization can accept a given first message; the answer to one rejects the other |
| `Vscode.Send` | src/node/vscode.ts:111-116 | fails with "vscode is not running" iff the process is absent or killed; otherwise forwards the message and socket unchanged to that process |
| `Vscode.Initialize` | src/node/vscode.ts:43-59 | a failed fork rejects with its reason, a killed worker with "vscode is not running"; a live worker gives exactly the outcome of its next event: its options for `options` with the own id, "Unexpected response during initialization" for any other message, the error for `error`, the exit message for `exit` |
| `Vscode.AcceptInput` | src/node/vscode.ts:93-97 | the digest input is the key, or the text "undefined" when the header is missing, followed by the magic GUID of section 4.2.2 of RFC 6455 |
| `Vscode.UpgradeResponse` | src/node/vscode.ts:98-105 | the reply is the status line, Upgrade, Connection and Sec-WebSocket-Accept lines, each ended by CRLF, then an empty line; it starts with the 101 status line |
| `Vscode.AcceptRoundTrip` | src/node/vscode.ts:94-105 | the accept value can be read back from the reply |
| `Vscode.SendWebsocket` | src/node/vscode.ts:89-109 | writes the reply for the digest of key+GUID whatever the slot holds; hands the socket and query to the stored worker iff it resolved and is not killed; an empty slot gives "vscode is not running", a rejected promise its reason |
| `Vscode.StripResourcePrefix` | src/node/vscode.ts:140 | the result is a suffix of the path; a path without the `/vscode-resource` prefix is unchanged; a prefixed path loses at least the prefix |
| `Vscode.StripResourcePrefixRoundTrip` | src/node/vscode.ts:139-140 | stripping undoes adding `/vscode-resource` or `/vscode-resource/file` |
| `Vscode.HandleRequest` | src/node/vscode.ts:118-146 | `/` serves the root page iff getRoot succeeds, with no authentication; everything else is Unauthorized without authentication; resource bases serve `pathToFsPath(path)` iff `path` is a string; webview paths are stripped or served from the `pre` directory; everything else is Not found |
| `Vscode.RootFailureIsNotFound` | src/node/vscode.ts:121-145 | a failed root page falls through: Not found when authenticated, Unauthorized otherwise |
| `Vscode.FillWorkbenchOptions` | src/node/vscode.ts:152-156 | a page without the four quoted placeholders is returned unchanged |
| `Vscode.FillWorkbenchOptionsSplices` | src/node/vscode.ts:152-156 | a page holding the four placeholders in order, none occurring earlier than its slot, gets each replaced by its single-quoted JSON text, and all text around them is kept |
| `JsStrings.IndexOf` | src/node/vscode.ts:152-156 | finds the first occurrence of the pattern, or none exactly when the pattern does not occur |
| `JsStrings.ReplaceFirst` | src/node/vscode.ts:152-156 | an absent pattern leaves the text unchanged; a present one changes the length by the difference of replacement and pattern (one occurrence only) |
| `JsStrings.ReplaceFirstAbsent` | src/node/vscode.ts:152-156 | replacing an absent placeholder changes nothing |
| `JsStrings.ReplaceFirstSplice` | src/node/vscode.ts:152-156 | the placeholder's first occurrence is replaced and everything around it is kept |
| `JsStrings.RemoveAll` | src/node/routes/vscode.ts:90 | global removal never lengthens the text |
| `JsStrings.RemoveAllShrinks` | src/node/routes/vscode.ts:90 | removal of a pattern that occurs strictly shortens the text |
| `JsStrings.RemoveAllUnchangedIff` | src/node/routes/vscode.ts:90 | removal leaves the text unchanged iff the pattern does not occur in it |
| `JsStrings.RemoveAllSplice` | src/node/routes/vscode.ts:90 | for a pattern that cannot overlap itself, text before an occurrence is kept and the occurrence is removed |
| `VscodeRoutes.Arrayify` | src/node/routes/vscode.ts:39 | undefined gives no element, a single string a one-element list, a list itself |
| `VscodeRoutes.FindNonEmpty` | src/node/routes/vscode.ts:39 | returns the first non-empty string, or none iff every element is empty |
| `VscodeRoutes.UrlOf` | src/node/routes/vscode.ts:38-40 | a candidate's url is a non-empty element of its arrayified `url`; there is none iff the candidate is absent or every element is empty |
| `VscodeRoutes.IsFile` | src/node/routes/vscode.ts:28-35 | true iff the probe succeeds and reports a regular file; a throwing probe gives false |
| `VscodeRoutes.Resolve` | src/node/routes/vscode.ts:41-47 | the start path has the chosen url; its workspace flag is the candidate's own when given, else whether the probe reports a file |
| `VscodeRoutes.FirstPath` | src/node/routes/vscode.ts:37-50 | the chosen url is non-empty; the result is absent iff no candidate has a non-empty url |
| `VscodeRoutes.FirstPathPicksFirstUsable` | src/node/routes/vscode.ts:37-48 | the first candidate with a non-empty url decides: its url, and its `workspace` when given, else the file probe |
| `VscodeRoutes.FirstPathIgnoresLater` | src/node/routes/vscode.ts:40-48 | candidates after a decisive one do not affect the result |
| `VscodeRoutes.GetFirstPath` | src/node/routes/vscode.ts:25-51 | the loop with early return computes exactly the first-match start path |
| `VscodeRoutes.StartCandidates` | src/node/routes/vscode.ts:65-70 | four candidates in order: `workspace` query marked workspace, `folder` query marked folder, the last command-line path (present iff there is one) with no flag so it is probed, and the last visit with its own flag |
| `VscodeRoutes.ChooseStartPath` | src/node/routes/vscode.ts:65-70 | a chosen start path has a non-empty url; none is chosen iff both queries, the command-line path and the last visit all lack a non-empty url |
| `VscodeRoutes.StartPathPriority` | src/node/routes/vscode.ts:65-70 | the workspace query (workspace true) beats the folder query (false), which beats the resolved last command-line path (probed; a failed probe gives false), which beats the last visit |
| `VscodeRoutes.ProbeOnlyForCommandLine` | src/node/routes/vscode.ts:43-46 | the file probe affects the result only when the command-line path is chosen |
| `VscodeRoutes.NextLastVisited` | src/node/routes/vscode.ts:85 | the new start path when there is one, otherwise the old last visit |
| `VscodeRoutes.PersistedLastVisited` | src/node/routes/vscode.ts:84-86 | the persisted last visit is the new start path when there is one; otherwise it is the old one, which then had no usable url |
| `VscodeRoutes.RevisitResumes` | src/node/routes/vscode.ts:64-86 | a later visit without queries or command-line path resolves to the start path this visit persisted |
| `VscodeRoutes.ProductionPage` | src/node/routes/vscode.ts:89-91 | a development build leaves the page unchanged; otherwise marker removal never lengthens it |
| `VscodeRoutes.NoOpenAcrossClose` | src/node/routes/vscode.ts:90 | inserting the closing marker cannot create an opening marker |
| `VscodeRoutes.ProdOnlyBlockUncommented` | src/node/routes/vscode.ts:89-91 | outside development both markers of a PROD_ONLY block are removed and all other text is kept |
| `VscodeRoutes.ProductionPageUnchangedIff` | src/node/routes/vscode.ts:89-91 | outside development the page is unchanged iff it holds neither marker |

## Left out

- Forking the child process and the Node IPC transport. Process events
  are explicit calls of `OnMessage`, `OnError` and `OnExit` on the
  provider. Logging is left out too.
- Vscode.VscodeProvider.Dispose: a `dispose` that waits on a pending
  promise completes inside the event that fulfils it. The order of that
  continuation relative to other code awaiting the same promise is not
  modelled.
- Vscode.Initialize: it is modelled from the point where `await
  this.fork()` has settled. The waiting itself is not modelled. Nor is
  the generation of the id, which is taken as a parameter.
- SHA-1 and base64 in `sendWebsocket` are foreign crypto calls. They are
  a parameter `digest`. The actual `socket.write` is represented by the
  written text. The socket hand-off is represented by the `Delivery` value.
- `ensureMethod` is not part of this model, because its source is not
  shown. `ensureAuthenticated` is a boolean input.
- `getResource` is only the path parts it is called with. Its file reads,
  content types and errors are not modelled. `pathToFsPath` and the
  editor root path are parameters.
- In `getRoot`, `JSON.stringify` output is opaque text. The
  `codeServerVersion` assignment and `replaceTemplates` are left out. So
  is the use of the undeclared `options` and `response`, which cannot be
  modelled faithfully.
- JsStrings.ReplaceFirst: the `$` patterns of a JavaScript replacement
  string are not interpreted. The replacement is inserted literally.
- The `/` handler's login redirect, `settings.read`/`settings.write`
  storage, the persisted query, `fs.readFile`, the error wrapping of a
  failed `initialize` and `res.send` are left out. Express router
  registration, `asyncRoute` and `memo` are left out too.
- `arrayify` comes from `src/common/util`, which is not part of this
  model. It is modelled by its usual definition: undefined gives no
  element, a list stays itself, and a string becomes a one-element list.
- Exit codes are taken as the text the template literal renders. Only the
  two worker message kinds `ready` and `options` are modelled.
