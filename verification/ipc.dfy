/** The values exchanged between the gateway and the worker process
    (the interface module `vs/server/ipc` of the bundled editor), and
    the query values of a parsed request. */
module Ipc {
  import opened Common

  /** A query parameter or an optional url field: `string | string[] | undefined`. */
  datatype QueryValue = Absent | Str(s: string) | List(items: seq<string>)

  /** A parsed query string. */
  type Query = map<string, QueryValue>

  /** The value of a query parameter; a missing key reads as `undefined`. */
  function Lookup(query: Query, key: string): QueryValue {
    if key in query then query[key] else Absent
  }

  /** A resolved file or folder location, and whether it denotes a workspace. */
  datatype StartPath = StartPath(url: string, workspace: bool)

  /** The session options sent with `init`; the parsed command-line
      arguments they also carry are opaque here. */
  datatype SessionOptions = SessionOptions(remoteAuthority: string, startPath: Option<StartPath>)

  /** The options the worker answers with, each field as the JSON text
      the root page receives. */
  datatype WorkbenchOptions = WorkbenchOptions(
    remoteUserDataUri: string,
    productConfiguration: string,
    workbenchWebConfiguration: string,
    nlsConfiguration: string)

  /** A message from the worker (`VscodeMessage`). */
  datatype WorkerMessage = Ready | Options(id: string, options: WorkbenchOptions)

  /** A message to the worker (`CodeServerMessage`). */
  datatype ServerMessage = Init(id: string, options: SessionOptions) | Socket(query: Query)
}
