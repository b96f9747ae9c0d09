/**
 The plugin's view of the Cloud Foundry CLI connection and of what it reads
 back. The connection is a pure function from the command issued to the
 captured output lines and optional error; the JSON decoder for the
 application summary is a function the operations take as a parameter.
 */
module Platform {

  import opened Optional

  /** CliCommandWithoutTerminalOutput is Silent; CliCommand echoes to the
      terminal. */
  datatype Channel = Silent | Terminal

  /** One command issued through the connection: its channel and argument vector. */
  datatype Invocation = Invocation(channel: Channel, args: seq<string>)

  /** What the connection hands back: the captured output lines, and the
      transport-level error message when the command failed. */
  datatype Reply = Reply(lines: seq<string>, failure: Option<string>)

  /** The CLI connection. Every reply is a function of the command alone. */
  type Runner = Invocation -> Reply

  /** The `routes` entries of an application summary; a route whose `guid` is
      absent decodes with the empty guid. */
  datatype Route = Route(guid: string)

  /** The two fields of `/v2/apps/<guid>/summary` the plugin decodes. */
  datatype AppSummary = AppSummary(healthCheckType: string, routes: seq<Route>)

  datatype Decoded = Decoded(summary: AppSummary) | Malformed(reason: string)

  /** encoding/json's Unmarshal of one output line into an AppSummary. */
  type Decoder = string -> Decoded

  /** The errors the operations return, one variant per kind. */
  datatype Error =
    | AppNotFound(appName: string)
    | SpaceNotFound
    | NotTargeted
    | NoDomainAvailable
    | HealthCheckFieldMissing
    | DecodeFailed(reason: string)
    | Transport(reason: string)

  /** The text of each error as the plugin builds it. */
  function Message(e: Error): string {
    match e
    case AppNotFound(name) => "App " + name + " not found."
    case SpaceNotFound => "Getting space guid..."
    case NotTargeted => "Currently not targeted"
    case NoDomainAvailable => "No domain available"
    case HealthCheckFieldMissing => "'health_check_type' flag is not found in json response\nJSON:\n"
    case DecodeFailed(reason) => reason
    case Transport(reason) => reason
  }

  /** The `(string, error, []string)` triple of the lookups: a value, an error,
      and the raw output kept as diagnostics. */
  datatype Lookup = Lookup(value: string, err: Option<Error>, diagnostics: seq<string>)

  /** The `([]string, error)` pair of the pass-through operations. */
  datatype Output = Output(lines: seq<string>, err: Option<Error>)

  /** An operation either returns or panics with an index out of range, which
      is what Go does on `output[0]` when the output is empty. */
  datatype Exec<+T> = Done(result: T) | IndexPanic

  /** The runner's reply as the pass-through operations return it: the lines
      unchanged and the failure as a transport error. */
  function Forwarded(reply: Reply): (o: Output)
    ensures o.lines == reply.lines
    ensures o.err.None? <==> reply.failure.None?
    ensures reply.failure.Some? ==> o.err == Some(Transport(reply.failure.value))
  {
    Output(reply.lines, if reply.failure.Some? then Some(Transport(reply.failure.value)) else None)
  }
}
