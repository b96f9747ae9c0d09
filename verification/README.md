# Cloud Foundry diego plugin utilities — a Dafny model

This project models `utils/utils.go` of the `cli-plugin-diego` Cloud Foundry CLI plugin. That file holds the
plugin's operations on a CLI connection. They look up the application guid and the space guid, read the
targeted space and the first domain from the CLI's text output, and create and map a route. They start the
app, read its health-check type from the app summary, detach every route of the app, and update one field
of the app through the REST API.

The CLI connection is a **runner**: a pure function from the command issued (`Invocation`, holding the
channel and the argument vector) to a `Reply` (the captured lines plus an optional transport error).
`CliCommandWithoutTerminalOutput` is the `Silent` channel and `CliCommand` is the `Terminal` one. Each
operation is a pure function of the runner's replies. The JSON decoder for the app summary is a `Decoder`
parameter: it either gives an `AppSummary` (health-check type and routes) or fails.

Go panics when it reads `output[0]` from empty output. The model states this explicitly with
`Exec<T> = Done(result) | IndexPanic`. `DetachAppRoutes` also returns the trace of every command it issued.

Files:
- `optional.dfy`: `Option`.
- `go_strings.dfy`: the Go `strings` functions the parsing uses (`TrimSpace` with Go's `unicode.IsSpace` set, `HasPrefix`, `TrimPrefix`, `TrimSuffix`, `Contains`). It also holds the lemmas that pin `TrimSpace` down: `TrimSpaceSplit` and `TrimSpaceOfPadded`.
- `platform.dfy`: runner, replies, summary, error kinds and the messages the plugin gives them, result shapes.
- `commands.dfy`: the argument vectors. It also has a reader for the one-member JSON body that `UpdateApp` sends, with its round-trip lemma.
- `utils.dfy`: the operations.
- `properties.dfy`: lemmas relating operations to independent descriptions of the CLI output and to each other.

## Model

| member | source | states |
|---|---|---|
| Utils.GetAppGuid | utils/utils.go:43-54 | Panics exactly on empty output. It fails exactly when the command fails. The error is "app not found" exactly when the command failed and line 0 contains FAILED; any other failure is passed on as the transport error. An error comes with an empty value and the raw output as diagnostics. Success gives the trimmed line 0 and no diagnostics |
| Utils.GetSpaceGuid | utils/utils.go:75-85 | The same classification, using its own not-found error |
| Utils.GetTargetSpace | utils/utils.go:56-71 | Succeeds exactly when the command succeeds, there are at least 5 lines, and line 4 starts with `Space:` without containing "No space targeted". The value is then the trimmed text after the label. A command failure is passed through with the output; every other case is "not targeted" with the output |
| Utils.SpaceName | utils/utils.go:66-68 | Trim, drop the label, trim again: the result is trimmed and equals the trimmed text after `Space:` |
| Utils.SpaceNameIsTrimmedRest | utils/utils.go:66-68 | Those three steps give exactly TrimSpace of the line's text after the label, whether or not that text is blank |
| Utils.FindDomain | utils/utils.go:91-105 | Succeeds exactly when the command succeeds and there are at least 3 lines. The value is the domain read from line 2 and is trimmed. Fewer lines give "no domain available" with the output; a command failure is passed through |
| Utils.DomainName | utils/utils.go:101-104 | The domain read from a listing line has no white space at either end |
| Utils.CreateRoute | utils/utils.go:87-89 | Sends `create-route <space> <domain> -n <host>` silently, with each argument in its fixed position. Returns the reply's lines and the transport error unchanged |
| Utils.MapRoute | utils/utils.go:107-109 | Sends `map-route <app> <domain> -n <host>` silently. Returns the reply unchanged |
| Utils.StartApp | utils/utils.go:111-113 | Sends `start <app>` on the terminal channel. Returns the reply unchanged |
| Utils.UpdateApp | utils/utils.go:157-159 | Sends `curl /v2/apps/<guid> -X PUT -d <body>`. When neither string contains a quote, backslash or control character, the body reads back as exactly the one member field = value. Returns the reply unchanged |
| Utils.GetHealthCheck | utils/utils.go:115-133 | Panics exactly when the command succeeds with empty output. Succeeds exactly when line 0 contains the marker and decodes; it then returns the decoded type and no diagnostics. Without the marker it gives "field not found", and a decode failure gives the decoder's error. Every error comes with the raw output |
| Utils.DetachEach | utils/utils.go:148-154 | The DELETEs issued are a prefix of one-per-route in array order. Every DELETE before the last one succeeded. No error means every route was deleted and the result is empty output. An error means the last DELETE failed, and its output and error are returned |
| Utils.DetachAppRoutes | utils/utils.go:135-155 | Always fetches the summary first. A fetch failure or a decode failure returns the raw output with that error and issues nothing more. Otherwise it runs the per-route loop over the decoded routes |
| Commands.UpdateBodyRoundTrip | utils/utils.go:158 | The hand-built body reads back as the requested member exactly when field and value contain no quote, backslash or control character (U+0000 to U+001F) |
| Commands.UnescapedUpdatesCollide | utils/utils.go:158 | Without escaping, two different updates can produce the same body |
| UtilsProperties.DomainOfTaggedLine | utils/utils.go:101-104 | A listing line `<domain><gap>shared` or `<domain><gap>owned`, padded with white space, gives exactly the domain |
| UtilsProperties.DomainOfUntaggedLine | utils/utils.go:101-104 | An untagged line gives the domain, provided the domain does not itself end in "shared" or "owned" |
| UtilsProperties.DomainExample | utils/utils.go:91-105 | `["", "", "example.com   shared"]` gives "example.com" with no error |
| UtilsProperties.TargetSpaceExample | utils/utils.go:56-71 | Target output whose line 4 is `Space:  my-space  ` gives "my-space" with no error |
| UtilsProperties.NotTargetedCases | utils/utils.go:62-71 | Fewer than 5 lines, a missing label or the sentinel all give "not targeted" with the full output |
| UtilsProperties.CompactSummaryFailsPreCheck | utils/utils.go:121-123 | A summary line with no space character gives "field not found", whatever the decoder says |
| UtilsProperties.CompactExampleRejected | utils/utils.go:121-123 | The compact payload `{"health_check_type":"http","routes":[...]}` is rejected by the pre-check |
| UtilsProperties.PreCheckPrecedesDecode | utils/utils.go:121-127 | Without the marker the decoder is never consulted: any two decoders give the same result |
| UtilsProperties.DetachStopsAtFirstFailure | utils/utils.go:148-152 | If route i's DELETE is the first to fail, exactly the DELETEs for routes 0..i are issued, and the result is that call's output and error |
| UtilsProperties.DetachAllSucceed | utils/utils.go:148-154 | If every DELETE succeeds, one is issued per route in order, and the result is no output and no error |
| UtilsProperties.DetachOnlyDeletes | utils/utils.go:148-152 | Every command after the summary fetch is the DELETE of the summary's route at the same position. Nothing is re-mapped or restored |
| UtilsProperties.DetachDependsOnlyOnItsCalls | utils/utils.go:148-152 | Two platforms that give the same replies to the DELETEs give the same outcome and the same trace |
| UtilsProperties.LookupsArePureReads | utils/utils.go:43-105 | The four lookups depend only on the reply to their own command, so asking again against an unchanged platform gives the same answer |
| UtilsProperties.UpdateAppExample | utils/utils.go:158 | UpdateApp("app1", "name", "new-name") sends the body `{"name":"new-name"}` |

Two behaviours of the code worth knowing, which the model keeps as written:
- GetHealthCheck's pre-check looks for `"health_check_type": ` with a space after the colon. So compact JSON such as `{"health_check_type":"http",...}` is reported as "field not found" before it is decoded (`CompactExampleRejected`).
- GetSpaceGuid's error for the FAILED marker has the text "Getting space guid...". It is modelled as its own kind, `SpaceNotFound`, which carries that text.

## Left out

- The CLI connection and its process and HTTP transport are a runner function. Every reply depends only on the command issued, so a platform whose answer to the same command changes between calls is not modelled.
- `encoding/json` decoding is the `Decoder` parameter. JSON parsing, unknown fields and type mismatches are not modelled.
- `NewUtils` and the `Utils` interface are plain wiring and are not modelled.
- The unreachable `return` at utils/utils.go:72 is not modelled.
- Go's `nil` slice and `[]string{}` are both the empty sequence. DetachAppRoutes' `(nil, nil)` is therefore an empty output with no error.
- Strings are sequences of Unicode code points. Go strings are bytes, and TrimSpace's handling of invalid UTF-8 is not modelled.
- Error values are kinds (`Error`), and `Platform.Message` gives the text the plugin attaches to each. Go's error identity and wrapping are not modelled.
- How the cf CLI interprets an argument vector (for example an argument that starts with `-`) is the CLI's own behaviour, and its code is not part of this model.
