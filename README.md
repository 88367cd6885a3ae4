# grpc-conoha: the `Minecraft` command handler, modelled in Dafny

The service receives chat-style commands over gRPC and turns them into
lifecycle operations on one ConoHa virtual machine. Its only decision logic
is the handler `Minecraft` in `api/main.go` and the status-label table
`statusName` it reads. This project models both as pure Dafny functions and
proves what they promise.

- `wrappers.dfy`: module `Wrappers`, the `Option` type.
- `status_label.dfy`: module `StatusLabel`. It holds the five-entry table
  `StatusName` (provider state to Japanese display label) and `Label`, the
  lookup the status query performs. A state outside the table gets the empty
  label, as a Go map read of a missing key does.
- `command.dfy`: module `Command`. It holds the command vocabulary
  (`Server | Start | Stop | Reboot`) and each command's exact literal
  (`"!conoha server"`, `"!conoha start"`, `"!conoha stop"`,
  `"!conoha reboot"`). `ParseInOrder` tests a text against the literals in a
  given order by exact equality. `Parse` does so in the handler's order, and
  `Tried` lists the literals compared before the chain stops.
- `handler.dfy`: module `Handler`. `Minecraft(cmd, cloud, send)` is the
  handler. The provider calls are inputs: a `Cloud` value holds the
  `(text, code)` reply each operation gives. The outcome of `stream.Send` is
  an input too (`None` when the send succeeds, `Some(cause)` when it fails).
  The result records the steps taken (`FetchToken`, one `Compare` per literal
  tested, one `Call` per provider operation). It also records the responses
  sent and the error the request ends with.

Proved: the stream answers with exactly one response or exactly one error.
The token is fetched once, before any literal is tested. At most one provider
operation is called, and it is the one the command names. Matching is exact,
case-sensitive and untrimmed, and the order of the tests decides nothing. The
status query is always normal and shows the label, falling back to `""`.
Start, stop and reboot echo the provider text and are normal exactly when the
code is 202. Anything else ends with `Unimplemented` and the message
`登録されていないコマンドです`.

In `api/main.go` the start, stop and reboot branches (lines 53-56, 64-67,
75-78) and the fallthrough (line 81) return two values from a function
declared to return only `error` (line 33), so the file does not compile as
written. The model follows the evident intent, which is also what the status
branch does (lines 39-44). Each recognised command sends exactly one response
on the stream, and a failed send becomes the request's error. The unrecognised
command returns the `Unimplemented` error and sends nothing.

The handler has no authentication-error path and no separate error for a
failed provider call. `conoha.GetToken` returns only a token, and the provider
calls return only a text and a code. The model follows the code, so it has no
such error paths either.

## Model

| member | source | states |
|---|---|---|
| `StatusLabel.Label` | api/main.go:24-30 | the lookup never fails; the label is empty exactly when the state is outside the table, and otherwise it is one of the table's labels |
| `StatusLabel.KnownLabels` | api/main.go:24-30 | `SHUTOFF`, `ACTIVE`, `RESIZE`, `REBOOT` and `VERIFY_RESIZE` each get their configured label |
| `StatusLabel.KnownStates` | api/main.go:24-30 | a state has a non-empty label if and only if it is one of the five configured states |
| `StatusLabel.UnknownStatesUnlabelled` | api/main.go:40 | the lookup does no case folding or trimming: every state holding a lower-case letter or a space shows as the empty label |
| `Command.LiteralsDistinct` | api/main.go:36-69 | the four command literals are pairwise distinct |
| `Command.ParseInOrder` | api/main.go:36-79 | a match is a command of the tested list whose literal equals the text; no match means no listed literal equals it |
| `Command.Tried` | api/main.go:36-69 | the literals compared are a prefix of the order; they end at the first match, or cover the whole order when nothing matches |
| `Command.Parse` | api/main.go:36-81 | a text is recognised as command `c` if and only if it equals `c`'s literal exactly |
| `Command.ParseLiteral` | api/main.go:36-69 | each literal is recognised as its own command |
| `Command.OrderIrrelevant` | api/main.go:36-69 | testing the literals in any order that lists all four commands recognises the same command as the handler's order |
| `Command.UnrecognisedTriesAll` | api/main.go:36-80 | an unrecognised text is compared with all four literals, in the handler's order |
| `Command.RecognisedTriesUpTo` | api/main.go:36-69 | a recognised command is compared with the literals up to and including its own, and no further |
| `Command.SurroundingSpaceRejected` | api/main.go:36-81 | no trimming: a text with a leading or trailing space, tab or line break is never recognised |
| `Command.UpperCaseRejected` | api/main.go:36-81 | case-sensitive: a text with any upper-case letter is never recognised |
| `Handler.Respond` | api/main.go:39-78 | the status query shows the label and is always normal; start, stop and reboot echo the provider text and are normal exactly when the code is 202 |
| `Handler.Minecraft` | api/main.go:33-82 | exactly one response or one error; the token is fetched once and first; a provider call happens at most once, as the last step; the request fails as unimplemented exactly when the command is unrecognised |
| `Handler.ServerQuery` | api/main.go:36-45 | `!conoha server` fetches the token, tests one literal and queries the status, then sends the label with `isNormal` true for every status and code; a failed send is the request's error |
| `Handler.AcceptedRule` | api/main.go:47-79 | start, stop and reboot call their own operation after testing the literals up to theirs, and send the provider text with `isNormal` true exactly when the code is 202; a failed send is the request's error |
| `Handler.UnrecognisedRejected` | api/main.go:80-81 | any other text tests all four literals, calls no provider operation, sends nothing and ends with `Unimplemented` and the fixed message, whatever the provider and the stream would do |
| `Handler.OnlyItsOperation` | api/main.go:37-70 | a recognised command calls only its own operation; the other operations' replies, and the status query's code, do not affect the request |
| `Handler.ScenarioActive` | api/main.go:36-45 | a status query on an `ACTIVE` instance sends `起動してるよ` as a normal response |
| `Handler.ScenarioCodes` | api/main.go:47-67 | a start accepted with 202 is normal, and a stop answered with 409 is not; both echo the provider text |
| `Handler.ScenarioUnknown` | api/main.go:80-81 | `!unknown`, the empty text and `!Conoha server` all end with the unimplemented error |

## Left out

- `main` (api/main.go:89-115): it listens on TCP, builds the gRPC server, registers reflection, serves on a goroutine and stops gracefully on interrupt. This is I/O and concurrency, not decision logic.
- `conoha.GetToken`, `GetServerStatus`, `StartServer`, `StopServer` and `RebootServer` are network clients whose source is not part of this model. Their results are inputs (`Cloud`). The token fetch is recorded as the `FetchToken` step, and its value is not modelled.
- `config.Config` (the credentials and tenant id) and `NewConohaServer` (api/main.go:85-87) are read-only configuration and a trivial constructor.
- The gRPC stream, `status.Error` and the `codes` package are represented by the `Handled` and `RpcError` datatypes. A send error is carried as an opaque cause string.
- Go strings are byte strings; the model uses sequences of characters. Exact equality agrees for valid UTF-8 text; texts that are not valid UTF-8 are not modelled.
- Cancellation of a request whose caller disconnects, and concurrency between requests: the handler keeps no shared state, and the model treats each request on its own.
