# Graylog log-event clients, modelled in Dafny

This project models the log-event pipeline of the two Graylog clients of the
`@neobeach/modules` repository:

- `graylog/index.js` with `graylog/utils.js`, the current client. `send`
  takes positional arguments and checks the severity against five levels.
- `greylog/index.js`, an older copy. `send` takes one object, accepts any
  severity, and cuts the short message from `shortMessage`.

Both clients have the same two operations:

- `init` checks its four arguments in a fixed order. It stops at the first bad
  one. Otherwise it stores the project name and environment in the
  module-level `config` and binds a new GELF transport to the host and port.
- `send` checks the message, then (current client only) the severity. It
  splits the captured call stack into lines and removes the first two. In V8
  those are the header line `Error` and the frame of `send` itself. It finds
  the caller's file in the first remaining frame, then builds the record that
  it hands to the transport.

Files and modules:

- `values.dfy` (`Values`): JavaScript argument values (`Undefined`, `Str`,
  `Num`, `Other`), `Option` and `Result`.
- `truncation.dfy` (`Truncation`): `truncateString` and its properties.
- `caller_context.dfy` (`CallerContext`): `split('\n')`, `splice(0, 2)`,
  `join('\n')`, and the frame pattern `^.* \((.*):[0-9]+:[0-9]+\)$`. The
  pattern is written as an explicit string function, `FileOf`. It is proved
  sound, complete and greedy against a declarative statement of the match,
  `FrameMatch`.
- `validation.dfy` (`Validation`): the `init` checks, which are the same in
  both clients.
- `connection.dfy` (`Connection`): the state that `init` leaves, as a value
  (`Config`), and the state change of one `init` (`InitConfig`).
- `log_records.dfy` (`LogRecords`): the `send` inputs and the emitted record.
- `graylog.dfy` (`Graylog`) and `greylog.dfy` (`Greylog`): each client's
  `send` rules as a function (`Dispatch`). Each client also has a class
  `Client` for its module-level state (`config` and `gelf`). Its `Init` and
  `Send` methods are proved against `InitConfig` and `Dispatch`.

Emission is modelled as returning the record. A failed call returns an error
value instead:

- `Rejected(field)`: the source logs the field and calls `process.exit(1)`.
- `ShortMessageTypeError`: in the older client, `truncateString` throws a
  `TypeError` on a `shortMessage` that is `null`, a number, a boolean, or an
  object without a numeric `length`. A function, an array of at most 50
  elements or a `String` object of at most 50 characters is handed back
  unchanged and emitted as the short message. The model also treats every
  other non-string with a numeric `length` over 50 as throwing. The source
  would cut any such value whose prototype has `slice` (arrays, typed arrays,
  Buffers, `String` objects); the
  `Greylog.TruncateString` line under "Left out" records this.
- `EmitNotAFunction`: before any successful `init`, `gelf` is still the
  placeholder `{}`, so `gelf.emit(...)` throws a `TypeError`.

The model follows the code as written, also where the JSDoc comments of the
source say otherwise:

- The current client ignores its `shortMessage` parameter. The short message
  is always cut from `message` (`Graylog.ShortMessageIgnored`). The JSDoc at
  graylog/index.js:116 says the parameter is used when it is filled.
- The usage example at graylog/index.js:50 passes the port as the string
  `'12201'`. The port check rejects it (`Validation.DocExampleRejectsStringPort`).
- The usage example at graylog/index.js:122 passes `'This is the error'` as the
  second argument, which is the severity. The severity check rejects it
  (`Graylog.DocExampleRejectedOnSeverity`).
- The short message can be 53 characters long (50 plus `"..."`). The JSDoc at
  graylog/index.js:116 says "50 characters max".

Nothing in the source reports a `send` before `init` as a distinct "not
initialised" error. Such a call fails with the `TypeError` of `gelf.emit`,
after the argument checks and after the short message has been cut.

## Model

| member | source | states |
|---|---|---|
| `Truncation.TruncateString` | graylog/utils.js:14-20 | the result is at most `num + 3` characters long and begins with the first `min(len, num)` characters of `str` |
| `Truncation.ShortUnchanged` | graylog/utils.js:15-17 | a string of at most `num` characters comes back unchanged |
| `Truncation.LongCut` | graylog/utils.js:19 | a longer string becomes exactly its first `num` characters followed by `"..."` |
| `Truncation.LengthExact` | graylog/utils.js:15-19 | the result is exactly `num + 3` long if and only if the input was longer than `num`; otherwise it keeps the input's length |
| `Truncation.Idempotent` | graylog/utils.js:15-19 | truncating twice with the same limit gives the same result as truncating once |
| `Values.WithDefault` | graylog/index.js:124 | a default parameter applies exactly when the argument is undefined; any other value, `null` included, is kept. `Graylog.OmittedSeverityIsInfo`, `Greylog.OmittedSeverityIsInfo` and `Greylog.OmittedShortMessageIsMessage` prove that leaving an argument out is the same as passing its default |
| `CallerContext.Split` | graylog/index.js:144 | splitting gives at least one piece, and no piece holds a newline |
| `CallerContext.JoinSplit` | graylog/index.js:144 | joining the split pieces with `'\n'` gives the stack text back |
| `CallerContext.SplitJoin` | graylog/index.js:144 | splitting the join of newline-free lines gives the lines back, so the stack can be taken as its list of frames |
| `CallerContext.Join` | graylog/index.js:156 | the joined text has the length of all lines plus one newline between each two neighbours; it begins with the first line, followed by a newline when there is a second; no lines give `""` |
| `CallerContext.DropFirstTwo` | graylog/index.js:145 | `splice(0, 2)` leaves `len - 2` frames (none if fewer than two), and frame `i` of the result is frame `i + 2` of the input |
| `CallerContext.FileOf` | graylog/index.js:148 | a path is only found in a frame on one line that ends in `)`, and it is at least seven characters shorter than the frame. FileOfSound and FileOfComplete state which path it is |
| `CallerContext.CallerFile` | graylog/index.js:148 | the `file` field is null exactly when no frame is left or `FileOf` finds nothing in the first remaining frame; `CallerContext.CallerFileMatches` states this against the pattern itself |
| `CallerContext.CallerFileMatches` | graylog/index.js:147-148 | `file` is null exactly when no frame is left or the pattern has no match at all in the first remaining frame; a path it holds is the capture of a match of that frame |
| `CallerContext.FileOfSound` | graylog/index.js:148 | every path that `FileOf` returns is what the pattern captures in some match of the frame |
| `CallerContext.FileOfComplete` | graylog/index.js:148 | whenever the pattern matches, `FileOf` returns a path. It is the capture with the longest leading `.*`, as the backtracking match picks: a suffix of every other capture, and that capture itself when the path holds no `" ("` |
| `CallerContext.NoColonNoFile` | graylog/index.js:148 | a frame without any `:` yields null |
| `CallerContext.NamedFrameExample` | graylog/index.js:148 | `"    at main (/app/server.js:12:7)"` yields `/app/server.js` |
| `CallerContext.UnnamedFrameExamples` | graylog/index.js:148 | frames of an anonymous function or of native code yield null |
| `Validation.CheckInit` | graylog/index.js:57-85 | `init` passes exactly when the hostname, project name and environment are non-empty strings and the port is a number. A failure names one of the four fields: that field is invalid and every field checked before it is valid |
| `Validation.ReportsFirstInvalid` | graylog/index.js:57-85 | the reported field is exactly the first invalid one in the order hostname, port, project name, environment; no other field can be reported |
| `Validation.DocExampleRejectsStringPort` | graylog/index.js:50-69 | the documented call `init('log.example.com', '12201', ...)` fails on the port |
| `Connection.InitConfig` | graylog/index.js:57-94 | a failed `init` leaves the state unchanged. A successful one stores the project name and environment it was given and a transport bound to its host and port |
| `Connection.LastInitWins` | graylog/index.js:87-94 | after a successful `init`, the state does not depend on any earlier `init` (last write wins) |
| `Connection.InitEstablishes` | graylog/index.js:73-88 | after a successful `init`, both project fields are non-empty strings and a transport exists |
| `LogRecords.PayloadOf` | graylog/index.js:124 | the record's payload is an empty object exactly when no payload was passed; otherwise it is the caller's value. `Graylog.PayloadOnlyInRecord` and `Greylog.PayloadOnlyInRecord` prove the payload affects nothing else |
| `LogRecords.CallerFrames` | graylog/index.js:144-145 | the caller frames are the lines of the stack text after the first two (none when there are fewer than two), in order. `LogRecords.CallerFramesOf` and `LogRecords.CallerFramesAfterHeader` state this for a stack given as its lines |
| `LogRecords.CallerFramesOf` | graylog/index.js:144-145 | for a stack text made of newline-free lines, the caller frames are exactly those lines after the first two |
| `LogRecords.CallerFramesAfterHeader` | graylog/index.js:143-145 | for a V8 stack (the header `Error`, the frame of `send`, then the frames of its callers), exactly the callers' frames are left |
| `LogRecords.BuildRecord` | graylog/index.js:150-161 | each record field comes from its source: short and full message and level from the arguments, project fields from the config, `stack_trace` and `file` from the caller frames, versions from the call site, payload from the argument or `{}`. `LogRecords.StackFields` gives `stack_trace` and `file` for a stack given as its frames |
| `LogRecords.StackFields` | graylog/index.js:144-157 | for a stack made of newline-free frames, `stack_trace` is the frames after the first two joined with `'\n'`, and `file` comes from the first of those frames |
| `Graylog.ResolveSeverity` | graylog/index.js:137-141 | a severity is accepted exactly when it is undefined or one of trace, debug, info, warn and error. Undefined becomes `info`; an accepted string is kept as it is |
| `Graylog.Dispatch` | graylog/index.js:124-161 | a bad message is rejected whatever the severity. Next the severity is rejected, then a missing transport fails. In a record: `full_message` is the message, `short_message` is its truncation to 50, `level` is the accepted severity, the project fields are the current config, `stack_trace` and `file` come from the caller frames, versions and payload are passed through |
| `Graylog.OmittedSeverityIsInfo` | graylog/index.js:124 | a call without a severity behaves exactly like the same call with `'info'` |
| `Graylog.PayloadOnlyInRecord` | graylog/index.js:124-160 | two calls that differ only in the payload have the same outcome, and their records differ only in `payload`, which is `{}` when the argument was left out |
| `Graylog.ShortMessageIgnored` | graylog/index.js:151 | changing the `shortMessage` argument never changes the outcome of `send` |
| `Graylog.DocExampleRejectedOnSeverity` | graylog/index.js:122-141 | the documented call, whose second argument is the short message, is rejected on the severity |
| `Graylog.FatalRejectedWarnAccepted` | graylog/index.js:137-153 | `'fatal'` is rejected as a severity; `'warn'` is accepted and becomes the record's level |
| `Graylog.Client.constructor` | graylog/index.js:18-19 | a newly loaded client has no project fields and no transport |
| `Graylog.Client.Init` | graylog/index.js:53-101 | returns the verdict of the four checks in order. The new state is `InitConfig` of the old one: unchanged on failure, overwritten on success |
| `Graylog.Client.Send` | graylog/index.js:124-162 | returns exactly what `Dispatch` gives for the client's current state |
| `Graylog.InitTwiceThenSend` | graylog/index.js:87-155 | on a new client, after two `init` calls of which the second succeeds, `send` succeeds exactly when its arguments pass. Its record carries the second call's project name and environment |
| `Greylog.TruncateString` | greylog/index.js:27-33 | a string comes back as a string. A non-string comes back unchanged exactly when its `length` is a number of at most `num`; every other non-string throws |
| `Greylog.SameAsUtils` | greylog/index.js:27-33 | on strings, this file's `truncateString` agrees with the one in graylog/utils.js on every input |
| `Greylog.ShortSource` | greylog/index.js:134 | the value truncated is `shortMessage`, or `message` when `shortMessage` is undefined. `Greylog.OmittedShortMessageIsMessage` proves that leaving it out is the same as passing the message |
| `Greylog.OmittedShortMessageIsMessage` | greylog/index.js:134-152 | a call without a `shortMessage` behaves exactly like the same call with the message passed again as `shortMessage` |
| `Greylog.OmittedSeverityIsInfo` | greylog/index.js:134 | a call without a severity behaves exactly like the same call with `'info'` |
| `Greylog.PayloadOnlyInRecord` | greylog/index.js:134-161 | two calls that differ only in the payload have the same outcome, and their records differ only in `payload`, which is `{}` when the argument was left out |
| `Greylog.Dispatch` | greylog/index.js:134-162 | only the message is checked, and the severity is never rejected. A `shortMessage` on which `truncateString` throws fails next, then a missing transport. In a record: `short_message` is the truncation of a string `shortMessage` (the message when omitted) or the non-string value itself, `full_message` is the message, `level` is the severity or `info`, and the other fields are as in the current client |
| `Greylog.NonStringShortMessages` | greylog/index.js:27-33 | a function-like `shortMessage` with `length` 2 is emitted as it is; `null` and a number make `send` fail with the `TypeError` |
| `Greylog.FatalAccepted` | greylog/index.js:134-154 | `'fatal'` is accepted and copied into the level |
| `Greylog.AgreesWithCurrentClient` | greylog/index.js:134-162 | without a `shortMessage` and with a severity the current client accepts, both clients give the same outcome and the same record |
| `Greylog.Client.constructor` | greylog/index.js:10-11 | a newly loaded client has no project fields and no transport |
| `Greylog.Client.Init` | greylog/index.js:59-107 | the same checks and the same state change as the current client's `init` |
| `Greylog.Client.Send` | greylog/index.js:134-163 | returns exactly what this client's `Dispatch` gives for its current state |

## Left out

- The GELF transport is a foreign library doing network I/O. Out of scope: the `new Gelf({...})` connection options beyond host and port, `gelf.emit` itself, and the `'error'` observer. Emission is modelled as returning the record.
- `Logger.info`/`Logger.error` lines and `process.exit(1)` are diagnostics and process control. A rejection is a returned `Rejected(field)`.
- Capturing `new Error().stack` is runtime introspection. Its text is the `stack` parameter of `CallSite`.
- `process.versions['node']` and the `package.json` dependency entry are environment metadata. They are opaque string parameters.
- The payload is an opaque value that is passed through unchanged.
- sendgrid/index.js is not part of this model. It only stores and prints an API key.
- `Truncation.TruncateString`: lengths are counted in characters, not in UTF-16 code units. A character outside the Basic Multilingual Plane counts once here and twice in JavaScript, and `slice` could split its surrogate pair.
- `Truncation.TruncateString`: the limit is a natural number. Negative or fractional limits are not modelled; both callers use the default 50.
- `Values.JsValue`: `Num` carries an integer. The checks only test `typeof`, and the port is passed on, so fractions, `NaN` and infinities are not told apart.
- `Greylog.TruncateString`: a non-string whose numeric `length` is over the limit is taken to throw. That holds for functions and for objects without a `slice` method. Any value whose prototype has `slice` (arrays, typed arrays, Buffers, `String` objects) would be cut by the source instead, and the result of `slice` joined with `"..."` into a string would be emitted.
- `Values.JsValue`: a `length` that is a string or another non-number is treated as absent. JavaScript would compare it after converting it to a number.
- `Greylog.Client.Send`: a call without any object argument throws while destructuring. Such a call is not modelled.
