/** The arguments of `send` and the record it hands to the transport; the
    record literal is the same in both clients except for `short_message`. */
module LogRecords {
  import opened Values
  import opened Connection
  import opened CallerContext

  /** The four inputs of `send`: positional arguments in the current client,
      properties of the single object argument in the older one. A missing one
      is `Undefined`. */
  datatype SendArgs = SendArgs(message: JsValue, severity: JsValue, shortMessage: JsValue, payload: JsValue)

  /** What `send` reads from its environment: the text of `new Error().stack`,
      `process.versions['node']` and the declared `@neobeach/core` version. */
  datatype CallSite = CallSite(stack: string, versionNode: string, versionCore: string)

  /** The `payload` field: the caller's value, or the fresh `{}` of the default. */
  datatype Payload = EmptyObject | Given(value: JsValue)

  /** The object passed to `gelf.emit('gelf.log', ...)`. The short message is
      whatever `truncateString` returned: a string, or in the older client a
      non-string value it handed back unchanged. */
  datatype LogRecord = LogRecord(
    shortMessage: JsValue,
    fullMessage: string,
    level: JsValue,
    projectName: Option<string>,
    projectEnv: Option<string>,
    stackTrace: string,
    file: Option<string>,
    versionNode: string,
    versionCore: string,
    payload: Payload)

  /** The `send` argument a check is about; the diagnostic names it. */
  datatype SendField = Message | Severity

  /** Why `send` produced no record: a rejected argument (the source logs it and
      exits the process), a `TypeError` thrown by the older client's
      `truncateString` on a value that is not a string (null, numbers, booleans,
      objects without a numeric `length`), or a `TypeError` because `gelf.emit`
      is not a function before any successful `init`. The model also counts a
      non-string whose numeric `length` is over the limit as throwing, which
      the source does only when the value has no `slice` method (see
      `Greylog.TruncateString`). */
  datatype SendError = Rejected(field: SendField) | ShortMessageTypeError | EmitNotAFunction

  function PayloadOf(v: JsValue): (p: Payload)
    ensures p == EmptyObject <==> v.Undefined?
    ensures p.Given? ==> p.value == v
  {
    if v.Undefined? then EmptyObject else Given(v)
  }

  /** The frames of the application code that called `send`: the lines of
      the stack text after the first two. */
  function CallerFrames(site: CallSite): (r: seq<string>)
    ensures |r| == if |Split(site.stack)| < 2 then 0 else |Split(site.stack)| - 2
    ensures forall i :: 0 <= i < |r| ==> r[i] == Split(site.stack)[i + 2]
  {
    DropFirstTwo(Split(site.stack))
  }

  /** The record literal, once the short message and the level are known. */
  function BuildRecord(c: Config, shortMessage: JsValue, message: string, level: JsValue, payload: JsValue, site: CallSite): (rec: LogRecord)
    ensures rec.shortMessage == shortMessage && rec.fullMessage == message && rec.level == level
    ensures rec.projectName == c.projectName && rec.projectEnv == c.projectEnv
    ensures rec.stackTrace == Join(CallerFrames(site)) && rec.file == CallerFile(CallerFrames(site))
    ensures rec.versionNode == site.versionNode && rec.versionCore == site.versionCore
    ensures rec.payload == PayloadOf(payload)
  {
    var frames := CallerFrames(site);
    LogRecord(shortMessage, message, level, c.projectName, c.projectEnv,
              Join(frames), CallerFile(frames), site.versionNode, site.versionCore, PayloadOf(payload))
  }

  /** When the stack text is made of the lines `frames` (none holding a
      newline), the caller frames are those lines after the first two. */
  lemma CallerFramesOf(site: CallSite, frames: seq<string>)
    requires |frames| >= 1
    requires forall i :: 0 <= i < |frames| ==> NEWLINE !in frames[i]
    requires site.stack == Join(frames)
    ensures CallerFrames(site) == DropFirstTwo(frames)
  {
    SplitJoin(frames);
  }

  /** A V8 stack text: the header line `Error`, the frame of `send` itself, then
      the frames of the code that called it. Exactly those callers are left. */
  lemma CallerFramesAfterHeader(site: CallSite, sendFrame: string, callers: seq<string>)
    requires NEWLINE !in sendFrame
    requires forall i :: 0 <= i < |callers| ==> NEWLINE !in callers[i]
    requires site.stack == Join(["Error", sendFrame] + callers)
    ensures CallerFrames(site) == callers
  {
    var lines := ["Error", sendFrame] + callers;
    assert NEWLINE !in "Error";
    assert lines[2..] == callers;
    assert DropFirstTwo(lines) == callers;
    forall i | 0 <= i < |lines|
      ensures NEWLINE !in lines[i]
    {
      if i == 0 {
        assert lines[0] == "Error";
      } else if i == 1 {
        assert lines[1] == sendFrame;
      } else {
        assert lines[i] == callers[i - 2];
      }
    }
    CallerFramesOf(site, lines);
  }

  /** When the stack text is made of the frames `frames` (none holding a
      newline), `stack_trace` is those frames minus the first two, joined, and
      `file` comes from the first of the rest. */
  lemma StackFields(c: Config, shortMessage: JsValue, message: string, level: JsValue, payload: JsValue,
                    site: CallSite, frames: seq<string>)
    requires |frames| >= 1
    requires forall i :: 0 <= i < |frames| ==> NEWLINE !in frames[i]
    requires site.stack == Join(frames)
    ensures BuildRecord(c, shortMessage, message, level, payload, site).stackTrace == Join(DropFirstTwo(frames))
    ensures BuildRecord(c, shortMessage, message, level, payload, site).file == CallerFile(DropFirstTwo(frames))
  {
    CallerFramesOf(site, frames);
  }
}
