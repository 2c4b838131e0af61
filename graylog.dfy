/** The current client (graylog/index.js): positional `send` arguments, a
    checked severity, and a short message always cut from the message. */
module Graylog {
  import opened Values
  import opened Truncation
  import opened Validation
  import opened Connection
  import opened CallerContext
  import opened LogRecords

  /** The levels `send` accepts. */
  const SEVERITIES: seq<string> := ["trace", "debug", "info", "warn", "error"]

  /** The default of the `severity` parameter. */
  const DEFAULT_SEVERITY: string := "info"

  /** `severity = 'info'` followed by the `includes` check: the accepted level,
      or None when the severity is rejected. */
  function ResolveSeverity(v: JsValue): (r: Option<string>)
    ensures r.Some? <==> v.Undefined? || (v.Str? && v.s in SEVERITIES)
    ensures r.Some? ==> r.value in SEVERITIES
    ensures v.Undefined? ==> r == Some("info")
    ensures v.Str? && v.s in SEVERITIES ==> r == Some(v.s)
  {
    var severity := WithDefault(v, Str(DEFAULT_SEVERITY));
    if severity.Str? && severity.s in SEVERITIES then Some(severity.s) else None
  }

  /** What one `send(message, severity, shortMessage, payload)` call does in state
      `c`: the first failing step, or the record handed to the transport. */
  function Dispatch(c: Config, args: SendArgs, site: CallSite): (r: Result<LogRecord, SendError>)
    ensures r == Err(Rejected(Message)) <==> !IsNonEmptyString(args.message)
    ensures r == Err(Rejected(Severity)) <==> IsNonEmptyString(args.message) && ResolveSeverity(args.severity).None?
    ensures r == Err(EmitNotAFunction) <==>
      IsNonEmptyString(args.message) && ResolveSeverity(args.severity).Some? && c.transport.None?
    ensures r.Ok? <==> IsNonEmptyString(args.message) && ResolveSeverity(args.severity).Some? && c.transport.Some?
    ensures r.Ok? ==> r.value.fullMessage == args.message.s
    ensures r.Ok? ==> r.value.shortMessage == Str(TruncateString(args.message.s, DEFAULT_LIMIT))
    ensures r.Ok? ==> r.value.level.Str? && Some(r.value.level.s) == ResolveSeverity(args.severity)
    ensures r.Ok? ==> r.value.level.s in SEVERITIES
    ensures r.Ok? ==> r.value.projectName == c.projectName && r.value.projectEnv == c.projectEnv
    ensures r.Ok? ==> r.value.stackTrace == Join(CallerFrames(site)) && r.value.file == CallerFile(CallerFrames(site))
    ensures r.Ok? ==> r.value.versionNode == site.versionNode && r.value.versionCore == site.versionCore
    ensures r.Ok? ==> r.value.payload == PayloadOf(args.payload)
  {
    if !IsNonEmptyString(args.message) then Err(Rejected(Message))
    else
      match ResolveSeverity(args.severity)
      case None => Err(Rejected(Severity))
      case Some(level) =>
        if c.transport.None? then Err(EmitNotAFunction)
        else Ok(BuildRecord(c, Str(TruncateString(args.message.s, DEFAULT_LIMIT)), args.message.s, Str(level), args.payload, site))
  }

  /** The `shortMessage` argument has no effect on what `send` does. */
  lemma ShortMessageIgnored(c: Config, args: SendArgs, other: JsValue, site: CallSite)
    ensures Dispatch(c, args.(shortMessage := other), site) == Dispatch(c, args, site)
  {
  }

  /** Leaving `severity` out is the same as passing `'info'`. */
  lemma OmittedSeverityIsInfo(c: Config, message: JsValue, shortMessage: JsValue, payload: JsValue, site: CallSite)
    ensures Dispatch(c, SendArgs(message, Undefined, shortMessage, payload), site)
         == Dispatch(c, SendArgs(message, Str("info"), shortMessage, payload), site)
  {
  }

  /** The payload reaches the record and nothing else: two calls that differ
      only in it have the same outcome, and their records differ only in the
      `payload` field, which is `{}` when the argument was left out. */
  lemma PayloadOnlyInRecord(c: Config, args: SendArgs, payload: JsValue, site: CallSite)
    ensures Dispatch(c, args.(payload := payload), site).Err? ==>
      Dispatch(c, args.(payload := payload), site) == Dispatch(c, args, site)
    ensures Dispatch(c, args.(payload := payload), site).Ok? <==> Dispatch(c, args, site).Ok?
    ensures Dispatch(c, args.(payload := payload), site).Ok? ==>
      Dispatch(c, args.(payload := payload), site).value == Dispatch(c, args, site).value.(payload := PayloadOf(payload))
    ensures Dispatch(c, args.(payload := Undefined), site).Ok? ==>
      Dispatch(c, args.(payload := Undefined), site).value.payload == EmptyObject
  {
  }

  /** The documented call `send('There was an error that happened.', 'This is
      the error', 'error', {test: 123})` puts the short message where the
      severity goes, so it is rejected on the severity. */
  lemma DocExampleRejectedOnSeverity(c: Config, payload: JsValue, site: CallSite)
    ensures Dispatch(c, SendArgs(Str("There was an error that happened."), Str("This is the error"), Str("error"), payload), site)
         == Err(Rejected(Severity))
  {
  }

  /** `'fatal'` is not a level of this client; `'warn'` is, and is copied. */
  lemma FatalRejectedWarnAccepted(c: Config, message: string, shortMessage: JsValue, payload: JsValue, site: CallSite)
    requires message != ""
    ensures Dispatch(c, SendArgs(Str(message), Str("fatal"), shortMessage, payload), site) == Err(Rejected(Severity))
    ensures c.transport.Some? ==>
      Dispatch(c, SendArgs(Str(message), Str("warn"), shortMessage, payload), site).Ok? &&
      Dispatch(c, SendArgs(Str(message), Str("warn"), shortMessage, payload), site).value.level == Str("warn")
  {
  }

  /** The module-level state of graylog/index.js: `config` and `gelf`. */
  class Client {
    var projectName: Option<string>
    var projectEnv: Option<string>
    var transport: Option<Endpoint>

    /** The state when the module is first required. */
    constructor ()
      ensures Snapshot() == UNSET
    {
      projectName, projectEnv, transport := None, None, None;
    }

    function Snapshot(): Config
      reads this
    {
      Config(projectName, projectEnv, transport)
    }

    /** `init(graylogHostname, graylogPort, projectName, projectEnv)`. */
    method Init(args: InitArgs) returns (r: Check)
      modifies this
      ensures r == CheckInit(args)
      ensures Snapshot() == InitConfig(old(Snapshot()), args)
    {
      if !IsNonEmptyString(args.hostname) {
        return Fail(Hostname);
      }
      if !IsNumber(args.port) {
        return Fail(Port);
      }
      if !IsNonEmptyString(args.projectName) {
        return Fail(ProjectName);
      }
      if !IsNonEmptyString(args.projectEnv) {
        return Fail(ProjectEnv);
      }
      projectName := Some(args.projectName.s);
      projectEnv := Some(args.projectEnv.s);
      transport := Some(Endpoint(args.hostname.s, args.port.n));
      r := Pass;
    }

    /** `send(message, severity, shortMessage, payload)`; the emitted record is
        the result. */
    method Send(args: SendArgs, site: CallSite) returns (r: Result<LogRecord, SendError>)
      ensures r == Dispatch(Snapshot(), args, site)
    {
      if !IsNonEmptyString(args.message) {
        return Err(Rejected(Message));
      }
      var severity := WithDefault(args.severity, Str(DEFAULT_SEVERITY));
      if !(severity.Str? && severity.s in SEVERITIES) {
        return Err(Rejected(Severity));
      }
      var stack := Split(site.stack);
      stack := DropFirstTwo(stack);
      var file := if |stack| > 0 then FileOf(stack[0]) else None;
      var shortMessage := TruncateString(args.message.s, DEFAULT_LIMIT);
      if transport.None? {
        return Err(EmitNotAFunction);
      }
      r := Ok(LogRecord(Str(shortMessage), args.message.s, severity, projectName, projectEnv,
                        Join(stack), file, site.versionNode, site.versionCore, PayloadOf(args.payload)));
    }
  }

  /** Two `init` calls on a fresh client, then one `send`: the record carries
      the project of the second call, whatever the first one did. */
  method InitTwiceThenSend(first: InitArgs, second: InitArgs, args: SendArgs, site: CallSite)
    returns (r: Result<LogRecord, SendError>)
    requires CheckInit(second).Pass?
    ensures r.Ok? <==> IsNonEmptyString(args.message) && ResolveSeverity(args.severity).Some?
    ensures r.Ok? ==> r.value.projectName.Some? && Str(r.value.projectName.value) == second.projectName
    ensures r.Ok? ==> r.value.projectEnv.Some? && Str(r.value.projectEnv.value) == second.projectEnv
  {
    var client := new Client();
    var _ := client.Init(first);
    var _ := client.Init(second);
    r := client.Send(args, site);
  }
}
