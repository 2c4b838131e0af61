/** The older client (greylog/index.js): one object argument to `send`, no
    severity check, and a short message cut from `shortMessage` when given. */
module Greylog {
  import opened Values
  import Truncation
  import opened Validation
  import opened Connection
  import opened CallerContext
  import opened LogRecords
  import Graylog

  /** The default of the `severity` property. */
  const DEFAULT_SEVERITY: string := "info"

  /** This file's own `truncateString(str, num)`, applied to whatever value
      `shortMessage` holds; None where it throws a `TypeError`. A value whose
      `length` is a number of at most `num` comes back as it is; a longer
      string is cut; on any other value `length` or `slice` is missing. */
  function TruncateString(str: JsValue, num: nat): (r: Option<JsValue>)
    ensures r.Some? && !str.Str? ==> r.value == str
    ensures !str.Str? ==> (r.Some? <==> str.Other? && str.length.Some? && str.length.value <= num)
    ensures str.Str? ==> r.Some? && r.value.Str?
  {
    match str
    case Str(s) => Some(Str(if |s| <= num then s else s[..num] + "..."))
    case Other(_, Some(len)) => if len <= num then Some(str) else None
    case _ => None
  }

  /** On strings it is the rule of graylog/utils.js, so every property proved
      there holds. */
  lemma SameAsUtils(str: string, num: nat)
    ensures TruncateString(Str(str), num) == Some(Str(Truncation.TruncateString(str, num)))
  {
  }

  /** `shortMessage = message`: the value that is truncated. */
  function ShortSource(args: SendArgs): (r: JsValue)
    ensures args.shortMessage.Undefined? ==> r == args.message
    ensures !args.shortMessage.Undefined? ==> r == args.shortMessage
  {
    WithDefault(args.shortMessage, args.message)
  }

  /** What one `send({message, severity, shortMessage, payload})` call does in
      state `c`: the first failing step, or the record handed to the transport. */
  function Dispatch(c: Config, args: SendArgs, site: CallSite): (r: Result<LogRecord, SendError>)
    ensures r == Err(Rejected(Message)) <==> !IsNonEmptyString(args.message)
    ensures r.Err? ==> r.error != Rejected(Severity)
    ensures r == Err(ShortMessageTypeError) <==>
      IsNonEmptyString(args.message) && TruncateString(ShortSource(args), Truncation.DEFAULT_LIMIT).None?
    ensures r == Err(EmitNotAFunction) <==>
      IsNonEmptyString(args.message) && TruncateString(ShortSource(args), Truncation.DEFAULT_LIMIT).Some? && c.transport.None?
    ensures r.Ok? <==>
      IsNonEmptyString(args.message) && TruncateString(ShortSource(args), Truncation.DEFAULT_LIMIT).Some? && c.transport.Some?
    ensures r.Ok? ==> r.value.fullMessage == args.message.s
    ensures r.Ok? && ShortSource(args).Str? ==>
      r.value.shortMessage == Str(Truncation.TruncateString(ShortSource(args).s, Truncation.DEFAULT_LIMIT))
    ensures r.Ok? && !ShortSource(args).Str? ==> r.value.shortMessage == ShortSource(args)
    ensures r.Ok? ==> r.value.level == if args.severity.Undefined? then Str("info") else args.severity
    ensures r.Ok? ==> r.value.projectName == c.projectName && r.value.projectEnv == c.projectEnv
    ensures r.Ok? ==> r.value.stackTrace == Join(CallerFrames(site)) && r.value.file == CallerFile(CallerFrames(site))
    ensures r.Ok? ==> r.value.versionNode == site.versionNode && r.value.versionCore == site.versionCore
    ensures r.Ok? ==> r.value.payload == PayloadOf(args.payload)
  {
    if !IsNonEmptyString(args.message) then Err(Rejected(Message))
    else
      var level := WithDefault(args.severity, Str(DEFAULT_SEVERITY));
      var shortMessage := ShortSource(args);
      match TruncateString(shortMessage, Truncation.DEFAULT_LIMIT)
      case None => Err(ShortMessageTypeError)
      case Some(truncated) =>
        if c.transport.None? then Err(EmitNotAFunction)
        else
          Ok(BuildRecord(c, truncated, args.message.s, level, args.payload, site))
  }

  /** A non-string `shortMessage` with a numeric `length` of at most 50 (a
      function of two parameters, say) is emitted as it is; `null` and a
      number make `truncateString` throw. */
  lemma NonStringShortMessages(c: Config, message: string, site: CallSite, id: nat)
    requires message != "" && c.transport.Some?
    ensures Dispatch(c, SendArgs(Str(message), Undefined, Other(id, Some(2)), Undefined), site).Ok?
    ensures Dispatch(c, SendArgs(Str(message), Undefined, Other(id, Some(2)), Undefined), site).value.shortMessage
      == Other(id, Some(2))
    ensures Dispatch(c, SendArgs(Str(message), Undefined, Other(id, None), Undefined), site) == Err(ShortMessageTypeError)
    ensures Dispatch(c, SendArgs(Str(message), Undefined, Num(12201), Undefined), site) == Err(ShortMessageTypeError)
  {
  }

  /** Leaving `shortMessage` out is the same as passing the message again. */
  lemma OmittedShortMessageIsMessage(c: Config, message: string, severity: JsValue, payload: JsValue, site: CallSite)
    ensures Dispatch(c, SendArgs(Str(message), severity, Undefined, payload), site)
         == Dispatch(c, SendArgs(Str(message), severity, Str(message), payload), site)
  {
  }

  /** Leaving `severity` out is the same as passing `'info'`. */
  lemma OmittedSeverityIsInfo(c: Config, message: JsValue, shortMessage: JsValue, payload: JsValue, site: CallSite)
    ensures Dispatch(c, SendArgs(message, Undefined, shortMessage, payload), site)
         == Dispatch(c, SendArgs(message, Str("info"), shortMessage, payload), site)
  {
  }

  /** As in the current client, the payload reaches the record and nothing else. */
  lemma PayloadOnlyInRecord(c: Config, args: SendArgs, payload: JsValue, site: CallSite)
    ensures Dispatch(c, args.(payload := payload), site).Err? ==>
      Dispatch(c, args.(payload := payload), site) == Dispatch(c, args, site)
    ensures Dispatch(c, args.(payload := payload), site).Ok? <==> Dispatch(c, args, site).Ok?
    ensures Dispatch(c, args.(payload := payload), site).Ok? ==>
      Dispatch(c, args.(payload := payload), site).value == Dispatch(c, args, site).value.(payload := PayloadOf(payload))
    ensures Dispatch(c, args.(payload := Undefined), site).Ok? ==>
      Dispatch(c, args.(payload := Undefined), site).value.payload == EmptyObject
  {
  }

  /** Any severity, `'fatal'` included, is copied into `level`. */
  lemma FatalAccepted(c: Config, message: string, site: CallSite)
    requires message != "" && c.transport.Some?
    ensures Dispatch(c, SendArgs(Str(message), Str("fatal"), Undefined, Undefined), site).Ok?
    ensures Dispatch(c, SendArgs(Str(message), Str("fatal"), Undefined, Undefined), site).value.level == Str("fatal")
  {
  }

  /** Without a `shortMessage` and with a level the current client accepts, both
      clients emit the same record and fail the same way. */
  lemma AgreesWithCurrentClient(c: Config, args: SendArgs, site: CallSite)
    requires args.shortMessage.Undefined?
    requires Graylog.ResolveSeverity(args.severity).Some?
    ensures Dispatch(c, args, site) == Graylog.Dispatch(c, args, site)
  {
  }

  /** The module-level state of greylog/index.js: `config` and `gelf`. */
  class Client {
    var projectName: Option<string>
    var projectEnv: Option<string>
    var transport: Option<Endpoint>

    /** The state when the module is first required. */
    constructor ()
      ensures Snapshot() == UNSET
    {
      projectName, projectEnv, transport := None, None, None;
    }

    function Snapshot(): Config
      reads this
    {
      Config(projectName, projectEnv, transport)
    }

    /** `init(graylogHostname, graylogPort, projectName, projectEnv)`. */
    method Init(args: InitArgs) returns (r: Check)
      modifies this
      ensures r == CheckInit(args)
      ensures Snapshot() == InitConfig(old(Snapshot()), args)
    {
      if !IsNonEmptyString(args.hostname) {
        return Fail(Hostname);
      }
      if !IsNumber(args.port) {
        return Fail(Port);
      }
      if !IsNonEmptyString(args.projectName) {
        return Fail(ProjectName);
      }
      if !IsNonEmptyString(args.projectEnv) {
        return Fail(ProjectEnv);
      }
      projectName := Some(args.projectName.s);
      projectEnv := Some(args.projectEnv.s);
      transport := Some(Endpoint(args.hostname.s, args.port.n));
      r := Pass;
    }

    /** `send({message, severity, shortMessage, payload})`; the emitted record
        is the result. */
    method Send(args: SendArgs, site: CallSite) returns (r: Result<LogRecord, SendError>)
      ensures r == Dispatch(Snapshot(), args, site)
    {
      var level := WithDefault(args.severity, Str(DEFAULT_SEVERITY));
      var shortMessage := WithDefault(args.shortMessage, args.message);
      if !IsNonEmptyString(args.message) {
        return Err(Rejected(Message));
      }
      var stack := Split(site.stack);
      stack := DropFirstTwo(stack);
      var file := if |stack| > 0 then FileOf(stack[0]) else None;
      var truncated := TruncateString(shortMessage, Truncation.DEFAULT_LIMIT);
      if truncated.None? {
        return Err(ShortMessageTypeError);
      }
      if transport.None? {
        return Err(EmitNotAFunction);
      }
      r := Ok(LogRecord(truncated.value, args.message.s, level, projectName, projectEnv,
                        Join(stack), file, site.versionNode, site.versionCore, PayloadOf(args.payload)));
    }
  }
}
