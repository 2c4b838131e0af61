/** The argument checks of `init`, identical in both clients. */
module Validation {
  import opened Values

  /** The `init` argument a check is about; the diagnostic names it. */
  datatype InitField = Hostname | Port | ProjectName | ProjectEnv

  /** The verdict of the `init` checks: all passed, or the first that failed. */
  datatype Check = Pass | Fail(field: InitField)

  /** The four positional arguments of `init`. */
  datatype InitArgs = InitArgs(hostname: JsValue, port: JsValue, projectName: JsValue, projectEnv: JsValue)

  /** The position of each check in the order `init` performs them. */
  function InitRank(f: InitField): nat {
    match f
    case Hostname => 0
    case Port => 1
    case ProjectName => 2
    case ProjectEnv => 3
  }

  /** Whether the argument for `f` has the shape `init` demands: a non-empty
      string for the hostname, the project name and the environment, a number
      for the port. */
  predicate InitArgValid(args: InitArgs, f: InitField) {
    match f
    case Hostname => IsNonEmptyString(args.hostname)
    case Port => IsNumber(args.port)
    case ProjectName => IsNonEmptyString(args.projectName)
    case ProjectEnv => IsNonEmptyString(args.projectEnv)
  }

  /** The checks of `init`, in source order; the first failure stops them. */
  function CheckInit(args: InitArgs): (r: Check)
    ensures r.Pass? <==> forall f :: InitArgValid(args, f)
    ensures r.Fail? ==> !InitArgValid(args, r.field)
    ensures r.Fail? ==> forall f :: InitRank(f) < InitRank(r.field) ==> InitArgValid(args, f)
  {
    if !InitArgValid(args, Hostname) then Fail(Hostname)
    else if !InitArgValid(args, Port) then Fail(Port)
    else if !InitArgValid(args, ProjectName) then Fail(ProjectName)
    else if !InitArgValid(args, ProjectEnv) then Fail(ProjectEnv)
    else Pass
  }

  /** The reported field is determined: it is `init`'s first invalid argument
      in check order, and no other field can be reported. */
  lemma ReportsFirstInvalid(args: InitArgs, f: InitField)
    ensures CheckInit(args) == Fail(f) <==>
      && !InitArgValid(args, f)
      && forall g :: InitRank(g) < InitRank(f) ==> InitArgValid(args, g)
  {
    var r := CheckInit(args);
    if !InitArgValid(args, f) && (forall g :: InitRank(g) < InitRank(f) ==> InitArgValid(args, g)) {
      assert r.Fail?;
      var reported := r.field;
      assert InitRank(reported) < InitRank(f) ==> InitArgValid(args, reported);
      assert InitRank(f) < InitRank(reported) ==> InitArgValid(args, f);
      assert InitRank(reported) == InitRank(f);
    }
  }

  /** The port of the documented usage example is the string `'12201'`, which
      the port check rejects; the hostname before it passes. */
  lemma DocExampleRejectsStringPort()
    ensures CheckInit(InitArgs(Str("log.example.com"), Str("12201"), Str("example-project-name"), Str("local"))) == Fail(Port)
  {
  }
}
