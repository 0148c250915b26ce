/**
 * The messaging half of lib/cmdutil.js: the process-wide configuration
 * (`progname`, `usageMessage`, `synopses`), `configure`, `usage`,
 * `emitWarning`, `warn` and `fail`.
 *
 * `console.error` and `process.exit` are not performed: each operation
 * returns a Directive holding the lines it would write to stderr, in order,
 * and the exit status it would pass to `process.exit`, if any.
 * An assertion failure of assert-plus becomes a `Failure` result.
 */
module Messages {
  import opened Wrappers

  /** One argument passed to `usage`, `warn` or `fail`. */
  datatype Arg =
    | ErrArg(message: string)   // an object for which `instanceof Error` holds
    | NumArg(value: int)        // a value whose `typeof` is 'number'
    | StrArg(text: string)      // a string, usually the format of sprintf
    | OtherArg(text: string)    // any other value, by its printed form

  /** extsprintf's `sprintf` applied to a whole argument list; its interpolation is not modelled. */
  type Formatter = seq<Arg> -> string

  /** What a call asks of the process: lines for stderr, in order, and the exit status if it exits. */
  datatype Directive = Directive(lines: seq<string>, exit: Option<int>)

  /** A snapshot of the three module-level variables. */
  datatype Settings = Settings(progname: string, usageMessage: Option<string>, synopses: Option<seq<string>>)

  /** The argument object of `configure`; an absent property is `None`. */
  datatype ConfigArgs = ConfigArgs(progname: Option<string>, usageMessage: Option<string>, synopses: Option<seq<string>>)

  /** The three assertions `configure` can fail. */
  datatype ConfigError =
    | UsageWithoutSynopses   // 'cannot specify a usage message without synopses'
    | SynopsesWithoutUsage   // 'cannot specify synopses without a usage message'
    | NoSynopsis             // 'there must be at least one synopsis'

  /** The variables after a call to `configure`, and whether it returned or asserted. */
  datatype ConfigOutcome = ConfigOutcome(settings: Settings, result: Result<(), ConfigError>)

  /** The two assertions `usage` can fail. */
  datatype UsageError =
    | NoUsageMessage   // 'cannot call usage() without configuring usage message'
    | NoSynopses       // 'cannot call usage() without configuring synopses'

  const UsageStatus: int := 2
  const FailStatus: int := 1
  const FirstPrefix: string := "usage: "
  const OtherPrefix: string := "       "

  /** Synopses, once stored, are never an empty list. */
  predicate SynopsesNonEmpty(s: Settings) {
    s.synopses.Some? ==> |s.synopses.value| > 0
  }

  /** The usage message and the synopses are either both configured or both not. */
  predicate Paired(s: Settings) {
    s.usageMessage.Some? <==> s.synopses.Some?
  }

  /**
   * What `configure(a)` does to the variables `s`. Assignments happen before
   * the checks that follow them, as in the source: `progname` is replaced
   * even when an assertion later fails, and the usage message is stored
   * before the length of the synopses is checked.
   */
  function AfterConfigure(s: Settings, a: ConfigArgs): (r: ConfigOutcome)
    // the three rejected inputs, and nothing else is rejected
    ensures r.result.Failure? <==>
              (a.usageMessage.Some? != a.synopses.Some?) || (a.usageMessage.Some? && a.synopses == Some([]))
    ensures a.usageMessage.Some? && a.synopses.None? ==> r.result == Failure(UsageWithoutSynopses)
    ensures a.usageMessage.None? && a.synopses.Some? ==> r.result == Failure(SynopsesWithoutUsage)
    ensures a.usageMessage.Some? && a.synopses == Some([]) ==> r.result == Failure(NoSynopsis)
    // only the fields given are overwritten, and only those the source reached before failing
    ensures r.settings.progname == a.progname.GetOr(s.progname)
    ensures r.settings.usageMessage == (if a.usageMessage.Some? && a.synopses.Some? then a.usageMessage else s.usageMessage)
    ensures r.settings.synopses == (if r.result.Success? && a.synopses.Some? then a.synopses else s.synopses)
    // invariants
    ensures SynopsesNonEmpty(s) ==> SynopsesNonEmpty(r.settings)
    ensures r.result.Success? && Paired(s) ==> Paired(r.settings)
  {
    var s1 := if a.progname.Some? then s.(progname := a.progname.value) else s;
    if a.usageMessage.Some? && a.synopses.None? then
      ConfigOutcome(s1, Failure(UsageWithoutSynopses))
    else
      var s2 := if a.usageMessage.Some? then s1.(usageMessage := a.usageMessage) else s1;
      if a.synopses.None? then
        ConfigOutcome(s2, Success(()))
      else if a.usageMessage.None? then
        ConfigOutcome(s2, Failure(SynopsesWithoutUsage))
      else if |a.synopses.value| == 0 then
        ConfigOutcome(s2, Failure(NoSynopsis))
      else
        ConfigOutcome(s2.(synopses := a.synopses), Success(()))
  }

  /** Calling `configure` twice with the same arguments leaves what one call left, and reports the same. */
  lemma ConfigureIdempotent(s: Settings, a: ConfigArgs)
    ensures AfterConfigure(AfterConfigure(s, a).settings, a) == AfterConfigure(s, a)
  {
  }

  /** A rejected `configure` can leave a usage message stored with no synopses. */
  lemma RejectedConfigureCanUnpair()
    ensures var r := AfterConfigure(Settings("p", None, None), ConfigArgs(None, Some("m"), Some([])));
            r.result == Failure(NoSynopsis) && !Paired(r.settings)
  {
  }

  /** The message `emitWarning` reports: an Error's own message, or sprintf over all the arguments. */
  function Message(args: seq<Arg>, sprintf: Formatter): (msg: string)
    // an Error in first place decides the message alone; sprintf is then not consulted
    ensures |args| > 0 && args[0].ErrArg? ==> msg == args[0].message
    // otherwise every argument, the first included, goes to sprintf
    ensures !(|args| > 0 && args[0].ErrArg?) ==> msg == sprintf(args)
  {
    if |args| > 0 && args[0].ErrArg? then args[0].message else sprintf(args)
  }

  /** The single line `emitWarning` writes. */
  function WarningLine(progname: string, args: seq<Arg>, sprintf: Formatter): (line: string)
    // the line splits back into the program name, the separator ": " and the message
    ensures |line| == |progname| + 2 + |Message(args, sprintf)|
    ensures line[..|progname|] == progname
    ensures line[|progname|..|progname| + 2] == ": "
    ensures line[|progname| + 2..] == Message(args, sprintf)
  {
    progname + ": " + Message(args, sprintf)
  }

  /** The module-level configuration of lib/cmdutil.js. */
  class ProcessConfig {
    var progname: string
    var usageMessage: Option<string>
    var synopses: Option<seq<string>>

    function Snapshot(): Settings
      reads this
    {
      Settings(progname, usageMessage, synopses)
    }

    ghost predicate Valid()
      reads this
    {
      SynopsesNonEmpty(Snapshot())
    }

    /** The state at load time; `progname` is the base name of the script, given here. */
    constructor (progname: string)
      ensures Valid() && Paired(Snapshot())
      ensures Snapshot() == Settings(progname, None, None)
    {
      this.progname := progname;
      usageMessage := None;
      synopses := None;
    }

    /** `configure(a)`: a `Failure` where the source's assertion throws. */
    method Configure(a: ConfigArgs) returns (r: Result<(), ConfigError>)
      requires Valid()
      modifies this
      ensures Valid()
      ensures ConfigOutcome(Snapshot(), r) == AfterConfigure(old(Snapshot()), a)
    {
      if a.progname.Some? {
        progname := a.progname.value;
      }
      if a.usageMessage.Some? {
        if a.synopses.None? {
          return Failure(UsageWithoutSynopses);
        }
        usageMessage := a.usageMessage;
      }
      if a.synopses.Some? {
        if a.usageMessage.None? {
          return Failure(SynopsesWithoutUsage);
        }
        if |a.synopses.value| == 0 {
          return Failure(NoSynopsis);
        }
        synopses := a.synopses;
      }
      return Success(());
    }

    /**
     * `usage(args...)`: a warning line when arguments are given, one line per
     * synopsis, the usage message, then exit status 2.
     */
    method Usage(args: seq<Arg>, sprintf: Formatter) returns (r: Result<Directive, UsageError>)
      requires Valid()
      ensures r.Failure? <==> usageMessage.None? || synopses.None?
      ensures usageMessage.None? ==> r == Failure(NoUsageMessage)
      ensures usageMessage.Some? && synopses.None? ==> r == Failure(NoSynopses)
      ensures r.Success? ==>
                var lines, syns, w := r.value.lines, synopses.value, if |args| > 0 then 1 else 0;
                && r.value.exit == Some(UsageStatus)
                && |syns| > 0
                && |lines| == w + |syns| + 1
                && (|args| > 0 ==> lines[0] == WarningLine(progname, args, sprintf))
                && lines[w] == FirstPrefix + progname + " " + syns[0]
                && (forall k :: 0 < k < |syns| ==> lines[w + k] == OtherPrefix + progname + " " + syns[k])
                && lines[|lines| - 1] == usageMessage.value
    {
      if usageMessage.None? {
        return Failure(NoUsageMessage);
      }
      if synopses.None? {
        return Failure(NoSynopses);
      }
      var lines: seq<string> := [];
      if |args| > 0 {
        lines := [WarningLine(progname, args, sprintf)];
      }
      ghost var w := |lines|;
      var syns := synopses.value;
      var i := 0;
      while i < |syns|
        invariant 0 <= i <= |syns|
        invariant |lines| == w + i
        invariant |args| > 0 ==> lines[0] == WarningLine(progname, args, sprintf)
        invariant 0 < i ==> lines[w] == FirstPrefix + progname + " " + syns[0]
        invariant forall k :: 0 < k < i ==> lines[w + k] == OtherPrefix + progname + " " + syns[k]
      {
        if i == 0 {
          lines := lines + [FirstPrefix + progname + " " + syns[i]];
        } else {
          lines := lines + [OtherPrefix + progname + " " + syns[i]];
        }
        i := i + 1;
      }
      lines := lines + [usageMessage.value];
      return Success(Directive(lines, Some(UsageStatus)));
    }

    /** `warn(args...)`: exactly one line `progname: message`, and no exit. */
    method Warn(args: seq<Arg>, sprintf: Formatter) returns (d: Directive)
      ensures |d.lines| == 1 && d.exit == None
      ensures |args| > 0 && args[0].ErrArg? ==> d.lines[0] == progname + ": " + args[0].message
      ensures !(|args| > 0 && args[0].ErrArg?) ==> d.lines[0] == progname + ": " + sprintf(args)
    {
      d := Directive([WarningLine(progname, args, sprintf)], None);
    }

    /**
     * `fail([status], args...)`: a leading number is the exit status and is
     * not part of the message; otherwise the status is 1. Always one line,
     * always an exit.
     */
    method Fail(args: seq<Arg>, sprintf: Formatter) returns (d: Directive)
      ensures |d.lines| == 1 && d.exit.Some?
      ensures |args| > 0 && args[0].NumArg? ==>
                d.exit == Some(args[0].value) && d.lines[0] == WarningLine(progname, args[1..], sprintf)
      ensures !(|args| > 0 && args[0].NumArg?) ==>
                d.exit == Some(FailStatus) && d.lines[0] == WarningLine(progname, args, sprintf)
    {
      var status := FailStatus;
      var rest := args;
      if |rest| > 0 && rest[0].NumArg? {
        status := rest[0].value;
        rest := rest[1..];
      }
      d := Directive([WarningLine(progname, rest, sprintf)], Some(status));
    }
  }
}
