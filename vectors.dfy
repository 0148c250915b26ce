/**
 * Clients that replay the repository's example scripts, and the cases its
 * documentation describes, against the class interfaces alone.
 */
module Vectors {
  import opened Wrappers
  import opened Messages
  import opened Confirm

  const Summary: string := "Fetch or update the contents of a remote URL."
  const Fetch: string := "fetch  [-v] URL"
  const Upload: string := "upload [-v] URL FILENAME"

  const FirstLine: string := "usage: myprog fetch  [-v] URL"
  const SecondLine: string := "       myprog upload [-v] URL FILENAME"

  /** The two synopsis lines of the example scripts, spelled out. */
  lemma ExampleLines()
    ensures FirstPrefix + "myprog" + " " + Fetch == FirstLine
    ensures OtherPrefix + "myprog" + " " + Upload == SecondLine
  {
  }

  /** The `configure` call of examples/usage.js and examples/usage-warn.js. */
  method ExampleConfig() returns (config: ProcessConfig)
    ensures config.Valid()
    ensures config.Snapshot() == Settings("myprog", Some(Summary), Some([Fetch, Upload]))
  {
    config := new ProcessConfig("usage.js");
    var ok := config.Configure(ConfigArgs(Some("myprog"), Some(Summary), Some([Fetch, Upload])));
    assert ok == Success(());
  }

  /** examples/usage.js: two synopsis lines, the message, exit status 2. */
  method UsageScript(sprintf: Formatter) returns (plain: Result<Directive, UsageError>)
    ensures plain == Success(Directive([FirstLine, SecondLine, Summary], Some(2)))
  {
    var config := ExampleConfig();
    plain := config.Usage([], sprintf);
    ExampleLines();
    assert config.synopses.value[1] == Upload;
    assert plain.value.lines == [plain.value.lines[0], plain.value.lines[1], plain.value.lines[2]];
  }

  /** examples/usage-warn.js: the Error's message as a warning line first. */
  method UsageWarnScript(sprintf: Formatter) returns (warned: Result<Directive, UsageError>)
    ensures warned == Success(Directive(["myprog: no URL specified", FirstLine, SecondLine, Summary], Some(2)))
  {
    var config := ExampleConfig();
    warned := config.Usage([ErrArg("no URL specified")], sprintf);
    ExampleLines();
    assert "myprog" + ": " + "no URL specified" == "myprog: no URL specified";
    var lines := warned.value.lines;
    assert config.synopses.value[1] == Upload;
    assert lines == [lines[0], lines[1], lines[2], lines[3]];
  }

  /**
   * examples/fail-verror.js (`fail` of an Error, whose message is `cause`),
   * `fail(3, "bad thing")`, `warn(new Error("boom"))`, and `usage` with no
   * usage message configured.
   */
  method FailScripts(sprintf: Formatter, cause: string)
    returns (d: Directive, e: Directive, w: Directive, u: Result<Directive, UsageError>)
    ensures d == Directive(["myprog: " + cause], Some(1))
    ensures e == Directive(["myprog: " + sprintf([StrArg("bad thing")])], Some(3))
    ensures w == Directive(["myprog: boom"], None)
    ensures u == Failure(NoUsageMessage)
  {
    var config := new ProcessConfig("fail-verror.js");
    var ok := config.Configure(ConfigArgs(Some("myprog"), None, None));
    assert ok == Success(()) && config.usageMessage == None && config.progname == "myprog";
    assert "myprog" + ": " == "myprog: ";
    d := config.Fail([ErrArg(cause)], sprintf);
    assert d.lines == [d.lines[0]];
    e := config.Fail([NumArg(3), StrArg("bad thing")], sprintf);
    assert e.lines == [e.lines[0]] && [NumArg(3), StrArg("bad thing")][1..] == [StrArg("bad thing")];
    w := config.Warn([ErrArg("boom")], sprintf);
    assert w.lines == [w.lines[0]] && "myprog" + ": " + "boom" == "myprog: boom";
    u := config.Usage([], sprintf);
  }

  /** The three rejected configurations in turn; the last stores its usage message, and `usage` still fails. */
  method RejectedConfigurations(sprintf: Formatter)
    returns (a: Result<(), ConfigError>, b: Result<(), ConfigError>, c: Result<(), ConfigError>,
             stored: Option<string>, u: Result<Directive, UsageError>)
    ensures a == Failure(UsageWithoutSynopses)
    ensures b == Failure(SynopsesWithoutUsage)
    ensures c == Failure(NoSynopsis) && stored == Some("x")
    ensures u == Failure(NoSynopses)
  {
    var config := new ProcessConfig("prog");
    a := config.Configure(ConfigArgs(None, Some("x"), None));
    b := config.Configure(ConfigArgs(None, None, Some(["a"])));
    c := config.Configure(ConfigArgs(None, Some("x"), Some([])));
    stored := config.usageMessage;
    u := config.Usage([], sprintf);
  }

  const DefaultPrompt: string := "Are you sure that you want to confirm? (y/[n]) "

  /** examples/confirm.js, default prompt, on a cooked TTY, 'Y' typed at once: raw while waiting, then restored. */
  method ConfirmYes() returns (answers: seq<bool>, rawWhileWaiting: bool, rawAfter: bool,
                               written: seq<string>, rawCalls: seq<bool>)
    ensures answers == [true] && rawWhileWaiting && !rawAfter
    ensures written == [DefaultPrompt, EOL] && rawCalls == [true, false]
  {
    var term := new Terminal(true, false);
    var op := new Confirmation(DefaultPrompt, term);
    op.Start(Some(0x59));
    assert op.phase == Scheduled;
    rawWhileWaiting := term.isRaw;
    op.OnImmediate();
    answers, rawAfter, written, rawCalls := op.answers, term.isRaw, term.written, term.rawCalls;
  }

  /**
   * No byte at first: on a TTY already raw, 'readable' delivers 'n' and raw
   * mode is never touched; on a non-TTY input, 'readable' finds end-of-stream.
   */
  method ConfirmNoAndEndOfStream()
    returns (no: seq<bool>, stillRaw: bool, ttyCalls: seq<bool>,
             eos: seq<bool>, pipeCalls: seq<bool>, pipeWritten: seq<string>)
    ensures no == [false] && stillRaw && ttyCalls == []
    ensures eos == [false] && pipeCalls == [] && pipeWritten == ["?", EOL]
  {
    var term := new Terminal(true, true);
    var op := new Confirmation("?", term);
    op.Start(None);
    assert op.phase == Pending;
    op.OnReadable(Some(0x6e));
    no, stillRaw, ttyCalls := op.answers, term.isRaw, term.rawCalls;

    var pipe := new Terminal(false, false);
    var op2 := new Confirmation("?", pipe);
    op2.Start(None);
    op2.OnReadable(None);
    eos, pipeCalls, pipeWritten := op2.answers, pipe.rawCalls, pipe.written;
  }
}
