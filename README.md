# node-cmdutil, modelled in Dafny

This project models `lib/cmdutil.js`, a small library for command-line
programs: a process-wide configuration (program name, usage message,
synopses), the stderr messages `usage`, `warn` and `fail` built from it, and
`confirm`, an asynchronous yes/no prompt that reads one byte from the
terminal.

- `wrappers.dfy` — `Option` and `Result`.
- `messages.dfy` (module `Messages`) — the configuration as class
  `ProcessConfig` with fields `progname`, `usageMessage` and `synopses`.
  `configure` becomes the method `Configure`. It is specified by the pure
  function `AfterConfigure` on a `Settings` snapshot, and returns a `Failure`
  where the source's assertion throws. `usage`, `warn` and `fail` are
  read-only methods. `console.error` and `process.exit` are not performed:
  each method returns a `Directive`, which holds the stderr lines in order
  and the exit status, if any. `emitWarning` is the function `WarningLine`,
  built on `Message`.
- `confirm.dfy` (module `Confirm`) — the prompt as a one-shot state machine
  with phases Init, Pending, Scheduled and Done. Three events drive it:
  `Begin` (the call of `confirm` with its first `read(1)`), `Readable` (the
  `once('readable')` handler with its second read) and `Immediate` (the
  `setImmediate` callback). The pure functions `StartStep`, `FiniStep`,
  `Step` and `Run` define it. An event with no handler in the current phase
  has no effect. The classes `Terminal` and `Confirmation` hold the same
  state as objects. The postconditions of `Confirmation.Start`,
  `OnReadable` and `OnImmediate` equal `Step` on the matching event, and
  that of `Confirmation.Fini` equals `FiniStep`. `Terminal.SetRawMode` and
  `Terminal.Write` are not tied to `Step`: each states its own change to
  the terminal snapshot. The invariant `Confirmation.Valid()` is the
  predicate `Consistent`.
- `vectors.dfy` (module `Vectors`) — client methods that replay
  `examples/usage.js`, `examples/usage-warn.js`, `examples/fail-verror.js`
  and `examples/confirm.js`. They also replay the documented cases: a
  rejected configuration, 'Y', 'n', end-of-stream, and a terminal that is
  already raw. They use only the class contracts. Each method returns
  what it observed, and its postcondition states the expected output.

The source assigns before it checks, and the model keeps that order. A
rejected `configure` has already replaced `progname`. A usage message given
with an empty synopsis list is stored before the length check fails, so the
usage message and the synopses then no longer come as a pair
(`RejectedConfigureCanUnpair`). A successful `configure` keeps them paired.

## Model

| member | source | states |
|---|---|---|
| Messages.AfterConfigure | lib/cmdutil.js:25-50 | configure fails exactly when a usage message comes without synopses, synopses come without a usage message, or the synopses are empty, and it reports the matching error; progname is replaced whenever given, even if configure then fails; the usage message is stored whenever synopses are also given; synopses are stored only on success; no other field changes; synopses are never stored empty; a successful configure keeps the usage message and synopses paired |
| Messages.ConfigureIdempotent | lib/cmdutil.js:33-49 | configuring twice with the same arguments gives the same variables and the same verdict as configuring once |
| Messages.RejectedConfigureCanUnpair | lib/cmdutil.js:37-47 | a usage message with an empty synopsis list is rejected, and the usage message is still stored without synopses |
| Messages.ProcessConfig.constructor | lib/cmdutil.js:21-23 | at load time the usage message and synopses are null and progname is the given name |
| Messages.ProcessConfig.Configure | lib/cmdutil.js:25-50 | the new variables and the returned verdict are those of AfterConfigure on the old variables; synopses are never stored empty |
| Messages.ProcessConfig.Usage | lib/cmdutil.js:52-76 | fails when the usage message is unset, or when the synopses are unset; otherwise emits one warning line only if arguments were given, then one line per synopsis, of which there is always at least one (the first with "usage: ", the rest with seven spaces, each followed by progname, a space and the synopsis), then the usage message, and exits with status 2 |
| Messages.ProcessConfig.Warn | lib/cmdutil.js:78-94 | exactly one line, "progname: " followed by the error's message when the first argument is an Error and by sprintf of all arguments otherwise; no exit |
| Messages.ProcessConfig.Fail | lib/cmdutil.js:96-109 | exactly one line and always an exit; a leading number is the exit status and is dropped before the message is resolved; otherwise the status is 1 and all arguments form the message |
| Messages.Message | lib/cmdutil.js:80-86 | when the first argument is an Error, the message is that Error's message and sprintf is not consulted; otherwise it is sprintf of all the arguments, the first one included |
| Messages.WarningLine | lib/cmdutil.js:88 | the line splits back into the program name, the separator ": " and the resolved message, with nothing else |
| Confirm.Answer | lib/cmdutil.js:187-198 | the decoded, lower-cased read equals "y" exactly when a byte was read and it is 0x79 ('y') or 0x59 ('Y'); end-of-stream is no |
| Confirm.DecodeByte | lib/cmdutil.js:198 | a single byte below 0x80 decodes to the character with that code, any other to U+FFFD; the result is 'y' exactly for 0x79 and 'Y' exactly for 0x59 |
| Confirm.ToLower | lib/cmdutil.js:198 | upper-case ASCII letters move down by 32 and other characters are unchanged; the result is 'y' exactly for 'y' and 'Y' |
| Confirm.StartStep | lib/cmdutil.js:157-174 | after the call: Pending on a null first read and Scheduled otherwise, with that read stored; cf_intty is isTTY and cf_inraw is the old raw flag for a TTY and null otherwise; the input is raw exactly when it is a TTY or was already raw; setRawMode(true) is logged only for a cooked TTY; the prompt is written once; no answer yet |
| Confirm.FiniStep | lib/cmdutil.js:177-199 | Done, with Answer of the stored read appended to the callback log; one EOL written; raw mode goes off, with a setRawMode(false) logged, exactly when cf_intty holds and cf_inraw is not true, and is unchanged otherwise |
| Confirm.Step | lib/cmdutil.js:166-173 | an event with no handler in the current phase changes nothing: only the call in Init, 'readable' in Pending and the setImmediate callback in Scheduled have an effect, and a Done operation ignores every event; the callback log only grows, and by exactly one when the event finishes the operation |
| Confirm.Run | lib/cmdutil.js:166-173 | over any sequence of events, Done stays Done, the callback log only grows, and it grows by exactly one when the run reaches Done from a phase before Done, otherwise by nothing |
| Confirm.StepConsistent | lib/cmdutil.js:157-199 | each delivered event preserves the invariant relating the operation to the terminal as it was at the call |
| Confirm.RunConsistent | lib/cmdutil.js:128-200 | every state reached from a consistent state, through any sequence of events, is consistent |
| Confirm.ConfirmGuarantees | lib/cmdutil.js:157-199 | from the call, whatever events follow: the callback runs at most once, and exactly once when Done; its answer is true iff 'y' or 'Y' was read; while Pending or Scheduled a TTY input is raw; when Done, the raw flag is back to its value before the call and the output is the prompt then one EOL; a non-TTY input's raw mode and setRawMode log are untouched; an input that was already raw gets no setRawMode call; a cooked TTY gets exactly setRawMode(true) then setRawMode(false) |
| Confirm.DoneIsFinal | lib/cmdutil.js:168-173 | once Done, no later event changes anything, so the callback is never invoked a second time |
| Confirm.PendingAwaitsReadable | lib/cmdutil.js:166-171 | a Pending operation stays Pending, unanswered, as long as no 'readable' event arrives (the documented hang) |
| Confirm.ScheduledAwaitsImmediate | lib/cmdutil.js:172-174 | a Scheduled operation, whatever other events arrive before the setImmediate callback, stays as it is and keeps the byte read at once, since no 'readable' handler is registered on that path |
| Confirm.ImmediatePath | lib/cmdutil.js:166-174 | a byte available at once leads to Scheduled; the setImmediate callback then answers on that byte and restores the raw flag |
| Confirm.ReadablePath | lib/cmdutil.js:166-171 | no byte at once leads to Pending; the 'readable' handler answers on its second read, with end-of-stream meaning no, and restores the raw flag |
| Confirm.Terminal.constructor | lib/cmdutil.js:143-144 | a terminal starts with the given isTTY and raw flag, nothing written and no setRawMode call |
| Confirm.Terminal.SetRawMode | lib/cmdutil.js:161 | only a TTY can be switched; the flag takes the new value and the call is logged; nothing else changes |
| Confirm.Terminal.Write | lib/cmdutil.js:165 | appends one string to the output and changes nothing else |
| Confirm.Confirmation.constructor | lib/cmdutil.js:138-155 | cstate starts in Init with no read and no answer, bound to the given terminal |
| Confirm.Confirmation.Start | lib/cmdutil.js:157-174 | performs the Begin step: records isTTY and, for a TTY, isRaw; sets raw mode only on a TTY that is not raw; writes the prompt; goes to Pending on a null read and to Scheduled otherwise; keeps the invariant |
| Confirm.Confirmation.OnReadable | lib/cmdutil.js:168-171 | performs the Readable step: stores the second read and finishes; keeps the invariant |
| Confirm.Confirmation.OnImmediate | lib/cmdutil.js:173 | performs the Immediate step: finishes on the byte already read; keeps the invariant |
| Confirm.Confirmation.Fini | lib/cmdutil.js:177-200 | writes EOL; turns raw mode off only on a TTY that was not raw before; appends the answer to the callback log; moves to Done |
| Vectors.UsageScript | examples/usage.js:3-11 | usage() after the example configuration gives "usage: myprog fetch  [-v] URL", "       myprog upload [-v] URL FILENAME", the message, and exit 2 |
| Vectors.UsageWarnScript | examples/usage-warn.js:3-11 | usage(new Error('no URL specified')) first prints "myprog: no URL specified", then the same three lines, and exits with 2 |
| Vectors.FailScripts | examples/fail-verror.js:5-9 | with progname "myprog", fail of an Error prints "myprog: " and its message and exits with 1; fail(3, "bad thing") exits with 3 on sprintf of the rest; warn(new Error("boom")) prints "myprog: boom" without exiting; usage fails with no usage message configured |
| Vectors.RejectedConfigurations | lib/cmdutil.js:37-47 | the three rejected configure calls report their errors in turn; the last leaves its usage message stored, and usage still fails for want of synopses |
| Vectors.ConfirmYes | examples/confirm.js:2-9 | with the script's default prompt, on a cooked TTY with 'Y' read at once, the input is raw while waiting and cooked afterwards; the callback gets true; the output is the prompt then EOL; the setRawMode calls are true then false |
| Vectors.ConfirmNoAndEndOfStream | lib/cmdutil.js:166-199 | on a TTY already raw, 'n' delivered by 'readable' answers false, raw mode stays on and setRawMode is never called; on a non-TTY input, end-of-stream answers false, setRawMode is never called, and the output is the prompt then EOL |
| Vectors.ExampleLines | examples/usage.js:3-11 | the two synopsis lines of the example scripts, as the usage layout spells them |
| Vectors.ExampleConfig | examples/usage.js:3-10 | the example configuration is accepted and stores progname "myprog", the message and both synopses |

## Left out

- `exitOnEpipe` (lib/cmdutil.js:114-123): it only registers an error handler on stdout, and there is no logic in it to state.
- `console.error`, `process.exit`, `stream.write`, `setImmediate` and event delivery are not performed. Operations return their output and exit status, and the asynchronous events are explicit method calls or `Event` values.
- extsprintf's `sprintf` is the parameter `sprintf: Formatter`, an arbitrary function of the whole argument list. Its interpolation, and its assertion on a non-string format, are not modelled.
- `console.error`'s own `util.format` pass is taken as the identity on the strings it receives. Each call is one element of `lines`, even if the text holds newlines.
- assert-plus type checks (lib/cmdutil.js:27-31, 132-133) are expressed by the parameter types.
- The default `progname` from `path.basename(process.argv[1])` (lib/cmdutil.js:22) is a constructor parameter.
- Messages.ProcessConfig.Fail: a number argument is an `int`. JavaScript's non-integer, NaN and out-of-range numbers, and the operating system's truncation of exit statuses to 8 bits, are not modelled.
- `os.EOL` is the POSIX `"\n"`. Full UTF-8 decoding is left out, because one byte decodes either to an ASCII character or to U+FFFD, and `toLowerCase` is modelled only on those characters.
- stdin and stdout are one `Terminal` object: its raw flag belongs to the input stream and its `written` log to the output stream.
- The callback is a log of the values passed to it (`answers`), not a function, and what a caller does with the answer is not modelled.
- Two concurrent `confirm` calls on the same terminal are not modelled, and neither are changes to the terminal made by other code while a call is pending.
