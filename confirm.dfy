/**
 * The confirmation half of lib/cmdutil.js: `confirm` and `confirmFini`.
 *
 * The asynchronous operation is a one-shot state machine. The events that
 * drive it are explicit: `Begin` is the call of `confirm` itself (with the
 * result of the first `read(1)`), `Readable` is the one 'readable' event the
 * operation subscribes to (with the result of the second `read(1)`), and
 * `Immediate` is the `setImmediate` callback. A read yields one byte or
 * `None` (`null`). An event for which the operation has no handler in its
 * current phase has no effect.
 */
module Confirm {
  import opened Wrappers

  newtype byte = x: int | 0 <= x < 256

  /** `os.EOL`, taken as the POSIX line terminator. */
  const EOL: string := "\n"

  /** Init: not yet started; Pending: waiting for 'readable'; Scheduled: `setImmediate` queued; Done: callback invoked. */
  datatype Phase = Init | Pending | Scheduled | Done

  /**
   * The terminal as the operation sees it: whether input is a TTY, its raw
   * mode, what was written to the output, and every `setRawMode` call made.
   */
  datatype TermState = TermState(isTTY: bool, isRaw: bool, written: seq<string>, rawCalls: seq<bool>)

  /**
   * The fields of `cstate`. `intty` is `cf_intty`; `inraw` is `cf_inraw`,
   * `None` unless the input is a TTY; `read` is `cf_read`; `answers` lists the
   * values passed to `cf_callback`, in order.
   */
  datatype ConfirmState = ConfirmState(
    message: string, phase: Phase, intty: bool, inraw: Option<bool>, read: Option<byte>, answers: seq<bool>)

  datatype Event = Begin(firstRead: Option<byte>) | Readable(read: Option<byte>) | Immediate

  /** `cstate` as `confirm` builds it, before anything else happens. */
  function Initial(message: string): ConfirmState {
    ConfirmState(message, Init, false, None, None, [])
  }

  /** `buf.toString('utf8')` of a buffer holding the single byte `b`: ASCII, or U+FFFD for a lone non-ASCII byte. */
  function DecodeByte(b: byte): (c: char)
    ensures b < 0x80 ==> c as int == b as int
    ensures 0x80 <= b ==> c == '\U{FFFD}'
    ensures c == 'y' <==> b == 0x79
    ensures c == 'Y' <==> b == 0x59
  {
    if b < 0x80 then b as int as char else '\U{FFFD}'
  }

  /** `toLowerCase()` on the characters `DecodeByte` can produce. */
  function ToLower(c: char): (lower: char)
    ensures 'A' <= c <= 'Z' ==> lower as int == c as int + 32
    ensures !('A' <= c <= 'Z') ==> lower == c
    ensures lower == 'y' <==> c == 'y' || c == 'Y'
  {
    if 'A' <= c <= 'Z' then (c as int + 32) as char else c
  }

  /** The answer `confirmFini` passes to the callback: true exactly for a read of 'y' or 'Y'. */
  function Answer(read: Option<byte>): (yes: bool)
    ensures yes <==> read == Some(0x79) || read == Some(0x59)
  {
    read.Some? && ToLower(DecodeByte(read.value)) == 'y'
  }

  /** The call of `confirm`: switch a cooked TTY to raw, write the prompt, try one read. */
  function StartStep(s: ConfirmState, t: TermState, firstRead: Option<byte>): (r: (ConfirmState, TermState))
    ensures r.0.phase == (if firstRead.None? then Pending else Scheduled) && r.0.read == firstRead
    ensures r.0.intty == t.isTTY && r.0.inraw == (if t.isTTY then Some(t.isRaw) else None)
    ensures r.0.message == s.message && r.0.answers == s.answers
    // raw mode is on afterwards for a TTY, and only a cooked TTY is switched
    ensures r.1.isTTY == t.isTTY && r.1.isRaw == (t.isTTY || t.isRaw)
    ensures r.1.rawCalls == t.rawCalls + (if t.isTTY && !t.isRaw then [true] else [])
    ensures r.1.written == t.written + [s.message]
  {
    var intty := t.isTTY;
    var inraw := if intty then Some(t.isRaw) else None;
    var t1 := if intty && !t.isRaw then t.(isRaw := true, rawCalls := t.rawCalls + [true]) else t;
    var t2 := t1.(written := t1.written + [s.message]);
    var phase := if firstRead.None? then Pending else Scheduled;
    (s.(phase := phase, intty := intty, inraw := inraw, read := firstRead), t2)
  }

  /** `confirmFini`: write EOL, undo a raw mode this call set, invoke the callback. */
  function FiniStep(s: ConfirmState, t: TermState): (r: (ConfirmState, TermState))
    ensures r.0.phase == Done && r.0.answers == s.answers + [Answer(s.read)]
    ensures r.0.message == s.message && r.0.read == s.read && r.0.intty == s.intty && r.0.inraw == s.inraw
    // raw mode goes off exactly when this operation found a cooked TTY
    ensures r.1.isTTY == t.isTTY
    ensures r.1.isRaw == (if s.intty && s.inraw != Some(true) then false else t.isRaw)
    ensures r.1.rawCalls == t.rawCalls + (if s.intty && s.inraw != Some(true) then [false] else [])
    ensures r.1.written == t.written + [EOL]
  {
    var t1 := t.(written := t.written + [EOL]);
    var t2 := if s.intty && s.inraw != Some(true) then t1.(isRaw := false, rawCalls := t1.rawCalls + [false]) else t1;
    (s.(phase := Done, answers := s.answers + [Answer(s.read)]), t2)
  }

  /** Whether the operation has a handler for event `e` in phase `p`. */
  predicate Handled(p: Phase, e: Event) {
    (e.Begin? && p == Init) || (e.Readable? && p == Pending) || (e.Immediate? && p == Scheduled)
  }

  /** One event delivered to the operation. */
  function Step(s: ConfirmState, t: TermState, e: Event): (r: (ConfirmState, TermState))
    // an event with no handler in the current phase changes nothing; Done has no handlers left
    ensures !Handled(s.phase, e) ==> r == (s, t)
    ensures s.phase == Done ==> r == (s, t)
    // the callback log only grows, by one exactly when the step finishes the operation
    ensures s.answers <= r.0.answers
    ensures |r.0.answers| == |s.answers| + (if s.phase != Done && r.0.phase == Done then 1 else 0)
    ensures r.1.isTTY == t.isTTY && r.0.message == s.message
  {
    match e
    case Begin(r) => if s.phase == Init then StartStep(s, t, r) else (s, t)
    case Readable(r) => if s.phase == Pending then FiniStep(s.(read := r), t) else (s, t)
    case Immediate => if s.phase == Scheduled then FiniStep(s, t) else (s, t)
  }

  /** A sequence of events delivered in order. */
  function Run(s: ConfirmState, t: TermState, es: seq<Event>): (r: (ConfirmState, TermState))
    // whatever events arrive, the callback is invoked at most once more, and a Done operation stays Done
    ensures s.phase == Done ==> r.0.phase == Done
    ensures s.answers <= r.0.answers
    ensures |r.0.answers| == |s.answers| + (if s.phase != Done && r.0.phase == Done then 1 else 0)
    ensures r.1.isTTY == t.isTTY && r.0.message == s.message
    decreases |es|
  {
    if es == [] then (s, t) else
      var (s', t') := Step(s, t, es[0]);
      Run(s', t', es[1..])
  }

  /** The `setRawMode` calls `confirm` makes on terminal `t0`. */
  function RawToggle(t0: TermState): seq<bool> {
    if t0.isTTY && !t0.isRaw then [true] else []
  }

  /**
   * What holds of the operation and the terminal at every point, relative to
   * the terminal `t0` at the time of the call and the prompt `message`.
   */
  ghost predicate Consistent(s: ConfirmState, t: TermState, t0: TermState, message: string) {
    && s.message == message
    && t.isTTY == t0.isTTY
    && (s.phase == Init ==> s == Initial(message) && t == t0)
    && (s.phase != Init ==>
          && s.intty == t0.isTTY
          && s.inraw == (if t0.isTTY then Some(t0.isRaw) else None))
    && (s.phase == Pending || s.phase == Scheduled ==>
          && s.answers == []
          && (s.phase == Pending <==> s.read.None?)
          && t.isRaw == (t0.isTTY || t0.isRaw)
          && t.written == t0.written + [message]
          && t.rawCalls == t0.rawCalls + RawToggle(t0))
    && (s.phase == Done ==>
          && s.answers == [Answer(s.read)]
          && t.isRaw == t0.isRaw
          && t.written == t0.written + [message, EOL]
          && t.rawCalls == t0.rawCalls + RawToggle(t0) + (if RawToggle(t0) == [] then [] else [false]))
  }

  lemma StepConsistent(s: ConfirmState, t: TermState, t0: TermState, message: string, e: Event)
    requires Consistent(s, t, t0, message)
    ensures var (s', t') := Step(s, t, e); Consistent(s', t', t0, message)
  {
  }

  /** Every state reachable from a call of `confirm` is consistent. */
  lemma {:induction false} RunConsistent(s: ConfirmState, t: TermState, t0: TermState, message: string, es: seq<Event>)
    requires Consistent(s, t, t0, message)
    ensures var (s', t') := Run(s, t, es); Consistent(s', t', t0, message)
    decreases |es|
  {
    if es != [] {
      StepConsistent(s, t, t0, message, es[0]);
      var (s1, t1) := Step(s, t, es[0]);
      RunConsistent(s1, t1, t0, message, es[1..]);
    }
  }

  /**
   * Whatever events arrive: the callback runs at most once, and exactly once
   * when Done, with true iff 'y' or 'Y' was read; while waiting the input is
   * raw if it is a TTY; after Done the raw-mode flag is what it was; the
   * prompt is followed by exactly one EOL; raw mode is switched on and back
   * off only on a TTY that was not raw, and a non-TTY input's raw mode is
   * never touched.
   */
  lemma {:induction false} ConfirmGuarantees(message: string, t0: TermState, es: seq<Event>)
    ensures var (s, t) := Run(Initial(message), t0, es);
            && |s.answers| <= 1
            && (s.phase == Done <==> |s.answers| == 1)
            && (s.phase == Done ==> s.answers[0] == (s.read == Some(0x79) || s.read == Some(0x59)))
            && (s.phase == Done ==> t.isRaw == t0.isRaw && t.written == t0.written + [message, EOL])
            && (s.phase == Pending || s.phase == Scheduled ==> t.isRaw == (t0.isTTY || t0.isRaw))
            && (!t0.isTTY ==> t.isRaw == t0.isRaw && t.rawCalls == t0.rawCalls)
            && (t0.isTTY && t0.isRaw ==> t.rawCalls == t0.rawCalls)
            && (t0.isTTY && !t0.isRaw && s.phase == Done ==> t.rawCalls == t0.rawCalls + [true, false])
  {
    RunConsistent(Initial(message), t0, t0, message, es);
  }

  /** Once Done, later events change nothing: the callback is never invoked again. */
  lemma {:induction false} DoneIsFinal(s: ConfirmState, t: TermState, es: seq<Event>)
    requires s.phase == Done
    ensures Run(s, t, es) == (s, t)
    decreases |es|
  {
    if es != [] {
      DoneIsFinal(s, t, es[1..]);
    }
  }

  /**
   * The documented hang: a Pending operation stays Pending, with no answer,
   * for as long as no 'readable' event arrives.
   */
  lemma {:induction false} PendingAwaitsReadable(s: ConfirmState, t: TermState, es: seq<Event>)
    requires s.phase == Pending
    requires forall i :: 0 <= i < |es| ==> !es[i].Readable?
    ensures Run(s, t, es) == (s, t)
    decreases |es|
  {
    if es != [] {
      PendingAwaitsReadable(s, t, es[1..]);
    }
  }

  /**
   * A Scheduled operation stays as it is, keeping the byte read at once, for
   * as long as the `setImmediate` callback has not run: no 'readable'
   * handler is registered on this path.
   */
  lemma {:induction false} ScheduledAwaitsImmediate(s: ConfirmState, t: TermState, es: seq<Event>)
    requires s.phase == Scheduled
    requires forall i :: 0 <= i < |es| ==> !es[i].Immediate?
    ensures Run(s, t, es) == (s, t)
    decreases |es|
  {
    if es != [] {
      ScheduledAwaitsImmediate(s, t, es[1..]);
    }
  }

  /** A byte available at once schedules `confirmFini`; the `setImmediate` callback then answers on that byte. */
  lemma ImmediatePath(message: string, t0: TermState, b: byte)
    ensures var (s1, _) := Run(Initial(message), t0, [Begin(Some(b))]); s1.phase == Scheduled
    ensures var (s2, t2) := Run(Initial(message), t0, [Begin(Some(b)), Immediate]);
            s2.phase == Done && s2.answers == [Answer(Some(b))] && t2.isRaw == t0.isRaw
  {
    var (s1, t1) := Step(Initial(message), t0, Begin(Some(b)));
    assert [Begin(Some(b)), Immediate][1..] == [Immediate];
    assert Run(Initial(message), t0, [Begin(Some(b)), Immediate]) == Run(s1, t1, [Immediate]);
    assert Run(s1, t1, [Immediate]) == Step(s1, t1, Immediate);
  }

  /** No byte at once: Pending; the 'readable' handler reads again and answers on that read, `None` meaning no. */
  lemma ReadablePath(message: string, t0: TermState, r: Option<byte>)
    ensures var (s1, _) := Run(Initial(message), t0, [Begin(None)]); s1.phase == Pending
    ensures var (s2, t2) := Run(Initial(message), t0, [Begin(None), Readable(r)]);
            s2.phase == Done && s2.answers == [Answer(r)] && t2.isRaw == t0.isRaw
    ensures var (s2, _) := Run(Initial(message), t0, [Begin(None), Readable(None)]); s2.answers == [false]
  {
    var (s1, t1) := Step(Initial(message), t0, Begin(None));
    assert [Begin(None), Readable(r)][1..] == [Readable(r)];
    assert Run(Initial(message), t0, [Begin(None), Readable(r)]) == Run(s1, t1, [Readable(r)]);
    assert Run(s1, t1, [Readable(r)]) == Step(s1, t1, Readable(r));
    assert [Begin(None), Readable(None)][1..] == [Readable(None)];
    assert Run(Initial(message), t0, [Begin(None), Readable(None)]) == Run(s1, t1, [Readable(None)]);
    assert Run(s1, t1, [Readable(None)]) == Step(s1, t1, Readable(None));
  }

  /** The input stream (`isTTY`, `isRaw`, `setRawMode`) and the output stream (`write`) of `confirm`. */
  class Terminal {
    const isTTY: bool
    var isRaw: bool
    var written: seq<string>
    var rawCalls: seq<bool>

    function State(): TermState
      reads this
    {
      TermState(isTTY, isRaw, written, rawCalls)
    }

    constructor (isTTY: bool, isRaw: bool)
      ensures State() == TermState(isTTY, isRaw, [], [])
    {
      this.isTTY := isTTY;
      this.isRaw := isRaw;
      written := [];
      rawCalls := [];
    }

    /** Only a TTY stream has `setRawMode`. */
    method SetRawMode(on: bool)
      requires isTTY
      modifies this
      ensures State() == old(State()).(isRaw := on, rawCalls := old(rawCalls) + [on])
    {
      isRaw := on;
      rawCalls := rawCalls + [on];
    }

    method Write(text: string)
      modifies this
      ensures State() == old(State()).(written := old(written) + [text])
    {
      written := written + [text];
    }
  }

  /** `cstate`, together with the methods that deliver the events to it. */
  class Confirmation {
    const message: string
    const term: Terminal
    var phase: Phase
    var intty: bool
    var inraw: Option<bool>
    var read: Option<byte>
    var answers: seq<bool>
    /** The terminal at the time of the call. */
    ghost const before: TermState

    function State(): ConfirmState
      reads this
    {
      ConfirmState(message, phase, intty, inraw, read, answers)
    }

    ghost predicate Valid()
      reads this, term
    {
      Consistent(State(), term.State(), before, message)
    }

    constructor (message: string, term: Terminal)
      ensures Valid() && State() == Initial(message)
      ensures this.term == term && before == term.State()
    {
      this.message := message;
      this.term := term;
      phase := Init;
      intty := false;
      inraw := None;
      read := None;
      answers := [];
      before := term.State();
    }

    /** The body of `confirm`, given the result of its `read(1)`. */
    method Start(firstRead: Option<byte>)
      requires Valid() && phase == Init
      modifies this, term
      ensures Valid()
      ensures (State(), term.State()) == Step(old(State()), old(term.State()), Begin(firstRead))
    {
      StepConsistent(State(), term.State(), before, message, Begin(firstRead));
      intty := term.isTTY;
      if intty {
        inraw := Some(term.isRaw);
        if !term.isRaw {
          term.SetRawMode(true);
        }
      }
      term.Write(message);
      read := firstRead;
      if read.None? {
        phase := Pending;
      } else {
        phase := Scheduled;
      }
    }

    /** The 'readable' handler: read again, then finish. */
    method OnReadable(secondRead: Option<byte>)
      requires Valid() && phase == Pending
      modifies this, term
      ensures Valid()
      ensures (State(), term.State()) == Step(old(State()), old(term.State()), Readable(secondRead))
    {
      StepConsistent(State(), term.State(), before, message, Readable(secondRead));
      read := secondRead;
      Fini();
    }

    /** The `setImmediate` callback. */
    method OnImmediate()
      requires Valid() && phase == Scheduled
      modifies this, term
      ensures Valid()
      ensures (State(), term.State()) == Step(old(State()), old(term.State()), Immediate)
    {
      StepConsistent(State(), term.State(), before, message, Immediate);
      Fini();
    }

    /** `confirmFini`. */
    method Fini()
      requires phase == Pending || phase == Scheduled
      requires intty ==> term.isTTY
      modifies this, term
      ensures (State(), term.State()) == FiniStep(old(State()), old(term.State()))
    {
      term.Write(EOL);
      if intty && inraw != Some(true) {
        term.SetRawMode(false);
      }
      answers := answers + [Answer(read)];
      phase := Done;
    }
  }
}
