/** The interactive side of src/repl.rs: `parse_command`, which turns one
    typed line into a front-end command, and the input loop of `run_repl`,
    which decides which commands reach the command queue and when input
    stops. Line editing is left to the terminal library; each line arrives
    here already read. */
module Repl {
  import opened Wrappers
  import opened Protocol
  import opened Sequences

  // ----- Rust's `str::trim` -----

  /** `char::is_whitespace`: the Unicode `White_Space` property. */
  predicate IsWhitespace(c: char) {
    var n := c as int;
    n == 0x20 || (0x09 <= n <= 0x0D) || n == 0x85 || n == 0xA0 || n == 0x1680
    || (0x2000 <= n <= 0x200A) || n == 0x2028 || n == 0x2029 || n == 0x202F
    || n == 0x205F || n == 0x3000
  }

  predicate AllWhitespace(s: string) {
    forall i :: 0 <= i < |s| ==> IsWhitespace(s[i])
  }

  /** `trim_start`. */
  function TrimStart(s: string): string {
    if s != [] && IsWhitespace(s[0]) then TrimStart(s[1..]) else s
  }

  /** `trim_end`. */
  function TrimEnd(s: string): string {
    if s != [] && IsWhitespace(s[|s| - 1]) then TrimEnd(s[..|s| - 1]) else s
  }

  /** `trim`: both ends. What is left starts and ends with a character that
      is not whitespace, and is empty exactly for an all-whitespace line. */
  function Trim(s: string): (r: string)
    ensures |r| <= |s|
    ensures r == [] || (!IsWhitespace(r[0]) && !IsWhitespace(r[|r| - 1]))
    ensures r == [] <==> AllWhitespace(s)
  {
    var a := TrimStart(s);
    TrimStartSplits(s);
    TrimEndSplits(a);
    var r := TrimEnd(a);
    assert r != [] ==> r[0] == a[0];
    assert AllWhitespace(s) ==> a == [] by {
      if a != [] {
        assert a[0] == s[|s| - |a|];
      }
    }
    assert r == [] ==> AllWhitespace(s) by {
      if r == [] {
        assert a == s[|s| - |a|..];
        assert s == s[..|s| - |a|] + a;
      }
    }
    r
  }

  /** `TrimStart` keeps a suffix that does not start with whitespace, having
      dropped only whitespace. */
  lemma {:induction false} TrimStartSplits(s: string)
    ensures var r := TrimStart(s);
      |r| <= |s| && s == s[..|s| - |r|] + r && AllWhitespace(s[..|s| - |r|])
      && (r == [] || !IsWhitespace(r[0]))
  {
    if s != [] && IsWhitespace(s[0]) {
      TrimStartSplits(s[1..]);
      var r := TrimStart(s);
      assert s[..|s| - |r|] == [s[0]] + s[1..][..|s| - 1 - |r|];
    }
  }

  /** `TrimEnd` keeps a prefix that does not end with whitespace, having
      dropped only whitespace. */
  lemma {:induction false} TrimEndSplits(s: string)
    ensures var r := TrimEnd(s);
      |r| <= |s| && s == r + s[|r|..] && AllWhitespace(s[|r|..])
      && (r == [] || !IsWhitespace(r[|r| - 1]))
  {
    if s != [] && IsWhitespace(s[|s| - 1]) {
      var init := s[..|s| - 1];
      TrimEndSplits(init);
      var r := TrimEnd(s);
      assert s[|r|..] == init[|r|..] + [s[|s| - 1]];
    }
  }

  /** Whatever whitespace precedes the first other character, `TrimStart`
      drops exactly that. */
  lemma {:induction false} TrimStartOf(w: string, r: string)
    requires AllWhitespace(w)
    requires r == [] || !IsWhitespace(r[0])
    ensures TrimStart(w + r) == r
  {
    if w != [] {
      assert (w + r)[1..] == w[1..] + r;
      TrimStartOf(w[1..], r);
    }
  }

  lemma {:induction false} TrimEndOf(r: string, w: string)
    requires AllWhitespace(w)
    requires r == [] || !IsWhitespace(r[|r| - 1])
    ensures TrimEnd(r + w) == r
  {
    if w != [] {
      var last := |r + w| - 1;
      assert (r + w)[..last] == r + w[..|w| - 1];
      TrimEndOf(r, w[..|w| - 1]);
    }
  }

  /** Surrounding a line with more whitespace does not change what it trims
      to. */
  lemma TrimIgnoresPadding(before: string, line: string, after: string)
    requires AllWhitespace(before) && AllWhitespace(after)
    ensures Trim(before + line + after) == Trim(line)
  {
    TrimStartSplits(line);
    var a := TrimStart(line);
    var w1 := line[..|line| - |a|];
    assert line == w1 + a;
    if a == [] {
      BlankPadded(before, line, after);
    } else {
      TextPadded(before, w1, a, after);
    }
  }

  lemma AllWhitespaceConcat(a: string, b: string)
    requires AllWhitespace(a) && AllWhitespace(b)
    ensures AllWhitespace(a + b)
  {
  }

  lemma BlankPadded(before: string, line: string, after: string)
    requires AllWhitespace(before) && AllWhitespace(line) && AllWhitespace(after)
    ensures Trim(before + line + after) == []
  {
    AllWhitespaceConcat(before, line);
    AllWhitespaceConcat(before + line, after);
    TrimStartOf(before + line + after, []);
    assert before + line + after + [] == before + line + after;
  }

  lemma TextPadded(before: string, w1: string, a: string, after: string)
    requires AllWhitespace(before) && AllWhitespace(w1) && AllWhitespace(after)
    requires a != [] && !IsWhitespace(a[0])
    ensures Trim(before + (w1 + a) + after) == TrimEnd(a)
  {
    TrimEndSplits(a);
    var b := TrimEnd(a);
    var w2 := a[|b|..];
    assert a == b + w2;
    assert b != [] && b[0] == a[0];
    AllWhitespaceConcat(before, w1);
    AllWhitespaceConcat(w2, after);
    var rest := b + (w2 + after);
    Associative(b, w2, after);
    Associative(w1, a, after);
    Associative(before, w1, a + after);
    Associative(before, w1 + a, after);
    assert before + (w1 + a) + after == (before + w1) + rest;
    TrimStartOf(before + w1, rest);
    TrimEndOf(b, w2 + after);
  }

  // ----- `parse_command` -----

  /** Why a line yields no command: `help` printed the help text (its error
      message is empty, so nothing more is shown), or the line is not a
      command. */
  datatype ParseError = HelpShown | Unknown

  const ChangePrefix: string := "change "

  predicate StartsWith(s: string, prefix: string) {
    |prefix| <= |s| && s[..|prefix|] == prefix
  }

  /** `trim_start_matches("change ")`: drop every leading repetition of the
      prefix. */
  function StripChange(s: string): (r: string)
    ensures |r| <= |s| && r == s[|s| - |r|..]
    ensures !StartsWith(r, ChangePrefix)
    ensures r == [] ==> s == [] || s[|s| - 1] == ' '
    decreases |s|
  {
    if StartsWith(s, ChangePrefix) then StripChange(s[|ChangePrefix|..]) else s
  }

  /** `n` copies of the prefix, one after another. */
  function Copies(n: nat): (r: string)
    ensures |r| == |ChangePrefix| * n
  {
    if n == 0 then [] else ChangePrefix + Copies(n - 1)
  }

  /** `StripChange` drops exactly the leading copies of the prefix: a line
      made of `n` copies followed by text that does not start with the
      prefix is stripped to that text. Every line splits this way, so this
      fixes `StripChange` everywhere; with `n == 0` it keeps a line without
      the prefix as it is. */
  lemma StripChangeDropsCopies(n: nat, rest: string)
    requires !StartsWith(rest, ChangePrefix)
    ensures StripChange(Copies(n) + rest) == rest
  {
    StripCopies(n, rest);
  }

  /** Leading copies of the prefix make no difference to the stripped line. */
  lemma {:induction false} StripCopies(n: nat, s: string)
    ensures StripChange(Copies(n) + s) == StripChange(s)
  {
    if n == 0 {
      assert Copies(n) + s == s;
    } else {
      var k: nat := n - 1;
      assert k + 1 == n;
      assert Copies(k + 1) == Copies(n);
      StripLeadingCopy(k, s);
      assert StripChange(Copies(n) + s) == StripChange(Copies(k) + s);
      StripCopies(k, s);
    }
  }

  lemma StripLeadingCopy(k: nat, s: string)
    ensures StripChange(Copies(k + 1) + s) == StripChange(Copies(k) + s)
  {
    assert Copies(k + 1) == ChangePrefix + Copies(k);
    Associative(ChangePrefix, Copies(k), s);
    StripOneCopy(Copies(k) + s);
  }

  lemma StripOneCopy(s: string)
    ensures StripChange(ChangePrefix + s) == StripChange(s)
  {
    var t := ChangePrefix + s;
    assert t[..|ChangePrefix|] == ChangePrefix;
    assert t[|ChangePrefix|..] == s;
  }

  /** A line becomes a command; a change request always carries a
      describable text, and only `help` shows the help. */
  function ParseCommand(line: string): (r: Result<FrontendCommand, ParseError>)
    ensures r.Ok? && r.value.ChangeRequest? ==> Describable(r.value.description)
    ensures r == Err(HelpShown) <==> Trim(line) == "help"
  {
    var cmd := Trim(line);
    assert IsWhitespace(' ');
    if cmd == "start" then Ok(FrontendCommand.StartActor)
    else if cmd == "stop" then Ok(StopActor)
    else if cmd == "build" then Ok(BuildActor)
    else if cmd == "status" then Ok(GetStatus)
    else if cmd == "exit" || cmd == "quit" then Ok(Disconnect)
    else if StartsWith(cmd, ChangePrefix) then Ok(ChangeRequest(StripChange(cmd)))
    else if cmd == "help" then Err(HelpShown)
    else Err(Unknown)
  }

  /** A description that a typed `change` line can carry: not empty, not
      ending in whitespace (trimming would eat it), and not itself starting
      with the prefix (stripping would eat it). */
  predicate Describable(d: string) {
    d != [] && !IsWhitespace(d[|d| - 1]) && !StartsWith(d, ChangePrefix)
  }

  /** The line a user types for a command. */
  function CommandLine(c: FrontendCommand): string {
    match c
    case StartActor => "start"
    case StopActor => "stop"
    case BuildActor => "build"
    case ChangeRequest(d) => ChangePrefix + d
    case GetStatus => "status"
    case Disconnect => "exit"
  }

  /** Typing a command's line gives that command back. */
  lemma ParseCommandLine(c: FrontendCommand)
    requires c.ChangeRequest? ==> Describable(c.description)
    ensures ParseCommand(CommandLine(c)) == Ok(c)
  {
    if c.ChangeRequest? {
      ParseChangeLine(c.description);
    } else {
      Untrimmed(CommandLine(c));
    }
  }

  /** A line with no whitespace at either end is its own trim. */
  lemma Untrimmed(line: string)
    requires line != [] && !IsWhitespace(line[0]) && !IsWhitespace(line[|line| - 1])
    ensures Trim(line) == line
  {
    TrimStartOf([], line);
    assert [] + line == line;
    TrimEndOf(line, []);
    assert line + [] == line;
  }

  lemma ParseChangeLine(d: string)
    requires Describable(d)
    ensures ParseCommand(ChangePrefix + d) == Ok(ChangeRequest(d))
  {
    var line := ChangePrefix + d;
    Untrimmed(line);
    assert StartsWith(line, ChangePrefix);
    assert line[|ChangePrefix|..] == d;
    assert |line| > 6;
    assert StripChange(d) == d;
    assert StripChange(line) == d;
  }

  /** Repeating the prefix changes nothing: `change change … <d>` is still a
      change request for `d`. */
  lemma ParseRepeatedChange(n: nat, d: string)
    requires Describable(d)
    ensures ParseCommand(Copies(n + 1) + d) == Ok(ChangeRequest(d))
  {
    var e := Copies(n) + d;
    assert Copies(n + 1) == ChangePrefix + Copies(n);
    Associative(ChangePrefix, Copies(n), d);
    StripChangeDropsCopies(n, d);
    assert e[|e| - 1] == d[|d| - 1];
    ParsePrefixed(e);
  }

  /** A line that is the prefix followed by text with no trailing whitespace
      is a change request for whatever stripping the text leaves. */
  lemma ParsePrefixed(e: string)
    requires e != [] && !IsWhitespace(e[|e| - 1])
    ensures ParseCommand(ChangePrefix + e) == Ok(ChangeRequest(StripChange(e)))
  {
    PrefixedUntrimmed(e);
    ParseChangeForm(ChangePrefix + e);
    StripOneCopy(e);
  }

  lemma PrefixedUntrimmed(e: string)
    requires e != [] && !IsWhitespace(e[|e| - 1])
    ensures Trim(ChangePrefix + e) == ChangePrefix + e && StartsWith(ChangePrefix + e, ChangePrefix)
  {
    var line := ChangePrefix + e;
    assert line[|line| - 1] == e[|e| - 1];
    Untrimmed(line);
    assert line[..|ChangePrefix|] == ChangePrefix;
  }

  lemma ParseChangeForm(line: string)
    requires Trim(line) == line && StartsWith(line, ChangePrefix)
    ensures ParseCommand(line) == Ok(ChangeRequest(StripChange(line)))
  {
    var cmd := Trim(line);
    assert |cmd| >= 7;
    assert cmd != "start" && cmd != "stop" && cmd != "build" && cmd != "status";
    assert cmd != "exit" && cmd != "quit";
    assert StartsWith(cmd, ChangePrefix);
    assert ParseCommand(line) == Ok(ChangeRequest(StripChange(cmd)));
  }

  /** `quit` is the other spelling of `exit`. */
  lemma ParseQuit()
    ensures ParseCommand("quit") == Ok(Disconnect)
  {
    Untrimmed("quit");
  }

  /** A doubled prefix is dropped whole. */
  lemma ParseDoubledChange()
    ensures ParseCommand("change change x") == Ok(ChangeRequest("x"))
  {
    assert Describable("x");
    ParseRepeatedChange(1, "x");
    assert Copies(1) == ChangePrefix;
    assert Copies(2) + "x" == "change change x";
  }

  /** The canonical line of any command a line parses to parses back to
      that same command. (A line need not be canonical itself: `quit` and
      `change change x` are not.) */
  lemma ParseCommandCanonical(line: string)
    requires ParseCommand(line).Ok?
    ensures var c := ParseCommand(line).value;
      (c.ChangeRequest? ==> Describable(c.description)) && ParseCommand(CommandLine(c)) == Ok(c)
  {
    ParseCommandLine(ParseCommand(line).value);
  }

  /** Whitespace around a line is ignored. */
  lemma ParseIgnoresPadding(before: string, line: string, after: string)
    requires AllWhitespace(before) && AllWhitespace(after)
    ensures ParseCommand(before + line + after) == ParseCommand(line)
  {
    TrimIgnoresPadding(before, line, after);
  }

  /** A line gives a command exactly when, trimmed, it is one of the six
      command words or starts with the `change ` prefix. */
  lemma OnlyKnownLinesParse(line: string)
    ensures var t := Trim(line);
      ParseCommand(line).Ok? <==>
        (t == "start" || t == "stop" || t == "build" || t == "status" || t == "exit" || t == "quit"
         || StartsWith(t, ChangePrefix))
  {
  }

  /** Every line that is not a command and not `help` gets the
      unknown-command error. */
  lemma UnknownRejected(line: string)
    requires var t := Trim(line);
      t != "start" && t != "stop" && t != "build" && t != "status" && t != "exit" && t != "quit"
      && t != "help" && !StartsWith(t, ChangePrefix)
    ensures ParseCommand(line) == Err(Unknown)
  {
  }

  /** Examples: `help`, a bare `change` (with or without padding), and an
      unknown word yield no command. */
  lemma NonCommandsRejected()
    ensures ParseCommand("help") == Err(HelpShown)
    ensures ParseCommand("change") == Err(Unknown)
    ensures ParseCommand("change  ") == Err(Unknown)
    ensures ParseCommand("launch") == Err(Unknown)
  {
    Untrimmed("help");
    Untrimmed("change");
    Untrimmed("launch");
    ParseIgnoresPadding([], "change", "  ");
    assert [] + "change" + "  " == "change  ";
  }

  // ----- the input loop of `run_repl` -----

  /** What one prompt returns: a line, Ctrl-C, Ctrl-D, or another error of
      the line editor. */
  datatype ReadOutcome = Line(text: string) | Interrupted | EndOfInput | ReadFailed(message: string)

  /** One prompt: what was read, and whether the command queue still had its
      receiver when the loop tried to enqueue (sending on a queue whose
      receiver is gone fails). */
  datatype Input = Input(outcome: ReadOutcome, queueOpen: bool)

  /** What handling one input puts on the command queue. */
  function Enqueue(input: Input): seq<FrontendCommand> {
    if !input.queueOpen then []
    else
      match input.outcome
      case Line(text) => if ParseCommand(text).Ok? then [ParseCommand(text).value] else []
      case Interrupted => [Disconnect]
      case EndOfInput => [Disconnect]
      case ReadFailed(_) => []
  }

  /** Handling this input ends the loop: a parsed `Disconnect`, a failed
      enqueue, Ctrl-C, Ctrl-D, or a read error. A line that does not parse
      never does. */
  predicate Stops(input: Input) {
    match input.outcome
    case Line(text) => ParseCommand(text).Ok? && (ParseCommand(text).value.Disconnect? || !input.queueOpen)
    case _ => true
  }

  /** Everything the loop enqueues, input by input, until one stops it. */
  function Enqueued(inputs: seq<Input>): seq<FrontendCommand> {
    if inputs == [] then []
    else if Stops(inputs[0]) then Enqueue(inputs[0])
    else Enqueue(inputs[0]) + Enqueued(inputs[1..])
  }

  predicate NoneStops(inputs: seq<Input>) {
    forall i :: 0 <= i < |inputs| ==> !Stops(inputs[i])
  }

  /** `Enqueued` from position `k` on, one input unfolded. */
  lemma EnqueuedFrom(inputs: seq<Input>, k: nat)
    requires k < |inputs|
    ensures Enqueued(inputs[k..]) == if Stops(inputs[k]) then Enqueue(inputs[k])
      else Enqueue(inputs[k]) + Enqueued(inputs[k + 1..])
  {
    assert inputs[k..][1..] == inputs[k + 1..];
  }

  lemma NoneStopsExtend(inputs: seq<Input>, k: nat)
    requires k < |inputs| && NoneStops(inputs[..k]) && !Stops(inputs[k])
    ensures NoneStops(inputs[..k + 1])
  {
    assert inputs[..k + 1] == inputs[..k] + [inputs[k]];
  }

  /** One turn of the loop: what the turn enqueues and whether it breaks. */
  method HandleInput(input: Input) returns (enqueued: seq<FrontendCommand>, stop: bool)
    ensures enqueued == Enqueue(input)
    ensures stop == Stops(input)
  {
    enqueued, stop := [], false;
    match input.outcome {
      case Line(text) =>
        match ParseCommand(text) {
          case Ok(command) =>
            if command.Disconnect? {
              if input.queueOpen {
                enqueued := [command];
              }
              stop := true;
            } else if input.queueOpen {
              enqueued := [command];
            } else {
              stop := true;
            }
          case Err(_) =>
        }
      case Interrupted =>
        if input.queueOpen {
          enqueued := [Disconnect];
        }
        stop := true;
      case EndOfInput =>
        if input.queueOpen {
          enqueued := [Disconnect];
        }
        stop := true;
      case ReadFailed(_) =>
        stop := true;
    }
  }

  /** The loop over the inputs available: returns what it enqueued, how many
      inputs it read, and whether it broke out (rather than running out of
      input, where the real loop would wait at the prompt). */
  method InputLoop(inputs: seq<Input>) returns (queued: seq<FrontendCommand>, read: nat, stopped: bool)
    ensures read <= |inputs|
    ensures queued == Enqueued(inputs)
    ensures stopped ==> read > 0 && Stops(inputs[read - 1]) && NoneStops(inputs[..read - 1])
    ensures !stopped ==> read == |inputs| && NoneStops(inputs)
  {
    queued, read, stopped := [], 0, false;
    assert inputs[read..] == inputs;
    while read < |inputs| && !stopped
      invariant read <= |inputs|
      invariant !stopped ==> queued + Enqueued(inputs[read..]) == Enqueued(inputs) && NoneStops(inputs[..read])
      invariant stopped ==> queued == Enqueued(inputs) && read > 0 && Stops(inputs[read - 1]) && NoneStops(inputs[..read - 1])
    {
      var input := inputs[read];
      var enqueued, stop := HandleInput(input);
      EnqueuedFrom(inputs, read);
      if stop {
        queued, stopped := queued + enqueued, true;
      } else {
        Associative(queued, enqueued, Enqueued(inputs[read + 1..]));
        NoneStopsExtend(inputs, read);
        queued := queued + enqueued;
      }
      read := read + 1;
    }
    assert !stopped ==> inputs[..read] == inputs;
  }

  // ----- what the input loop guarantees -----

  /** `Disconnect` can only be the last command enqueued. */
  lemma {:induction false} DisconnectEnqueuedLast(inputs: seq<Input>)
    ensures var queued := Enqueued(inputs);
      forall i :: 0 <= i < |queued| && queued[i].Disconnect? ==> i == |queued| - 1
  {
    if inputs != [] && !Stops(inputs[0]) {
      DisconnectEnqueuedLast(inputs[1..]);
      var head: seq<FrontendCommand>, tail: seq<FrontendCommand> := Enqueue(inputs[0]), Enqueued(inputs[1..]);
      assert forall j :: 0 <= j < |head| ==> !(head + tail)[j].Disconnect?;
      assert var queued := Enqueued(inputs[1..]);
        forall i :: 0 <= i < |queued| && queued[i].Disconnect? ==> i == |queued| - 1;
      forall i | 0 <= i < |head + tail| && (head + tail)[i].Disconnect?
        ensures i == |head + tail| - 1
      {
        assert (head + tail)[i] == tail[i - |head|];
      }
    }
  }

  /** The successful parses among the lines, in order. */
  function Parses(inputs: seq<Input>): seq<FrontendCommand> {
    if inputs == [] then []
    else
      var here := if inputs[0].outcome.Line? && ParseCommand(inputs[0].outcome.text).Ok?
        then [ParseCommand(inputs[0].outcome.text).value] else [];
      here + Parses(inputs[1..])
  }

  /** A sequence of commands cut after its first `Disconnect`. */
  function UpToDisconnect(commands: seq<FrontendCommand>): seq<FrontendCommand> {
    if commands == [] then []
    else if commands[0].Disconnect? then [commands[0]]
    else [commands[0]] + UpToDisconnect(commands[1..])
  }

  predicate AllLinesQueueOpen(inputs: seq<Input>) {
    forall i :: 0 <= i < |inputs| ==> inputs[i].outcome.Line? && inputs[i].queueOpen
  }

  /** While the queue accepts every command and only lines are read, the
      enqueued commands are the successful parses in input order, up to and
      including the first `Disconnect`. */
  lemma {:induction false} EnqueuedAreParses(inputs: seq<Input>)
    requires AllLinesQueueOpen(inputs)
    ensures Enqueued(inputs) == UpToDisconnect(Parses(inputs))
  {
    if inputs != [] {
      var input := inputs[0];
      var rest := inputs[1..];
      assert AllLinesQueueOpen(rest) by {
        forall i | 0 <= i < |rest| ensures rest[i].outcome.Line? && rest[i].queueOpen {
          assert rest[i] == inputs[i + 1];
        }
      }
      EnqueuedAreParses(rest);
      var parsed := ParseCommand(input.outcome.text);
      if parsed.Ok? {
        var all := [parsed.value] + Parses(rest);
        assert Parses(inputs) == all;
        assert all[0] == parsed.value && all[1..] == Parses(rest);
      } else {
        assert Parses(inputs) == [] + Parses(rest);
        assert [] + Parses(rest) == Parses(rest);
      }
    }
  }

  /** Inputs that do not stop the loop leave the rest to the inputs after
      them. */
  lemma {:induction false} EnqueuedAppend(before: seq<Input>, after: seq<Input>)
    requires NoneStops(before)
    ensures Enqueued(before + after) == Enqueued(before) + Enqueued(after)
  {
    if before != [] {
      assert (before + after)[0] == before[0];
      assert (before + after)[1..] == before[1..] + after;
      assert NoneStops(before[1..]) by {
        forall i | 0 <= i < |before[1..]| ensures !Stops(before[1..][i]) {
          assert before[1..][i] == before[i + 1];
        }
      }
      EnqueuedAppend(before[1..], after);
      Associative(Enqueue(before[0]), Enqueued(before[1..]), Enqueued(after));
    } else {
      assert before + after == after;
    }
  }

  /** Ctrl-C or Ctrl-D enqueues `Disconnect` (if the queue still takes it)
      and nothing after it is read. */
  lemma InterruptDisconnects(before: seq<Input>, input: Input, after: seq<Input>)
    requires NoneStops(before)
    requires input.outcome.Interrupted? || input.outcome.EndOfInput?
    ensures Enqueued(before + [input] + after)
      == Enqueued(before) + (if input.queueOpen then [Disconnect] else [])
  {
    Associative(before, [input], after);
    EnqueuedAppend(before, [input] + after);
  }

  /** A command the queue refuses ends input: nothing is enqueued from it or
      after it. */
  lemma FailedEnqueueStops(before: seq<Input>, text: string, after: seq<Input>)
    requires NoneStops(before)
    requires ParseCommand(text).Ok?
    ensures Enqueued(before + [Input(Line(text), false)] + after) == Enqueued(before)
  {
    Associative(before, [Input(Line(text), false)], after);
    EnqueuedAppend(before, [Input(Line(text), false)] + after);
    assert Enqueued(before) + [] == Enqueued(before);
  }

  /** A line that does not parse (including `help`) enqueues nothing and the
      loop reads on. */
  lemma UnparsedLineSkipped(text: string, queueOpen: bool, after: seq<Input>)
    requires ParseCommand(text).Err?
    ensures Enqueued([Input(Line(text), queueOpen)] + after) == Enqueued(after)
  {
    assert ([Input(Line(text), queueOpen)] + after)[1..] == after;
  }
}
