/**
  The command line interpreter of PS-2/shell.cpp. A line is its sequence of whitespace-separated
  tokens; running a command is an arbitrary oracle that turns the calls made so far into a status.
 */
module Shell {

  type Token = string

  /** One call of `executeCommand`; an empty `output` means no redirection. */
  datatype Call = Call(args: seq<Token>, output: Token, append: bool)

  /** The exit status of the last call of a trace. */
  type Status = seq<Call> -> int

  predicate IsSeparator(t: Token) {
    t == ";" || t == "&&" || t == "||"
  }

  predicate IsRedirection(t: Token) {
    t == ">" || t == ">>"
  }

  predicate IsWord(t: Token) {
    !IsSeparator(t) && !IsRedirection(t)
  }

  // ----- Parse, then evaluate

  /** What follows a command: `;`, `&&`, `||` or the end of the line. */
  datatype Separator = Always | OnSuccess | OnFailure | EndOfLine

  datatype Command = Command(call: Call, sep: Separator)

  function SeparatorOf(t: Token): Separator
    requires IsSeparator(t)
  {
    if t == ";" then Always else if t == "&&" then OnSuccess else OnFailure
  }

  const NOTHING := Call([], "", false)

  /** The commands of `tokens`, of which the first is already known to begin with `pending`. */
  function ParseFrom(tokens: seq<Token>, pending: Call): (commands: seq<Command>)
    ensures commands != []
  {
    if tokens == [] then [Command(pending, EndOfLine)]
    else
      var t := tokens[0];
      if IsSeparator(t) then [Command(pending, SeparatorOf(t))] + ParseFrom(tokens[1..], NOTHING)
      else if IsRedirection(t) then
        // a redirection at the end of the line keeps the output but sets the mode
        if |tokens| == 1 then [Command(pending.(append := t == ">>"), EndOfLine)]
        else ParseFrom(tokens[2..], pending.(output := tokens[1], append := t == ">>"))
      else ParseFrom(tokens[1..], pending.(args := pending.args + [t]))
  }

  function Parse(tokens: seq<Token>): seq<Command> {
    ParseFrom(tokens, NOTHING)
  }

  /** The status of the last command that ran; 0 before any has. */
  function LastStatus(status: Status, trace: seq<Call>): int {
    if trace == [] then 0 else status(trace)
  }

  /** A command is guarded by the separator after it; the last one only by having arguments. */
  predicate Runs(c: Command, status: Status, trace: seq<Call>) {
    match c.sep
    case Always => true
    case OnSuccess => LastStatus(status, trace) == 0
    case OnFailure => LastStatus(status, trace) != 0
    case EndOfLine => c.call.args != []
  }

  /** The calls made by `commands` after those of `trace`. */
  function Eval(commands: seq<Command>, status: Status, trace: seq<Call>): seq<Call> {
    if commands == [] then trace
    else Eval(commands[1..], status, if Runs(commands[0], status, trace) then trace + [commands[0].call] else trace)
  }

  /** The calls made by a line. */
  function Calls(tokens: seq<Token>, status: Status): seq<Call> {
    Eval(Parse(tokens), status, [])
  }

  // ----- The one-pass loop

  /** `parseAndExecute`: executes each command as soon as its separator is read. */
  method ParseAndExecute(tokens: seq<Token>, status: Status) returns (trace: seq<Call>)
    ensures trace == Calls(tokens, status)
  {
    var next := 0;
    var args: seq<Token>, output: Token, append, lastExitStatus := [], "", false, 0;
    trace := [];
    while next < |tokens|
      invariant 0 <= next <= |tokens|
      invariant Calls(tokens, status)
             == Eval(ParseFrom(tokens[next..], Call(args, output, append)), status, trace)
      invariant lastExitStatus == LastStatus(status, trace)
      decreases |tokens| - next
    {
      var sign := tokens[next];
      Rest(tokens, next);
      next := next + 1;
      if sign == ";" {
        trace := trace + [Call(args, output, append)];
        lastExitStatus := status(trace);
        args, output, append := [], "", false;
      } else if sign == "&&" {
        if lastExitStatus == 0 {
          trace := trace + [Call(args, output, append)];
          lastExitStatus := status(trace);
        }
        args, output, append := [], "", false;
      } else if sign == "||" {
        if lastExitStatus != 0 {
          trace := trace + [Call(args, output, append)];
          lastExitStatus := status(trace);
        }
        args, output, append := [], "", false;
      } else if sign == ">" {
        if next < |tokens| {
          output := tokens[next];
          Rest(tokens, next);
          next := next + 1;
        }
        append := false;
      } else if sign == ">>" {
        if next < |tokens| {
          output := tokens[next];
          Rest(tokens, next);
          next := next + 1;
        }
        append := true;
      } else {
        args := args + [sign];
      }
    }
    if args != [] {
      trace := trace + [Call(args, output, append)];
    }
  }

  lemma {:induction false} Rest(tokens: seq<Token>, next: nat)
    requires next < |tokens|
    ensures tokens[next..] != [] && tokens[next..][0] == tokens[next] && tokens[next..][1..] == tokens[next + 1..]
  {
  }

  // ----- Printing commands back into a line

  function SeparatorToken(sep: Separator): seq<Token> {
    match sep
    case Always => [";"]
    case OnSuccess => ["&&"]
    case OnFailure => ["||"]
    case EndOfLine => []
  }

  function RedirectionTokens(call: Call): seq<Token> {
    if call.output == "" then [] else [if call.append then ">>" else ">", call.output]
  }

  function PrintCommand(c: Command): seq<Token> {
    c.call.args + (RedirectionTokens(c.call) + SeparatorToken(c.sep))
  }

  function Print(commands: seq<Command>): seq<Token> {
    if commands == [] then [] else PrintCommand(commands[0]) + Print(commands[1..])
  }

  /** Arguments are words; a redirection target, if there is one, may be any token at all. */
  predicate PrintableCall(call: Call) {
    (forall k :: 0 <= k < |call.args| ==> IsWord(call.args[k])) && (call.output == "" ==> !call.append)
  }

  /** Every command but the last is followed by a separator. */
  predicate Printable(commands: seq<Command>) {
    && commands != []
    && PrintableCall(commands[0].call)
    && (commands[0].sep == EndOfLine <==> |commands| == 1)
    && (|commands| > 1 ==> Printable(commands[1..]))
  }

  lemma {:induction false} ParseArguments(args: seq<Token>, rest: seq<Token>, pending: Call)
    requires forall k :: 0 <= k < |args| ==> IsWord(args[k])
    ensures ParseFrom(args + rest, pending) == ParseFrom(rest, pending.(args := pending.args + args))
    decreases |args|
  {
    if args == [] {
      assert args + rest == rest;
      assert pending.args + args == pending.args;
    } else {
      assert (args + rest)[1..] == args[1..] + rest;
      ParseArguments(args[1..], rest, pending.(args := pending.args + [args[0]]));
      assert pending.args + [args[0]] + args[1..] == pending.args + args;
    }
  }

  lemma {:induction false} ParseRedirection(call: Call, rest: seq<Token>)
    requires PrintableCall(call)
    ensures ParseFrom(RedirectionTokens(call) + rest, Call(call.args, "", false)) == ParseFrom(rest, call)
  {
    if call.output == "" {
      assert RedirectionTokens(call) + rest == rest;
    } else {
      assert (RedirectionTokens(call) + rest)[2..] == rest;
    }
  }

  /** Parsing up to the separator collects exactly the printed call. */
  lemma {:induction false} ParseCall(c: Command, rest: seq<Token>)
    requires PrintableCall(c.call)
    ensures ParseFrom(PrintCommand(c) + rest, NOTHING) == ParseFrom(SeparatorToken(c.sep) + rest, c.call)
  {
    var tail := SeparatorToken(c.sep) + rest;
    assert PrintCommand(c) + rest == c.call.args + (RedirectionTokens(c.call) + tail);
    ParseArguments(c.call.args, RedirectionTokens(c.call) + tail, NOTHING);
    assert NOTHING.args + c.call.args == c.call.args;
    ParseRedirection(c.call, tail);
  }

  /** Parsing what was printed gives the same commands, even when a target looks like an operator. */
  lemma {:induction false} PrintThenParse(commands: seq<Command>)
    requires Printable(commands)
    ensures Parse(Print(commands)) == commands
    decreases |commands|
  {
    var c, rest := commands[0], Print(commands[1..]);
    ParseCall(c, rest);
    if |commands| == 1 {
      assert SeparatorToken(c.sep) + rest == [];
    } else {
      assert (SeparatorToken(c.sep) + rest)[1..] == rest;
      PrintThenParse(commands[1..]);
    }
    assert commands == [c] + commands[1..];
  }

  // ----- The normal form of a line

  predicate NonEmpty(tokens: seq<Token>) {
    forall k :: 0 <= k < |tokens| ==> tokens[k] != ""
  }

  /**
    The line ends in a `>>` without a target, in a command that has no earlier redirection target;
    `target` tells whether the command at hand has one already.
   */
  predicate LosesMode(tokens: seq<Token>, target: bool) {
    tokens != [] &&
    if IsSeparator(tokens[0]) then LosesMode(tokens[1..], false)
    else if !IsRedirection(tokens[0]) then LosesMode(tokens[1..], target)
    else if |tokens| == 1 then tokens[0] == ">>" && !target
    else LosesMode(tokens[2..], true)
  }

  /** Exactly these lines parse into a command list that cannot be printed. */
  lemma {:induction false} PrintableIffKeepsMode(tokens: seq<Token>, pending: Call)
    requires NonEmpty(tokens) && PrintableCall(pending)
    ensures Printable(ParseFrom(tokens, pending)) <==> !LosesMode(tokens, pending.output != "")
    decreases |tokens|
  {
    if tokens != [] {
      var t := tokens[0];
      if IsSeparator(t) {
        PrintableIffKeepsMode(tokens[1..], NOTHING);
        assert ParseFrom(tokens, pending)[1..] == ParseFrom(tokens[1..], NOTHING);
      } else if !IsRedirection(t) {
        PrintableIffKeepsMode(tokens[1..], pending.(args := pending.args + [t]));
      } else if |tokens| > 1 {
        PrintableIffKeepsMode(tokens[2..], pending.(output := tokens[1], append := t == ">>"));
      }
    }
  }

  /** A call without output as `executeCommand` sees it: the mode is not looked at. */
  function Settled(call: Call): Call {
    if call.output == "" then call.(append := false) else call
  }

  function SettledTrace(trace: seq<Call>): (r: seq<Call>)
    ensures |r| == |trace|
  {
    seq(|trace|, (k: nat) requires k < |trace| => Settled(trace[k]))
  }

  function SettledCommands(commands: seq<Command>): (r: seq<Command>)
    ensures |r| == |commands|
  {
    seq(|commands|, (k: nat) requires k < |commands| => commands[k].(call := Settled(commands[k].call)))
  }

  lemma {:induction false} LastIsEndOfLine(tokens: seq<Token>, pending: Call)
    ensures var commands := ParseFrom(tokens, pending); commands[|commands| - 1].sep == EndOfLine
    decreases |tokens|
  {
    if tokens != [] {
      var t := tokens[0];
      if IsSeparator(t) {
        LastIsEndOfLine(tokens[1..], NOTHING);
      } else if !IsRedirection(t) {
        LastIsEndOfLine(tokens[1..], pending.(args := pending.args + [t]));
      } else if |tokens| > 1 {
        LastIsEndOfLine(tokens[2..], pending.(output := tokens[1], append := t == ">>"));
      }
    }
  }

  /** What is parsed can be printed once it is settled, and only its last command may need that. */
  lemma {:induction false} ParseSettles(tokens: seq<Token>, pending: Call)
    requires NonEmpty(tokens) && PrintableCall(pending)
    ensures var commands := ParseFrom(tokens, pending);
            && Printable(SettledCommands(commands))
            && forall k :: 0 <= k < |commands| - 1 ==> Settled(commands[k].call) == commands[k].call
    decreases |tokens|
  {
    var commands := ParseFrom(tokens, pending);
    if tokens != [] {
      var t := tokens[0];
      if IsSeparator(t) {
        ParseSettles(tokens[1..], NOTHING);
        assert commands[1..] == ParseFrom(tokens[1..], NOTHING);
        assert SettledCommands(commands)[1..] == SettledCommands(commands[1..]);
        assert forall k :: 1 <= k < |commands| ==> commands[k] == commands[1..][k - 1];
      } else if !IsRedirection(t) {
        ParseSettles(tokens[1..], pending.(args := pending.args + [t]));
      } else if |tokens| > 1 {
        ParseSettles(tokens[2..], pending.(output := tokens[1], append := t == ">>"));
      }
    }
  }

  /** Printing does not show the mode of a call without output. */
  lemma {:induction false} PrintSettled(commands: seq<Command>)
    ensures Print(SettledCommands(commands)) == Print(commands)
    decreases |commands|
  {
    if commands != [] {
      assert SettledCommands(commands)[1..] == SettledCommands(commands[1..]);
      PrintSettled(commands[1..]);
    }
  }

  /** Commands that are settled make settled calls. */
  lemma {:induction false} SettledCallsOnly(commands: seq<Command>, status: Status, trace: seq<Call>)
    requires forall k :: 0 <= k < |commands| ==> Settled(commands[k].call) == commands[k].call
    requires SettledTrace(trace) == trace
    ensures SettledTrace(Eval(commands, status, trace)) == Eval(commands, status, trace)
    decreases |commands|
  {
    if commands != [] {
      var ran := if Runs(commands[0], status, trace) then trace + [commands[0].call] else trace;
      assert SettledTrace(ran) == ran by {
        forall k | 0 <= k < |ran| ensures Settled(ran[k]) == ran[k] {
          assert k < |trace| ==> SettledTrace(trace)[k] == trace[k];
        }
      }
      SettledCallsOnly(commands[1..], status, ran);
    }
  }

  /** Settling a final unguarded command settles the last call and changes nothing else. */
  lemma {:induction false} SettleLast(before: seq<Command>, final: Command, status: Status)
    requires forall k :: 0 <= k < |before| ==> Settled(before[k].call) == before[k].call
    requires final.sep == EndOfLine
    ensures Eval(before + [final.(call := Settled(final.call))], status, [])
         == SettledTrace(Eval(before + [final], status, []))
  {
    var settled := final.(call := Settled(final.call));
    EvalAppend(before, [final], status, []);
    EvalAppend(before, [settled], status, []);
    SettledCallsOnly(before, status, []);
    var trace := Eval(before, status, []);
    assert [final][1..] == [settled][1..] == [];
    if final.call.args != [] {
      assert SettledTrace(trace + [final.call]) == SettledTrace(trace) + [settled.call];
    }
  }

  /** Printing the parse of any line, then parsing that, gives the parse back up to unused modes. */
  lemma {:induction false} NormalFormParses(tokens: seq<Token>)
    requires NonEmpty(tokens)
    ensures Parse(Print(Parse(tokens))) == SettledCommands(Parse(tokens))
  {
    ParseSettles(tokens, NOTHING);
    PrintSettled(Parse(tokens));
    PrintThenParse(SettledCommands(Parse(tokens)));
  }

  /**
    Every line has a normal form, the print of its parse, which makes the same calls under every status
    oracle, up to the mode of a last call that has no output to use it on.
   */
  lemma {:induction false} NormalFormRunsTheSame(tokens: seq<Token>, status: Status)
    requires NonEmpty(tokens)
    ensures Eval(Parse(Print(Parse(tokens))), status, []) == SettledTrace(Eval(Parse(tokens), status, []))
  {
    var commands := Parse(tokens);
    var before, final := commands[..|commands| - 1], commands[|commands| - 1];
    NormalFormParses(tokens);
    ParseSettles(tokens, NOTHING);
    LastIsEndOfLine(tokens, NOTHING);
    SettleLast(before, final, status);
    assert commands == before + [final];
    assert SettledCommands(commands) == before + [final.(call := Settled(final.call))];
  }

  /** The normal form parses into exactly the same commands unless the line loses a mode. */
  lemma {:induction false} NormalFormIsExact(tokens: seq<Token>)
    requires NonEmpty(tokens)
    ensures Parse(Print(Parse(tokens))) == Parse(tokens) <==> !LosesMode(tokens, false)
  {
    NormalFormParses(tokens);
    ParseSettles(tokens, NOTHING);
    PrintableIffKeepsMode(tokens, NOTHING);
    if !LosesMode(tokens, false) {
      PrintThenParse(Parse(tokens));
    }
  }

  /** A command followed by `>>` at the end of the line loses its mode; followed by `>` it does not. */
  lemma {:induction false} BareAppendLosesMode(word: Token)
    requires IsWord(word) && word != ""
    ensures Parse([word, ">>"]) == [Command(Call([word], "", true), EndOfLine)]
    ensures Parse(Print(Parse([word, ">>"]))) == [Command(Call([word], "", false), EndOfLine)]
    ensures Parse(Print(Parse([word, ">"]))) == Parse([word, ">"])
  {
    assert [word, ">>"][1..] == [">>"] && [word, ">"][1..] == [">"];
    assert NOTHING.args + [word] == [word];
    var command := Command(Call([word], "", true), EndOfLine);
    assert ParseFrom([">>"], Call([word], "", false)) == [command];
    assert SettledCommands([command]) == [Command(Call([word], "", false), EndOfLine)];
    assert LosesMode([">>"], false) && !LosesMode([">"], false);
    NormalFormParses([word, ">>"]);
    NormalFormIsExact([word, ">"]);
  }

  // ----- What the guards mean for a line

  ghost predicate EndsWith(trace: seq<Call>, call: Call) {
    trace != [] && trace[|trace| - 1] == call
  }

  /** Commands run one after the other: only the calls made matter to those that follow. */
  lemma {:induction false} EvalAppend(before: seq<Command>, after: seq<Command>, status: Status, trace: seq<Call>)
    ensures Eval(before + after, status, trace) == Eval(after, status, Eval(before, status, trace))
    decreases |before|
  {
    if before == [] {
      assert before + after == after;
    } else {
      assert (before + after)[1..] == before[1..] + after;
      var ran := if Runs(before[0], status, trace) then trace + [before[0].call] else trace;
      EvalAppend(before[1..], after, status, ran);
    }
  }

  /** The last command of any line, if it has arguments, is the last one executed: nothing guards it. */
  lemma {:induction false} LastCommandAlwaysRuns(tokens: seq<Token>, status: Status)
    requires var commands := Parse(tokens); commands[|commands| - 1].call.args != []
    ensures var commands := Parse(tokens);
            EndsWith(Eval(commands, status, []), commands[|commands| - 1].call)
  {
    var commands := Parse(tokens);
    LastIsEndOfLine(tokens, NOTHING);
    FinalCallIsLast(commands[..|commands| - 1], commands[|commands| - 1], status);
    assert commands == commands[..|commands| - 1] + [commands[|commands| - 1]];
  }

  lemma {:induction false} FinalCallIsLast(before: seq<Command>, final: Command, status: Status)
    requires final.sep == EndOfLine && final.call.args != []
    ensures EndsWith(Eval(before + [final], status, []), final.call)
  {
    EvalAppend(before, [final], status, []);
    assert [final][1..] == [];
  }

  /** Commands at the start of a line that are followed by `||` never run, whatever the statuses. */
  lemma {:induction false} LeadingOrCommandsNeverRun(tokens: seq<Token>, n: nat, status: Status)
    requires n <= |Parse(tokens)| && forall k :: 0 <= k < n ==> Parse(tokens)[k].sep == OnFailure
    ensures Eval(Parse(tokens), status, []) == Eval(Parse(tokens)[n..], status, [])
  {
    SkipOrCommands(Parse(tokens), n, status);
  }

  lemma {:induction false} SkipOrCommands(commands: seq<Command>, n: nat, status: Status)
    requires n <= |commands| && forall k :: 0 <= k < n ==> commands[k].sep == OnFailure
    ensures Eval(commands, status, []) == Eval(commands[n..], status, [])
    decreases n
  {
    if n > 0 {
      SkipOrCommands(commands[1..], n - 1, status);
      assert commands[1..][n - 1..] == commands[n..];
    } else {
      assert commands[0..] == commands;
    }
  }

  // ----- What the tokens of a line mean, one after the other

  /** Words and redirections with their targets, in any order: the tokens of one command. */
  predicate Simple(segment: seq<Token>) {
    || segment == []
    || (IsWord(segment[0]) && Simple(segment[1..]))
    || (IsRedirection(segment[0]) && |segment| > 1 && Simple(segment[2..]))
  }

  /** The call that these tokens describe. */
  function CallOf(segment: seq<Token>): Call {
    Parse(segment)[0].call
  }

  lemma {:induction false} ParseSegment(segment: seq<Token>, rest: seq<Token>, pending: Call)
    requires Simple(segment)
    ensures |ParseFrom(segment, pending)| == 1 && ParseFrom(segment, pending)[0].sep == EndOfLine
    ensures ParseFrom(segment + rest, pending) == ParseFrom(rest, ParseFrom(segment, pending)[0].call)
    decreases |segment|
  {
    if segment == [] {
      assert segment + rest == rest;
    } else if IsWord(segment[0]) {
      assert (segment + rest)[1..] == segment[1..] + rest;
      ParseSegment(segment[1..], rest, pending.(args := pending.args + [segment[0]]));
    } else {
      assert (segment + rest)[2..] == segment[2..] + rest;
      ParseSegment(segment[2..], rest, pending.(output := segment[1], append := segment[0] == ">>"));
    }
  }

  /**
    The call of a command, token by token: a word is appended to the arguments, also after a redirection; a
    later redirection replaces an earlier one; one without target changes the mode alone.
   */
  lemma {:induction false} TokenMeans(segment: seq<Token>, token: Token)
    requires Simple(segment)
    ensures CallOf([]) == Call([], "", false)
    ensures IsWord(token) ==>
              CallOf(segment + [token]) == CallOf(segment).(args := CallOf(segment).args + [token])
    ensures CallOf(segment + [">", token]) == CallOf(segment).(output := token, append := false)
    ensures CallOf(segment + [">>", token]) == CallOf(segment).(output := token, append := true)
    ensures CallOf(segment + [">"]) == CallOf(segment).(append := false)
    ensures CallOf(segment + [">>"]) == CallOf(segment).(append := true)
  {
    ParseSegment(segment, [token], NOTHING);
    ParseSegment(segment, [">", token], NOTHING);
    ParseSegment(segment, [">>", token], NOTHING);
    ParseSegment(segment, [">"], NOTHING);
    ParseSegment(segment, [">>"], NOTHING);
    assert [">", token][2..] == [] && [">>", token][2..] == [] && [token][1..] == [];
  }

  lemma {:induction false} WordsMean(words: seq<Token>)
    requires forall k :: 0 <= k < |words| ==> IsWord(words[k])
    ensures Simple(words) && CallOf(words) == Call(words, "", false)
  {
    AllWordsAreSimple(words);
    ParseArguments(words, [], NOTHING);
    assert words + [] == words && [] + words == words;
  }

  lemma {:induction false} AllWordsAreSimple(words: seq<Token>)
    requires forall k :: 0 <= k < |words| ==> IsWord(words[k])
    ensures Simple(words)
  {
    if words != [] {
      AllWordsAreSimple(words[1..]);
    }
  }

  /** The end of `line` is the start of a new command: its last token is a separator, and no target. */
  predicate Fresh(line: seq<Token>) {
    line == [] || (IsSeparator(line[|line| - 1]) && Parse(line)[|Parse(line)| - 1].call == NOTHING)
  }

  lemma {:induction false} TargetIsNotLast(line: seq<Token>, pending: Call)
    requires line != [] && IsRedirection(line[0]) && IsSeparator(line[|line| - 1])
    requires var parsed := ParseFrom(line, pending); parsed[|parsed| - 1].call == NOTHING
    ensures |line| > 2
  {
  }

  lemma {:induction false} ParseAfter(line: seq<Token>, rest: seq<Token>, pending: Call)
    requires line != [] && IsSeparator(line[|line| - 1])
    requires var parsed := ParseFrom(line, pending); parsed[|parsed| - 1].call == NOTHING
    ensures var parsed := ParseFrom(line, pending);
            ParseFrom(line + rest, pending) == parsed[..|parsed| - 1] + ParseFrom(rest, NOTHING)
    decreases |line|
  {
    var t := line[0];
    if IsSeparator(t) {
      assert (line + rest)[1..] == line[1..] + rest;
      if |line| == 1 {
        assert line[1..] + rest == rest;
      } else {
        ParseAfter(line[1..], rest, NOTHING);
      }
    } else if IsRedirection(t) {
      TargetIsNotLast(line, pending);
      assert (line + rest)[2..] == line[2..] + rest;
      ParseAfter(line[2..], rest, pending.(output := line[1], append := t == ">>"));
    } else {
      assert (line + rest)[1..] == line[1..] + rest;
      ParseAfter(line[1..], rest, pending.(args := pending.args + [t]));
    }
  }

  /** What follows a separator is evaluated with the calls made before it. */
  lemma {:induction false} CallsAfter(line: seq<Token>, rest: seq<Token>, status: Status)
    requires Fresh(line)
    ensures Calls(line + rest, status) == Eval(Parse(rest), status, Calls(line, status))
  {
    if line == [] {
      assert line + rest == rest;
    } else {
      var parsed := Parse(line);
      var before, final := parsed[..|parsed| - 1], parsed[|parsed| - 1];
      ParseAfter(line, rest, NOTHING);
      LastIsEndOfLine(line, NOTHING);
      EvalAppend(before, Parse(rest), status, []);
      EvalAppend(before, [final], status, []);
      assert parsed == before + [final];
      assert [final][1..] == [];
    }
  }

  /**
    What the separator after a command means, for any line before it: `;` always makes the call, `&&` only if
    the status of the last call is 0, `||` only if it is not; before any call that status is 0.
   */
  lemma {:induction false} SeparatorMeans(line: seq<Token>, segment: seq<Token>, sep: Token, status: Status)
    requires Fresh(line) && Simple(segment) && IsSeparator(sep)
    ensures Fresh(line + (segment + [sep]))
    ensures var made := Calls(line, status);
            var last := if made == [] then 0 else status(made);
            Calls(line + (segment + [sep]), status)
            == if sep == ";" || (sep == "&&" && last == 0) || (sep == "||" && last != 0)
               then made + [CallOf(segment)] else made
  {
    CallsAfter(line, segment + [sep], status);
    SeparatorParses(segment, sep);
    StillFresh(line, segment, sep);
    EvalGuarded(CallOf(segment), sep, status, Calls(line, status));
  }

  lemma {:induction false} EvalGuarded(call: Call, sep: Token, status: Status, made: seq<Call>)
    requires IsSeparator(sep)
    ensures Eval([Command(call, SeparatorOf(sep)), Command(NOTHING, EndOfLine)], status, made)
         == if Runs(Command(call, SeparatorOf(sep)), status, made) then made + [call] else made
  {
    var c, end := Command(call, SeparatorOf(sep)), Command(NOTHING, EndOfLine);
    var next := if Runs(c, status, made) then made + [call] else made;
    assert [c, end][1..] == [end] && [end][1..] == [];
    assert Eval([end], status, next) == next;
  }

  lemma {:induction false} SeparatorParses(segment: seq<Token>, sep: Token)
    requires Simple(segment) && IsSeparator(sep)
    ensures Parse(segment + [sep]) == [Command(CallOf(segment), SeparatorOf(sep)), Command(NOTHING, EndOfLine)]
  {
    ParseSegment(segment, [sep], NOTHING);
    assert [sep][1..] == [];
  }

  lemma {:induction false} StillFresh(line: seq<Token>, segment: seq<Token>, sep: Token)
    requires Fresh(line) && Simple(segment) && IsSeparator(sep)
    ensures Fresh(line + (segment + [sep]))
  {
    SeparatorParses(segment, sep);
    if line == [] {
      assert line + (segment + [sep]) == segment + [sep];
    } else {
      ParseAfter(line, segment + [sep], NOTHING);
    }
  }

  /** What the end of the line after a command means: it makes the call if there are arguments. */
  lemma {:induction false} EndMeans(line: seq<Token>, segment: seq<Token>, status: Status)
    requires Fresh(line) && Simple(segment)
    ensures Calls(line + segment, status)
         == Calls(line, status) + if CallOf(segment).args != [] then [CallOf(segment)] else []
  {
    CallsAfter(line, segment, status);
    ParseSegment(segment, [], NOTHING);
    var parsed := Parse(segment);
    assert parsed == [Command(CallOf(segment), EndOfLine)] && parsed[1..] == [];
  }

  predicate AreWords(tokens: seq<Token>) {
    tokens != [] && forall k :: 0 <= k < |tokens| ==> IsWord(tokens[k])
  }

  /** Two commands: nothing precedes the first one, and the status before any call is 0. */
  lemma {:induction false} TwoCommands(a: seq<Token>, b: seq<Token>, sep: Token, status: Status)
    requires AreWords(a) && AreWords(b) && IsSeparator(sep)
    ensures Fresh(a + [sep])
    ensures Calls(a + [sep], status) == if sep == "||" then [] else [Call(a, "", false)]
    ensures Calls(a + [sep] + b, status)
         == if sep == "||" then [Call(b, "", false)] else [Call(a, "", false), Call(b, "", false)]
  {
    WordsMean(a);
    WordsMean(b);
    NoTokensNoCalls(status);
    SeparatorMeans([], a, sep, status);
    assert [] + (a + [sep]) == a + [sep];
    EndMeans(a + [sep], b, status);
  }

  lemma {:induction false} NoTokensNoCalls(status: Status)
    ensures Calls([], status) == []
  {
    assert [Command(NOTHING, EndOfLine)][1..] == [];
  }

  /** The calls of lines of two commands. */
  lemma {:induction false} ShortLines(a: seq<Token>, b: seq<Token>, status: Status)
    requires AreWords(a) && AreWords(b)
    ensures Calls(a + [";"] + b, status) == [Call(a, "", false), Call(b, "", false)]
    ensures Calls(a + ["&&"] + b, status) == [Call(a, "", false), Call(b, "", false)]
    ensures Calls(a + ["||"] + b, status) == [Call(b, "", false)]
  {
    TwoCommands(a, b, ";", status);
    TwoCommands(a, b, "&&", status);
    TwoCommands(a, b, "||", status);
  }

  lemma {:induction false} ThreeCommands(a: seq<Token>, b: seq<Token>, sep: Token, c: seq<Token>, status: Status)
    requires AreWords(a) && AreWords(b) && AreWords(c) && IsSeparator(sep)
    ensures var A, B, C := Call(a, "", false), Call(b, "", false), Call(c, "", false);
            Calls(a + [";"] + (b + [sep]) + c, status)
            == if sep == ";" || (sep == "&&" && status([A]) == 0) || (sep == "||" && status([A]) != 0)
               then [A, B, C] else [A, C]
  {
    WordsMean(b);
    WordsMean(c);
    TwoCommands(a, b, ";", status);
    SeparatorMeans(a + [";"], b, sep, status);
    EndMeans(a + [";"] + (b + [sep]), c, status);
  }

  /** A command guarded by `&&` or `||` is called exactly if the one before it succeeded or failed. */
  lemma {:induction false} GuardedCall(a: seq<Token>, b: seq<Token>, c: seq<Token>, status: Status)
    requires AreWords(a) && AreWords(b) && AreWords(c)
    ensures var A, B, C := Call(a, "", false), Call(b, "", false), Call(c, "", false);
            && Calls(a + [";"] + (b + ["&&"]) + c, status) == (if status([A]) == 0 then [A, B, C] else [A, C])
            && Calls(a + [";"] + (b + ["||"]) + c, status) == (if status([A]) != 0 then [A, B, C] else [A, C])
            && Calls(a + [";"] + (b + [";"]) + c, status) == [A, B, C]
  {
    ThreeCommands(a, b, "&&", c, status);
    ThreeCommands(a, b, "||", c, status);
    ThreeCommands(a, b, ";", c, status);
  }
}
