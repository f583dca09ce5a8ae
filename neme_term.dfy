/**
 * NemeTerm (components/apps/NemeTerm.tsx): a command line over a history of
 * output lines. A submitted command is trimmed and lower-cased, echoed with
 * the raw input, and answered with fixed lines; `clear` wipes the history.
 */
module NemeTerm {
  import opened Text

  /** The history the terminal starts with. */
  const BANNER: seq<string> := [
    "Nemesis OS [Version 4.0.1.002]",
    "(c) 2025 Nemesis Core Systems. All rights reserved.",
    "",
    "Type \"help\" for a list of available system commands.",
    ""
  ]

  const HELP_LINES: seq<string> := [
    "AVAILABLE COMMANDS:", "- help: List commands", "- clear: Reset terminal", "- date: System time",
    "- ls: List directory", "- whoami: User info", "- ping: Network test"
  ]
  const LS_LINES: seq<string> := ["Documents/", "Downloads/", "System/", "kernel.sys", "core.bin"]
  const WHOAMI_LINES: seq<string> := ["NEMESIS_USER (ROOT_PRIVILEGES)", "NODE_ID: 0x92FB-4A12"]
  const PING_LINES: seq<string> := [
    "PING nexus.core (127.0.0.1): 56 data bytes",
    "64 bytes from 127.0.0.1: icmp_seq=0 ttl=64 time=0.04 ms",
    "64 bytes from 127.0.0.1: icmp_seq=1 ttl=64 time=0.05 ms"
  ]
  const NOT_FOUND := "Command not found: "

  /** The commands the `switch` knows. */
  const COMMANDS: set<string> := {"help", "clear", "date", "ls", "whoami", "ping"}

  /** `input.trim().toLowerCase()`: the command a line of input stands for. */
  function Normalize(input: string): (r: string)
    ensures |r| <= |input|
    ensures r == [] <==> AllSpace(input)
  {
    Lower(Trim(input))
  }

  /** Whitespace around the input does not change the command. */
  lemma NormalizeIgnoresPadding(front: string, input: string, back: string)
    requires AllSpace(front) && AllSpace(back)
    ensures Normalize(front + input + back) == Normalize(input)
  {
    TrimIgnoresPadding(front, input, back);
  }

  /** Inputs that differ only in letter case name the same command. */
  lemma NormalizeIgnoresCase(a: string, b: string)
    requires Lower(a) == Lower(b)
    ensures Normalize(a) == Normalize(b)
  {
    LowerTrimCommute(a);
    LowerTrimCommute(b);
  }

  /** The answer to a command: wipe the history, or output lines. */
  datatype Reply = Clear | Output(lines: seq<string>)

  /**
   * The `switch` on the command. `now` is the text of `new Date().toString()`.
   * Every command but `clear` answers with lines; an unknown command with
   * the single line "Command not found: " followed by the command.
   */
  function Respond(cmd: string, now: string): (r: Reply)
    ensures r.Clear? <==> cmd == "clear"
    ensures r.Output? ==> |r.lines| == (if cmd == "help" then 7 else if cmd == "ls" then 5
                                        else if cmd == "ping" then 3 else if cmd == "whoami" then 2 else 1)
    ensures cmd !in COMMANDS ==> r == Output([NOT_FOUND + cmd])
    ensures cmd == "date" ==> r == Output([now])
  {
    match cmd
    case "help" => Output(HELP_LINES)
    case "clear" => Clear
    case "date" => Output([now])
    case "ls" => Output(LS_LINES)
    case "whoami" => Output(WHOAMI_LINES)
    case "ping" => Output(PING_LINES)
    case _ => Output([NOT_FOUND + cmd])
  }

  /** What the terminal shows: the history and the input line. */
  datatype Screen = Screen(history: seq<string>, input: string)

  /**
   * The effect of submitting `input`: blank input changes nothing; `clear`
   * empties the history without an echo; any other command appends the echo
   * "> " + the raw input and then the reply's lines. The input is emptied
   * whenever the command is handled.
   */
  function Submit(history: seq<string>, input: string, now: string): (r: Screen)
    ensures AllSpace(input) ==> r == Screen(history, input)
    ensures !AllSpace(input) && Normalize(input) == "clear" ==> r == Screen([], "")
    ensures !AllSpace(input) && Normalize(input) != "clear" ==>
              && r.input == ""
              && |r.history| > |history|
              && r.history[..|history|] == history
              && r.history[|history|] == "> " + input
              && Respond(Normalize(input), now) == Output(r.history[|history| + 1..])
  {
    if Trim(input) == [] then Screen(history, input)
    else
      match Respond(Normalize(input), now)
      case Clear => Screen([], "")
      case Output(lines) =>
        EchoThenLines(history, "> " + input, lines);
        Screen(history + ["> " + input] + lines, "")
  }

  /** A history with an echo line and reply lines appended splits back into its three parts. */
  lemma EchoThenLines(history: seq<string>, echo: string, lines: seq<string>)
    ensures var h := history + [echo] + lines;
            && h[..|history|] == history
            && h[|history|] == echo
            && h[|history| + 1..] == lines
  {
    var h := history + [echo] + lines;
    assert h[..|history|] == history;
    assert h[|history| + 1..] == lines;
  }

  /** " LS" stands for the command `ls`. */
  lemma LsNormalizes()
    ensures Trim(" LS") == "LS" && Normalize(" LS") == "ls"
  {
    LsTrimsStart();
    LsIsTrimmed();
    assert Lower("LS") == "ls";
  }

  /** "LS" has no whitespace to trim at either end. */
  lemma LsIsTrimmed()
    ensures TrimStart("LS") == "LS" && TrimEnd("LS") == "LS"
  {
  }

  /** Trimming the start of " LS" drops the one leading space. */
  lemma LsTrimsStart()
    ensures TrimStart(" LS") == "LS"
  {
    assert " LS"[1..] == "LS";
    LsIsTrimmed();
  }

  /** Typing " LS" echoes the raw input and lists the five directory entries. */
  lemma LsScenario(history: seq<string>, now: string)
    ensures Submit(history, " LS", now) == Screen(history + ["> " + " LS"] + LS_LINES, "")
  {
    LsNormalizes();
    assert Respond("ls", now) == Output(LS_LINES);
  }

  /** Blank input, however padded, is never recorded. */
  lemma BlankInputIgnored(history: seq<string>, input: string, now: string)
    requires AllSpace(input)
    ensures Submit(history, input, now).history == history
  {
  }

  /** The terminal component's state. */
  class Terminal {
    var history: seq<string>
    var input: string

    constructor ()
      ensures history == BANNER && input == ""
    {
      history := BANNER;
      input := "";
    }

    /** The input field's `onChange`. */
    method SetInput(text: string)
      modifies this
      ensures input == text && history == old(history)
    {
      input := text;
    }

    /**
     * `handleCommand`: copies the history with the echo line appended, pushes
     * the reply's lines onto the copy, then stores it and empties the input;
     * `clear` empties both and returns early.
     */
    method HandleCommand(now: string)
      modifies this
      ensures Screen(history, input) == Submit(old(history), old(input), now)
    {
      if Trim(input) == [] {
        return;
      }
      var cmd := Lower(Trim(input));
      var newHistory := history + ["> " + input];
      match cmd {
        case "help" =>
          newHistory := newHistory + HELP_LINES;
        case "clear" =>
          history := [];
          input := "";
          return;
        case "date" =>
          newHistory := newHistory + [now];
        case "ls" =>
          newHistory := newHistory + LS_LINES;
        case "whoami" =>
          newHistory := newHistory + WHOAMI_LINES;
        case "ping" =>
          newHistory := newHistory + PING_LINES;
        case _ =>
          newHistory := newHistory + [NOT_FOUND + cmd];
      }
      history := newHistory;
      input := "";
    }
  }
}
