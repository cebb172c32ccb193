/** What `runCommand` does with a token list, and the quiet flag `cli`
    derives from the verbosity counts. */
module Dispatch {
  import opened Wrappers
  import opened Text
  import opened Paths
  import Commands

  /** Python's `logging.WARN` and `logging.INFO`. */
  const Warn: int := 30
  const Info: int := 20

  /** `logging.WARN - 10 * verbose + 10 * quiet` */
  function LoggingLevel(verbose: nat, quiet: nat): int
  {
    Warn - 10 * verbose + 10 * quiet
  }

  /** `logging_level > logging.INFO`: output of spawned commands is discarded. */
  predicate QuietOutput(level: int)
  {
    level > Info
  }

  /** Output is discarded exactly when `-q` is given at least as often as `-v`. */
  lemma QuietIffNotMoreVerbose(verbose: nat, quiet: nat)
    ensures QuietOutput(LoggingLevel(verbose, quiet)) <==> quiet >= verbose
  {
  }

  const Shebang: string := "#!/bin/bash"

  /** One dispatch: lines printed as a script, a replacement of the current
      process (`os.execlp`), or a child process waited for (`Popen`), with
      its output discarded when `quiet`. */
  datatype Action = Script(lines: seq<string>) | Exec(cmd: seq<string>) | Spawn(cmd: seq<string>, quiet: bool)

  /** The argument vector the launched program receives: `os.execlp(*cmd)`
      runs the program `cmd[0]` with the arguments `cmd[1..]` (whose first
      element is the program's own name); `Popen(cmd)` passes `cmd` whole. */
  function LaunchArgv(cmd: seq<string>, execMode: bool): (argv: seq<string>)
    ensures execMode && cmd != [] ==> cmd == [cmd[0]] + argv
    ensures !execMode ==> argv == cmd
  {
    if !execMode then cmd else if cmd == [] then [] else cmd[1..]
  }

  /** The argument vector of a launch. */
  function ActionArgv(a: Action): seq<string>
  {
    match a
    case Exec(cmd) => LaunchArgv(cmd, true)
    case Spawn(cmd, _) => LaunchArgv(cmd, false)
    case Script(_) => []
  }

  /** The corrected script line: the argument vector the program would
      have received, joined with single spaces (tokens are not quoted). */
  function ScriptLine(cmd: seq<string>, execMode: bool): string
  {
    JoinSpaces(LaunchArgv(cmd, execMode))
  }

  /** `runCommand(cmd, quiet, exec_mode, script_mode)`: script mode wins and
      prints a shebang and the tokens joined by single spaces, whatever the
      exec mode; otherwise exec mode replaces the process; otherwise a child
      is spawned. */
  function Decide(cmd: seq<string>, quiet: bool, execMode: bool, scriptMode: bool): (a: Action)
    ensures a.Script? <==> scriptMode
    ensures a.Exec? <==> !scriptMode && execMode
    ensures a.Script? ==> a.lines == [Shebang, JoinSpaces(cmd)]
    ensures !a.Script? ==> a.cmd == cmd
    ensures a.Spawn? ==> a.quiet == quiet
  {
    if scriptMode then Script([Shebang, JoinSpaces(cmd)])
    else if execMode then Exec(cmd)
    else Spawn(cmd, quiet)
  }

  /** For a spawned command whose tokens hold no space, the printed script
      line, cut at single spaces, is exactly the argument vector the same call
      launches outside script mode. */
  lemma ScriptReproducesSpawn(cmd: seq<string>, quiet: bool)
    requires NoSpaces(cmd) && cmd != []
    ensures SplitSpaces(Decide(cmd, quiet, false, true).lines[1]) == ActionArgv(Decide(cmd, quiet, false, false))
  {
    SplitJoinRoundTrip(cmd);
  }

  /** For an exec call the printed line keeps the program name in front of
      the argument vector: cut at single spaces it is the whole token list,
      one token longer than what the program receives. */
  lemma ScriptKeepsExecProgram(cmd: seq<string>, quiet: bool)
    requires NoSpaces(cmd) && cmd != []
    ensures SplitSpaces(Decide(cmd, quiet, true, true).lines[1]) == [cmd[0]] + ActionArgv(Decide(cmd, quiet, true, false))
  {
    SplitJoinRoundTrip(cmd);
  }

  /** The corrected script line reproduces the launch in either mode: cut at
      single spaces it is the argument vector the call would launch. */
  lemma ScriptLineReproducesLaunch(cmd: seq<string>, quiet: bool, execMode: bool)
    requires NoSpaces(cmd) && LaunchArgv(cmd, execMode) != []
    ensures SplitSpaces(ScriptLine(cmd, execMode)) == ActionArgv(Decide(cmd, quiet, execMode, false))
  {
    var argv := LaunchArgv(cmd, execMode);
    assert NoSpaces(argv) by {
      if execMode {
        assert forall k :: 0 <= k < |argv| ==> argv[k] == cmd[k + 1];
      }
    }
    SplitJoinRoundTrip(argv);
  }

  /** A line that names docker twice is not read as a `docker run`. */
  lemma DoubledProgramIsNotDockerRun(cmd: seq<string>)
    requires |cmd| >= 3 && cmd[0] == "docker" && cmd[1] == "docker"
    ensures Commands.ReadDockerRun(SplitSpaces(JoinSpaces(cmd))) == None
  {
    var tail := cmd[2..];
    assert ' ' !in "docker";
    SplitJoinFirst("docker", tail);
    assert ["docker"] + tail == cmd[1..];
    SplitJoinFirst("docker", cmd[1..]);
    assert ["docker"] + cmd[1..] == cmd;
    var pieces := SplitSpaces(JoinSpaces(cmd));
    assert pieces[1] == "docker";
  }

  /** As written, the script's run line starts `docker docker run`, which a
      shell hands to docker as the unknown subcommand `docker`: it is no
      `docker run` invocation at all. */
  lemma ScriptRunLineAsWrittenIsNotDockerRun(home: Path, work: Path, user: string, command: seq<string>, quiet: bool)
    ensures Decide(Commands.DockerRun(home, work, user, command), quiet, true, true).lines[1]
            == JoinSpaces(Commands.DockerRun(home, work, user, command))
    ensures Commands.ReadDockerRun(SplitSpaces(JoinSpaces(Commands.DockerRun(home, work, user, command)))) == None
  {
    DoubledProgramIsNotDockerRun(Commands.DockerRun(home, work, user, command));
  }

  /** With the corrected line, the script's run line, cut at single spaces,
      is the intended `docker run` request, when no token holds a space. */
  lemma ScriptRunLineStartsContainer(home: Path, work: Path, user: string, command: seq<string>)
    requires NoSpaces(Commands.DockerRun(home, work, user, command))
    ensures Commands.ReadDockerRun(SplitSpaces(ScriptLine(Commands.DockerRun(home, work, user, command), true)))
            == Some(Commands.IntendedRun(home, work, user, command))
  {
    var cmd := Commands.DockerRun(home, work, user, command);
    ScriptLineReproducesLaunch(cmd, false, true);
    Commands.RunCommandRequestsContainer(home, work, user, command);
  }
}
