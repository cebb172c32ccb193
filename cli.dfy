/** The process `cli` runs in (its filesystem, current directory, standard
    output and the processes it launches) and the `cli` pipeline itself:
    find the Dockerfile, regenerate it on request, build the image, run the
    container. */
module Cli {
  import opened Wrappers
  import opened Paths
  import opened Discovery
  import opened Generator
  import opened Commands
  import opened Dispatch
  import opened Text
  import Template

  /** How a call ends. */
  datatype Outcome =
    | Returned
      /** `os.execlp` succeeded: the process is now the container session. */
    | Replaced
      /** `CalledProcessError` raised for a child that exited non-zero. */
    | CalledProcessError(returncode: int, cmd: seq<string>)
      /** The token list could not be handed to the launcher at all (Python
          raises before any process starts). */
    | LaunchError(cmd: seq<string>)

  /** The command-line flags `cli` acts on and the final command tokens. */
  datatype Options = Options(
    dryRun: bool, verbose: nat, quiet: nat, init: bool,
    workDirectory: Option<Path>, scriptMode: bool, command: seq<string>)

  /** What the environment supplies: the home directory, the build root, the
      uid and login name, and the exit status the build process will have. */
  datatype Environment = Environment(home: Path, root: Path, uid: string, user: string, buildStatus: int)

  /** A launched process and the directory it was launched from. */
  datatype Launch = Launch(dir: Path, action: Action)

  class Host {
    var files: map<Path, string>
    var cwd: Path
    var stdout: seq<string>
    var launched: seq<Launch>

    constructor (files: map<Path, string>, cwd: Path)
      ensures this.files == files && this.cwd == cwd && stdout == [] && launched == []
    {
      this.files := files;
      this.cwd := cwd;
      stdout := [];
      launched := [];
    }

    /** `path.exists()` */
    predicate Exists(p: Path)
      reads this
    {
      p in files
    }

    /** `path.unlink(missing_ok=True)` */
    method Unlink(p: Path)
      modifies this
      ensures files == old(files) - {p} && !Exists(p)
      ensures cwd == old(cwd) && stdout == old(stdout) && launched == old(launched)
    {
      files := files - {p};
    }

    /** `path.open("w").write(text)`: the file afterwards holds exactly `text`. */
    method WriteFile(p: Path, text: string)
      modifies this
      ensures files == old(files)[p := text] && Exists(p)
      ensures cwd == old(cwd) && stdout == old(stdout) && launched == old(launched)
    {
      files := files[p := text];
    }

    /** `createDockerfile(path)` */
    method CreateDockerfile(p: Path)
      modifies this
      ensures files == Regenerated(old(files), p)
      ensures cwd == old(cwd) && stdout == old(stdout) && launched == old(launched)
    {
      Unlink(p);
      WriteFile(p, Template.DockerfileTemplate);
    }

    /** `os.chdir(dir)` */
    method Chdir(dir: Path)
      modifies this
      ensures cwd == dir
      ensures files == old(files) && stdout == old(stdout) && launched == old(launched)
    {
      cwd := dir;
    }

    /** `runCommand(cmd, quiet, exec_mode, script_mode)`, where `exitStatus`
        is the status the spawned child exits with. Script mode prints and
        launches nothing; exec mode replaces the process; otherwise the child
        is waited for and a non-zero status raises. */
    method RunCommand(cmd: seq<string>, quiet: bool, execMode: bool, scriptMode: bool, exitStatus: int)
      returns (outcome: Outcome)
      modifies this
      ensures files == old(files) && cwd == old(cwd)
      ensures scriptMode ==>
        stdout == old(stdout) + [Shebang, JoinSpaces(cmd)] &&
        launched == old(launched) && outcome == Returned
      ensures !scriptMode ==> stdout == old(stdout)
      ensures !scriptMode && execMode ==>
        if |cmd| < 2 || cmd[1] == "" then launched == old(launched) && outcome == LaunchError(cmd)
        else launched == old(launched) + [Launch(old(cwd), Decide(cmd, quiet, execMode, scriptMode))] && outcome == Replaced
      ensures !scriptMode && !execMode ==>
        if cmd == [] then launched == old(launched) && outcome == LaunchError(cmd)
        else launched == old(launched) + [Launch(old(cwd), Decide(cmd, quiet, execMode, scriptMode))] &&
             outcome == (if exitStatus != 0 then CalledProcessError(exitStatus, cmd) else Returned)
    {
      if scriptMode {
        stdout := stdout + [Shebang, JoinSpaces(cmd)];
        outcome := Returned;
      } else if execMode {
        if |cmd| < 2 || cmd[1] == "" {
          outcome := LaunchError(cmd);
        } else {
          launched := launched + [Launch(cwd, Exec(cmd))];
          outcome := Replaced;
        }
      } else if cmd == [] {
        outcome := LaunchError(cmd);
      } else {
        launched := launched + [Launch(cwd, Spawn(cmd, quiet))];
        if exitStatus != 0 {
          outcome := CalledProcessError(exitStatus, cmd);
        } else {
          outcome := Returned;
        }
      }
    }

    /** The tail of `cli` once the Dockerfile is known to exist and this is
        no dry run: build the image from the Dockerfile's directory, then
        run the container from the work directory. */
    method BuildAndRun(dockerfile: Path, work: Path, quiet: bool, opts: Options, env: Environment)
      returns (outcome: Outcome)
      modifies this
      ensures files == old(files)
      ensures
        var build := DockerBuild(env.user, env.uid, env.root, work);
        var run := DockerRun(env.home, work, env.user, opts.command);
        opts.scriptMode ==>
          cwd == work && launched == old(launched) && outcome == Returned &&
          stdout == old(stdout) + [Shebang, JoinSpaces(build), Shebang, JoinSpaces(run)]
      ensures
        var build := DockerBuild(env.user, env.uid, env.root, work);
        var run := DockerRun(env.home, work, env.user, opts.command);
        !opts.scriptMode ==>
          stdout == old(stdout) &&
          if env.buildStatus != 0 then
            cwd == Parent(dockerfile) && launched == old(launched) + [Launch(Parent(dockerfile), Spawn(build, quiet))] &&
            outcome == CalledProcessError(env.buildStatus, build)
          else
            cwd == work && launched == old(launched) + [Launch(Parent(dockerfile), Spawn(build, quiet)), Launch(work, Exec(run))] && outcome == Replaced
    {
      Chdir(Parent(dockerfile));
      var build := DockerBuild(env.user, env.uid, env.root, work);
      assert |build| == 14;
      outcome := RunCommand(build, quiet, false, opts.scriptMode, env.buildStatus);
      if outcome != Returned {
        return;
      }
      Chdir(work);
      var run := DockerRun(env.home, work, env.user, opts.command);
      assert |run| >= 2 && run[1] == "docker";
      outcome := RunCommand(run, quiet, true, opts.scriptMode, 0);
    }

    /** The body of `cli`. */
    method RunCli(opts: Options, env: Environment) returns (outcome: Outcome)
      modifies this
      ensures
        var dockerfile := Discover(SearchChain(old(cwd)), env.root, old(files).Keys);
        files == if opts.init && !opts.dryRun then Regenerated(old(files), dockerfile) else old(files)
      ensures
        var dockerfile := Discover(SearchChain(old(cwd)), env.root, old(files).Keys);
        opts.init && !opts.dryRun ==> dockerfile in files && files[dockerfile] == Template.DockerfileTemplate
      ensures
        var dockerfile := Discover(SearchChain(old(cwd)), env.root, old(files).Keys);
        opts.dryRun || dockerfile !in files ==>
          cwd == old(cwd) && stdout == old(stdout) && launched == old(launched) && outcome == Returned
      ensures
        var dockerfile := Discover(SearchChain(old(cwd)), env.root, old(files).Keys);
        var work := if opts.workDirectory.Some? then opts.workDirectory.value else old(cwd);
        var build := DockerBuild(env.user, env.uid, env.root, work);
        var run := DockerRun(env.home, work, env.user, opts.command);
        !opts.dryRun && dockerfile in files && opts.scriptMode ==>
          cwd == work && launched == old(launched) && outcome == Returned &&
          stdout == old(stdout) + [Shebang, JoinSpaces(build), Shebang, JoinSpaces(run)]
      ensures
        var dockerfile := Discover(SearchChain(old(cwd)), env.root, old(files).Keys);
        var work := if opts.workDirectory.Some? then opts.workDirectory.value else old(cwd);
        var quiet := QuietOutput(LoggingLevel(opts.verbose, opts.quiet));
        var build := DockerBuild(env.user, env.uid, env.root, work);
        var run := DockerRun(env.home, work, env.user, opts.command);
        !opts.dryRun && dockerfile in files && !opts.scriptMode ==>
          stdout == old(stdout) &&
          if env.buildStatus != 0 then
            cwd == Parent(dockerfile) && launched == old(launched) + [Launch(Parent(dockerfile), Spawn(build, quiet))] &&
            outcome == CalledProcessError(env.buildStatus, build)
          else
            cwd == work && launched == old(launched) + [Launch(Parent(dockerfile), Spawn(build, quiet)), Launch(work, Exec(run))] && outcome == Replaced
    {
      var level := LoggingLevel(opts.verbose, opts.quiet);
      var dockerfile := GetDockerfile(cwd, env.root, files.Keys);
      var work := if opts.workDirectory.Some? then opts.workDirectory.value else cwd;
      if opts.init {
        if !opts.dryRun {
          CreateDockerfile(dockerfile);
        }
      }
      outcome := Returned;
      if Exists(dockerfile) {
        if !opts.dryRun {
          outcome := BuildAndRun(dockerfile, work, QuietOutput(level), opts, env);
        }
      }
    }
  }
}
