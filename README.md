# dockershell core, modelled in Dafny

`ds` runs a shell inside a Docker image that is built from a Dockerfile
found near the current directory. The project models the core of
`dockershell/ds.py`, in four parts:

- **The Dockerfile search (`getDockerfile`).** The search walks from the
  current directory towards `/` and stops at the first directory that holds
  a `Dockerfile` or is the build root. The loop is a method (`GetDockerfile`)
  proved equal to a recursive reference definition (`Discover`). The
  properties of the search are lemmas about that reference definition.
- **Dockerfile generation (`createDockerfile`).** The old file is removed
  and the fixed template is written, character for character. The template
  is kept as its dedented lines, so the `ARG` declarations can be tied to
  the `--build-arg` options of the build.
- **Dispatch (`runCommand`).** In script mode the command is printed as a
  line of a shell script. Otherwise the process is replaced (`os.execlp`),
  or a child is spawned and waited for, and a non-zero exit raises
  `CalledProcessError`.
- **The `cli` body.** It computes the logging level, finds the Dockerfile,
  regenerates it with `--init`, builds the image from the Dockerfile's
  directory, and then runs the container from the work directory.

The parts that change state are methods of a `Host` class. Its fields are
the filesystem, the current directory, the printed lines and the trace of
launched processes, each recorded with the directory it was launched from. Each method states its whole new state.

Docker itself is modelled only as parsers of the two argument vectors:
- `BuildArgs` reads the `--build-arg KEY=VALUE` options.
- `ReadDockerRun` reads the `docker run` options that are used.

These parsers are the partners of the command builders. The lemmas prove
that each command asks for exactly what was intended.

Modules, one file each:
- `Paths` (`paths.dfy`): paths as component sequences, and `PurePath.parents`.
- `Text` (`text.dfy`): joining and splitting on single spaces.
- `Discovery` (`discovery.dfy`): the search.
- `Template` (`template.dfy`): the Dockerfile text.
- `Generator` (`generator.dfy`): the filesystem after regeneration.
- `Wrappers` and `Commands` (`commands.dfy`): the two docker invocations and how docker reads them.
- `Dispatch` (`dispatch.dfy`): the quiet flag, the dispatch decision, and the script lines.
- `Cli` (`cli.dfy`): the host state and the `cli` body.

## Model

| member | source | states |
|---|---|---|
| Paths.Parents | dockershell/ds.py:50 | `PurePath.parents` lists every proper ancestor, nearest first and ending at `/`: element `i` is `p` with its last `i + 1` components dropped |
| Paths.Parent | dockershell/ds.py:264 | `dockerfile_path.parent` is the path without its last component; `/` is its own parent |
| Paths.Render | dockershell/ds.py:274-280 | a rendered absolute path always begins with `/` |
| Discovery.Candidate | dockershell/ds.py:52 | `parent / "Dockerfile"` ends in `Dockerfile`, and its parent is `parent` |
| Discovery.SearchChain | dockershell/ds.py:50 | `(cwd / "foo").parents` is `cwd` followed by each of its ancestors up to `/`: one more directory than `cwd` has components, with element `i` equal to `cwd` minus `i` components |
| Discovery.Discover | dockershell/ds.py:50-58 | the result is the candidate of some directory on the chain, or the root's candidate |
| Discovery.GetDockerfile | dockershell/ds.py:42-58 | the loop returns exactly the reference result `Discover(SearchChain(cwd), root, existing)`, and the path always ends in `Dockerfile` |
| Discovery.DiscoverFirstStop | dockershell/ds.py:53-57 | the first directory at which the search stops (its Dockerfile exists, or it is the root) decides the result |
| Discovery.DiscoverNoStop | dockershell/ds.py:58 | when no directory on the chain stops the search, the result is the root's candidate |
| Discovery.DiscoverIgnoresBeyondRoot | dockershell/ds.py:56-57 | two file sets that agree on the chain up to and including the root give the same result |
| Discovery.NearestDockerfileWins | dockershell/ds.py:50-55 | a Dockerfile at level `k` of `cwd` is returned when no nearer directory has one or is the root, and the result then exists |
| Discovery.BoundedByRoot | dockershell/ds.py:56-57 | with the root at or above `cwd` and no Dockerfile from `cwd` up to the root, the result is the root's candidate, and it does not exist |
| Discovery.AboveRootNotExamined | dockershell/ds.py:50-57 | files in directories strictly above the root never change the result |
| Discovery.RootNotAncestorFallsBack | dockershell/ds.py:50-58 | when the root is not on the way up from `cwd` and no Dockerfile exists on it, the search runs to `/` and falls back to the root's candidate |
| Template.DeclaresBuildArgs | dockershell/ds.py:69-76 | the template declares `ARG USER`, `ARG UID`, `ARG ROOTDIR` and `ARG WORKDIR` |
| Generator.Regenerated | dockershell/ds.py:65-154 | after regeneration the Dockerfile holds exactly the template, and every other path keeps its existence and content |
| Generator.RegeneratedForgetsOldContent | dockershell/ds.py:65 | the result does not depend on whether the old Dockerfile existed or on what it held |
| Generator.RegeneratedIdempotent | dockershell/ds.py:61-154 | regenerating twice leaves the same filesystem as regenerating once |
| Cli.Host.Unlink | dockershell/ds.py:65 | `unlink(missing_ok=True)` removes the path if present and touches nothing else |
| Cli.Host.WriteFile | dockershell/ds.py:153-154 | the file afterwards holds exactly the text written; nothing else changes |
| Cli.Host.CreateDockerfile | dockershell/ds.py:61-154 | the new filesystem is `Regenerated(old files, path)`; directory, output and trace are unchanged |
| Cli.Host.Chdir | dockershell/ds.py:264 | the current directory becomes the given one, and nothing else changes |
| Commands.DockerBuild | dockershell/ds.py:265-281 | the build command has 14 tokens and begins `docker buildx build . -t dockershell:latest` |
| Commands.BuildCommandCarriesArgs | dockershell/ds.py:265-281 | docker reads from the build command exactly `USER`, `UID`, `ROOTDIR` and `WORKDIR`, set to the user, uid, root and work directory |
| Commands.BuildArgKeys | dockershell/ds.py:273-280 | the build arguments docker reads have exactly the keys `USER`, `UID`, `ROOTDIR` and `WORKDIR` |
| Commands.BuildArgsDeclaredByTemplate | dockershell/ds.py:69-76 | every build argument the command passes is declared by an `ARG` line of the generated Dockerfile |
| Commands.DockerRun | dockershell/ds.py:286-303 | the run token list names `docker` twice (program, then argv[0]), then `run`; puts the image tag at position 13; and ends with exactly the user's tokens |
| Commands.RunCommandRequestsContainer | dockershell/ds.py:286-306 | the argument vector that `execlp` hands to docker is read back as a run of `dockershell:latest` with both mounts, `-it`, `--rm`, the work directory, the user, and exactly the user's tokens as the command |
| Dispatch.QuietIffNotMoreVerbose | dockershell/ds.py:222-282 | spawned output is discarded exactly when `-q` is given at least as often as `-v` |
| Dispatch.LaunchArgv | dockershell/ds.py:165-176 | `execlp(*cmd)` gives the program the vector `cmd[1..]`; `Popen(cmd)` gives it `cmd` whole |
| Dispatch.Decide | dockershell/ds.py:160-176 | script mode wins and prints exactly `#!/bin/bash` and the tokens joined by single spaces, in exec mode too; otherwise exec mode replaces the process with `cmd`; otherwise `cmd` is spawned with the quiet flag |
| Dispatch.ScriptReproducesSpawn | dockershell/ds.py:160-176 | for a spawned command whose tokens hold no space, the printed line cut at single spaces is exactly the vector `Popen` would launch outside script mode |
| Dispatch.ScriptKeepsExecProgram | dockershell/ds.py:160-165 | for an exec call whose tokens hold no space, the printed line cut at single spaces is the program name followed by the vector `execlp` would pass, one token more than the launch |
| Dispatch.ScriptLineReproducesLaunch | dockershell/ds.py:160-176 | the corrected line (`ScriptLine`), cut at single spaces, is the launched vector in both modes, for tokens without spaces |
| Dispatch.DoubledProgramIsNotDockerRun | dockershell/ds.py:162 | a printed line that starts `docker docker` is not read as `docker run` |
| Dispatch.ScriptRunLineAsWrittenIsNotDockerRun | dockershell/ds.py:160-306 | the run line `Decide` prints in script mode is `' '.join` of the run token list, and cut at single spaces it is not a `docker run` request |
| Dispatch.ScriptRunLineStartsContainer | dockershell/ds.py:160-306 | the corrected script run line, cut at single spaces, is read back as the intended container request |
| Text.SplitJoinRoundTrip | dockershell/ds.py:162 | joining tokens that hold no space and cutting the line at single spaces again gives the tokens back |
| Text.JoinSpacesLosesBoundaries | dockershell/ds.py:162 | tokens are not quoted, so `["ls", "my dir"]` and `["ls", "my", "dir"]` print the same line |
| Cli.Host.RunCommand | dockershell/ds.py:157-179 | script mode appends `#!/bin/bash` and `' '.join(cmd)` to the output and launches nothing; exec mode records the `Exec` of `cmd` with the current directory, or fails to launch when `cmd` has fewer than two tokens or its second token (the program's argv[0]) is empty; otherwise `cmd` fails to launch when empty, else its `Spawn` is recorded with the current directory and a non-zero exit status gives `CalledProcessError(status, cmd)`; neither the filesystem nor the directory changes |
| Cli.Host.BuildAndRun | dockershell/ds.py:262-306 | from the Dockerfile's directory the build is dispatched and, unless it raised, the run is dispatched from the work directory: in script mode `#!/bin/bash`, the joined build tokens, `#!/bin/bash` and the joined run tokens (with the doubled `docker`) are printed and nothing is launched; otherwise the build's `Spawn` is recorded with the Dockerfile's directory, a non-zero status ends there in `CalledProcessError` with the build command, and status 0 is followed by the `Exec` of the run command recorded with the work directory; the filesystem is unchanged |
| Cli.Host.RunCli | dockershell/ds.py:222-306 | the filesystem changes only by regeneration under `--init` without `--dry-run`; a dry run or an absent Dockerfile changes nothing else; script mode prints `#!/bin/bash`, the joined build tokens, `#!/bin/bash` and the joined run tokens as the source writes them, and launches nothing; otherwise the trace records the build spawned from the Dockerfile's directory, a failing build raises with the build command, and a successful one is followed by the exec of the run command recorded with the work directory (details below) |

`Cli.Host.RunCli` states the following, where the Dockerfile is the result
of the search from the starting directory:
- The filesystem changes only under `--init` without `--dry-run`. It then
  becomes the regenerated one, in which the Dockerfile exists and holds the
  template.
- With `--dry-run`, or with no Dockerfile present after the init step,
  nothing else changes and `cli` returns.
- In script mode:
  - four lines are printed: a shebang, the build tokens joined by single
    spaces, a shebang, and the run tokens joined the same way (so the run
    line begins `docker docker run`, as the source prints it);
  - nothing is launched;
  - the current directory ends as the work directory.
- Otherwise (the trace records each launch with its directory):
  - the build is spawned from the Dockerfile's directory. A non-zero build
    status raises `CalledProcessError` with the build command, and nothing
    more happens;
  - after a build that exits 0, the process is replaced by the run command,
    from the work directory.

## Left out

- Command-line parsing (`click`), logging and `rich` tracebacks are not modelled. Options arrive already parsed in `Options`, and log messages are not modelled.
- `cli` joins the command with spaces and re-splits it with `shlex.split`. `Options.command` is the resulting token list; shell-style quoting is not modelled.
- `getRoot` (which asks `git rev-parse`), `getHome`, `os.getuid` and `os.getlogin` are not modelled. Their results are inputs in `Environment`.
- `Path.resolve()` is the identity, because paths are modelled as already canonical and absolute: a relative `-w`, which `resolve()` makes absolute against the current directory, is not modelled (`Options.workDirectory` is already absolute), and symbolic links and `..` are not modelled. `Paths.Path` does not forbid empty components or components holding `/`, so `Render(["a/b"])` and `Render(["a", "b"])` coincide; such paths stand for no real path.
- Cli.Host.Chdir: `os.chdir` of a directory that does not exist (`-w` naming a missing directory) raises `FileNotFoundError` in the source, so the run is never launched. The model's `Chdir` always succeeds.
- Shell word splitting, expansion and quoting are not modelled. The script-line lemmas cut the line at single spaces (`str.split(' ')`). A shell also drops empty tokens, expands `$`, globs and quotes, and splits at tabs and newlines; those lemmas say nothing about such tokens.
- The exit status of the build process is an input (`Environment.buildStatus`). The output of that process is not modelled.
- Cli.Host.RunCommand: an `execlp` of a program that does not exist is not modelled. Only the argument checks Python makes before launching are modelled, giving `LaunchError`.
- `Popen` of a program that does not exist (`FileNotFoundError`) is not modelled.
- Cli.Host.WriteFile: write errors are not modelled (a missing directory, no permission). The write always succeeds.
- The `--dockerfile` and `--dsrc` options are not modelled, and neither is the `script_mode` parameter of `createDockerfile`: the source accepts them but never uses them.
- The `print` in script mode appends one element per line to `Host.stdout`; the newline `print` adds is not modelled.
- `str(x)` of the work-directory `Path` in the run command becomes `Paths.Render`. Every other token is already a string.

## Findings

| source | as written | input that shows it | evidently intended | confidence | as-written member | corrected member |
|---|---|---|---|---|---|---|
| dockershell/ds.py:162-289 | In script mode the run command is printed with `' '.join(cmd)`. That command's token list is laid out for `os.execlp(file, argv0, ...)`, so the line reads `docker docker run -v ...`. A shell running the script hands docker the unknown subcommand `docker`. | `ds -s` with any command, e.g. an empty one: the second printed command line begins `docker docker run` | print the argument vector that `execlp` would launch, `docker run -v ...`, so the script starts the same container | high (not executed) | Dispatch.ScriptRunLineAsWrittenIsNotDockerRun | Dispatch.ScriptRunLineStartsContainer |

`Host.RunCommand`, `Host.BuildAndRun` and `Host.RunCli` print the line as
the source writes it. The corrected line is `Dispatch.ScriptLine`, and
`Dispatch.ScriptLineReproducesLaunch` and `Dispatch.ScriptRunLineStartsContainer`
prove the intended property about it.
