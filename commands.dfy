module Wrappers {
  datatype Option<T> = None | Some(value: T)
}

/** The two docker invocations `cli` assembles (the image build and the
    container run), and how docker reads them back. */
module Commands {
  import opened Wrappers
  import opened Paths
  import opened Text
  import Template

  const ImageTag: string := "dockershell:latest"

  /** `--build-arg KEY=VALUE` */
  function BuildArg(key: string, value: string): string
  {
    key + "=" + value
  }

  /** `docker buildx build . -t dockershell:latest`: build context `.` (the
      Dockerfile's directory, made current just before) and the fixed tag. */
  const BuildPrefix: seq<string> := ["docker", "buildx", "build", ".", "-t", ImageTag]

  /** The four `--build-arg` pairs, in the order the source passes them. */
  function BuildArgOptions(user: string, uid: string, root: Path, work: Path): seq<string>
  {
    ["--build-arg", BuildArg("USER", user),
     "--build-arg", BuildArg("UID", uid),
     "--build-arg", BuildArg("ROOTDIR", Render(root)),
     "--build-arg", BuildArg("WORKDIR", Render(work))]
  }

  /** The build command. */
  function DockerBuild(user: string, uid: string, root: Path, work: Path): (cmd: seq<string>)
    ensures |cmd| == 14
    ensures cmd[..6] == BuildPrefix
  {
    BuildPrefix + BuildArgOptions(user, uid, root, work)
  }

  /** The build arguments the build is meant to receive. */
  function IntendedBuildArgs(user: string, uid: string, root: Path, work: Path): map<string, string>
  {
    map["USER" := user, "UID" := uid, "ROOTDIR" := Render(root), "WORKDIR" := Render(work)]
  }

  /** How `docker build` collects `--build-arg KEY=VALUE` options: the key
      ends at the first `=`, a later option for the same key wins, and an
      option without `=` (a value taken from the environment) sets nothing. */
  function BuildArgs(argv: seq<string>): map<string, string>
    decreases |argv|
  {
    if |argv| < 2 then map[]
    else if argv[0] == "--build-arg" then
      var i := FirstIndex(argv[1], '=');
      var rest := BuildArgs(argv[2..]);
      if i < |argv[1]| then map[argv[1][..i] := argv[1][i + 1..]] + rest else rest
    else BuildArgs(argv[1..])
  }

  /** One `--build-arg KEY=VALUE` pair in front of further arguments. */
  lemma {:induction false} BuildArgsPair(key: string, value: string, rest: seq<string>)
    requires '=' !in key
    ensures BuildArgs(["--build-arg", BuildArg(key, value)] + rest) == map[key := value] + BuildArgs(rest)
  {
    var argv := ["--build-arg", BuildArg(key, value)] + rest;
    assert BuildArg(key, value) == key + ['='] + value;
    FirstIndexAfterPrefix(key, '=', value);
    assert BuildArg(key, value)[..|key|] == key;
    assert BuildArg(key, value)[|key| + 1..] == value;
    assert argv[2..] == rest;
  }

  /** Tokens other than `--build-arg` in front of at least one more token
      pass no build argument. */
  lemma {:induction false} BuildArgsSkip(tokens: seq<string>, rest: seq<string>)
    requires "--build-arg" !in tokens && rest != []
    ensures BuildArgs(tokens + rest) == BuildArgs(rest)
    decreases |tokens|
  {
    if tokens != [] {
      assert (tokens + rest)[0] == tokens[0] != "--build-arg";
      assert (tokens + rest)[1..] == tokens[1..] + rest;
      assert "--build-arg" !in tokens[1..] by {
        assert forall t :: t in tokens[1..] ==> t in tokens;
      }
      BuildArgsSkip(tokens[1..], rest);
    } else {
      assert tokens + rest == rest;
    }
  }

  lemma IntendedArgsInOrder(user: string, uid: string, root: Path, work: Path)
    ensures IntendedBuildArgs(user, uid, root, work) == map["USER" := user] + (map["UID" := uid] +
      (map["ROOTDIR" := Render(root)] + (map["WORKDIR" := Render(work)] + map[])))
  {
  }

  lemma BuildArgsOfOptions(user: string, uid: string, root: Path, work: Path)
    ensures BuildArgs(BuildArgOptions(user, uid, root, work)) == map["USER" := user] + (map["UID" := uid] +
      (map["ROOTDIR" := Render(root)] + (map["WORKDIR" := Render(work)] + map[])))
  {
    var a4: seq<string> := [];
    var a3 := ["--build-arg", BuildArg("WORKDIR", Render(work))] + a4;
    var a2 := ["--build-arg", BuildArg("ROOTDIR", Render(root))] + a3;
    var a1 := ["--build-arg", BuildArg("UID", uid)] + a2;
    var a0 := ["--build-arg", BuildArg("USER", user)] + a1;
    BuildArgsPair("WORKDIR", Render(work), a4);
    BuildArgsPair("ROOTDIR", Render(root), a3);
    BuildArgsPair("UID", uid, a2);
    BuildArgsPair("USER", user, a1);
    assert BuildArgOptions(user, uid, root, work) == a0;
  }

  /** Each of the four build arguments reaches docker verbatim under its own
      key, whatever the values contain (an `=` included), and nothing else is
      passed as a build argument. */
  lemma BuildCommandCarriesArgs(user: string, uid: string, root: Path, work: Path)
    ensures BuildArgs(DockerBuild(user, uid, root, work)) == IntendedBuildArgs(user, uid, root, work)
  {
    BuildArgsSkip(BuildPrefix, BuildArgOptions(user, uid, root, work));
    BuildArgsOfOptions(user, uid, root, work);
    IntendedArgsInOrder(user, uid, root, work);
  }

  /** Every build argument passed is one the generated Dockerfile declares
      with an `ARG` line. */
  lemma BuildArgsDeclaredByTemplate(user: string, uid: string, root: Path, work: Path)
    ensures forall key :: key in BuildArgs(DockerBuild(user, uid, root, work)) ==> Template.Declares(key)
  {
    BuildArgKeys(user, uid, root, work);
    Template.DeclaresBuildArgs();
  }

  lemma BuildArgKeys(user: string, uid: string, root: Path, work: Path)
    ensures BuildArgs(DockerBuild(user, uid, root, work)).Keys == {"USER", "UID", "ROOTDIR", "WORKDIR"}
  {
    BuildCommandCarriesArgs(user, uid, root, work);
  }

  /** The run command: a token list laid out for `os.execlp(*cmd)`, whose
      first element is the program and whose rest is its argument vector, so
      `docker` appears twice; the user's tokens come last. */
  function DockerRun(home: Path, work: Path, user: string, command: seq<string>): (cmd: seq<string>)
    ensures |cmd| == 14 + |command| && cmd[14..] == command
    ensures cmd[0] == "docker" && cmd[1] == "docker" && cmd[2] == "run" && cmd[13] == ImageTag
    ensures command == [] ==> cmd[|cmd| - 1] == ImageTag
  {
    ["docker", "docker", "run",
     "-v", Render(home) + ":" + Render(home),
     "-v", ".:" + Render(work),
     "-it", "--rm",
     "--workdir", Render(work),
     "-u", user,
     ImageTag] + command
  }

  /** What `docker run` is asked to do. */
  datatype RunRequest = RunRequest(
    volumes: seq<string>, interactiveTty: bool, autoRemove: bool,
    workdir: Option<string>, user: Option<string>,
    image: string, command: seq<string>)

  const NoOptions: RunRequest := RunRequest([], false, false, None, None, "", [])

  /** How `docker run` reads the options this tool uses: options up to the
      first operand, which names the image; everything after the image is the
      container's command, options or not. */
  function ReadRunOptions(args: seq<string>, req: RunRequest): Option<RunRequest>
    decreases |args|
  {
    if args == [] then None
    else if args[0] == "-v" then
      if |args| < 2 then None else ReadRunOptions(args[2..], req.(volumes := req.volumes + [args[1]]))
    else if args[0] == "--workdir" then
      if |args| < 2 then None else ReadRunOptions(args[2..], req.(workdir := Some(args[1])))
    else if args[0] == "-u" then
      if |args| < 2 then None else ReadRunOptions(args[2..], req.(user := Some(args[1])))
    else if args[0] == "-it" then ReadRunOptions(args[1..], req.(interactiveTty := true))
    else if args[0] == "--rm" then ReadRunOptions(args[1..], req.(autoRemove := true))
    else if |args[0]| > 0 && args[0][0] == '-' then None
    else Some(req.(image := args[0], command := args[1..]))
  }

  /** A `docker run ...` argument vector (program name first), or `None`
      when the vector is not one. */
  function ReadDockerRun(argv: seq<string>): Option<RunRequest>
  {
    if |argv| >= 2 && argv[0] == "docker" && argv[1] == "run" then ReadRunOptions(argv[2..], NoOptions)
    else None
  }

  /** The request the run command is meant to make. */
  function IntendedRun(home: Path, work: Path, user: string, command: seq<string>): RunRequest
  {
    RunRequest([Render(home) + ":" + Render(home), ".:" + Render(work)], true, true,
               Some(Render(work)), Some(user), ImageTag, command)
  }

  lemma ReadVolume(v: string, rest: seq<string>, req: RunRequest)
    ensures ReadRunOptions(["-v", v] + rest, req) == ReadRunOptions(rest, req.(volumes := req.volumes + [v]))
  {
    assert (["-v", v] + rest)[2..] == rest;
  }

  lemma ReadWorkdir(w: string, rest: seq<string>, req: RunRequest)
    ensures ReadRunOptions(["--workdir", w] + rest, req) == ReadRunOptions(rest, req.(workdir := Some(w)))
  {
    assert (["--workdir", w] + rest)[2..] == rest;
  }

  lemma ReadUser(u: string, rest: seq<string>, req: RunRequest)
    ensures ReadRunOptions(["-u", u] + rest, req) == ReadRunOptions(rest, req.(user := Some(u)))
  {
    assert (["-u", u] + rest)[2..] == rest;
  }

  lemma ReadFlags(rest: seq<string>, req: RunRequest)
    ensures ReadRunOptions(["-it", "--rm"] + rest, req) == ReadRunOptions(rest, req.(interactiveTty := true, autoRemove := true))
  {
    var args := ["-it", "--rm"] + rest;
    assert args[1..] == ["--rm"] + rest;
    assert (["--rm"] + rest)[1..] == rest;
  }

  lemma ReadImage(rest: seq<string>, req: RunRequest)
    ensures ReadRunOptions([ImageTag] + rest, req) == Some(req.(image := ImageTag, command := rest))
  {
    assert ImageTag[0] == 'd';
    assert ([ImageTag] + rest)[1..] == rest;
  }

  /** The argument vector the run command hands to docker (everything after
      the program name) asks for the home and work mounts, an interactive,
      self-removing container with the host's work directory and user, the
      fixed image, and exactly the user's tokens as the container's command. */
  lemma RunCommandRequestsContainer(home: Path, work: Path, user: string, command: seq<string>)
    ensures ReadDockerRun(DockerRun(home, work, user, command)[1..]) == Some(IntendedRun(home, work, user, command))
  {
    var h, w := Render(home) + ":" + Render(home), ".:" + Render(work);
    var options := RunOptionTokens(h, w, Render(work), user);
    assert DockerRun(home, work, user, command)[1..] == ["docker", "run"] + (options + command);
    assert (["docker", "run"] + (options + command))[2..] == options + command;
    ReadRunOptionTokens(h, w, Render(work), user, command);
  }

  /** The options the run command passes between `run` and the image. */
  function RunOptionTokens(h: string, w: string, wd: string, user: string): seq<string>
  {
    ["-v", h, "-v", w, "-it", "--rm", "--workdir", wd, "-u", user, ImageTag]
  }

  lemma ReadRunOptionTokens(h: string, w: string, wd: string, user: string, command: seq<string>)
    ensures ReadRunOptions(RunOptionTokens(h, w, wd, user) + command, NoOptions)
            == Some(RunRequest([h, w], true, true, Some(wd), Some(user), ImageTag, command))
  {
    var a5 := [ImageTag] + command;
    var a4 := ["-u", user] + a5;
    var a3 := ["--workdir", wd] + a4;
    var a2 := ["-it", "--rm"] + a3;
    var a1 := ["-v", w] + a2;
    var a0 := ["-v", h] + a1;
    var r0 := NoOptions;
    var r1 := r0.(volumes := r0.volumes + [h]);
    var r2 := r1.(volumes := r1.volumes + [w]);
    var r3 := r2.(interactiveTty := true, autoRemove := true);
    var r4 := r3.(workdir := Some(wd));
    var r5 := r4.(user := Some(user));
    ReadVolume(h, a1, r0);
    ReadVolume(w, a2, r1);
    ReadFlags(a3, r2);
    ReadWorkdir(wd, a4, r3);
    ReadUser(user, a5, r4);
    ReadImage(command, r5);
    assert r5.volumes == [h, w];
    assert RunOptionTokens(h, w, wd, user) + command == a0;
  }
}
