/** The Dockerfile that `createDockerfile` writes, after `textwrap.dedent`,
    one element per line; every line is followed by a newline. */
module Template {

  /** Stage `base`: the Ubuntu image, the four build arguments, APT and basic tools. */
  const BaseStage: seq<string> := BaseImage + BuildArgDeclarations + BaseTools

  /** The first line keeps the four extra spaces of its indentation, since
      dedenting removes only the indentation common to every line. */
  const BaseImage: seq<string> := [
      "    FROM ubuntu:latest AS base",
      ""
  ]

  /** The build arguments, each copied into an environment variable. */
  const BuildArgDeclarations: seq<string> := [
      "ARG USER",
      "ENV user=${USER}",
      "ARG UID",
      "ENV uid=${UID}",
      "ARG ROOTDIR",
      "ENV rootdir=${ROOTDIR}",
      "ARG WORKDIR",
      "ENV workdir=${WORKDIR}"
  ]

  const BaseTools: seq<string> := [
      "",
      "# Keep apt tools from prompting",
      "ARG DEBIAN_FRONTEND=noninteractive",
      "ENV TZ=America/Ny",
      "",
      "# Inflate the system and set up APT.",
      "RUN yes | unminimize",
      "RUN apt-get -y install dialog apt-utils tzdata git",
      "RUN git clone https://github.com/timothyvanderaerden/add-apt-repository.git /usr/local/share/add-apt-repository",
      "RUN chmod ugo+rx /usr/local/share/add-apt-repository/add-apt-repository",
      "RUN ln -s /usr/local/share/add-apt-repository/add-apt-repository /usr/local/bin/add-apt-repository",
      "RUN apt-get -y update",
      "RUN apt-get -y install curl",
      "RUN apt-get -y install locales",
      "RUN apt-get -y install man",
      "RUN apt-get -y install python3",
      "RUN apt-get -y install sqlite3",
      "RUN apt-get -y install sudo",
      "RUN apt -y autoremove",
      ""
  ]

  /** Stage `package-install`: shells and optional packages. */
  const PackageInstallStage: seq<string> := [
      "FROM base AS package-install",
      "",
      "# Shells",
      "#RUN apt-get -y install bash",
      "RUN apt-get -y install fish",
      "#RUN apt-get -y install tcsh",
      "#RUN apt-get -y install zsh",
      "",
      "# System support",
      "#RUN apt-get -y install sshfs",
      "#RUN apt-get -y install stow",
      "#RUN apt-get -y install unzip",
      "",
      "# Utilties",
      "#RUN apt-get -y install bat",
      "#RUN apt-get -y install exa",
      "#RUN apt-get -y install jq",
      "#RUN apt-get -y install ripgrep",
      "",
      "# Clean up",
      "RUN apt -y autoremove",
      ""
  ]

  /** Stage `user-setup`: the user matching the host uid, sudo and the locale. */
  const UserSetupStage: seq<string> := [
      "FROM package-install AS user-setup",
      "",
      "# Handy if you want to support X windows apps within the DS environment",
      "#RUN ln -s /home/${user}/host/home/${user}/.Xauthority /home/${user}/.Xauthority",
      "",
      "# Set up a user and switch to that user for the remaining commands",
      "RUN useradd -u ${uid} -ms /usr/bin/fish ${user}",
      "RUN adduser ${user} sudo",
      "RUN echo 'ALL            ALL = (ALL) NOPASSWD: ALL' >> /etc/sudoers",
      "",
      "# Set up environment",
      "ENV LANGUAGE=\"en_US.UTF-8\"",
      "ENV LC_ALL=\"en_US.UTF-8\"",
      "ENV LC_CTYPE=\"en_US.UTF-8\"",
      "ENV LANG=\"en_US.UTF-8\"",
      "RUN locale-gen en_US.UTF-8",
      "RUN dpkg-reconfigure locales",
      "ENV SSH_AUTH_SOCK=${SSH_AUTH_SOCK}",
      ""
  ]

  /** Stage `python-setup`: pip and Python tools. */
  const PythonSetupStage: seq<string> := [
      "FROM user-setup AS python-setup",
      "",
      "RUN mkdir -p /usr/local/share/python-pip",
      "RUN curl -Lo /usr/local/share/python-pip/get-pip.py https://bootstrap.pypa.io/get-pip.py",
      "RUN python3 /usr/local/share/python-pip/get-pip.py",
      "",
      "RUN pip install --upgrade pip rich-cli termsql ipython",
      ""
  ]

  /** Stage `user-shell`: the working directory and the default shell. */
  const UserShellStage: seq<string> := [
      "FROM python-setup AS user-shell",
      "",
      "WORKDIR ${workdir}",
      "CMD [\"fish\"]"
  ]

  /** The whole file, stage after stage. */
  const Lines: seq<string> :=
    BaseStage + PackageInstallStage + UserSetupStage + PythonSetupStage + UserShellStage

  /** The file declares build argument `key` with an `ARG` line. */
  predicate Declares(key: string)
  {
    "ARG " + key in Lines
  }

  /** A line of a middle part is a line of the whole. */
  lemma InMiddle(line: string, a: seq<string>, b: seq<string>, c: seq<string>)
    requires line in b
    ensures line in a + b + c
  {
    var i :| 0 <= i < |b| && b[i] == line;
    assert (a + b + c)[|a| + i] == line;
  }

  /** The image declares the four build arguments the build passes. */
  lemma DeclaresBuildArgs()
    ensures Declares("USER") && Declares("UID") && Declares("ROOTDIR") && Declares("WORKDIR")
  {
    var d := BuildArgDeclarations;
    assert d[0] == "ARG " + "USER" && d[2] == "ARG " + "UID";
    assert d[4] == "ARG " + "ROOTDIR" && d[6] == "ARG " + "WORKDIR";
    var rest := PackageInstallStage + UserSetupStage + PythonSetupStage + UserShellStage;
    assert Lines == BaseStage + rest + [];
    forall line | line in d
      ensures line in Lines
    {
      InMiddle(line, BaseImage, d, BaseTools);
      InMiddle(line, [], BaseStage, rest);
    }
  }

  /** The lines, each followed by `\n`. */
  function Unlines(lines: seq<string>): string
    decreases |lines|
  {
    if lines == [] then "" else lines[0] + "\n" + Unlines(lines[1..])
  }

  /** The exact text written to the Dockerfile. */
  const DockerfileTemplate: string := Unlines(Lines)
}
