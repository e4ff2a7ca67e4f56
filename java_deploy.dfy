/**
 * The Java deployment window: restoring the last-used settings, the ordered input checks,
 * picking the artifact, joining the remote path, and the build, upload and deploy sequence
 * with its early exits. Every local process, file listing and SSH/SCP call is an input
 * (an `Effects` value); the sequence of steps the window would take is the output.
 */
module JavaDeploy {
  import opened Wrappers
  import opened Text
  import opened Models
  import opened Paths

  // ---------------------------------------------------------------------------------------
  // The remote path

  /** The remote file an artifact is uploaded to: the remote directory with its trailing '/'s trimmed, a '/', the name. */
  function RemoteTarget(remoteDir: string, name: string): string {
    TrimEndOf(remoteDir, {'/'}) + "/" + name
  }

  /**
   * The remote target keeps the remote directory up to its run of trailing '/'s, so that part
   * never ends in '/'; then comes exactly one '/', then the name.
   */
  lemma RemoteTargetShape(remoteDir: string, name: string)
    ensures var n := TrailingStart(remoteDir, {'/'});
      var target := RemoteTarget(remoteDir, name);
      && |target| == n + 1 + |name|
      && target[..n] == remoteDir[..n]
      && (forall k | n <= k < |remoteDir| :: remoteDir[k] == '/')
      && (n == 0 || target[n - 1] != '/')
      && target[n] == '/'
      && target[n + 1..] == name
  {
  }

  /** Occurrences of a non-empty pattern contain its first character. */
  lemma {:induction false} ContainsHead(s: string, sub: string)
    requires |sub| > 0 && Contains(s, sub)
    ensures sub[0] in s
  {
    if !StartsWith(s, sub) {
      ContainsHead(s[1..], sub);
    }
  }

  /** Gluing a '/'-free name onto a directory that does not end in '/' creates no "//". */
  lemma {:induction false} NoDoubleSlash(dir: string, name: string)
    requires |dir| == 0 || dir[|dir| - 1] != '/'
    requires '/' !in name
    ensures Contains(dir + "/" + name, "//") ==> Contains(dir, "//")
  {
    var s := dir + "/" + name;
    assert |dir| > 0 ==> s[0] == dir[0];
    if Contains(s, "//") {
      if |dir| == 0 {
        assert |name| > 0 ==> s[1] == name[0];
        if !StartsWith(s, "//") {
          assert s[1..] == name;
          ContainsHead(name, "//");
        }
      } else if StartsWith(s, "//") {
        if |dir| >= 2 {
          assert dir[..2] == s[..2];
        }
      } else {
        assert s[1..] == dir[1..] + "/" + name;
        NoDoubleSlash(dir[1..], name);
      }
    }
  }

  /** The join itself never creates "//": any "//" in the target was already inside the directory. */
  lemma RemoteTargetNoDoubleSlash(remoteDir: string, jarPath: string)
    ensures var target := RemoteTarget(remoteDir, FileName(jarPath));
      Contains(target, "//") ==> Contains(TrimEndOf(remoteDir, {'/'}), "//")
  {
    var k := TrailingStart(remoteDir, {'/'});
    var dir := remoteDir[..k];
    assert |dir| == 0 || dir[|dir| - 1] != '/' by {
      if |dir| > 0 {
        assert dir[k - 1] == remoteDir[k - 1];
      }
    }
    var name := FileName(jarPath);
    NoSlashInFileName(jarPath);
    NoDoubleSlash(dir, name);
  }

  /** The last component of a path holds no '/'. */
  lemma NoSlashInFileName(path: string)
    ensures '/' !in FileName(path)
  {
    var name := FileName(path);
    assert forall i | 0 <= i < |name| :: name[i] != '/';
  }

  // ---------------------------------------------------------------------------------------
  // Artifacts

  /** A built jar that is deployed: not a sources or javadoc jar. */
  predicate Deployable(path: string) {
    !EndsWith(path, "-sources.jar") && !EndsWith(path, "-javadoc.jar")
  }

  /** The jars of the build directory that can be deployed, in listing order. */
  function DeployableJars(jars: seq<string>): (r: seq<string>)
    ensures forall f :: f in r <==> f in jars && Deployable(f)
  {
    if |jars| == 0 then []
    else
      var rest := DeployableJars(jars[1..]);
      assert forall f :: f in jars <==> f == jars[0] || f in jars[1..];
      if Deployable(jars[0]) then [jars[0]] + rest else rest
  }

  /**
   * The jar that is uploaded is the first deployable one listed, and there is one exactly when
   * some listed jar is deployable.
   */
  lemma {:induction false} FirstDeployable(jars: seq<string>) returns (k: nat)
    ensures |DeployableJars(jars)| > 0 <==> exists j | 0 <= j < |jars| :: Deployable(jars[j])
    ensures |DeployableJars(jars)| > 0 ==>
      k < |jars| && jars[k] == DeployableJars(jars)[0] && forall j | 0 <= j < k :: !Deployable(jars[j])
  {
    if |jars| == 0 {
      return 0;
    }
    var r := DeployableJars(jars);
    if Deployable(jars[0]) {
      assert r[0] == jars[0];
      return 0;
    }
    assert r == DeployableJars(jars[1..]);
    var k1 := FirstDeployable(jars[1..]);
    assert forall j | 1 <= j < |jars| :: jars[j] == jars[1..][j - 1];
    if |r| > 0 {
      k := k1 + 1;
    } else {
      k := 0;
    }
  }

  // ---------------------------------------------------------------------------------------
  // Restoring the last configuration

  /** The most recent saved configuration: the earliest one with the greatest last-used time. */
  function LatestIndex(saved: seq<JavaDeployConfig>): (k: nat)
    requires |saved| > 0
    ensures k < |saved|
    ensures forall j | 0 <= j < |saved| :: saved[j].lastUsed <= saved[k].lastUsed
    ensures forall j | 0 <= j < k :: saved[j].lastUsed < saved[k].lastUsed
  {
    if |saved| == 1 then 0
    else
      var k := LatestIndex(saved[..|saved| - 1]);
      if saved[|saved| - 1].lastUsed > saved[k].lastUsed then |saved| - 1 else k
  }

  predicate ServesConfig(server: SshProfile, host: string, port: int) {
    server.host == host && server.port == port
  }

  /** The first server with the given host and port. */
  function FirstServerMatch(servers: seq<SshProfile>, host: string, port: int): (r: Option<nat>)
    ensures r.Some? ==> r.value < |servers| && ServesConfig(servers[r.value], host, port)
    ensures r.Some? ==> forall j | 0 <= j < r.value :: !ServesConfig(servers[j], host, port)
    ensures r.None? ==> forall j | 0 <= j < |servers| :: !ServesConfig(servers[j], host, port)
  {
    if |servers| == 0 then None
    else if ServesConfig(servers[0], host, port) then Some(0)
    else
      var r := FirstServerMatch(servers[1..], host, port);
      assert forall j | 1 <= j < |servers| :: servers[j] == servers[1..][j - 1];
      if r.Some? then Some(r.value + 1) else None
  }

  // ---------------------------------------------------------------------------------------
  // Validation

  /** The input checks of the deploy button, in the order they run. */
  datatype Rejection = ProjectPathMissing | NotMavenProject | NoServer | RemotePathMissing | ScriptMissing

  function Rank(c: Rejection): nat {
    match c
    case ProjectPathMissing => 0
    case NotMavenProject => 1
    case NoServer => 2
    case RemotePathMissing => 3
    case ScriptMissing => 4
  }

  /** The window's inputs to the deploy button. */
  datatype Inputs = Inputs(projectPath: string, server: Option<SshProfile>, remotePath: string, deployScript: string)

  /** Whether one check fails; `files` is the set of local files that exist. */
  predicate Fails(c: Rejection, inputs: Inputs, files: set<string>) {
    match c
    case ProjectPathMissing => IsBlank(inputs.projectPath)
    case NotMavenProject => PathCombine(inputs.projectPath, "pom.xml") !in files
    case NoServer => inputs.server.None?
    case RemotePathMissing => IsBlank(inputs.remotePath)
    case ScriptMissing => IsBlank(inputs.deployScript)
  }

  /** The first failing check, if any. */
  function Validate(inputs: Inputs, files: set<string>): (r: Option<Rejection>)
    ensures r.None? <==> forall c :: !Fails(c, inputs, files)
    ensures r.Some? ==> Fails(r.value, inputs, files)
    ensures r.Some? ==> forall c | Rank(c) < Rank(r.value) :: !Fails(c, inputs, files)
  {
    if IsBlank(inputs.projectPath) then
      assert Fails(ProjectPathMissing, inputs, files);
      Some(ProjectPathMissing)
    else if PathCombine(inputs.projectPath, "pom.xml") !in files then
      assert Fails(NotMavenProject, inputs, files);
      Some(NotMavenProject)
    else if inputs.server.None? then
      assert Fails(NoServer, inputs, files);
      Some(NoServer)
    else if IsBlank(inputs.remotePath) then
      assert Fails(RemotePathMissing, inputs, files);
      Some(RemotePathMissing)
    else if IsBlank(inputs.deployScript) then
      assert Fails(ScriptMissing, inputs, files);
      Some(ScriptMissing)
    else None
  }

  // ---------------------------------------------------------------------------------------
  // The deployment sequence

  /**
   * What the outside world does when the window acts: the local files that exist, the Maven
   * build's exit code (or the exception starting it), the jar listing of the build directory
   * (or its exception), and the exception, if any, of connecting, creating the remote
   * directory, uploading and changing the script's mode; the script's own result last.
   */
  datatype Effects = Effects(
    files: set<string>,
    build: Result<int, string>,
    jars: Result<seq<string>, string>,
    connect: Option<string>,
    mkdir: Option<string>,
    upload: Option<string>,
    chmod: Option<string>,
    script: ExecResult)

  /** The externally visible steps of a deployment, in the order they are taken. */
  datatype Step =
    | SaveConfig(config: JavaDeployConfig)
    | Build(command: string)
    | ListJars(dir: string)
    | Connect(host: string, port: int, username: string)
    | MakeDir(command: string)
    | Upload(local: string, remote: string)
    | Chmod(command: string)
    | RunScript(command: string)

  /** How a deployment ends. */
  datatype Outcome =
    | Rejected(reason: Rejection)
    | BuildFailed
    | NoJar
    | Errored(message: string)
    | ScriptFailed(stderr: string)
    | Deployed(output: string)

  /** The arguments of the build run through cmd.exe. */
  function BuildCommand(projectPath: string): string {
    "/C cd /d \"" + projectPath + "\" && mvn -T 4C package -DskipTests"
  }

  /** Every step of a deployment that goes all the way, given the chosen jar. */
  function FullPlan(inputs: Inputs, server: SshProfile, jar: string, now: int): (plan: seq<Step>)
    ensures |plan| == 8
  {
    [ SaveConfig(JavaDeployConfig(inputs.projectPath, server.name, server.host, server.port,
                                  inputs.remotePath, inputs.deployScript, now)),
      Build(BuildCommand(inputs.projectPath)),
      ListJars(PathCombine(inputs.projectPath, "target")),
      Connect(server.host, server.port, server.username),
      MakeDir("mkdir -p " + inputs.remotePath),
      Upload(jar, RemoteTarget(inputs.remotePath, FileName(jar))),
      Chmod("chmod +x " + inputs.deployScript),
      RunScript("bash " + inputs.deployScript) ]
  }

  /** The jar that is uploaded, when the listing yields one. */
  function ChosenJar(fx: Effects): string {
    if fx.jars.Success? && |DeployableJars(fx.jars.value)| > 0 then DeployableJars(fx.jars.value)[0] else ""
  }

  /** The build succeeded and left a deployable jar. */
  predicate HasArtifact(fx: Effects) {
    fx.build == Success(0) && fx.jars.Success? && |DeployableJars(fx.jars.value)| > 0
  }

  /** Every step before the script went through. */
  predicate ReachesScript(fx: Effects) {
    HasArtifact(fx) && fx.connect.None? && fx.mkdir.None? && fx.upload.None? && fx.chmod.None?
  }

  /** The deployment window's fields. */
  class DeployWindow {
    var projectPath: string
    var remotePath: string
    var deployScript: string
    var servers: seq<SshProfile>
    var selected: Option<nat>

    ghost predicate Valid()
      reads this
    {
      selected.Some? ==> selected.value < |servers|
    }

    /**
     * The window opens: the server list is filled with the saved profiles, the first one
     * selected; the text boxes are empty until the last configuration is restored.
     */
    constructor (profiles: seq<SshProfile>)
      ensures Valid() && servers == profiles
      ensures selected == if |profiles| > 0 then Some(0) else None
      ensures projectPath == "" && remotePath == "" && deployScript == ""
    {
      servers := profiles;
      selected := if |profiles| > 0 then Some(0) else None;
      projectPath, remotePath, deployScript := "", "", "";
    }

    /**
     * Restoring the most recent saved configuration: its paths and script fill the text boxes
     * and the first server with its host and port becomes selected; with no such server the
     * selection stays as it was. With nothing saved, nothing changes.
     */
    method RestoreLastConfig(saved: seq<JavaDeployConfig>)
      requires Valid()
      modifies this`projectPath, this`remotePath, this`deployScript, this`selected
      ensures Valid()
      ensures |saved| == 0 ==>
        && projectPath == old(projectPath) && remotePath == old(remotePath)
        && deployScript == old(deployScript) && selected == old(selected)
      ensures |saved| > 0 ==>
        var last := saved[LatestIndex(saved)];
        var m := FirstServerMatch(servers, last.serverHost, last.serverPort);
        && projectPath == last.projectPath && remotePath == last.remotePath
        && deployScript == last.deployScript
        && selected == (if m.Some? then m else old(selected))
    {
      if |saved| == 0 {
        return;
      }
      var last := saved[LatestIndex(saved)];
      projectPath, remotePath, deployScript := last.projectPath, last.remotePath, last.deployScript;
      var i := 0;
      while i < |servers|
        invariant 0 <= i <= |servers|
        invariant forall j | 0 <= j < i :: !ServesConfig(servers[j], last.serverHost, last.serverPort)
        invariant selected == old(selected)
      {
        if servers[i].host == last.serverHost && servers[i].port == last.serverPort {
          selected := Some(i);
          return;
        }
        i := i + 1;
      }
    }

    /** The folder dialog: a chosen folder replaces the project path; cancelling keeps it. */
    method Browse(chosen: Option<string>)
      modifies this`projectPath
      ensures projectPath == if chosen.Some? then chosen.value else old(projectPath)
    {
      if chosen.Some? {
        projectPath := chosen.value;
      }
    }

    function SelectedServer(): Option<SshProfile>
      reads this
      requires Valid()
    {
      if selected.Some? then Some(servers[selected.value]) else None
    }

    function CurrentInputs(): Inputs
      reads this
      requires Valid()
    {
      Inputs(projectPath, SelectedServer(), remotePath, deployScript)
    }

    /**
     * The deploy button. The first failing check ends it before anything is saved or run;
     * otherwise the configuration is saved and the remaining steps run.
     */
    method Deploy(now: int, fx: Effects) returns (trace: seq<Step>, outcome: Outcome)
      requires Valid()
      ensures var rej := Validate(CurrentInputs(), fx.files);
        && (outcome.Rejected? <==> rej.Some?)
        && (rej.Some? ==> outcome == Rejected(rej.value) && trace == [])
      ensures Validate(CurrentInputs(), fx.files).None? ==>
        && SelectedServer().Some?
        && Run(CurrentInputs(), SelectedServer().value, now, fx, trace, outcome)
    {
      var inputs := CurrentInputs();
      var rejection := Validate(inputs, fx.files);
      if rejection.Some? {
        return [], Rejected(rejection.value);
      }
      assert !Fails(NoServer, inputs, fx.files);
      trace, outcome := RunSteps(inputs, inputs.server.value, now, fx);
      EndingMeetsRun(inputs, inputs.server.value, now, fx);
    }
  }

  /** The build exited with 0 and the jars were listed. */
  predicate Listed(fx: Effects) {
    fx.build == Success(0) && fx.jars.Success?
  }

  /**
   * What running the steps after the checks promises, over the full plan: the shape of the
   * steps taken, where each exception stops the deployment, and the verdicts.
   */
  ghost predicate Run(inputs: Inputs, server: SshProfile, now: int, fx: Effects, trace: seq<Step>, outcome: Outcome) {
    var plan := FullPlan(inputs, server, ChosenJar(fx), now);
    RunShape(plan, fx, trace, outcome) && RunThrows(plan, fx, trace, outcome) && RunVerdicts(plan, fx, trace, outcome)
  }

  /** The deployment ends after the first k steps of the plan with the given outcome. */
  ghost predicate StopsAfter(plan: seq<Step>, trace: seq<Step>, outcome: Outcome, k: nat, o: Outcome) {
    k <= |plan| && trace == plan[..k] && outcome == o
  }

  /**
   * The steps taken are a prefix of the plan that at least saves and builds; nothing past the
   * listing is done without a deployable jar.
   */
  ghost predicate RunShape(plan: seq<Step>, fx: Effects, trace: seq<Step>, outcome: Outcome) {
    && 2 <= |trace|
    && trace <= plan
    && !outcome.Rejected?
    && (|trace| > 3 ==> HasArtifact(fx))
  }

  /** Each step that throws ends the deployment right after itself, with the exception's message. */
  ghost predicate RunThrows(plan: seq<Step>, fx: Effects, trace: seq<Step>, outcome: Outcome) {
    && (fx.build.Failure? ==> StopsAfter(plan, trace, outcome, 2, Errored(fx.build.error)))
    && (fx.build == Success(0) && fx.jars.Failure? ==> StopsAfter(plan, trace, outcome, 3, Errored(fx.jars.error)))
    && (HasArtifact(fx) && fx.connect.Some? ==> StopsAfter(plan, trace, outcome, 4, Errored(fx.connect.value)))
    && (HasArtifact(fx) && fx.connect.None? && fx.mkdir.Some? ==>
          StopsAfter(plan, trace, outcome, 5, Errored(fx.mkdir.value)))
    && (HasArtifact(fx) && fx.connect.None? && fx.mkdir.None? && fx.upload.Some? ==>
          StopsAfter(plan, trace, outcome, 6, Errored(fx.upload.value)))
    && (HasArtifact(fx) && fx.connect.None? && fx.mkdir.None? && fx.upload.None? && fx.chmod.Some? ==>
          StopsAfter(plan, trace, outcome, 7, Errored(fx.chmod.value)))
    && (ReachesScript(fx) && fx.script.Threw? ==> StopsAfter(plan, trace, outcome, 8, Errored(fx.script.message)))
  }

  /**
   * A non-zero build exit fails the build; a listing without a deployable jar ends before
   * connecting; only a script that ran with empty standard error deploys, and one that wrote
   * to standard error fails.
   */
  ghost predicate RunVerdicts(plan: seq<Step>, fx: Effects, trace: seq<Step>, outcome: Outcome) {
    && (outcome == BuildFailed <==> fx.build.Success? && fx.build.value != 0)
    && (outcome == BuildFailed ==> StopsAfter(plan, trace, outcome, 2, BuildFailed))
    && (outcome == NoJar <==> Listed(fx) && DeployableJars(fx.jars.value) == [])
    && (outcome == NoJar ==> StopsAfter(plan, trace, outcome, 3, NoJar))
    && (outcome.Deployed? <==> ReachesScript(fx) && fx.script.Ran? && fx.script.stderr == "")
    && (outcome.Deployed? ==> trace == plan && outcome.output == fx.script.stdout)
    && (outcome.ScriptFailed? <==> ReachesScript(fx) && fx.script.Ran? && fx.script.stderr != "")
    && (outcome.ScriptFailed? ==> trace == plan && outcome.stderr == fx.script.stderr)
  }

  /** How many steps of the full plan a deployment takes: up to and including the first that fails. */
  function Taken(fx: Effects): (n: nat)
    ensures 2 <= n <= 8
  {
    if fx.build.Failure? || fx.build.value != 0 then 2
    else if !HasArtifact(fx) then 3
    else if fx.connect.Some? then 4
    else if fx.mkdir.Some? then 5
    else if fx.upload.Some? then 6
    else if fx.chmod.Some? then 7
    else 8
  }

  /** How a deployment whose checks passed ends. */
  function Ending(fx: Effects): Outcome {
    if fx.build.Failure? then Errored(fx.build.error)
    else if fx.build.value != 0 then BuildFailed
    else if fx.jars.Failure? then Errored(fx.jars.error)
    else if !HasArtifact(fx) then NoJar
    else if fx.connect.Some? then Errored(fx.connect.value)
    else if fx.mkdir.Some? then Errored(fx.mkdir.value)
    else if fx.upload.Some? then Errored(fx.upload.value)
    else if fx.chmod.Some? then Errored(fx.chmod.value)
    else match fx.script
      case Threw(m) => Errored(m)
      case Ran(out, err) => if err != "" then ScriptFailed(err) else Deployed(out)
  }

  /** The steps taken by `Taken` are a prefix of any eight-step plan with at least the save and build. */
  lemma EndingShape(plan: seq<Step>, fx: Effects)
    requires |plan| == 8
    ensures RunShape(plan, fx, plan[..Taken(fx)], Ending(fx))
  {
  }

  /** Under `Taken` and `Ending`, every exception stops the deployment right after its step. */
  lemma EndingThrows(plan: seq<Step>, fx: Effects)
    requires |plan| == 8
    ensures RunThrows(plan, fx, plan[..Taken(fx)], Ending(fx))
  {
    assert plan[..8] == plan;
  }

  /** Under `Taken` and `Ending`, the build, jar and script verdicts are as `RunVerdicts` states. */
  lemma EndingVerdicts(plan: seq<Step>, fx: Effects)
    requires |plan| == 8
    ensures RunVerdicts(plan, fx, plan[..Taken(fx)], Ending(fx))
  {
    assert plan[..8] == plan;
    assert Listed(fx) ==> (DeployableJars(fx.jars.value) == [] <==> !HasArtifact(fx));
  }

  /** The steps and ending above keep every promise of `Run`. */
  lemma EndingMeetsRun(inputs: Inputs, server: SshProfile, now: int, fx: Effects)
    ensures Run(inputs, server, now, fx, FullPlan(inputs, server, ChosenJar(fx), now)[..Taken(fx)], Ending(fx))
  {
    var plan := FullPlan(inputs, server, ChosenJar(fx), now);
    EndingShape(plan, fx);
    EndingThrows(plan, fx);
    EndingVerdicts(plan, fx);
  }

  /**
   * The steps after the checks: save the configuration, build, list the jars, connect, create
   * the remote directory, upload the first deployable jar, make the script executable and run
   * it, stopping at the first failure. Any exception on the way ends it with its message.
   */
  method RunSteps(inputs: Inputs, server: SshProfile, now: int, fx: Effects) returns (trace: seq<Step>, outcome: Outcome)
    ensures trace == FullPlan(inputs, server, ChosenJar(fx), now)[..Taken(fx)]
    ensures outcome == Ending(fx)
  {
    var plan := FullPlan(inputs, server, ChosenJar(fx), now);
    // The configuration is saved and the build runs.
    trace := plan[..2];
    if fx.build.Failure? || fx.build.value != 0 {
      assert Taken(fx) == 2;
      return trace, if fx.build.Failure? then Errored(fx.build.error) else BuildFailed;
    }
    // The jars of the build directory are listed and the first deployable one is chosen.
    trace := plan[..3];
    if fx.jars.Failure? {
      assert Taken(fx) == 3;
      return trace, Errored(fx.jars.error);
    }
    if !HasArtifact(fx) {
      assert Taken(fx) == 3;
      return trace, NoJar;
    }
    trace := plan[..4];
    if fx.connect.Some? {
      assert Taken(fx) == 4;
      return trace, Errored(fx.connect.value);
    }
    trace := plan[..5];
    if fx.mkdir.Some? {
      assert Taken(fx) == 5;
      return trace, Errored(fx.mkdir.value);
    }
    trace := plan[..6];
    if fx.upload.Some? {
      assert Taken(fx) == 6;
      return trace, Errored(fx.upload.value);
    }
    trace := plan[..7];
    if fx.chmod.Some? {
      assert Taken(fx) == 7;
      return trace, Errored(fx.chmod.value);
    }
    trace := plan[..8];
    assert Taken(fx) == 8;
    match fx.script
    case Threw(m) =>
      outcome := Errored(m);
    case Ran(out, err) =>
      outcome := if err != "" then ScriptFailed(err) else Deployed(out);
  }
}
