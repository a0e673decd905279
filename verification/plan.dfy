/** Plan building in `run()`: from the action's inputs and the inherited
    environment to the list of `treebeard` command lines and the environment the
    commands are started with. Nothing here executes anything. */
module Plan {
  import opened Results
  import opened Text
  import opened Environment

  /** The raw action inputs, each as `core.getInput` returns it: trimmed, and ""
      when unset. */
  datatype Inputs = Inputs(
    apiKey: string,
    notebooks: string,
    dockerUsername: string,
    dockerPassword: string,
    dockerImageName: string,
    dockerRegistryPrefix: string,
    useDocker: string,
    debug: string,
    path: string)

  /** The inputs after normalisation: the two switches are booleans. */
  datatype Config = Config(
    apiKey: string,
    notebooks: string,
    dockerUsername: string,
    dockerPassword: string,
    dockerImageName: string,
    dockerRegistryPrefix: string,
    useDocker: bool,
    debug: bool)

  /** What `run()` takes from its process: the inherited environment, in key
      order, and the pinned reference of the treebeard package. */
  datatype Context = Context(inherited: Env, treebeardRef: string)

  /** The one validation error the planner raises. */
  datatype ConfigError = MissingDockerPassword {
    function Message(): string {
      "Docker username is supplied but password is an empty string, are you missing a secret?"
    }
  }

  /** Commands to run in order, and the environment each is started with. */
  datatype Plan = Plan(commands: seq<string>, env: Env)

  /** One segment of the `treebeard run` command line. */
  datatype Flag = Upload | Forward(key: string) | Notebooks(selector: string) | Dockerless | Debug

  const RefVar := "TREEBEARD_REF"
  const EventVar := "GITHUB_EVENT_NAME"
  const ForwardPrefix := "TB_"
  const UsernameVar := "DOCKER_USERNAME"
  const PasswordVar := "DOCKER_PASSWORD"
  const RegistryVar := "DOCKER_REGISTRY_PREFIX"
  const ImageVar := "TREEBEARD_IMAGE_NAME"
  const DockerVars: set<string> := {UsernameVar, PasswordVar, RegistryVar, ImageVar}
  const RunPrefix := "treebeard run --confirm "
  const UploadToken := " --upload "
  const DockerlessToken := " --dockerless "
  const DebugToken := " --debug "

  /** Reads the switches the way the action does: only a case-insensitive `true` is true. */
  function ReadConfig(inputs: Inputs): (c: Config)
    ensures c.useDocker <==> SpellsTrue(inputs.useDocker)
    ensures c.debug <==> SpellsTrue(inputs.debug)
    ensures inputs.useDocker == "" ==> !c.useDocker
    ensures inputs.debug == "" ==> !c.debug
    ensures c.apiKey == inputs.apiKey && c.notebooks == inputs.notebooks
    ensures c.dockerUsername == inputs.dockerUsername && c.dockerPassword == inputs.dockerPassword
    ensures c.dockerImageName == inputs.dockerImageName
    ensures c.dockerRegistryPrefix == inputs.dockerRegistryPrefix
  {
    TrueInputSpelling(inputs.useDocker);
    TrueInputSpelling(inputs.debug);
    Config(
      inputs.apiKey,
      inputs.notebooks,
      inputs.dockerUsername,
      inputs.dockerPassword,
      inputs.dockerImageName,
      inputs.dockerRegistryPrefix,
      IsTrueInput(inputs.useDocker),
      IsTrueInput(inputs.debug))
  }

  /** The event that triggered the workflow is a pull request. */
  predicate IsPullRequest(ctx: Context) {
    Lookup(ctx.inherited, EventVar) == Some("pull_request")
  }

  /** Outside pull requests a username without a password is refused. */
  predicate RejectsCredentials(config: Config, ctx: Context) {
    !IsPullRequest(ctx) && config.dockerUsername != "" && config.dockerPassword == ""
  }

  /** `{TREEBEARD_REF: treebeardRef, ...process.env}`. */
  function BaseEnv(ctx: Context): Env {
    Spread([(RefVar, ctx.treebeardRef)], ctx.inherited)
  }

  /** The keys that start with `TB_`, in the order given. */
  function ForwardedKeys(keys: seq<string>): (fwd: seq<string>)
    ensures forall k :: k in fwd <==> k in keys && StartsWith(k, ForwardPrefix)
  {
    if |keys| == 0 then []
    else
      var n := |keys| - 1;
      assert keys == keys[..n] + [keys[n]];
      ForwardedKeys(keys[..n]) + (if StartsWith(keys[n], ForwardPrefix) then [keys[n]] else [])
  }

  /** The variables named on the run command line: the `TB_` keys of the base environment. */
  function Forwarded(ctx: Context): seq<string> {
    ForwardedKeys(Keys(BaseEnv(ctx)))
  }

  /** `if (value) env[key] = value`. */
  function AssignIfGiven(env: Env, key: string, value: string): Env {
    if value != "" then Assign(env, key, value) else env
  }

  /** The Docker registry entries, each assigned only when its input is non-empty. */
  function DockerEnv(config: Config, env: Env): Env {
    var e1 := AssignIfGiven(env, UsernameVar, config.dockerUsername);
    var e2 := AssignIfGiven(e1, PasswordVar, config.dockerPassword);
    var e3 := AssignIfGiven(e2, RegistryVar, config.dockerRegistryPrefix);
    AssignIfGiven(e3, ImageVar, config.dockerImageName)
  }

  function ConfigureCommand(apiKey: string): string {
    "treebeard configure --api_key " + apiKey + " --user_name \"$GITHUB_REPOSITORY_OWNER\""
  }

  function EnvToken(key: string): string {
    " --env " + key + " "
  }

  function NotebooksToken(selector: string): string {
    " --notebooks '" + selector + "' "
  }

  /** A token appended only when its condition holds. */
  function Optional(present: bool, token: string): string {
    if present then token else ""
  }

  function EnvTokens(keys: seq<string>): (tokens: seq<string>)
    ensures |tokens| == |keys|
    ensures forall i :: 0 <= i < |keys| ==> tokens[i] == EnvToken(keys[i])
  {
    if |keys| == 0 then [] else [EnvToken(keys[0])] + EnvTokens(keys[1..])
  }

  /** The run command line exactly as the action concatenates it. */
  function RunCommand(config: Config, forwarded: seq<string>): string {
    RunPrefix
    + Optional(config.apiKey != "", UploadToken)
    + Join(EnvTokens(forwarded), " ")
    + Optional(config.notebooks != "", NotebooksToken(config.notebooks))
    + Optional(!config.useDocker, DockerlessToken)
    + Optional(config.debug, DebugToken)
  }

  /** Whatever flags follow, the run command begins with `treebeard run --confirm `. */
  lemma RunCommandHasPrefix(config: Config, forwarded: seq<string>)
    ensures StartsWith(RunCommand(config, forwarded), RunPrefix)
  {
    var u := Optional(config.apiKey != "", UploadToken);
    var j := Join(EnvTokens(forwarded), " ");
    var n := Optional(config.notebooks != "", NotebooksToken(config.notebooks));
    var d := Optional(!config.useDocker, DockerlessToken);
    var g := Optional(config.debug, DebugToken);
    assert RunPrefix[..|RunPrefix|] == RunPrefix;
    StartsWithAppend(RunPrefix, RunPrefix, u);
    StartsWithAppend(RunPrefix + u, RunPrefix, j);
    StartsWithAppend(RunPrefix + u + j, RunPrefix, n);
    StartsWithAppend(RunPrefix + u + j + n, RunPrefix, d);
    StartsWithAppend(RunPrefix + u + j + n + d, RunPrefix, g);
  }

  /** Builds the plan, or fails with the credential error. The configure command
      is planned only for a non-empty API key; the run command always comes last. */
  function BuildPlan(config: Config, ctx: Context): (r: Result<Plan, ConfigError>)
    ensures r.Err? <==> RejectsCredentials(config, ctx)
    ensures r.Ok? ==> |r.value.commands| == (if config.apiKey != "" then 2 else 1)
    ensures r.Ok? ==> StartsWith(r.value.commands[|r.value.commands| - 1], RunPrefix)
  {
    var script := if config.apiKey != "" then [ConfigureCommand(config.apiKey)] else [];
    var base := BaseEnv(ctx);
    var run := RunCommand(config, ForwardedKeys(Keys(base)));
    RunCommandHasPrefix(config, ForwardedKeys(Keys(base)));
    if IsPullRequest(ctx) then
      Ok(Plan(script + [run], base))
    else if config.dockerUsername != "" && config.dockerPassword == "" then
      Err(MissingDockerPassword)
    else
      Ok(Plan(script + [run], DockerEnv(config, base)))
  }

  /** Orders the kinds of run flag as the command line lays them out. */
  function Rank(f: Flag): nat {
    match f
    case Upload => 0
    case Forward(_) => 1
    case Notebooks(_) => 2
    case Dockerless => 3
    case Debug => 4
  }

  function FlagText(f: Flag): string {
    match f
    case Upload => UploadToken
    case Forward(key) => EnvToken(key)
    case Notebooks(selector) => NotebooksToken(selector)
    case Dockerless => DockerlessToken
    case Debug => DebugToken
  }

  function EnvFlags(keys: seq<string>): (flags: seq<Flag>)
    ensures |flags| == |keys|
    ensures forall i :: 0 <= i < |keys| ==> flags[i] == Forward(keys[i])
  {
    if |keys| == 0 then [] else [Forward(keys[0])] + EnvFlags(keys[1..])
  }

  function UploadFlags(config: Config): seq<Flag> {
    if config.apiKey != "" then [Upload] else []
  }

  function TailFlags(config: Config): seq<Flag> {
    (if config.notebooks != "" then [Notebooks(config.notebooks)] else [])
    + (if !config.useDocker then [Dockerless] else [])
    + (if config.debug then [Debug] else [])
  }

  /** The run command as a list of flags (after the fixed `--confirm`). */
  function RunFlags(config: Config, forwarded: seq<string>): seq<Flag> {
    UploadFlags(config) + EnvFlags(forwarded) + TailFlags(config)
  }

  /** Writes flags out one after the other; two neighbouring `--env` flags are
      separated by one more space, which is what joining them with ' ' adds. */
  function RenderFlags(flags: seq<Flag>): string {
    if |flags| == 0 then ""
    else
      FlagText(flags[0])
      + (if |flags| > 1 && flags[0].Forward? && flags[1].Forward? then " " else "")
      + RenderFlags(flags[1..])
  }
}
