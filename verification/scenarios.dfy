/** Concrete invocations worked through end to end. */
module Scenarios {
  import opened Results
  import opened Text
  import opened Environment
  import opened Plan
  import opened Execution
  import opened Action
  import PlanProperties

  /** Inputs with only `use-docker: true` and the path set; every other input unset. */
  function DockerOnInputs(): Inputs {
    Inputs("", "", "", "", "", "", "true", "", ".")
  }

  function KeyOnlyInputs(): Inputs {
    Inputs("K", "", "", "", "", "", "true", "", ".")
  }

  /** With nothing inherited, the base environment is the pinned reference alone
      and nothing is forwarded. */
  lemma EmptyInheritance(ref: string)
    ensures BaseEnv(Context([], ref)) == [(RefVar, ref)]
    ensures Forwarded(Context([], ref)) == []
    ensures !IsPullRequest(Context([], ref))
  {
    var keys := Keys([(RefVar, ref)]);
    assert keys == [RefVar];
    assert keys[..0] == [];
    assert ForwardedKeys(keys[..0]) == [];
    PlanProperties.RefIsNotForwarded();
  }

  /** With nothing inherited and no Docker inputs, the plan is the configure
      command (for a key) and the run command with no `--env` flag, in the base
      environment. */
  lemma PlanWithoutInheritance(config: Config, ref: string)
    requires config.dockerUsername == "" && config.dockerPassword == ""
    requires config.dockerImageName == "" && config.dockerRegistryPrefix == ""
    ensures BuildPlan(config, Context([], ref)) ==
      Ok(Plan((if config.apiKey != "" then [ConfigureCommand(config.apiKey)] else []) + [RunCommand(config, [])],
              [(RefVar, ref)]))
  {
    EmptyInheritance(ref);
  }

  /** Nothing forwarded writes nothing between the upload flag and the rest. */
  lemma NoForwardedText()
    ensures Join(EnvTokens([]), " ") == ""
  {
    assert EnvTokens([]) == [];
  }

  /** Both input sets read as Docker on and debugging off. */
  lemma InputSetsRead()
    ensures ReadConfig(DockerOnInputs()) == Config("", "", "", "", "", "", true, false)
    ensures ReadConfig(KeyOnlyInputs()) == Config("K", "", "", "", "", "", true, false)
  {
    assert SpellsTrue("true");
    assert !SpellsTrue("");
  }

  /** With every input unset, `use-docker` reads as false, so the run command
      carries `--dockerless`. */
  lemma UnsetInputsRunDockerless()
    ensures !ReadConfig(Inputs("", "", "", "", "", "", "", "", "")).useDocker
    ensures Dockerless in RunFlags(ReadConfig(Inputs("", "", "", "", "", "", "", "", "")), [])
  {
    TrueInputSpelling("");
    PlanProperties.RunFlagsMembership(ReadConfig(Inputs("", "", "", "", "", "", "", "", "")), []);
  }

  /** No API key, Docker on: a single bare run command, environment = base. */
  lemma BareRun()
    ensures BuildPlan(ReadConfig(DockerOnInputs()), Context([], "v1")) ==
      Ok(Plan(["treebeard run --confirm "], [("TREEBEARD_REF", "v1")]))
  {
    InputSetsRead();
    var config := Config("", "", "", "", "", "", true, false);
    PlanWithoutInheritance(config, "v1");
    NoForwardedText();
    var run := RunCommand(config, []);
    assert run == RunPrefix by {
      assert Optional(config.apiKey != "", UploadToken) == "";
      assert Optional(config.notebooks != "", NotebooksToken(config.notebooks)) == "";
      assert Optional(!config.useDocker, DockerlessToken) == "";
      assert Optional(config.debug, DebugToken) == "";
      assert run == RunPrefix + "" + "" + "" + "" + "";
    }
    assert [] + [run] == [RunPrefix];
  }

  /** Every switch on: configure first, then upload, notebooks, dockerless and
      debug, each flag padded with spaces as the action writes it. */
  lemma EverySwitch()
    ensures BuildPlan(Config("K", "a.ipynb", "", "", "", "", false, true), Context([], "v1")) ==
      Ok(Plan([ ConfigureCommand("K"),
                "treebeard run --confirm " + " --upload " + " --notebooks 'a.ipynb' " + " --dockerless " + " --debug " ],
              [("TREEBEARD_REF", "v1")]))
  {
    var config := Config("K", "a.ipynb", "", "", "", "", false, true);
    PlanWithoutInheritance(config, "v1");
    EverySwitchRun();
    var configure := ConfigureCommand("K");
    var run := RunCommand(config, []);
    assert [configure] + [run] == [configure, run];
  }

  /** The run command with every flag, piece by piece. */
  lemma EverySwitchRun()
    ensures RunCommand(Config("K", "a.ipynb", "", "", "", "", false, true), []) ==
      "treebeard run --confirm " + " --upload " + " --notebooks 'a.ipynb' " + " --dockerless " + " --debug "
  {
    NoForwardedText();
    assert NotebooksToken("a.ipynb") == " --notebooks 'a.ipynb' ";
    assert RunPrefix + UploadToken + "" == RunPrefix + UploadToken;
  }

  /** `TREEBEARD_REF`, then the three inherited keys in their order. */
  lemma ThreeInherited()
    ensures BaseEnv(Context([("TB_A", "1"), ("PATH", "/bin"), ("TB_B", "2")], "v1")) ==
      [(RefVar, "v1"), ("TB_A", "1"), ("PATH", "/bin"), ("TB_B", "2")]
  {
    var start: Env := [(RefVar, "v1")];
    var e1: Env := [("TB_A", "1")];
    var e2 := e1 + [("PATH", "/bin")];
    var e3 := e2 + [("TB_B", "2")];
    SpreadSnoc(start, [], ("TB_A", "1"));
    assert [] + e1 == e1;
    SpreadSnoc(start, e1, ("PATH", "/bin"));
    SpreadSnoc(start, e2, ("TB_B", "2"));
    assert Keys(start + e1) == [RefVar, "TB_A"];
    assert Keys(start + e2) == [RefVar, "TB_A", "PATH"];
    assert e3 == [("TB_A", "1"), ("PATH", "/bin"), ("TB_B", "2")];
  }

  lemma ThreeInheritedForwarded()
    ensures ForwardedKeys([RefVar, "TB_A", "PATH", "TB_B"]) == ["TB_A", "TB_B"]
  {
    var k1 := [RefVar];
    var k2 := k1 + ["TB_A"];
    var k3 := k2 + ["PATH"];
    var k4 := k3 + ["TB_B"];
    PlanProperties.RefIsNotForwarded();
    PlanProperties.ForwardedKeysSnoc([], RefVar);
    assert [] + [RefVar] == k1;
    PlanProperties.ForwardedKeysSnoc(k1, "TB_A");
    PlanProperties.ForwardedKeysSnoc(k2, "PATH");
    PlanProperties.ForwardedKeysSnoc(k3, "TB_B");
    assert StartsWith("TB_A", ForwardPrefix) && StartsWith("TB_B", ForwardPrefix);
    assert !StartsWith("PATH", ForwardPrefix);
    assert k4 == [RefVar, "TB_A", "PATH", "TB_B"];
  }

  /** Two `TB_` variables are forwarded in environment order, the tokens joined
      by one more space; `PATH` is not forwarded. */
  lemma ForwardTwo()
    ensures var ctx := Context([("TB_A", "1"), ("PATH", "/bin"), ("TB_B", "2")], "v1");
      BuildPlan(Config("", "", "", "", "", "", true, false), ctx) ==
        Ok(Plan(["treebeard run --confirm " + ((" --env " + "TB_A" + " ") + " " + (" --env " + "TB_B" + " "))],
                BaseEnv(ctx)))
  {
    var config := Config("", "", "", "", "", "", true, false);
    var ctx := Context([("TB_A", "1"), ("PATH", "/bin"), ("TB_B", "2")], "v1");
    ForwardTwoContext();
    ForwardTwoRun();
    var run := RunCommand(config, Forwarded(ctx));
    assert BuildPlan(config, ctx) == Ok(Plan([] + [run], BaseEnv(ctx))) by {
      assert DockerEnv(config, BaseEnv(ctx)) == BaseEnv(ctx);
    }
    assert [] + [run] == [run];
  }

  /** The context with `TB_A`, `PATH` and `TB_B` inherited forwards the two `TB_`
      keys and is not a pull request. */
  lemma ForwardTwoContext()
    ensures var ctx := Context([("TB_A", "1"), ("PATH", "/bin"), ("TB_B", "2")], "v1");
      Forwarded(ctx) == ["TB_A", "TB_B"] && !IsPullRequest(ctx)
  {
    var ctx := Context([("TB_A", "1"), ("PATH", "/bin"), ("TB_B", "2")], "v1");
    ThreeInherited();
    assert Keys(BaseEnv(ctx)) == [RefVar, "TB_A", "PATH", "TB_B"];
    ThreeInheritedForwarded();
    assert Lookup(ctx.inherited, EventVar) == None by {
      assert Keys(ctx.inherited) == ["TB_A", "PATH", "TB_B"];
    }
  }

  /** The run command for two forwarded variables, piece by piece. */
  lemma ForwardTwoRun()
    ensures RunCommand(Config("", "", "", "", "", "", true, false), ["TB_A", "TB_B"]) ==
      "treebeard run --confirm " + ((" --env " + "TB_A" + " ") + " " + (" --env " + "TB_B" + " "))
  {
    var tokens := EnvTokens(["TB_A", "TB_B"]);
    assert tokens[1..] == [EnvToken("TB_B")];
    assert RunPrefix + "" + Join(tokens, " ") + "" + "" + "" == RunPrefix + Join(tokens, " ");
  }

  /** A username without a password outside a pull request: rejected, and
      nothing is started, not even the configure command. */
  lemma MissingPasswordStopsEverything(exitOf: string -> int)
    ensures Invoke(Inputs("K", "", "u", "", "", "", "true", "", "."), Context([], "v1"), 0, exitOf) ==
      Run([], ["Docker username is supplied but password is an empty string, are you missing a secret?"])
  {
    EmptyInheritance("v1");
  }

  /** The same credentials on a pull request are accepted. */
  lemma PullRequestSkipsPasswordCheck()
    ensures BuildPlan(Config("", "", "u", "", "", "", true, false),
                      Context([("GITHUB_EVENT_NAME", "pull_request")], "v1")).Ok?
  {
    var inherited: Env := [("GITHUB_EVENT_NAME", "pull_request")];
    assert inherited[..0] == [];
    assert Lookup(inherited, EventVar) == Some("pull_request");
  }

  lemma StatusText(code: nat)
    requires code < 10
    ensures Decimal(code) == [('0' as int + code) as char]
  {
  }

  /** A run command that exits with 3 yields one report naming status 3. */
  lemma RunExitsThree()
    ensures Invoke(DockerOnInputs(), Context([], "v1"), 0, (cmd: string) => 3) ==
      Run([Dispatch("treebeard run --confirm ", [("TREEBEARD_REF", "v1")])],
          ["Treebeard CLI run failed with status code 3"])
  {
    BareRun();
    var statuses := StatusesOf(["treebeard run --confirm "], (cmd: string) => 3);
    assert statuses == [3];
    assert statuses[..0] == [];
    StatusText(3);
    assert RunFailedMessage(3) == "Treebeard CLI run failed with status code 3";
  }

  lemma KeyOnlyPlan()
    ensures BuildPlan(ReadConfig(KeyOnlyInputs()), Context([], "v1")) ==
      Ok(Plan([ConfigureCommand("K"), "treebeard run --confirm " + " --upload "], [("TREEBEARD_REF", "v1")]))
  {
    InputSetsRead();
    var config := Config("K", "", "", "", "", "", true, false);
    PlanWithoutInheritance(config, "v1");
    KeyOnlyRun();
    var configure := ConfigureCommand("K");
    var run := RunCommand(config, []);
    assert [configure] + [run] == [configure, run];
  }

  /** The run command for a key alone: the upload flag and nothing else. */
  lemma KeyOnlyRun()
    ensures RunCommand(Config("K", "", "", "", "", "", true, false), []) == "treebeard run --confirm " + " --upload "
  {
    NoForwardedText();
    assert RunCommand(Config("K", "", "", "", "", "", true, false), []) == RunPrefix + UploadToken + "" + "" + "" + "";
  }

  /** Exit statuses where only the configure command for key `K` fails, with 2. */
  function ConfigureExitsTwo(cmd: string): int {
    if cmd == ConfigureCommand("K") then 2 else 0
  }

  /** A failing configure command does not stop the run command from starting. */
  lemma ConfigureFailureDoesNotSkipRun()
    ensures Invoke(KeyOnlyInputs(), Context([], "v1"), 0, ConfigureExitsTwo) ==
      Run([Dispatch(ConfigureCommand("K"), [("TREEBEARD_REF", "v1")]),
           Dispatch("treebeard run --confirm " + " --upload ", [("TREEBEARD_REF", "v1")])],
          ["Treebeard CLI run failed with status code 2"])
  {
    var plan := Plan([ConfigureCommand("K"), "treebeard run --confirm " + " --upload "], [("TREEBEARD_REF", "v1")]);
    KeyOnlyPlan();
    KeyOnlyStatuses();
    TwoThenZeroReports();
    assert Dispatches(plan) == [Dispatch(plan.commands[0], plan.env), Dispatch(plan.commands[1], plan.env)];
  }

  /** With a key alone, the configure command exits with 2 and the run command,
      being a different command line, with 0. */
  lemma KeyOnlyStatuses()
    ensures StatusesOf([ConfigureCommand("K"), "treebeard run --confirm " + " --upload "], ConfigureExitsTwo) == [2, 0]
  {
    KeyOnlyRun();
    PlanProperties.ConfigureIsNotRun("K", Config("K", "", "", "", "", "", true, false), []);
  }

  lemma TwoThenZeroReports()
    ensures FailureReports([2, 0]) == ["Treebeard CLI run failed with status code 2"]
  {
    var statuses := [2, 0];
    assert statuses[..1] == [2];
    assert statuses[..1][..0] == [];
    StatusText(2);
    assert RunFailedMessage(2) == "Treebeard CLI run failed with status code 2";
  }
}
