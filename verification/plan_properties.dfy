/** What the plan promises: the pull-request gate, the Docker entries, the
    precedence of inherited values, the `TB_` forwarding and the fixed layout of
    the run command. */
module PlanProperties {
  import opened Results
  import opened Text
  import opened Environment
  import opened Plan

  lemma RefIsNotForwarded()
    ensures !StartsWith(RefVar, ForwardPrefix)
  {
    assert RefVar[1] != ForwardPrefix[1];
  }

  lemma DockerVarsDistinct()
    ensures UsernameVar != PasswordVar && UsernameVar != RegistryVar && UsernameVar != ImageVar
    ensures PasswordVar != RegistryVar && PasswordVar != ImageVar && RegistryVar != ImageVar
    ensures RefVar !in DockerVars
  {
    assert UsernameVar[7] != PasswordVar[7];
    assert |UsernameVar| != |RegistryVar| && |UsernameVar| != |ImageVar|;
    assert |PasswordVar| != |RegistryVar| && |PasswordVar| != |ImageVar|;
    assert |RegistryVar| != |ImageVar|;
    assert |RefVar| != |UsernameVar| && |RefVar| != |RegistryVar| && |RefVar| != |ImageVar|;
  }

  /** The base environment holds `TREEBEARD_REF` first, then the inherited keys;
      an inherited value wins over the pinned reference. */
  lemma BaseEnvContents(ctx: Context)
    ensures UniqueKeys(BaseEnv(ctx))
    ensures |BaseEnv(ctx)| > 0 && BaseEnv(ctx)[0].0 == RefVar
    ensures forall k :: k in Keys(BaseEnv(ctx)) <==> k == RefVar || k in Keys(ctx.inherited)
    ensures forall k ::
              Lookup(BaseEnv(ctx), k) ==
              if k in Keys(ctx.inherited) then Lookup(ctx.inherited, k)
              else if k == RefVar then Some(ctx.treebeardRef)
              else None
  {
    var start: Env := [(RefVar, ctx.treebeardRef)];
    SpreadUnique(start, ctx.inherited);
    SpreadKeys(start, ctx.inherited);
    assert Keys(start) == [RefVar];
    assert Keys(BaseEnv(ctx))[..1] == [RefVar];
    forall k
      ensures Lookup(BaseEnv(ctx), k) ==
        if k in Keys(ctx.inherited) then Lookup(ctx.inherited, k)
        else if k == RefVar then Some(ctx.treebeardRef)
        else None
    {
      SpreadLookup(start, ctx.inherited, k);
      assert start[..0] == [];
    }
  }

  /** One conditional assignment: keys keep their order, only `key` can be
      appended, and only `key` can change its value. */
  lemma AssignIfGivenFacts(env: Env, key: string, value: string)
    ensures |env| <= |AssignIfGiven(env, key, value)|
    ensures Keys(AssignIfGiven(env, key, value))[..|env|] == Keys(env)
    ensures forall i :: |env| <= i < |AssignIfGiven(env, key, value)| ==> AssignIfGiven(env, key, value)[i].0 == key
    ensures UniqueKeys(env) ==> UniqueKeys(AssignIfGiven(env, key, value))
  {
    if value != "" {
      AssignKeys(env, key, value);
      var r := AssignIfGiven(env, key, value);
      forall i | |env| <= i < |r| ensures r[i].0 == key {
        assert Keys(r)[i] == r[i].0;
      }
      if UniqueKeys(env) {
        AssignUnique(env, key, value);
      }
    }
  }

  lemma AssignIfGivenLookup(env: Env, key: string, value: string, j: string)
    ensures Lookup(AssignIfGiven(env, key, value), j) ==
      if j == key && value != "" then Some(value) else Lookup(env, j)
  {
    if value != "" {
      AssignLookup(env, key, value, j);
    }
  }

  /** Reading one variable through the four conditional assignments. */
  lemma DockerEnvLookupAt(config: Config, env: Env, k: string)
    ensures Lookup(DockerEnv(config, env), k) ==
      if k == ImageVar && config.dockerImageName != "" then Some(config.dockerImageName)
      else if k == RegistryVar && config.dockerRegistryPrefix != "" then Some(config.dockerRegistryPrefix)
      else if k == PasswordVar && config.dockerPassword != "" then Some(config.dockerPassword)
      else if k == UsernameVar && config.dockerUsername != "" then Some(config.dockerUsername)
      else Lookup(env, k)
  {
    var e1 := AssignIfGiven(env, UsernameVar, config.dockerUsername);
    var e2 := AssignIfGiven(e1, PasswordVar, config.dockerPassword);
    var e3 := AssignIfGiven(e2, RegistryVar, config.dockerRegistryPrefix);
    AssignIfGivenLookup(env, UsernameVar, config.dockerUsername, k);
    AssignIfGivenLookup(e1, PasswordVar, config.dockerPassword, k);
    AssignIfGivenLookup(e2, RegistryVar, config.dockerRegistryPrefix, k);
    AssignIfGivenLookup(e3, ImageVar, config.dockerImageName, k);
  }

  /** The Docker entries: each is set to its input exactly when the input is
      non-empty and every other variable reads as before. */
  lemma DockerEnvLookup(config: Config, env: Env)
    ensures Lookup(DockerEnv(config, env), UsernameVar) ==
      if config.dockerUsername != "" then Some(config.dockerUsername) else Lookup(env, UsernameVar)
    ensures Lookup(DockerEnv(config, env), PasswordVar) ==
      if config.dockerPassword != "" then Some(config.dockerPassword) else Lookup(env, PasswordVar)
    ensures Lookup(DockerEnv(config, env), RegistryVar) ==
      if config.dockerRegistryPrefix != "" then Some(config.dockerRegistryPrefix) else Lookup(env, RegistryVar)
    ensures Lookup(DockerEnv(config, env), ImageVar) ==
      if config.dockerImageName != "" then Some(config.dockerImageName) else Lookup(env, ImageVar)
    ensures forall k :: k !in DockerVars ==> Lookup(DockerEnv(config, env), k) == Lookup(env, k)
  {
    DockerVarsDistinct();
    DockerEnvLookupAt(config, env, UsernameVar);
    DockerEnvLookupAt(config, env, PasswordVar);
    DockerEnvLookupAt(config, env, RegistryVar);
    DockerEnvLookupAt(config, env, ImageVar);
    forall k | k !in DockerVars
      ensures Lookup(DockerEnv(config, env), k) == Lookup(env, k)
    {
      DockerEnvLookupAt(config, env, k);
    }
  }

  /** The Docker entries keep the key order, append only Docker keys and never
      duplicate a key. */
  lemma DockerEnvKeys(config: Config, env: Env)
    ensures |env| <= |DockerEnv(config, env)|
    ensures Keys(DockerEnv(config, env))[..|env|] == Keys(env)
    ensures forall i :: |env| <= i < |DockerEnv(config, env)| ==> DockerEnv(config, env)[i].0 in DockerVars
    ensures UniqueKeys(env) ==> UniqueKeys(DockerEnv(config, env))
  {
    var e1 := AssignIfGiven(env, UsernameVar, config.dockerUsername);
    var e2 := AssignIfGiven(e1, PasswordVar, config.dockerPassword);
    var e3 := AssignIfGiven(e2, RegistryVar, config.dockerRegistryPrefix);
    var e4 := DockerEnv(config, env);
    AssignIfGivenFacts(env, UsernameVar, config.dockerUsername);
    AssignIfGivenFacts(e1, PasswordVar, config.dockerPassword);
    AssignIfGivenFacts(e2, RegistryVar, config.dockerRegistryPrefix);
    AssignIfGivenFacts(e3, ImageVar, config.dockerImageName);
    assert Keys(e4)[..|env|] == Keys(e3)[..|e2|][..|e1|][..|env|];
    forall i | |env| <= i < |e4|
      ensures e4[i].0 in DockerVars
    {
      if i < |e3| {
        assert Keys(e4)[i] == Keys(e3)[i];
        if i < |e2| {
          assert Keys(e3)[i] == Keys(e2)[i];
          if i < |e1| {
            assert Keys(e2)[i] == Keys(e1)[i];
          }
        }
      }
    }
  }

  /** On a pull request the password check is skipped and the child environment
      is the base environment: the inherited variables plus `TREEBEARD_REF`,
      with no Docker entry added. */
  lemma PullRequestKeepsBaseEnv(config: Config, ctx: Context)
    requires IsPullRequest(ctx)
    ensures BuildPlan(config, ctx).Ok?
    ensures BuildPlan(config, ctx).value.env == BaseEnv(ctx)
    ensures forall k :: k in Keys(BuildPlan(config, ctx).value.env) <==> k == RefVar || k in Keys(ctx.inherited)
    ensures forall k ::
              Lookup(BuildPlan(config, ctx).value.env, k) ==
              if k in Keys(ctx.inherited) then Lookup(ctx.inherited, k)
              else if k == RefVar then Some(ctx.treebeardRef)
              else None
  {
    BaseEnvContents(ctx);
  }

  /** Outside a pull request, each Docker variable carries its input exactly when
      that input is non-empty; every other variable reads as in the base environment. */
  lemma DockerEntriesOutsidePullRequest(config: Config, ctx: Context)
    requires !IsPullRequest(ctx)
    requires !(config.dockerUsername != "" && config.dockerPassword == "")
    ensures BuildPlan(config, ctx).Ok?
    ensures BuildPlan(config, ctx).value.env == DockerEnv(config, BaseEnv(ctx))
    ensures Lookup(BuildPlan(config, ctx).value.env, UsernameVar) ==
      if config.dockerUsername != "" then Some(config.dockerUsername) else Lookup(BaseEnv(ctx), UsernameVar)
    ensures Lookup(BuildPlan(config, ctx).value.env, PasswordVar) ==
      if config.dockerPassword != "" then Some(config.dockerPassword) else Lookup(BaseEnv(ctx), PasswordVar)
    ensures Lookup(BuildPlan(config, ctx).value.env, RegistryVar) ==
      if config.dockerRegistryPrefix != "" then Some(config.dockerRegistryPrefix) else Lookup(BaseEnv(ctx), RegistryVar)
    ensures Lookup(BuildPlan(config, ctx).value.env, ImageVar) ==
      if config.dockerImageName != "" then Some(config.dockerImageName) else Lookup(BaseEnv(ctx), ImageVar)
    ensures forall k :: k !in DockerVars ==> Lookup(BuildPlan(config, ctx).value.env, k) == Lookup(BaseEnv(ctx), k)
  {
    DockerEnvLookup(config, BaseEnv(ctx));
  }

  /** The environment starts with `TREEBEARD_REF`; an inherited value of it wins
      over the pinned reference, because the spread comes after the literal. */
  lemma RefPrecedence(config: Config, ctx: Context)
    requires BuildPlan(config, ctx).Ok?
    ensures UniqueKeys(BuildPlan(config, ctx).value.env)
    ensures |BuildPlan(config, ctx).value.env| > 0 && BuildPlan(config, ctx).value.env[0].0 == RefVar
    ensures Lookup(BuildPlan(config, ctx).value.env, RefVar) ==
      if RefVar in Keys(ctx.inherited) then Lookup(ctx.inherited, RefVar) else Some(ctx.treebeardRef)
  {
    BaseEnvContents(ctx);
    DockerVarsDistinct();
    if !IsPullRequest(ctx) {
      var base := BaseEnv(ctx);
      var env := DockerEnv(config, base);
      DockerEnvKeys(config, base);
      DockerEnvLookupAt(config, base, RefVar);
      assert Keys(env)[..|base|][0] == Keys(base)[0];
      assert Keys(env)[0] == env[0].0;
    }
  }

  /** Filtering one more key keeps it exactly when it starts with `TB_`. */
  lemma ForwardedKeysSnoc(keys: seq<string>, k: string)
    ensures ForwardedKeys(keys + [k]) ==
      ForwardedKeys(keys) + (if StartsWith(k, ForwardPrefix) then [k] else [])
  {
    assert (keys + [k])[..|keys|] == keys;
  }

  /** Keeping the `TB_` keys of a list without repetitions keeps their order. */
  lemma {:induction false} ForwardedKeysOrder(keys: seq<string>)
    requires forall p, q :: 0 <= p < q < |keys| ==> keys[p] != keys[q]
    ensures forall i, j :: 0 <= i < j < |ForwardedKeys(keys)| ==>
      FirstIndex(keys, ForwardedKeys(keys)[i]) < FirstIndex(keys, ForwardedKeys(keys)[j])
  {
    if |keys| > 0 {
      var n := |keys| - 1;
      var prefix := keys[..n];
      ForwardedKeysOrder(prefix);
      var fwd := ForwardedKeys(keys);
      var fwd' := ForwardedKeys(prefix);
      assert keys == prefix + [keys[n]];
      forall i, j | 0 <= i < j < |fwd|
        ensures FirstIndex(keys, fwd[i]) < FirstIndex(keys, fwd[j])
      {
        assert fwd[i] == fwd'[i];
        FirstIndexAppend(prefix, [keys[n]], fwd[i]);
        if j < |fwd'| {
          assert fwd[j] == fwd'[j];
          FirstIndexAppend(prefix, [keys[n]], fwd[j]);
        } else {
          assert fwd[j] == keys[n];
          FirstIndexDistinct(keys, n);
        }
      }
    }
  }

  /** The forwarded variables are exactly the inherited keys that start with
      `TB_`, each once, in the order of their first occurrence in the inherited
      environment. */
  lemma ForwardedAreTbKeysInOrder(ctx: Context)
    ensures forall k :: k in Forwarded(ctx) <==> k in Keys(ctx.inherited) && StartsWith(k, ForwardPrefix)
    ensures forall i, j :: 0 <= i < j < |Forwarded(ctx)| ==>
      && Forwarded(ctx)[i] in Keys(ctx.inherited)
      && Forwarded(ctx)[j] in Keys(ctx.inherited)
      && FirstIndex(Keys(ctx.inherited), Forwarded(ctx)[i]) < FirstIndex(Keys(ctx.inherited), Forwarded(ctx)[j])
    ensures forall i, j :: 0 <= i < j < |Forwarded(ctx)| ==> Forwarded(ctx)[i] != Forwarded(ctx)[j]
  {
    var start: Env := [(RefVar, ctx.treebeardRef)];
    var base := BaseEnv(ctx);
    var K := Keys(base);
    var fwd := Forwarded(ctx);
    BaseEnvContents(ctx);
    RefIsNotForwarded();
    assert Keys(start) == [RefVar];
    assert forall p, q :: 0 <= p < q < |K| ==> K[p] != K[q] by {
      forall p, q | 0 <= p < q < |K| ensures K[p] != K[q] {
        assert K[p] == base[p].0 && K[q] == base[q].0;
      }
    }
    ForwardedKeysOrder(K);
    forall i, j | 0 <= i < j < |fwd|
      ensures fwd[i] in Keys(ctx.inherited) && fwd[j] in Keys(ctx.inherited)
      ensures FirstIndex(Keys(ctx.inherited), fwd[i]) < FirstIndex(Keys(ctx.inherited), fwd[j])
    {
      assert fwd[i] in fwd && fwd[j] in fwd;
      var p := FirstIndex(K, fwd[i]);
      var q := FirstIndex(K, fwd[j]);
      assert K[p] !in Keys(start) && K[q] !in Keys(start);
      SpreadOrder(start, ctx.inherited, p, q);
    }
  }

  /** Writing out one flag in front of others: its text, a space when two
      `--env` flags meet, then the rest. */
  lemma RenderCons(f: Flag, rest: seq<Flag>)
    ensures RenderFlags([f] + rest) ==
      FlagText(f) + (if f.Forward? && |rest| > 0 && rest[0].Forward? then " " else "") + RenderFlags(rest)
  {
    assert ([f] + rest)[1..] == rest;
  }

  lemma RenderOptional(present: bool, f: Flag, rest: seq<Flag>)
    requires !f.Forward?
    ensures RenderFlags((if present then [f] else []) + rest) == Optional(present, FlagText(f)) + RenderFlags(rest)
  {
    if present {
      RenderCons(f, rest);
      assert FlagText(f) + "" == FlagText(f);
    } else {
      assert [] + rest == rest;
    }
  }

  /** The first of a run of `--env` flags, and the space before the next one. */
  lemma RenderForwardHead(keys: seq<string>, rest: seq<Flag>)
    requires |keys| > 0
    requires |rest| == 0 || !rest[0].Forward?
    ensures RenderFlags(EnvFlags(keys) + rest) ==
      EnvToken(keys[0]) + (if |keys| > 1 then " " else "") + RenderFlags(EnvFlags(keys[1..]) + rest)
  {
    var tail := EnvFlags(keys[1..]) + rest;
    AppendAssoc([Forward(keys[0])], EnvFlags(keys[1..]), rest);
    RenderCons(Forward(keys[0]), tail);
    if |keys| > 1 {
      assert tail[0] == Forward(keys[1]);
    } else {
      assert tail == rest;
    }
  }

  /** Re-association of flag lists, stated over plain variables so that using it
      does not unfold the lists. */
  lemma AppendAssoc(a: seq<Flag>, b: seq<Flag>, c: seq<Flag>)
    ensures (a + b) + c == a + (b + c)
  {
  }

  /** Re-association of three strings, stated over plain variables. */
  lemma StringAssoc(a: string, b: string, c: string)
    ensures a + (b + c) == (a + b) + c
  {
  }

  /** A run of `--env` flags renders as the joined tokens. */
  lemma {:induction false} RenderEnvRun(keys: seq<string>, rest: seq<Flag>)
    requires |rest| == 0 || !rest[0].Forward?
    ensures RenderFlags(EnvFlags(keys) + rest) == Join(EnvTokens(keys), " ") + RenderFlags(rest)
  {
    if |keys| == 0 {
      assert EnvFlags(keys) + rest == rest;
    } else {
      var tokens := EnvTokens(keys);
      RenderForwardHead(keys, rest);
      JoinHead(tokens, " ");
      assert tokens[1..] == EnvTokens(keys[1..]);
      RenderEnvRun(keys[1..], rest);
      StringAssoc(EnvToken(keys[0]) + (if |keys| > 1 then " " else ""),
                  Join(EnvTokens(keys[1..]), " "), RenderFlags(rest));
    }
  }

  /** The optional flags after the forwarded variables render as their tokens. */
  lemma RenderTail(config: Config)
    ensures RenderFlags(TailFlags(config)) ==
      Optional(config.notebooks != "", NotebooksToken(config.notebooks))
      + (Optional(!config.useDocker, DockerlessToken) + Optional(config.debug, DebugToken))
  {
    var n: seq<Flag> := if config.notebooks != "" then [Notebooks(config.notebooks)] else [];
    var k: seq<Flag> := if !config.useDocker then [Dockerless] else [];
    var d: seq<Flag> := if config.debug then [Debug] else [];
    AppendAssoc(n, k, d);
    assert d + [] == d;
    RenderOptional(config.debug, Debug, []);
    RenderOptional(!config.useDocker, Dockerless, d);
    RenderOptional(config.notebooks != "", Notebooks(config.notebooks), k + d);
  }

  lemma RenderRunFlags(config: Config, forwarded: seq<string>)
    ensures RenderFlags(RunFlags(config, forwarded)) ==
      Optional(config.apiKey != "", UploadToken)
      + (Join(EnvTokens(forwarded), " ") + RenderFlags(TailFlags(config)))
  {
    var tail := TailFlags(config);
    var envs := EnvFlags(forwarded) + tail;
    RenderEnvRun(forwarded, tail);
    RenderOptional(config.apiKey != "", Upload, envs);
    assert RunFlags(config, forwarded) == (if config.apiKey != "" then [Upload] else []) + envs;
  }

  /** The run command text is `treebeard run --confirm ` followed by its flags
      written out in order: the concatenated string and the flag list agree. */
  lemma RunCommandRendersFlags(config: Config, forwarded: seq<string>)
    ensures RunCommand(config, forwarded) == RunPrefix + RenderFlags(RunFlags(config, forwarded))
  {
    var u := Optional(config.apiKey != "", UploadToken);
    var j := Join(EnvTokens(forwarded), " ");
    var n := Optional(config.notebooks != "", NotebooksToken(config.notebooks));
    var d := Optional(!config.useDocker, DockerlessToken);
    var g := Optional(config.debug, DebugToken);
    RenderRunFlags(config, forwarded);
    RenderTail(config);
    assert RunCommand(config, forwarded) == RunPrefix + u + j + n + d + g;
    ConcatAssoc(RunPrefix, u, j, n, d, g);
  }

  /** Re-association of six strings, stated over plain variables so that using it
      does not unfold the run command's pieces. */
  lemma ConcatAssoc(p: string, u: string, j: string, n: string, d: string, g: string)
    ensures p + u + j + n + d + g == p + (u + (j + (n + (d + g))))
  {
  }

  lemma EnvFlagsMembership(keys: seq<string>)
    ensures forall k :: Forward(k) in EnvFlags(keys) <==> k in keys
  {
    var e := EnvFlags(keys);
    forall k | Forward(k) in e ensures k in keys {
      var i :| 0 <= i < |e| && e[i] == Forward(k);
      assert keys[i] == k;
    }
    forall k | k in keys ensures Forward(k) in e {
      var i :| 0 <= i < |keys| && keys[i] == k;
      assert e[i] == Forward(k);
    }
  }

  /** Which flags the run command carries: upload iff an API key is given, an
      `--env` flag for exactly the forwarded variables, the notebook selector iff
      non-empty, `--dockerless` iff Docker is off, `--debug` iff debugging. */
  lemma RunFlagsMembership(config: Config, forwarded: seq<string>)
    ensures Upload in RunFlags(config, forwarded) <==> config.apiKey != ""
    ensures forall k :: Forward(k) in RunFlags(config, forwarded) <==> k in forwarded
    ensures forall s :: Notebooks(s) in RunFlags(config, forwarded) <==> config.notebooks != "" && s == config.notebooks
    ensures Dockerless in RunFlags(config, forwarded) <==> !config.useDocker
    ensures Debug in RunFlags(config, forwarded) <==> config.debug
  {
    var e := EnvFlags(forwarded);
    EnvFlagsMembership(forwarded);
    TailMembership(config);
    assert forall x :: x in e ==> x.Forward? by {
      forall x | x in e ensures x.Forward? {
        var i :| 0 <= i < |e| && e[i] == x;
      }
    }
  }

  /** Which flags follow the forwarded variables. */
  lemma TailMembership(config: Config)
    ensures forall x :: x in TailFlags(config) ==> !x.Forward? && x != Upload
    ensures forall s :: Notebooks(s) in TailFlags(config) <==> config.notebooks != "" && s == config.notebooks
    ensures Dockerless in TailFlags(config) <==> !config.useDocker
    ensures Debug in TailFlags(config) <==> config.debug
  {
    var n: seq<Flag> := if config.notebooks != "" then [Notebooks(config.notebooks)] else [];
    var d: seq<Flag> := if !config.useDocker then [Dockerless] else [];
    var g: seq<Flag> := if config.debug then [Debug] else [];
    assert TailFlags(config) == n + d + g;
  }

  /** The flags after the forwarded variables rank above them and strictly increase. */
  lemma TailRanks(config: Config)
    ensures forall x :: x in TailFlags(config) ==> Rank(x) >= 2
    ensures forall i, j :: 0 <= i < j < |TailFlags(config)| ==> Rank(TailFlags(config)[i]) < Rank(TailFlags(config)[j])
  {
    var n: seq<Flag> := if config.notebooks != "" then [Notebooks(config.notebooks)] else [];
    var d: seq<Flag> := if !config.useDocker then [Dockerless] else [];
    var g: seq<Flag> := if config.debug then [Debug] else [];
    assert TailFlags(config) == n + d + g;
  }

  /** The flags come in the fixed order upload, forwarded variables (in their
      given order), notebooks, dockerless, debug; kinds never interleave and
      only `--env` repeats. */
  lemma RunFlagsOrder(config: Config, forwarded: seq<string>)
    ensures forall i :: 0 <= i < |forwarded| ==>
      RunFlags(config, forwarded)[|UploadFlags(config)| + i] == Forward(forwarded[i])
    ensures forall i, j :: 0 <= i < j < |RunFlags(config, forwarded)| ==>
      && Rank(RunFlags(config, forwarded)[i]) <= Rank(RunFlags(config, forwarded)[j])
      && (Rank(RunFlags(config, forwarded)[i]) == Rank(RunFlags(config, forwarded)[j]) ==> RunFlags(config, forwarded)[i].Forward?)
  {
    var u := UploadFlags(config);
    var e := EnvFlags(forwarded);
    var t := TailFlags(config);
    var fs := RunFlags(config, forwarded);
    assert |u| <= 1;
    assert forall x :: x in u ==> x == Upload;
    TailRanks(config);
    forall i, j | 0 <= i < j < |fs|
      ensures Rank(fs[i]) <= Rank(fs[j])
      ensures Rank(fs[i]) == Rank(fs[j]) ==> fs[i].Forward?
    {
      if j < |u| {
      } else if j < |u| + |e| {
        assert fs[j] == e[j - |u|];
        if i >= |u| {
          assert fs[i] == e[i - |u|];
        } else {
          assert fs[i] == u[i];
        }
      } else {
        assert fs[j] == t[j - |u| - |e|];
        if i >= |u| + |e| {
          assert fs[i] == t[i - |u| - |e|];
        } else if i >= |u| {
          assert fs[i] == e[i - |u|];
        } else {
          assert fs[i] == u[i];
        }
      }
    }
  }

  /** Unfolds `BuildPlan` to its command list; a helper, not a property. */
  lemma PlanCommands(config: Config, ctx: Context)
    requires !RejectsCredentials(config, ctx)
    ensures BuildPlan(config, ctx).value.commands ==
      (if config.apiKey != "" then [ConfigureCommand(config.apiKey)] else []) + [RunCommand(config, Forwarded(ctx))]
  {
  }

  /** With an API key the run command begins with the upload flag. */
  lemma RunStartsWithUpload(config: Config, forwarded: seq<string>)
    ensures StartsWith(RunCommand(config, forwarded), RunPrefix + UploadToken) <==> config.apiKey != ""
  {
    if config.apiKey == "" {
      NoKeyNoUploadText(config, forwarded);
      return;
    }
    var pu := RunPrefix + UploadToken;
    var j := Join(EnvTokens(forwarded), " ");
    var n := Optional(config.notebooks != "", NotebooksToken(config.notebooks));
    var d := Optional(!config.useDocker, DockerlessToken);
    assert pu[..|pu|] == pu;
    StartsWithAppend(pu, pu, j);
    StartsWithAppend(pu + j, pu, n);
    StartsWithAppend(pu + j + n, pu, d);
    StartsWithAppend(pu + j + n + d, pu, Optional(config.debug, DebugToken));
  }

  /** Every flag's text has at least four characters, and the fourth, the first
      letter of the flag name, is `u` only for `--upload`. */
  lemma FlagTextFourth(f: Flag)
    ensures |FlagText(f)| > 3
    ensures FlagText(f)[3] == 'u' <==> f == Upload
  {
    match f
    case Forward(key) =>
      assert EnvToken(key) == " --env " + (key + " ");
    case Notebooks(selector) =>
      assert NotebooksToken(selector) == " --notebooks '" + (selector + "' ");
    case _ =>
  }

  /** A non-empty flag list writes out with its first flag's text in front. */
  lemma RenderHead(flags: seq<Flag>)
    requires |flags| > 0
    ensures |RenderFlags(flags)| > 3 && RenderFlags(flags)[3] == FlagText(flags[0])[3]
  {
    FlagTextFourth(flags[0]);
  }

  /** Without an API key the command text does not begin with the upload flag. */
  lemma NoKeyNoUploadText(config: Config, forwarded: seq<string>)
    requires config.apiKey == ""
    ensures !StartsWith(RunCommand(config, forwarded), RunPrefix + UploadToken)
  {
    var flags := RunFlags(config, forwarded);
    RunCommandRendersFlags(config, forwarded);
    NoKeyNoUploadFlag(config, forwarded);
    if |flags| > 0 {
      RenderHead(flags);
      FlagTextFourth(flags[0]);
    }
    NotUploadAfterPrefix(RenderFlags(flags));
  }

  /** Without an API key the first flag, if any, is not `--upload`. */
  lemma NoKeyNoUploadFlag(config: Config, forwarded: seq<string>)
    requires config.apiKey == ""
    ensures |RunFlags(config, forwarded)| == 0 || RunFlags(config, forwarded)[0] != Upload
  {
    RunFlagsMembership(config, forwarded);
    if |RunFlags(config, forwarded)| > 0 {
      assert RunFlags(config, forwarded)[0] in RunFlags(config, forwarded);
    }
  }

  /** Text after the run prefix that is empty, or whose fourth character is not
      `u`, does not begin with the upload flag. */
  lemma NotUploadAfterPrefix(r: string)
    requires |r| == 0 || (|r| > 3 && r[3] != 'u')
    ensures !StartsWith(RunPrefix + r, RunPrefix + UploadToken)
  {
    assert (RunPrefix + UploadToken)[|RunPrefix| + 3] == 'u';
    if |r| > 0 {
      assert (RunPrefix + r)[|RunPrefix| + 3] == r[3];
    }
  }

  /** The configure command and a run command never coincide: they part at
      the eleventh character, `c` against `r`. */
  lemma ConfigureIsNotRun(apiKey: string, config: Config, forwarded: seq<string>)
    ensures ConfigureCommand(apiKey) != RunCommand(config, forwarded)
  {
    RunCommandHasPrefix(config, forwarded);
    var run := RunCommand(config, forwarded);
    assert run[10] == RunPrefix[10] == 'r';
    var head := "treebeard configure --api_key ";
    assert ConfigureCommand(apiKey) == head + (apiKey + " --user_name \"$GITHUB_REPOSITORY_OWNER\"");
    assert ConfigureCommand(apiKey)[10] == head[10] == 'c';
  }

  /** The planned commands are pairwise different texts. */
  lemma PlannedCommandsDiffer(config: Config, ctx: Context)
    requires !RejectsCredentials(config, ctx)
    ensures var cmds := BuildPlan(config, ctx).value.commands;
      forall i, j :: 0 <= i < j < |cmds| ==> cmds[i] != cmds[j]
  {
    PlanCommands(config, ctx);
    ConfigureIsNotRun(config.apiKey, config, Forwarded(ctx));
  }

  /** The commands follow the API key: with a key, the configure command
      embedding it and then a run command with `--upload`; without one, only a
      run command and no upload. */
  lemma CommandsFollowApiKey(config: Config, ctx: Context)
    requires !RejectsCredentials(config, ctx)
    ensures var cmds := BuildPlan(config, ctx).value.commands;
      && cmds[|cmds| - 1] == RunPrefix + RenderFlags(RunFlags(config, Forwarded(ctx)))
      && (config.apiKey != "" ==>
            && |cmds| == 2
            && cmds[0] == ConfigureCommand(config.apiKey)
            && Upload in RunFlags(config, Forwarded(ctx))
            && StartsWith(cmds[1], RunPrefix + UploadToken))
      && (config.apiKey == "" ==>
            && |cmds| == 1
            && Upload !in RunFlags(config, Forwarded(ctx))
            && !StartsWith(cmds[0], RunPrefix + UploadToken))
  {
    PlanCommands(config, ctx);
    RunCommandRendersFlags(config, Forwarded(ctx));
    RunFlagsMembership(config, Forwarded(ctx));
    RunStartsWithUpload(config, Forwarded(ctx));
  }

  /** The configure command carries the API key verbatim after `--api_key `. */
  lemma ConfigureEmbedsKey(apiKey: string)
    ensures var prefix := "treebeard configure --api_key ";
      ConfigureCommand(apiKey)[|prefix|..|prefix| + |apiKey|] == apiKey
  {
  }
}
