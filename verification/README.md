# hello_treebeard action: plan building and exit-status reconciliation

The action's `run()` entry point bootstraps the Treebeard notebook runner in a
CI job. It reads the action inputs and probes for Python. It then builds one or two
`treebeard` command lines and the environment those commands get, runs them,
and reports failures back to the CI host. This project models that logic as pure
functions over explicit inputs and proves what the plan and the outcome promise.

- `Results`: the `Option` and `Result` datatypes.
- `Text`: the `startsWith` prefix test, the `toLowerCase() === 'true'` input test,
  `Array.join`, and the decimal text of an exit code with its read-back.
- `Environment`: an environment as an ordered list of name/value pairs with
  JavaScript object semantics. Assigning a known key replaces its value in
  place. Assigning a new key appends it. An object spread assigns pairs in
  order, so a later pair wins.
- `Plan`: the `Inputs` → `Config` normalisation and `BuildPlan(config, ctx)`.
  `BuildPlan` returns either the credential error or a `Plan` of command
  strings plus the child environment. It also holds a token-level view of the
  run command (`Flag`, `RunFlags`, `RenderFlags`).
- `PlanProperties`: the properties of the plan. These cover the pull-request
  gate, the Docker entries, `TREEBEARD_REF` precedence, `TB_` forwarding, and
  the layout of the run command.
- `Execution`: `Reconcile(probeStatus, statuses)` and the failure reports. It
  also holds `ExecuteScript`, the loop that starts every planned command.
- `Action`: `Invoke`, which is the whole of `run()` with the probe status and
  each command's exit status taken as parameters.
- `Scenarios`: worked invocations with their exact command strings, including
  the doubled spaces.

The model keeps these details of the code:

- The event name is read from the inherited environment
  (`GITHUB_EVENT_NAME`, src/main.ts:59).
- An unset `use-docker` input (`""`) reads as false (src/main.ts:13). The
  default of `true` lives in the action's metadata file, which is not part of
  this model.
- Command strings carry the `treebeard ` program name. Every flag is padded
  with a space on both sides. Forwarded `--env` tokens are joined with one
  more space.
- Every positive status gets its own failure report
  (`Execution.OneReportPerFailure`), and later commands still run. The
  outcome is the last positive status.
- The `TB_` filter runs over the keys of the merged object
  `{TREEBEARD_REF, ...process.env}`. Since `TREEBEARD_REF` never starts with
  `TB_`, the forwarded keys are exactly the inherited `TB_` keys.

Exit statuses are given as a function `exitOf` from command line to status. The
configure and run command lines always differ
(`PlanProperties.PlannedCommandsDiffer`), so this loses nothing against a list
of statuses.

## Model

| member | source | states |
|---|---|---|
| Text.IsTrueInput | src/main.ts:13-14 | a switch input is `raw.toLowerCase() === 'true'`; `Text.TrueInputSpelling` proves what it accepts |
| Text.TrueInputSpelling | src/main.ts:13-14 | a switch input is true exactly when it spells `true` in any mix of cases; the empty input is false |
| Text.Decimal | src/main.ts:119 | `${status}` for a non-negative status: a non-empty run of digits with no leading zero (except `0` itself); `Text.DecimalRoundTrip` shows it reads back as the status |
| Text.DecimalRoundTrip | src/main.ts:119 | the status code written into the failure message reads back as the same number |
| Text.DecimalInjective | src/main.ts:119 | different status codes give different message texts |
| Text.Join | src/main.ts:92 | `parts.join(sep)`: the parts with `sep` between neighbours and nothing at either end; `PlanProperties.RenderEnvRun` ties it to the `--env` flags |
| Plan.ReadConfig | src/main.ts:7-15 | the string inputs pass through unchanged; `useDocker`/`debug` are true iff the raw input spells `true` case-insensitively, so unset means false |
| Plan.IsPullRequest | src/main.ts:59 | the pull-request gate: the inherited `GITHUB_EVENT_NAME` reads `pull_request`; `PlanProperties.PullRequestKeepsBaseEnv` and `Scenarios.PullRequestSkipsPasswordCheck` state its effect |
| Plan.RejectsCredentials | src/main.ts:59-68 | the credential check: outside a pull request, a Docker username with an empty password; `Plan.BuildPlan` errs exactly when it holds |
| Plan.BuildPlan | src/main.ts:41-106 | fails exactly when, outside a pull request, a username comes without a password; otherwise one command (no API key) or two, the last starting `treebeard run --confirm ` |
| Plan.RunCommand | src/main.ts:87-104 | the run command line: `treebeard run --confirm `, then ` --upload ` with a key, the `--env` tokens joined by a space, ` --notebooks '<sel>' `, ` --dockerless ` and ` --debug ` under their conditions; `PlanProperties.RunCommandRendersFlags` ties it to the flag list |
| Plan.ConfigureCommand | src/main.ts:43 | the configure command line with the key and the `$GITHUB_REPOSITORY_OWNER` user name; `PlanProperties.ConfigureEmbedsKey` states its shape |
| Plan.BaseEnv | src/main.ts:47-50 | the object `{TREEBEARD_REF: ref, ...process.env}`; `PlanProperties.BaseEnvContents` states its contents |
| Plan.ForwardedKeys | src/main.ts:52-57 | the `TB_` filter: a key is kept iff it is in the list and starts with `TB_` |
| Plan.DockerEnv | src/main.ts:70-84 | the four conditional Docker assignments in source order; `PlanProperties.DockerEnvLookup` and `PlanProperties.DockerEnvKeys` state their effect |
| Plan.AssignIfGiven | src/main.ts:70-84 | `if (value) env[key] = value`; `PlanProperties.AssignIfGivenLookup` states its effect |
| Plan.RunCommandHasPrefix | src/main.ts:87-104 | whatever the inputs and forwarded keys, the run command begins `treebeard run --confirm `: every later step only appends |
| Environment.Lookup | src/main.ts:59 | reading a property such as `process.env.GITHUB_EVENT_NAME`: present exactly when the key is among the keys; `Environment.AssignLookup` and `Environment.SpreadLookup` state what it reads after assignment and spread |
| Environment.Assign | src/main.ts:70-84 | `env[key] = value` on an ordered object: replace in place or append; `Environment.AssignLookup` and `Environment.AssignKeys` state its effect |
| Environment.AssignLookup | src/main.ts:70-84 | after `env[k] = v`, `k` reads `v` and every other key reads as before |
| Environment.AssignKeys | src/main.ts:70-84 | assignment keeps key order and appends the key only when it is new |
| Environment.AssignUnique | src/main.ts:70-84 | assignment never duplicates a key |
| Environment.Spread | src/main.ts:47-50 | `{...base, ...e}`: the pairs of `e` assigned onto `base` in order; the `Environment.Spread*` lemmas state its effect |
| Environment.SpreadLookup | src/main.ts:47-50 | in `{...base, ...e}` a key of `e` reads as its last value in `e`; any other key reads as in `base` |
| Environment.SpreadKeys | src/main.ts:47-50 | the spread keeps the keys of `base` first, in order, and holds exactly the keys of `base` and `e` |
| Environment.SpreadUnique | src/main.ts:47-50 | spreading never duplicates a key |
| Environment.SpreadOrder | src/main.ts:47-53 | keys the spread adds appear in the order of their first occurrence in `e` |
| Environment.SpreadSnoc | src/main.ts:47-50 | spreading one more pair is one more assignment after the others |
| PlanProperties.BaseEnvContents | src/main.ts:47-50 | the base environment starts with `TREEBEARD_REF`, has no duplicate keys, holds exactly `TREEBEARD_REF` and the inherited keys, and an inherited value wins over the pinned reference |
| PlanProperties.AssignIfGivenFacts | src/main.ts:70-84 | a conditional assignment keeps key order, can only append its own key, and keeps keys unique |
| PlanProperties.AssignIfGivenLookup | src/main.ts:70-84 | a conditional assignment changes only its own key, and only for a non-empty value |
| PlanProperties.DockerEnvLookupAt | src/main.ts:70-84 | reading any variable through the four conditional Docker assignments |
| PlanProperties.DockerEnvLookup | src/main.ts:70-84 | each Docker variable carries its input iff that input is non-empty; all other variables are unchanged |
| PlanProperties.DockerEnvKeys | src/main.ts:70-84 | the Docker step keeps key order, appends only Docker variables and keeps keys unique |
| PlanProperties.PullRequestKeepsBaseEnv | src/main.ts:47-62 | on a pull request the plan is always built (no password check) and its environment is exactly the inherited variables plus `TREEBEARD_REF`, nothing added |
| PlanProperties.DockerEntriesOutsidePullRequest | src/main.ts:63-85 | outside a pull request, each of the four Docker variables is set to its input iff non-empty; every other variable reads as in the base environment |
| PlanProperties.RefPrecedence | src/main.ts:47-50 | the planned environment starts with `TREEBEARD_REF`, has unique keys, and an inherited `TREEBEARD_REF` wins over the pinned one |
| PlanProperties.ForwardedKeysOrder | src/main.ts:52-57 | keeping the `TB_` keys of a repetition-free key list keeps their relative order |
| PlanProperties.ForwardedKeysSnoc | src/main.ts:52-57 | filtering one more key appends it exactly when it starts with `TB_` |
| Plan.Forwarded | src/main.ts:47-57 | the `TB_` filter over `Object.keys` of the merged environment; `PlanProperties.ForwardedAreTbKeysInOrder` states which keys it keeps and in what order |
| PlanProperties.ForwardedAreTbKeysInOrder | src/main.ts:47-57 | the forwarded variables are exactly the inherited keys starting with `TB_`, each once, in the order of their first occurrence in the inherited environment |
| PlanProperties.RenderEnvRun | src/main.ts:92 | a run of `--env` flags writes out as the tokens joined with a space |
| PlanProperties.RunCommandRendersFlags | src/main.ts:87-104 | the concatenated run command equals `treebeard run --confirm ` followed by the flag list written out |
| PlanProperties.RunFlagsMembership | src/main.ts:87-104 | the run command has `--upload` iff an API key is given, an `--env` flag for exactly the forwarded keys, `--notebooks '<sel>'` iff the selector is non-empty, `--dockerless` iff Docker is off, `--debug` iff debugging |
| PlanProperties.RunFlagsOrder | src/main.ts:87-104 | flags come in the fixed order upload, forwarded variables (in forwarding order), notebooks, dockerless, debug; only `--env` repeats |
| PlanProperties.TailMembership | src/main.ts:94-104 | after the forwarded variables come only `--notebooks '<sel>'` (iff a selector is given), `--dockerless` (iff Docker is off) and `--debug` (iff debugging), never `--upload` or `--env` |
| PlanProperties.TailRanks | src/main.ts:94-104 | those trailing flags appear in the order notebooks, dockerless, debug, each at most once |
| PlanProperties.RunStartsWithUpload | src/main.ts:87-104 | the run command text begins `treebeard run --confirm  --upload ` if and only if an API key is given |
| PlanProperties.NoKeyNoUploadText | src/main.ts:87-104 | without an API key the command text does not begin with the upload flag, whatever flags follow |
| PlanProperties.CommandsFollowApiKey | src/main.ts:41-106 | with an API key: exactly the configure command then a run command with `--upload`; without: exactly one run command, with no upload flag in its flag list and none at the head of its text |
| PlanProperties.ConfigureEmbedsKey | src/main.ts:43 | the configure command carries the API key verbatim after `--api_key ` |
| PlanProperties.ConfigureIsNotRun | src/main.ts:41-90 | a configure command line never equals a run command line, whatever the key, inputs and forwarded keys |
| PlanProperties.PlannedCommandsDiffer | src/main.ts:41-106 | the planned command lines are pairwise different, so a status looked up by command line belongs to one command |
| Execution.Fold | src/main.ts:112-121 | the loop's effect on the outcome: each positive status replaces it, others leave it; `Execution.FoldOutcome` states the result |
| Execution.FoldOutcome | src/main.ts:112-121 | folding the statuses records a failure iff some status is positive, and then the last positive one |
| Execution.Reconcile | src/main.ts:27-121 | a non-zero probe gives the prerequisite failure (line 27); otherwise, over the loop at lines 112-121, the outcome fails iff some status is positive, with the last positive status; zero and negative statuses never fail |
| Execution.RunFailedMessage | src/main.ts:118-120 | the failure message is the fixed prefix followed by the canonical decimal of the status: digits that read back as the status, with no leading zero (exactly `0` for 0), so the text is determined |
| Execution.FailureReports | src/main.ts:112-121 | one `setFailed` message per positive status, in order; `Execution.OneReportPerFailure`, `Execution.EveryFailureReported` and `Execution.LastReport` state what it holds |
| Execution.ReportsIffFailed | src/main.ts:112-121 | there is a failure report iff some status is positive |
| Execution.LastReport | src/main.ts:112-121 | the last failure report names the last positive status |
| Execution.OneReportPerFailure | src/main.ts:112-121 | there are exactly as many failure reports as positive statuses |
| Execution.EveryFailureReported | src/main.ts:118-120 | every positive status has its own message among the reports, earlier ones included |
| Execution.ReportsMatchReconcile | src/main.ts:112-121 | the reports are empty iff the reconciled outcome passed, and the last report names the reconciled code |
| Execution.ExecuteScript | src/main.ts:112-121 | every command is started in order whatever earlier ones returned; the reports are one per positive status and agree with `Reconcile` |
| Action.Invoke | src/main.ts:17-121 | a failed probe or rejected credentials start nothing and make exactly one report; otherwise (the install having succeeded) one command without an API key and two with one are started |
| Action.InvokeRunsWholePlan | src/main.ts:106-121 | once planned, exactly the planned commands start, each with the planned environment; the run fails iff some command exits positive, and its last report names the reconciled code |
| Scenarios.EmptyInheritance | src/main.ts:47-59 | with nothing inherited, the environment is `TREEBEARD_REF` alone, nothing is forwarded and the event is not a pull request |
| Scenarios.PlanWithoutInheritance | src/main.ts:41-106 | with nothing inherited and no Docker inputs, the plan is the optional configure command and the run command in the base environment |
| Scenarios.UnsetInputsRunDockerless | src/main.ts:13-100 | with every input unset, `use-docker` reads as false and the run command carries `--dockerless` |
| Scenarios.BareRun | src/main.ts:7-106 | with only `use-docker: true` set, the inputs read as Docker on and debugging off; with no key the plan is the single command `treebeard run --confirm ` in the base environment |
| Scenarios.EverySwitch | src/main.ts:41-106 | key, selector, Docker off, debug on: the configure command for the key, then the run string written as its literal pieces, doubled spaces included |
| Scenarios.EverySwitchRun | src/main.ts:87-104 | with every switch on the run command is `treebeard run --confirm ` + ` --upload ` + ` --notebooks 'a.ipynb' ` + ` --dockerless ` + ` --debug ` |
| Scenarios.ThreeInherited | src/main.ts:47-50 | the merged environment keeps `TREEBEARD_REF` first and then the inherited order |
| Scenarios.ThreeInheritedForwarded | src/main.ts:52-57 | only the `TB_` keys are kept, in order |
| Scenarios.ForwardTwo | src/main.ts:47-106 | with `TB_A`, `PATH`, `TB_B` inherited and no key, the plan is the one run command with the two `--env` tokens, in the base environment |
| Scenarios.ForwardTwoContext | src/main.ts:47-62 | that context forwards `TB_A` then `TB_B`, not `PATH`, and is not a pull request |
| Scenarios.ForwardTwoRun | src/main.ts:87-104 | the run string for two forwarded variables: the two `--env` tokens joined by one more space |
| Scenarios.MissingPasswordStopsEverything | src/main.ts:64-68 | a username without a password outside a pull request starts no command, not even the configure command, and makes the one credential report |
| Scenarios.PullRequestSkipsPasswordCheck | src/main.ts:59-62 | the same credentials on a pull request are accepted |
| Scenarios.RunExitsThree | src/main.ts:112-121 | a run exiting with 3 gives the single report `... status code 3` |
| Scenarios.KeyOnlyPlan | src/main.ts:41-106 | a key alone plans the configure command and `treebeard run --confirm ` + ` --upload ` |
| Scenarios.KeyOnlyRun | src/main.ts:87-104 | a key alone adds only the upload flag to the run command |
| Scenarios.InputSetsRead | src/main.ts:7-15 | inputs with only `use-docker: true` (and optionally a key) read as Docker on, debugging off, strings unchanged |
| Scenarios.ConfigureFailureDoesNotSkipRun | src/main.ts:112-121 | a configure command exiting with 2 still lets the run command start; one report names status 2 |
| Scenarios.KeyOnlyStatuses | src/main.ts:112-116 | each planned command gets its own status: 2 for the configure command, 0 for the run command |
| Scenarios.TwoThenZeroReports | src/main.ts:118-120 | statuses 2 then 0 give one report naming 2 |

## Left out

- Reading inputs (`core.getInput`), changing directory to the `path` input, and
  log groups and console output (src/main.ts:7-20, 25, 34, 39, 60, 108-110).
  These are host I/O. The inputs arrive as an `Inputs` value. `path` is carried
  but has no effect.
- The Python probe and the `pip install` step (src/main.ts:21-24, 35-37). These
  are external processes. The probe enters as its exit status. The install
  enters as an assumption: the model takes it to have succeeded.
- The `exec` library is not part of this model. Neither the probe (line 21) nor
  the install (line 35) passes `ignoreReturnCode`. So with that library a
  failing install throws, the catch-all at lines 122-123 reports the thrown
  message, and no planned command starts. A failing probe goes the same way
  before line 27 is reached. The model takes the probe's status as line 27
  reads it, and does not model the thrown error.
- Action.Invoke: its "otherwise one or two commands are started" assumes the
  `pip install` step succeeded; a failed install starts nothing, as above.
- How the command strings are split into arguments or interpreted by a shell:
  quoting of the notebook selector, `"$GITHUB_REPOSITORY_OWNER"`, whitespace.
  Because of this, properties such as "has `--upload`" are stated on the flag
  list. A notebook selector or a variable name could itself contain such text.
- The catch-all `try/catch` (src/main.ts:122-124) for failures other than the
  credential error, for example a failing `chdir`.
- `Object.keys` puts integer-like keys first. The model keeps every key in
  insertion order.
- `toLowerCase` is modelled on ASCII letters only. No non-ASCII character
  lowercases to one of `t`, `r`, `u`, `e`, so the `=== 'true'` test agrees.
- The Python command-line package (`treebeard-lib/treebeard/__init__.py`,
  `treebeard-lib/treebeard/other/commands.py`). These files only register
  commands that delegate to helpers which are not part of this model.
