/** The whole of `run()`: read the inputs, probe for Python, build the plan and
    run it. The outside world enters as parameters: the probe's exit status and
    the exit status of each command line. */
module Action {
  import opened Results
  import opened Environment
  import opened Plan
  import opened Execution

  /** One command started by the action, with the environment it was given. */
  datatype Dispatch = Dispatch(command: string, env: Env)

  /** What one invocation did: the commands it started, in order, and the
      failure reports it made (none means success). */
  datatype Run = Run(dispatched: seq<Dispatch>, failures: seq<string>)

  function Dispatches(plan: Plan): (ds: seq<Dispatch>)
    ensures |ds| == |plan.commands|
    ensures forall i :: 0 <= i < |ds| ==> ds[i] == Dispatch(plan.commands[i], plan.env)
  {
    seq(|plan.commands|, i requires 0 <= i < |plan.commands| => Dispatch(plan.commands[i], plan.env))
  }

  function StatusesOf(commands: seq<string>, exitOf: string -> int): (statuses: seq<int>)
    ensures |statuses| == |commands|
    ensures forall i :: 0 <= i < |commands| ==> statuses[i] == exitOf(commands[i])
  {
    seq(|commands|, i requires 0 <= i < |commands| => exitOf(commands[i]))
  }

  /** One invocation of the action. A failed probe and a rejected configuration
      both stop before any planned command starts; otherwise every planned
      command starts, each with the planned environment. */
  function Invoke(inputs: Inputs, ctx: Context, probeStatus: int, exitOf: string -> int): (r: Run)
    ensures probeStatus != 0 ==> r == Run([], [PrerequisiteMessage])
    ensures probeStatus == 0 && RejectsCredentials(ReadConfig(inputs), ctx) ==>
      r == Run([], [MissingDockerPassword.Message()])
    ensures probeStatus == 0 && !RejectsCredentials(ReadConfig(inputs), ctx) ==>
      |r.dispatched| == (if inputs.apiKey != "" then 2 else 1)
  {
    if probeStatus != 0 then Run([], [PrerequisiteMessage])
    else
      match BuildPlan(ReadConfig(inputs), ctx)
      case Err(e) => Run([], [e.Message()])
      case Ok(plan) => Run(Dispatches(plan), FailureReports(StatusesOf(plan.commands, exitOf)))
  }

  /** When the plan is built, the invocation starts exactly the planned commands
      with the planned environment, and succeeds exactly when no command exits
      with a positive status; otherwise its last report names the last positive
      status, as the reconciled outcome says. */
  lemma InvokeRunsWholePlan(inputs: Inputs, ctx: Context, exitOf: string -> int)
    requires !RejectsCredentials(ReadConfig(inputs), ctx)
    ensures var plan := BuildPlan(ReadConfig(inputs), ctx).value;
      var r := Invoke(inputs, ctx, 0, exitOf);
      var statuses := StatusesOf(plan.commands, exitOf);
      && |r.dispatched| == |plan.commands|
      && (forall i :: 0 <= i < |r.dispatched| ==>
            r.dispatched[i].command == plan.commands[i] && r.dispatched[i].env == plan.env)
      && (r.failures == [] <==> forall i :: 0 <= i < |plan.commands| ==> exitOf(plan.commands[i]) <= 0)
      && (r.failures == [] <==> Reconcile(0, statuses) == Passed)
      && (Reconcile(0, statuses).RunFailed? ==>
            r.failures != [] && r.failures[|r.failures| - 1] == RunFailedMessage(Reconcile(0, statuses).code))
  {
    var plan := BuildPlan(ReadConfig(inputs), ctx).value;
    var statuses := StatusesOf(plan.commands, exitOf);
    ReportsMatchReconcile(statuses);
    ReportsIffFailed(statuses);
    if !SomeFailed(statuses) {
      forall i | 0 <= i < |plan.commands| ensures exitOf(plan.commands[i]) <= 0 {
        assert statuses[i] == exitOf(plan.commands[i]);
      }
    }
  }
}
