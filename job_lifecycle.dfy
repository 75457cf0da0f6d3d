/** The records the engine keeps per job, the overlay that builds a job's
    parameters, and the polling rule of the collection barrier: collect a
    finished job, resubmit one that overran its walltime by more than 20%
    while it has submissions left, force-complete it otherwise. */
module JobLifecycle {
  import opened Common

  /** `waiting` -> `submitted` -> `completed`. */
  datatype Status = Waiting | Submitted | Completed

  /** An entry of `jobs_tracking_dict`. `jobParams` are the job's
      `experiment_parameters`; `parameters` the parameter set it evaluates. */
  datatype JobRecord = JobRecord(
    status: Status,
    jobParams: Dict,
    result: Option<Fitness>,
    parameters: Dict,
    timeStarted: Option<real>,
    submissions: nat)

  /** An entry of `result_tracking_dict`, keyed by the parameter set. */
  datatype ResultRecord = ResultRecord(jobName: string, result: Option<Fitness>)

  /** What the command of a job is built from: `pbs_submission_infos`'s
      `command` and `other_options`. */
  datatype CommandInfos = CommandInfos(command: string, otherOptions: Dict)

  const RunJobAction: string := "launcher_do_run_job"

  /** `prepare_job_parameters`: a copy of the submission's options, overlaid
      with the parameter set; the requested action moves to `job_action` and
      the action becomes running a job. Without any `action_to_do` this is a
      `KeyError`. */
  function PrepareJobParameters(otherOptions: Dict, newParameters: Dict): (r: Result<Dict>)
    ensures r.Err? <==> Lookup(Update(otherOptions, newParameters), "action_to_do").None?
  {
    var d := Update(otherOptions, newParameters);
    match Lookup(d, "action_to_do")
    case None => Err("KeyError")
    case Some(action) => Ok(Set(Set(d, "job_action", action), "action_to_do", StrV(RunJobAction)))
  }

  /** What the job parameters say: `action_to_do` is running a job;
      `job_action` is the action the options (or, in priority, the parameter
      set) asked for; every other key has the parameter set's value if it has
      one and the options' value otherwise. */
  lemma PrepareJobParametersSound(otherOptions: Dict, newParameters: Dict, k: string)
    requires UniqueKeys(newParameters)
    requires "action_to_do" in Keys(otherOptions) || "action_to_do" in Keys(newParameters)
    ensures PrepareJobParameters(otherOptions, newParameters).Ok?
    ensures var d := PrepareJobParameters(otherOptions, newParameters).value;
            Lookup(d, "action_to_do") == Some(StrV(RunJobAction)) &&
            Lookup(d, "job_action") == (if "action_to_do" in Keys(newParameters) then Lookup(newParameters, "action_to_do")
                                        else Lookup(otherOptions, "action_to_do")) &&
            (k != "action_to_do" && k != "job_action" ==>
              Lookup(d, k) == if k in Keys(newParameters) then Lookup(newParameters, k) else Lookup(otherOptions, k))
  {
    var u := Update(otherOptions, newParameters);
    UpdateLookup(otherOptions, newParameters, "action_to_do");
    UpdateLookup(otherOptions, newParameters, k);
    var action := Lookup(u, "action_to_do").value;
    var d1 := Set(u, "job_action", action);
    SetLookup(u, "job_action", action, k);
    SetLookup(u, "job_action", action, "action_to_do");
    SetLookup(d1, "action_to_do", StrV(RunJobAction), k);
    SetLookup(d1, "action_to_do", StrV(RunJobAction), "job_action");
    SetLookup(d1, "action_to_do", StrV(RunJobAction), "action_to_do");
    SetLookup(u, "job_action", action, "job_action");
  }

  /** What the barrier does with a job it pops. */
  datatype Decision = Collect | KeepWaiting | Resubmit | ForceComplete

  /** Waited more than 1.2 times the walltime. */
  predicate TimedOut(waited: real, walltimeSeconds: int)
  {
    waited > walltimeSeconds as real * 1.2
  }

  /** The polling rule for a job still marked submitted. */
  function PollDecision(done: bool, waited: real, walltimeSeconds: int, submissions: nat, maxSubmissions: int): (d: Decision)
    ensures d == Collect <==> done
    ensures d == Resubmit <==> !done && TimedOut(waited, walltimeSeconds) && submissions < maxSubmissions
    ensures d == ForceComplete <==> !done && TimedOut(waited, walltimeSeconds) && submissions >= maxSubmissions
  {
    if done then Collect
    else if !TimedOut(waited, walltimeSeconds) then KeepWaiting
    else if submissions < maxSubmissions then Resubmit
    else ForceComplete
  }

  /** The decisions taken on a job that never finishes and is always found
      past its deadline, starting from `submissions` submissions: one
      resubmission per submission left, then the force-completion. */
  function TimeoutRun(submissions: nat, maxSubmissions: int, waited: real, walltimeSeconds: int): seq<Decision>
    requires TimedOut(waited, walltimeSeconds)
    decreases maxSubmissions - submissions
  {
    match PollDecision(false, waited, walltimeSeconds, submissions, maxSubmissions)
    case Resubmit => [Resubmit] + TimeoutRun(submissions + 1, maxSubmissions, waited, walltimeSeconds)
    case _ => [ForceComplete]
  }

  /** A job that keeps overrunning is resubmitted exactly
      `maxSubmissions - submissions` more times (none when it has already
      reached the maximum), then force-completed: the barrier cannot retry
      forever. */
  lemma {:induction false} TimeoutRunShape(submissions: nat, maxSubmissions: int, waited: real, walltimeSeconds: int)
    requires TimedOut(waited, walltimeSeconds)
    ensures var run := TimeoutRun(submissions, maxSubmissions, waited, walltimeSeconds);
            var n := if submissions < maxSubmissions then maxSubmissions - submissions else 0;
            |run| == n + 1 && run[n] == ForceComplete &&
            forall i :: 0 <= i < n ==> run[i] == Resubmit
    decreases maxSubmissions - submissions
  {
    if submissions < maxSubmissions {
      TimeoutRunShape(submissions + 1, maxSubmissions, waited, walltimeSeconds);
    }
  }

  /** The default number of submissions of one job. */
  const DefaultMaxSubmissions: int := 3
}
