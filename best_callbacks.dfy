/** The result callbacks experiment descriptors pass to the polling barrier:
    each keeps, in a dictionary shared across calls, the best (lowest)
    result seen so far with the job that produced it. The CMA-ES fits of
    February 2014 start from NaN and never let NaN win; the single-T fit
    starts from `None` and, through Python's `a or b and c` grouping, lets
    the first job in whatever its result; the CMA-ES fit of August 2016 also
    resubmits each new best for plotting, swallowing any failure. */
module BestCallbacks {
  import opened Common
  import opened JobLifecycle
  import opened Environment
  import opened SubmitPbsEngine

  /** What a callback reads off a finished job: `job.job_name`,
      `job.get_result()` and `job.experiment_parameters`. */
  datatype Finished = Finished(jobName: string, result: Fitness, parameters: Dict)

  // ---------------------------------------------------------------------
  // NaN-initialised tracking.

  /** The stored best: `result`, `job_name` and `parameters`. */
  datatype Best = Best(result: Fitness, jobName: string, parameters: Option<Dict>)

  /** `dict(result=np.nan, job_name='', parameters=None)`. */
  const Unseen := Best(NaN, "", None)

  /** `not isnan(new) and (isnan(stored) or new <= stored)`: a number
      replaces NaN or any stored result it does not exceed. */
  predicate Improves(stored: Fitness, r: Fitness)
  {
    r.Num? && (stored.NaN? || r.v <= stored.v)
  }

  /** One call: the three entries are replaced together, or none is. */
  function Step(b: Best, f: Finished): Best
  {
    if Improves(b.result, f.result) then Best(f.result, f.jobName, Some(f.parameters)) else b
  }

  /** The stored best after the callback has seen the jobs `fs`, in order. */
  function Track(fs: seq<Finished>): Best
  {
    if fs == [] then Unseen else Step(Track(fs[..|fs| - 1]), fs[|fs| - 1])
  }

  /** The stored result stays NaN, with nothing recorded, exactly as long
      as every result seen is NaN: a NaN result never becomes the best. */
  lemma {:induction false} TrackNaN(fs: seq<Finished>)
    ensures Track(fs).result.NaN? <==> forall i :: 0 <= i < |fs| ==> fs[i].result.NaN?
    ensures Track(fs).result.NaN? ==> Track(fs) == Unseen
  {
    if fs != [] {
      var front := fs[..|fs| - 1];
      TrackNaN(front);
      assert forall i :: 0 <= i < |front| ==> front[i] == fs[i];
    }
  }

  /** Once some result is a number, the stored best is the lowest number
      seen, recorded with the last job that reached it (ties replace). */
  lemma {:induction false} TrackMinimum(fs: seq<Finished>)
    ensures Track(fs).result.Num? ==> forall i :: 0 <= i < |fs| && fs[i].result.Num? ==> FitLe(Track(fs).result, fs[i].result)
    ensures Track(fs).result.Num? ==>
              exists i :: 0 <= i < |fs| && Track(fs) == Best(fs[i].result, fs[i].jobName, Some(fs[i].parameters)) &&
                forall j :: i < j < |fs| ==> !FitLe(fs[j].result, fs[i].result)
  {
    if fs != [] {
      var n := |fs| - 1;
      var front := fs[..n];
      TrackMinimum(front);
      TrackNaN(front);
      assert forall i :: 0 <= i < n ==> front[i] == fs[i];
      var b := Track(front);
      if Improves(b.result, fs[n].result) {
        assert Track(fs) == Best(fs[n].result, fs[n].jobName, Some(fs[n].parameters));
      } else if b.result.Num? {
        var i :| 0 <= i < n && b == Best(front[i].result, front[i].jobName, Some(front[i].parameters)) &&
                 forall j :: i < j < n ==> !FitLe(front[j].result, front[i].result);
        assert Track(fs) == Best(fs[i].result, fs[i].jobName, Some(fs[i].parameters));
      }
    }
  }

  /** Across calls the stored result never goes up: once a number is
      stored, every later stored result is a number no larger. */
  lemma {:induction false} TrackNonIncreasing(fs: seq<Finished>, k: nat)
    requires k <= |fs|
    ensures Track(fs[..k]).result.Num? ==> FitLe(Track(fs).result, Track(fs[..k]).result)
    decreases |fs| - k
  {
    if k < |fs| && Track(fs[..k]).result.Num? {
      TrackNonIncreasing(fs, k + 1);
      assert fs[..k + 1][..k] == fs[..k];
    } else if k == |fs| {
      assert fs[..k] == fs;
    }
  }

  /** `best_parameters_seen` of the February 2014 fit over all T, updated
      in place by `best_parameters_callback`. */
  class BestSeen {
    var result: Fitness
    var jobName: string
    var parameters: Option<Dict>
    /** The jobs the callback has been called with, in order. */
    ghost var seen: seq<Finished>

    function State(): Best
      reads this
    {
      Best(result, jobName, parameters)
    }

    ghost predicate Valid()
      reads this
    {
      State() == Track(seen)
    }

    constructor ()
      ensures Valid() && seen == [] && State() == Unseen
    {
      result, jobName, parameters := NaN, "", None;
      seen := [];
    }

    /** `best_parameters_callback(job, parameters=best_parameters_seen)`. */
    method Callback(f: Finished)
      requires Valid()
      modifies this
      ensures Valid() && seen == old(seen) + [f]
      ensures Improves(old(result), f.result) ==> State() == Best(f.result, f.jobName, Some(f.parameters))
      ensures !Improves(old(result), f.result) ==> State() == old(State())
    {
      if f.result.Num? && (result.NaN? || f.result.v <= result.v) {
        result := f.result;
        jobName := f.jobName;
        parameters := Some(f.parameters);
      }
      seen := seen + [f];
      assert seen[..|seen| - 1] == old(seen);
    }
  }

  // ---------------------------------------------------------------------
  // None-initialised tracking, as written.

  /** The stored best of the single-T fit: `result` starts as `None`. */
  datatype FirstBest = FirstBest(result: Option<Fitness>, jobName: string, parameters: Option<Dict>)

  const FirstUnseen := FirstBest(None, "", None)

  /** `stored is None or new <= stored and not isnan(new)`, which Python
      groups as `stored is None or (new <= stored and not isnan(new))`:
      the first job always gets in; after that a comparison with NaN on
      either side is false. */
  predicate ReplacesAsWritten(stored: Option<Fitness>, r: Fitness)
  {
    stored.None? || (FitLe(r, stored.value) && r.Num?)
  }

  function FirstStep(b: FirstBest, f: Finished): FirstBest
  {
    if ReplacesAsWritten(b.result, f.result) then FirstBest(Some(f.result), f.jobName, Some(f.parameters)) else b
  }

  function TrackFirst(fs: seq<Finished>): FirstBest
  {
    if fs == [] then FirstUnseen else FirstStep(TrackFirst(fs[..|fs| - 1]), fs[|fs| - 1])
  }

  /** The first job is always recorded, whatever its result, even NaN. */
  lemma FirstAlwaysRecorded(f: Finished)
    ensures TrackFirst([f]) == FirstBest(Some(f.result), f.jobName, Some(f.parameters))
  {
    assert [f][..0] == [];
  }

  /** If the first result is NaN it stays the best for ever: no later job,
      however good, replaces it. */
  lemma {:induction false} NaNFirstSticks(fs: seq<Finished>)
    requires fs != [] && fs[0].result.NaN?
    ensures TrackFirst(fs) == FirstBest(Some(NaN), fs[0].jobName, Some(fs[0].parameters))
  {
    if |fs| > 1 {
      NaNFirstSticks(fs[..|fs| - 1]);
    } else {
      FirstAlwaysRecorded(fs[0]);
      assert fs == [fs[0]];
    }
  }

  /** Two jobs, the first returning NaN and the second 1.0: the callback
      keeps the NaN. */
  lemma NaNFirstCounterexample()
    ensures var fs := [Finished("first", NaN, []), Finished("second", Num(1.0), [])];
            TrackFirst(fs).result == Some(NaN) && TrackFirst(fs).jobName == "first"
  {
    NaNFirstSticks([Finished("first", NaN, []), Finished("second", Num(1.0), [])]);
  }

  /** `best_parameters_seen` of the single-T fit. */
  class FirstBestSeen {
    var result: Option<Fitness>
    var jobName: string
    var parameters: Option<Dict>
    ghost var seen: seq<Finished>

    function State(): FirstBest
      reads this
    {
      FirstBest(result, jobName, parameters)
    }

    ghost predicate Valid()
      reads this
    {
      State() == TrackFirst(seen)
    }

    constructor ()
      ensures Valid() && seen == [] && State() == FirstUnseen
    {
      result, jobName, parameters := None, "", None;
      seen := [];
    }

    /** `best_parameters_callback` of the single-T fit. */
    method Callback(f: Finished)
      requires Valid()
      modifies this
      ensures Valid() && seen == old(seen) + [f]
      ensures ReplacesAsWritten(old(result), f.result) ==> State() == FirstBest(Some(f.result), f.jobName, Some(f.parameters))
      ensures !ReplacesAsWritten(old(result), f.result) ==> State() == old(State())
    {
      if result.None? || (f.result.Num? && result.value.Num? && f.result.v <= result.value.v && f.result.Num?) {
        result := Some(f.result);
        jobName := f.jobName;
        parameters := Some(f.parameters);
      }
      seen := seen + [f];
      assert seen[..|seen| - 1] == old(seen);
    }
  }

  // ---------------------------------------------------------------------
  // None-initialised tracking, as evidently intended.

  /** `(stored is None or new <= stored) and not isnan(new)`. */
  predicate ReplacesIntended(stored: Option<Fitness>, r: Fitness)
  {
    (stored.None? || FitLe(r, stored.value)) && r.Num?
  }

  function IntendedStep(b: FirstBest, f: Finished): FirstBest
  {
    if ReplacesIntended(b.result, f.result) then FirstBest(Some(f.result), f.jobName, Some(f.parameters)) else b
  }

  function TrackIntended(fs: seq<Finished>): FirstBest
  {
    if fs == [] then FirstUnseen else IntendedStep(TrackIntended(fs[..|fs| - 1]), fs[|fs| - 1])
  }

  /** With the grouping evidently intended, the `None`-initialised callback
      agrees with the NaN-initialised one at every step: `None` stands for
      NaN, NaN is never stored, and the best is the lowest number seen. */
  lemma {:induction false} IntendedMatchesNaNInit(fs: seq<Finished>)
    ensures var b := Track(fs);
            TrackIntended(fs) == FirstBest(if b.result.NaN? then None else Some(b.result), b.jobName, b.parameters)
  {
    if fs != [] {
      IntendedMatchesNaNInit(fs[..|fs| - 1]);
    }
  }

  // ---------------------------------------------------------------------
  // NaN-initialised tracking with a rerun of each new best.

  /** The options merged into the shared submission infos before the rerun
      of a new best: a memory-curve run with plots, labelled after the
      parameters (`label` is the `'%s%.2f'` rendering of the best set, `tag`). */
  function RerunOptions(outputDirectory: string, tag: string): (d: Dict)
    ensures Keys(d) == ["action_to_do", "subaction", "inference_method", "N", "T", "num_samples",
                        "output_directory", "selection_method", "num_repetitions", "burn_samples",
                        "stimuli_generation", "stimuli_generation_recall", "session_id",
                        "result_computation", "label"]
  {
    [("action_to_do", StrV("launcher_do_memory_curve_marginal_fi_withplots_live")),
     ("subaction", StrV("collect_responses")),
     ("inference_method", StrV("sample")),
     ("N", IntV(300)),
     ("T", IntV(6)),
     ("num_samples", IntV(300)),
     ("output_directory", StrV(outputDirectory)),
     ("selection_method", StrV("last")),
     ("num_repetitions", IntV(10)),
     ("burn_samples", IntV(200)),
     ("stimuli_generation", StrV("random")),
     ("stimuli_generation_recall", StrV("random")),
     ("session_id", StrV("cmaes_bays09_3try_rerun_080816")),
     ("result_computation", StrV("filenameoutput")),
     ("label", StrV(tag + "_cmaes_bays09_3try_080816"))]
  }

  /** The rerun engine's walltime, `40:00:00`, in seconds. */
  const RerunWalltime: int := 40 * 3600

  /** `best_parameters_seen` of the August 2016 fit: the best so far, the
      best set restricted to the fitted parameters, whether to rerun it,
      and the deep copy of the submission infos each rerun updates. */
  class BestSeenRerun {
    var result: Fitness
    var jobName: string
    var parameters: Option<Dict>
    var bestParameters: Option<Dict>
    var infosCopy: CommandInfos
    ghost var seen: seq<Finished>
    const submitBest: bool
    /** The fitted parameters (`dict_parameters_range.keys()`). */
    const fitted: seq<string>
    /** `submit_jobs` of the descriptor. */
    const submitJobs: bool
    const outputDirectory: string
    /** The `'%s%.2f'` rendering of a parameter set. */
    const labelOf: Dict -> string
    /** What the rerun engine is built with, besides its label and walltime. */
    const show: Value -> string
    const jobNameOf: Dict -> string
    const gateway: Gateway
    const username: string
    const submitCmd: string
    const partition: string
    const qosSetting: string
    const limitMaxQueuedJobs: int

    function State(): Best
      reads this
    {
      Best(result, jobName, parameters)
    }

    ghost predicate Valid()
      reads this
    {
      State() == Track(seen) &&
      (parameters.None? <==> bestParameters.None?) &&
      (parameters.Some? ==> bestParameters.value == Restrict(parameters.value, fitted))
    }

    constructor (submitBest: bool, fitted: seq<string>, submitJobs: bool, outputDirectory: string,
                 labelOf: Dict -> string, infos: CommandInfos, show: Value -> string, jobNameOf: Dict -> string,
                 gateway: Gateway, username: string, submitCmd: string, partition: string, qosSetting: string,
                 limitMaxQueuedJobs: int)
      ensures Valid() && seen == [] && State() == Unseen && bestParameters.None? && infosCopy == infos
      ensures this.submitBest == submitBest && this.fitted == fitted && this.submitJobs == submitJobs
      ensures this.gateway == gateway && this.jobNameOf == jobNameOf
    {
      result, jobName, parameters, bestParameters := NaN, "", None, None;
      infosCopy := infos;
      seen := [];
      this.submitBest, this.fitted, this.submitJobs := submitBest, fitted, submitJobs;
      this.outputDirectory, this.labelOf := outputDirectory, labelOf;
      this.show, this.jobNameOf, this.gateway := show, jobNameOf, gateway;
      this.username, this.submitCmd, this.partition, this.qosSetting := username, submitCmd, partition, qosSetting;
      this.limitMaxQueuedJobs := limitMaxQueuedJobs;
    }

    /** The rerun itself: a fresh engine labelled `bestparam_rerun` with a
        40-hour walltime submits `best` with the current infos copy, and
        does not wait; its outcome is dropped. */
    method SubmitRerun(best: Dict) returns (engine: SubmitPbs)
      modifies gateway
      ensures fresh(engine) && engine.Valid() && engine.gateway == gateway && engine.jobNameOf == jobNameOf
      ensures engine.submitLabel == "bestparam_rerun" && engine.walltimeSeconds == RerunWalltime
      ensures Ready(infosCopy.otherOptions, best) ==>
                var name := JobNameFor(jobNameOf, infosCopy.otherOptions, best);
                name.Some? && name.value in engine.jobs && engine.jobs[name.value].status == Submitted
    {
      engine := new SubmitPbs(show, jobNameOf, gateway, username, submitCmd, "bestparam_rerun",
                              partition, RerunWalltime, qosSetting, limitMaxQueuedJobs);
      var outcome, names := engine.SubmitMinibatch([best], infosCopy, submitJobs, false);
      if Ready(infosCopy.otherOptions, best) {
        assert [best][0] == best;
        assert outcome.Ok? && |names| == 1;
        assert JobNameFor(jobNameOf, infosCopy.otherOptions, best) == Some(names[0]);
        assert engine.jobs[names[0]].status == Submitted;
      }
    }

    /** `best_parameters_callback` of the August 2016 fit. A new best is
        recorded as in the February fits; then, when `submit_best` is set,
        the shared infos copy gets the rerun options and a fresh engine
        submits the best set as a minibatch of one without waiting. Any
        failure of that rerun is caught: the call itself never fails. When
        the rerun can build its job, the job is submitted on the fresh
        engine. */
    method Callback(f: Finished) returns (rerun: Option<SubmitPbs>)
      requires Valid()
      modifies this`result, this`jobName, this`parameters, this`bestParameters, this`infosCopy, this`seen, gateway
      ensures Valid() && seen == old(seen) + [f]
      ensures Improves(old(result), f.result) ==> State() == Best(f.result, f.jobName, Some(f.parameters))
      ensures !Improves(old(result), f.result) ==>
                State() == old(State()) && bestParameters == old(bestParameters) && infosCopy == old(infosCopy)
      ensures rerun.Some? <==> Improves(old(result), f.result) && submitBest
      ensures rerun.None? ==> infosCopy == old(infosCopy)
      ensures rerun.Some? ==>
                fresh(rerun.value) && rerun.value.Valid() && rerun.value.gateway == gateway &&
                rerun.value.submitLabel == "bestparam_rerun" && rerun.value.walltimeSeconds == RerunWalltime &&
                infosCopy == CommandInfos(old(infosCopy).command,
                                          Update(old(infosCopy).otherOptions,
                                                 RerunOptions(outputDirectory, labelOf(bestParameters.value))))
      ensures rerun.Some? && Ready(infosCopy.otherOptions, bestParameters.value) ==>
                var name := JobNameFor(rerun.value.jobNameOf, infosCopy.otherOptions, bestParameters.value);
                name.Some? && name.value in rerun.value.jobs && rerun.value.jobs[name.value].status == Submitted
    {
      rerun := None;
      var improved := Record(f);
      if improved && submitBest {
        var best := bestParameters.value;
        infosCopy := CommandInfos(infosCopy.command,
                                  Update(infosCopy.otherOptions, RerunOptions(outputDirectory, labelOf(best))));
        var engine := SubmitRerun(best);
        rerun := Some(engine);
      }
    }

    /** The bookkeeping half of the callback: a new best replaces the
        recorded one and its restriction to the fitted parameters. */
    method Record(f: Finished) returns (improved: bool)
      requires Valid()
      modifies this`result, this`jobName, this`parameters, this`bestParameters, this`seen
      ensures Valid() && seen == old(seen) + [f]
      ensures improved == Improves(old(result), f.result)
      ensures improved ==> State() == Best(f.result, f.jobName, Some(f.parameters)) &&
                           bestParameters == Some(Restrict(f.parameters, fitted))
      ensures !improved ==> State() == old(State()) && bestParameters == old(bestParameters)
    {
      improved := f.result.Num? && (result.NaN? || f.result.v <= result.v);
      if improved {
        result := f.result;
        jobName := f.jobName;
        parameters := Some(f.parameters);
        bestParameters := Some(Restrict(f.parameters, fitted));
      }
      seen := seen + [f];
      assert seen[..|seen| - 1] == old(seen);
    }
  }
}
