/** The `SubmitPBS` engine: it turns parameter sets into job scripts, hands
    them to the queue without overfilling it, tracks every job through
    `waiting` -> `submitted` -> `completed`, waits for a minibatch of jobs
    (resubmitting the ones that overrun their walltime), and drives the
    grid, random, sequential and CMA-ES parameter searches. The queue, the
    job files, the clock, the random draws and the optimiser are the scripted
    `Environment`. */
module SubmitPbsEngine {
  import opened Common
  import opened CommandLine
  import opened QueueStatus
  import opened ParameterSpace
  import opened CmaBridge
  import opened JobLifecycle
  import opened Environment

  // ---------------------------------------------------------------------
  // What the generators write.

  /** The options after the accepted sets have been overlaid one after the
      other: `create_submit_job_parameters` updates the shared
      `other_options` in place, so every overlay stays for the next job. */
  function Overlaid(opts: Dict, accepted: seq<Dict>): Dict
  {
    if accepted == [] then opts
    else Update(Overlaid(opts, accepted[..|accepted| - 1]), accepted[|accepted| - 1])
  }

  /** The command lines of the scripts written for the accepted sets, in order. */
  function Lines(show: Value -> string, infos: CommandInfos, accepted: seq<Dict>): (r: seq<string>)
    ensures |r| == |accepted|
  {
    if accepted == [] then []
    else Lines(show, infos, accepted[..|accepted| - 1])
         + [infos.command + Args(show, Overlaid(infos.otherOptions, accepted))]
  }

  /** What a generator has written so far: with no command nothing at all
      since `base`; otherwise one script per accepted set since `base`, and
      the shared options as the accepted sets have left them. */
  ghost predicate Emitted(show: Value -> string, infos: Option<CommandInfos>, base: seq<string>,
                          scripts: seq<string>, opts: Dict, accepted: seq<Dict>)
  {
    if infos.None? then scripts == base
    else opts == Overlaid(infos.value.otherOptions, accepted) &&
         scripts == base + Lines(show, infos.value, accepted)
  }

  /** One more accepted set adds one line, run with the options after its
      overlay. */
  lemma LinesSnoc(show: Value -> string, infos: CommandInfos, accepted: seq<Dict>, x: Dict)
    ensures Overlaid(infos.otherOptions, accepted + [x]) == Update(Overlaid(infos.otherOptions, accepted), x)
    ensures Lines(show, infos, accepted + [x]) ==
              Lines(show, infos, accepted) + [infos.command + Args(show, Overlaid(infos.otherOptions, accepted + [x]))]
  {
    assert (accepted + [x])[..|accepted|] == accepted;
  }

  /** The script of the `i`-th accepted set runs the command with the
      options as they stand after its overlay. */
  lemma {:induction false} LineAt(show: Value -> string, infos: CommandInfos, accepted: seq<Dict>, i: nat)
    requires i < |accepted|
    ensures Lines(show, infos, accepted)[i] ==
            infos.command + Args(show, Overlaid(infos.otherOptions, accepted[..i + 1]))
  {
    var n := |accepted|;
    var front := accepted[..n - 1];
    assert Lines(show, infos, accepted) ==
           Lines(show, infos, front) + [infos.command + Args(show, Overlaid(infos.otherOptions, accepted))];
    if i == n - 1 {
      assert accepted[..i + 1] == accepted;
    } else {
      LineAt(show, infos, front, i);
      assert front[..i + 1] == accepted[..i + 1];
    }
  }

  /** The script of the `i`-th accepted set runs the command with the options
      as they stand after its overlay, and there every key of the set has the
      set's own value. */
  lemma LinesCarry(show: Value -> string, infos: CommandInfos, accepted: seq<Dict>, i: nat)
    requires i < |accepted| && UniqueKeys(accepted[i])
    ensures var o := Overlaid(infos.otherOptions, accepted[..i + 1]);
            Lines(show, infos, accepted)[i] == infos.command + Args(show, o) &&
            forall k :: k in Keys(accepted[i]) ==> Lookup(o, k) == Lookup(accepted[i], k)
  {
    LineAt(show, infos, accepted, i);
    var prefix := accepted[..i + 1];
    assert prefix[..i] == accepted[..i];
    assert prefix[i] == accepted[i];
    forall k | k in Keys(accepted[i])
      ensures Lookup(Overlaid(infos.otherOptions, prefix), k) == Lookup(accepted[i], k)
    {
      UpdateLookup(Overlaid(infos.otherOptions, prefix[..i]), accepted[i], k);
    }
  }

  /** A key no accepted set mentions keeps the submission's own option. */
  lemma {:induction false} OverlaidUntouched(opts: Dict, accepted: seq<Dict>, k: string)
    requires forall j :: 0 <= j < |accepted| ==> UniqueKeys(accepted[j]) && k !in Keys(accepted[j])
    ensures Lookup(Overlaid(opts, accepted), k) == Lookup(opts, k)
    decreases |accepted|
  {
    if accepted != [] {
      var front := accepted[..|accepted| - 1];
      OverlaidUntouched(opts, front, k);
      UpdateLookup(Overlaid(opts, front), accepted[|accepted| - 1], k);
    }
  }

  /** A job's fitness as `submit_minibatch_jobswrapper` returns it: a missing
      result reads as NaN. */
  function ResultOf(job: JobRecord): Fitness
  {
    match job.result
    case None => NaN
    case Some(f) => f
  }

  /** The barrier's deque: the tracked jobs, in tracking order, that are
      currently submitted. */
  function SubmittedJobs(order: seq<string>, jobs: map<string, JobRecord>): (r: seq<string>)
    ensures forall n :: n in r <==> n in order && n in jobs && jobs[n].status == Submitted
  {
    if order == [] then []
    else
      var tail := SubmittedJobs(order[1..], jobs);
      assert forall n :: n in order <==> n == order[0] || n in order[1..];
      if order[0] in jobs && jobs[order[0]].status == Submitted then [order[0]] + tail else tail
  }

  /** A job enters the deque at most once. */
  lemma {:induction false} SubmittedJobsDistinct(order: seq<string>, jobs: map<string, JobRecord>)
    requires Distinct(order)
    ensures Distinct(SubmittedJobs(order, jobs))
  {
    if order != [] {
      var rest := order[1..];
      assert Distinct(rest) by {
        forall i, j | 0 <= i < j < |rest| ensures rest[i] != rest[j] {
          assert rest[i] == order[i + 1] && rest[j] == order[j + 1];
        }
      }
      SubmittedJobsDistinct(rest, jobs);
      assert order[0] !in rest by {
        forall k | 0 <= k < |rest| ensures rest[k] != order[0] {
          assert rest[k] == order[k + 1];
        }
      }
    }
  }

  lemma DistinctTail(s: seq<string>)
    requires s != [] && Distinct(s)
    ensures Distinct(s[1..]) && s[0] !in s[1..]
  {
    forall i, j | 0 <= i < j < |s[1..]| ensures s[1..][i] != s[1..][j] {
      assert s[1..][i] == s[i + 1] && s[1..][j] == s[j + 1];
    }
    forall k | 0 <= k < |s[1..]| ensures s[1..][k] != s[0] {
      assert s[1..][k] == s[k + 1];
    }
  }

  lemma DistinctSnoc(s: seq<string>, x: string)
    requires Distinct(s) && x !in s
    ensures Distinct(s + [x])
  {
    forall i, j | 0 <= i < j < |s + [x]| ensures (s + [x])[i] != (s + [x])[j] {
      if j == |s| {
        assert (s + [x])[i] == s[i];
      } else {
        assert (s + [x])[i] == s[i] && (s + [x])[j] == s[j];
      }
    }
  }

  /** What the model reports where the source would loop for ever. */
  const NeverEnds := "the sampling loop never ends"

  /** The job name under which a parameter set is tracked, given how the job
      wrapper names a job from its parameters. */
  function JobNameFor(jobNameOf: Dict -> string, otherOptions: Dict, p: Dict): Option<string>
  {
    var jp := PrepareJobParameters(otherOptions, p);
    if jp.Ok? then Some(jobNameOf(jp.value)) else None
  }

  /** A parameter set a minibatch can submit: its job parameters can be built
      (there is an `action_to_do`) and hold a `session_id`. */
  predicate Ready(otherOptions: Dict, p: Dict)
  {
    PrepareJobParameters(otherOptions, p).Ok? &&
    Lookup(PrepareJobParameters(otherOptions, p).value, "session_id").Some?
  }

  /** Every set run so far was drawn and accepted, and was ready to submit. */
  ghost predicate AllRan(samplers: seq<(string, Sampler)>, filter: Filter, otherOptions: Dict, ran: seq<Dict>)
  {
    forall k :: 0 <= k < |ran| ==> Sampled(samplers, filter, ran[k]) && Ready(otherOptions, ran[k])
  }

  lemma AllRanSnoc(samplers: seq<(string, Sampler)>, filter: Filter, otherOptions: Dict, ran: seq<Dict>, x: Dict)
    requires AllRan(samplers, filter, otherOptions, ran)
    requires Sampled(samplers, filter, x) && Ready(otherOptions, x)
    ensures AllRan(samplers, filter, otherOptions, ran + [x])
  {
    var ran' := ran + [x];
    forall k | 0 <= k < |ran'|
      ensures Sampled(samplers, filter, ran'[k]) && Ready(otherOptions, ran'[k])
    {
      if k < |ran| {
        assert ran'[k] == ran[k];
      }
    }
  }

  /** The first `n` sets of the minibatch are ready and their jobs are
      named `names`. */
  ghost predicate Admitted(jobNameOf: Dict -> string, otherOptions: Dict, batch: seq<Dict>, n: nat, names: seq<string>)
    requires n <= |batch|
    decreases n
  {
    |names| == n &&
    (n > 0 ==>
       Admitted(jobNameOf, otherOptions, batch, n - 1, names[..n - 1]) &&
       Ready(otherOptions, batch[n - 1]) &&
       JobNameFor(jobNameOf, otherOptions, batch[n - 1]) == Some(names[n - 1]))
  }

  lemma AdmittedSnoc(jobNameOf: Dict -> string, otherOptions: Dict, batch: seq<Dict>, n: nat, names: seq<string>,
                     name: string)
    requires n < |batch| && Admitted(jobNameOf, otherOptions, batch, n, names)
    requires Ready(otherOptions, batch[n]) && JobNameFor(jobNameOf, otherOptions, batch[n]) == Some(name)
    ensures Admitted(jobNameOf, otherOptions, batch, n + 1, names + [name])
  {
    assert (names + [name])[..n] == names;
  }

  lemma {:induction false} AdmittedAll(jobNameOf: Dict -> string, otherOptions: Dict, batch: seq<Dict>, n: nat,
                                       names: seq<string>)
    requires n <= |batch| && Admitted(jobNameOf, otherOptions, batch, n, names)
    ensures |names| == n
    ensures forall i :: 0 <= i < n ==>
              Ready(otherOptions, batch[i]) && JobNameFor(jobNameOf, otherOptions, batch[i]) == Some(names[i])
    decreases n
  {
    if n > 0 {
      var front := names[..n - 1];
      AdmittedAll(jobNameOf, otherOptions, batch, n - 1, front);
      forall i | 0 <= i < n
        ensures Ready(otherOptions, batch[i]) && JobNameFor(jobNameOf, otherOptions, batch[i]) == Some(names[i])
      {
        if i < n - 1 {
          assert front[i] == names[i];
        }
      }
    }
  }

  // ---------------------------------------------------------------------
  // The engine.

  /** The tracking invariant on the values of the fields: the job order
      lists every tracked job once; every job's parameter set has a result
      record; a submitted job has a start time. */
  ghost predicate ValidOn(jobOrder: seq<string>, jobs: map<string, JobRecord>,
                          resultTracking: map<Dict, ResultRecord>)
  {
    Distinct(jobOrder) &&
    (forall n :: n in jobs <==> n in jobOrder) &&
    (forall n :: n in jobs ==> jobs[n].parameters in resultTracking) &&
    (forall n :: n in jobs && jobs[n].status == Submitted ==> jobs[n].timeStarted.Some?)
  }

  /** A job as `submit_jobwrapper` leaves it: its job parameters carry its
      name as `job_name`, it is submitted, started at `started`, with one
      more submission; its parameter set and result stay. */
  function Resubmitted(job: JobRecord, name: string, started: real): (r: JobRecord)
    ensures r.status == Submitted && r.timeStarted == Some(started) && r.submissions == job.submissions + 1
    ensures r.parameters == job.parameters && r.result == job.result
    ensures Lookup(r.jobParams, "job_name") == Some(StrV(name))
  {
    SetLookup(job.jobParams, "job_name", StrV(name), "job_name");
    job.(status := Submitted, jobParams := Set(job.jobParams, "job_name", StrV(name)),
         timeStarted := Some(started), submissions := job.submissions + 1)
  }

  /** Every named job is tracked and submitted. */
  ghost predicate AllSubmitted(jobs: map<string, JobRecord>, names: seq<string>)
  {
    forall k :: 0 <= k < |names| ==> names[k] in jobs && jobs[names[k]].status == Submitted
  }

  /** Submitting one more job, and touching no other, keeps the earlier ones
      submitted. */
  lemma AllSubmittedSnoc(before: map<string, JobRecord>, after: map<string, JobRecord>, names: seq<string>,
                         x: string)
    requires AllSubmitted(before, names)
    requires x in after && after[x].status == Submitted
    requires forall n :: n in before ==> n in after
    requires forall n :: n in before && n != x ==> after[n] == before[n]
    ensures AllSubmitted(after, names + [x])
  {
    forall k | 0 <= k < |names + [x]| ensures (names + [x])[k] in after && after[(names + [x])[k]].status == Submitted {
      if k < |names| {
        assert (names + [x])[k] == names[k];
      }
    }
  }

  /** What holds between two turns of the result barrier that started on
      the jobs `j0` and now sees `jobs`: the deque holds only jobs submitted
      at the start, the deque and both reports hold each job at most once,
      and every job satisfies `BarrierAt`. */
  ghost predicate Barrier(j0: map<string, JobRecord>, jobs: map<string, JobRecord>, pending: seq<string>,
                          notified: seq<string>, forced: seq<string>, maxSubmissions: int)
  {
    jobs.Keys == j0.Keys && Distinct(pending) && Distinct(notified) && Distinct(forced) &&
    (forall n :: n in pending ==> n in j0 && j0[n].status == Submitted) &&
    forall n :: BarrierAt(j0, jobs, pending, notified, forced, maxSubmissions, n)
  }

  /** The barrier for one job `n`: a job not submitted at the start is
      untouched; a job submitted at the start is still submitted (and then
      in the deque) or completed (and then reported, as notified or as
      forced, not both); a forced job has used up its submissions, and
      submissions stay within the maximum. */
  ghost predicate BarrierAt(j0: map<string, JobRecord>, jobs: map<string, JobRecord>, pending: seq<string>,
                            notified: seq<string>, forced: seq<string>, maxSubmissions: int, n: string)
    requires jobs.Keys == j0.Keys
  {
    (n in j0 && j0[n].status != Submitted ==> jobs[n] == j0[n]) &&
    (n in j0 && j0[n].status == Submitted ==>
       jobs[n].status != Waiting &&
       (jobs[n].status == Submitted ==> n in pending) &&
       (jobs[n].status == Completed <==> n in notified || n in forced)) &&
    (n in notified || n in forced ==> n in j0 && j0[n].status == Submitted && jobs[n].result.Some?) &&
    (n in forced ==> n in j0 && jobs[n].submissions >= maxSubmissions) &&
    (n in j0 ==> jobs[n].submissions == j0[n].submissions || jobs[n].submissions <= maxSubmissions) &&
    (n in notified ==> n !in forced)
  }

  /** The barrier as it starts: the deque holds the jobs submitted at the
      start, once each, and nothing is reported yet. */
  lemma BarrierStart(j0: map<string, JobRecord>, pending: seq<string>, maxSubmissions: int)
    requires Distinct(pending)
    requires forall n :: n in pending <==> n in j0 && j0[n].status == Submitted
    ensures Barrier(j0, j0, pending, [], [], maxSubmissions)
  {
  }

  /** What the barrier says once the deque is empty. */
  lemma BarrierDone(j0: map<string, JobRecord>, jobs: map<string, JobRecord>,
                    notified: seq<string>, forced: seq<string>, maxSubmissions: int)
    requires Barrier(j0, jobs, [], notified, forced, maxSubmissions)
    ensures forall n :: n in j0 && j0[n].status == Submitted ==> jobs[n].status == Completed
  {
    forall n | n in j0 && j0[n].status == Submitted ensures jobs[n].status == Completed {
      assert BarrierAt(j0, jobs, [], notified, forced, maxSubmissions, n);
    }
  }

  /** The barrier, job by job, read back as statements about all jobs. */
  lemma BarrierFacts(j0: map<string, JobRecord>, jobs: map<string, JobRecord>, pending: seq<string>,
                     notified: seq<string>, forced: seq<string>, maxSubmissions: int)
    requires Barrier(j0, jobs, pending, notified, forced, maxSubmissions)
    ensures forall n :: n in j0 && j0[n].status != Submitted ==> jobs[n] == j0[n]
    ensures forall n :: n in j0 && j0[n].status == Submitted ==>
              (jobs[n].status == Completed <==> n in notified || n in forced)
    ensures forall n :: n in notified || n in forced ==> n in j0 && j0[n].status == Submitted && jobs[n].result.Some?
    ensures forall n :: n in forced ==> jobs[n].submissions >= maxSubmissions
    ensures forall n :: n in j0 ==> jobs[n].submissions == j0[n].submissions || jobs[n].submissions <= maxSubmissions
    ensures forall n :: n in notified ==> n !in forced
  {
    forall n
      ensures n in j0 && j0[n].status != Submitted ==> jobs[n] == j0[n]
      ensures n in j0 && j0[n].status == Submitted ==> (jobs[n].status == Completed <==> n in notified || n in forced)
      ensures n in notified || n in forced ==> n in j0 && j0[n].status == Submitted && jobs[n].result.Some?
      ensures n in forced ==> jobs[n].submissions >= maxSubmissions
      ensures n in j0 ==> jobs[n].submissions == j0[n].submissions || jobs[n].submissions <= maxSubmissions
      ensures n in notified ==> n !in forced
    {
      assert BarrierAt(j0, jobs, pending, notified, forced, maxSubmissions, n);
    }
  }

  /** Popping a job that is no longer submitted keeps the barrier. */
  lemma BarrierSkipped(j0: map<string, JobRecord>, jobs: map<string, JobRecord>, pending: seq<string>,
                       notified: seq<string>, forced: seq<string>, maxSubmissions: int)
    requires Barrier(j0, jobs, pending, notified, forced, maxSubmissions)
    requires pending != [] && jobs[pending[0]].status != Submitted
    ensures Barrier(j0, jobs, pending[1..], notified, forced, maxSubmissions)
  {
    DistinctTail(pending);
    forall n ensures BarrierAt(j0, jobs, pending[1..], notified, forced, maxSubmissions, n) {
      assert BarrierAt(j0, jobs, pending, notified, forced, maxSubmissions, n);
      assert pending == [pending[0]] + pending[1..];
    }
  }

  /** A polled job that was collected leaves the deque and is notified. */
  lemma BarrierCollected(j0: map<string, JobRecord>, before: map<string, JobRecord>, after: map<string, JobRecord>,
                         pending: seq<string>, notified: seq<string>, forced: seq<string>, maxSubmissions: int)
    requires Barrier(j0, before, pending, notified, forced, maxSubmissions)
    requires pending != [] && before[pending[0]].status == Submitted
    requires after.Keys == before.Keys
    requires forall n :: n in before && n != pending[0] ==> after[n] == before[n]
    requires after[pending[0]].status == Completed && after[pending[0]].result.Some?
    requires after[pending[0]].submissions == before[pending[0]].submissions
    ensures Barrier(j0, after, pending[1..], notified + [pending[0]], forced, maxSubmissions)
  {
    var name := pending[0];
    DistinctTail(pending);
    assert BarrierAt(j0, before, pending, notified, forced, maxSubmissions, name);
    DistinctSnoc(notified, name);
    forall n ensures BarrierAt(j0, after, pending[1..], notified + [name], forced, maxSubmissions, n) {
      assert BarrierAt(j0, before, pending, notified, forced, maxSubmissions, n);
      assert pending == [name] + pending[1..];
      assert n in notified + [name] <==> n in notified || n == name;
    }
  }

  /** A polled job that was not collected goes back to the end of the deque;
      a force-completed one is also reported as forced. */
  lemma BarrierRequeued(j0: map<string, JobRecord>, before: map<string, JobRecord>, after: map<string, JobRecord>,
                        pending: seq<string>, notified: seq<string>, forced: seq<string>, maxSubmissions: int,
                        isForced: bool)
    requires Barrier(j0, before, pending, notified, forced, maxSubmissions)
    requires pending != [] && before[pending[0]].status == Submitted
    requires after.Keys == before.Keys
    requires forall n :: n in before && n != pending[0] ==> after[n] == before[n]
    requires isForced ==>
      after[pending[0]].status == Completed && after[pending[0]].result.Some? &&
      after[pending[0]].submissions >= maxSubmissions && after[pending[0]].submissions == before[pending[0]].submissions
    requires !isForced ==>
      after[pending[0]].status == Submitted &&
      (after[pending[0]].submissions == before[pending[0]].submissions ||
       after[pending[0]].submissions <= maxSubmissions)
    ensures Barrier(j0, after, pending[1..] + [pending[0]], notified,
                    if isForced then forced + [pending[0]] else forced, maxSubmissions)
  {
    var name := pending[0];
    var pending' := pending[1..] + [name];
    var forced' := if isForced then forced + [name] else forced;
    DistinctTail(pending);
    DistinctSnoc(pending[1..], name);
    assert BarrierAt(j0, before, pending, notified, forced, maxSubmissions, name);
    DistinctSnoc(forced, name);
    forall n ensures BarrierAt(j0, after, pending', notified, forced', maxSubmissions, n) {
      assert BarrierAt(j0, before, pending, notified, forced, maxSubmissions, n);
      assert pending == [name] + pending[1..];
      assert n in pending' <==> n in pending;
      assert n in forced' <==> n in forced || (isForced && n == name);
    }
  }

  /** Every candidate of a batch has one coordinate per parameter and, read
      as a parameter set, respects every bound. */
  predicate BatchInBounds(cands: seq<seq<real>>, setup: CmaSetup)
  {
    forall c :: c in cands ==>
      |c| == |setup.names| == |setup.dtypes| &&
      InBounds(ArrayToDict(c, setup.names, setup.dtypes), setup.names, setup.ranges)
  }

  /** The settings `perform_cma_es_optimization` reads from the
      descriptor; the iteration callback sees the candidates and the NaN-free
      results and may hand back a `fitness_results` to tell instead. */
  datatype CmaSettings = CmaSettings(sigma0: real, popsize: PopsizeSetting, autoScaling: bool, useBounds: bool,
                                     nanReplacement: real,
                                     iterCallback: Option<(seq<Dict>, seq<Fitness>) -> Option<seq<Fitness>>>)

  /** The descriptor defaults: `sigma0` 1, no forced population size,
      automatic scaling, no bounds, NaN replaced by 1e9, no callback. */
  const DefaultCmaSettings := CmaSettings(1.0, NoPopsize, true, false, DefaultNaNReplacement, None)

  /** The entries of a parameter-generation descriptor the engine reads:
      the generation mode, the ranges, the filter, the number of random
      samples (100 by default), the submission infos, whether to submit and
      whether to wait for the results of a minibatch, and the CMA-ES
      settings. */
  datatype Submission = Submission(generation: string, ranges: Ranges, filter: Filter, numRandomSamples: int,
                                   infos: Option<CommandInfos>, submitJobs: bool, waitJobs: bool,
                                   cma: CmaSettings)

  const DefaultRandomSamples: int := 100

  /** What a generation gives back: the accepted sets of a grid or random
      generation, the set-up of a finished CMA-ES run, or nothing for an
      unknown mode. */
  datatype Outcome = Sets(sets: seq<Dict>) | Optimised(setup: CmaSetup) | NoGeneration

  /** What one turn tells the optimiser for a batch whose minibatch gave
      `results`: the iteration callback sees the candidates' dictionaries and
      the NaN-free results and may hand back its own `fitness_results`;
      otherwise the NaN-free results are told. */
  function TellValue(settings: CmaSettings, setup: CmaSetup, cands: seq<seq<real>>, results: seq<Fitness>): seq<Fitness>
    requires |setup.names| == |setup.dtypes| && forall c :: c in cands ==> |c| == |setup.names|
  {
    var cleaned := ReplaceNaN(results, settings.nanReplacement);
    Told(results, settings.nanReplacement,
         if settings.iterCallback.Some? then settings.iterCallback.value(Dicts(cands, setup.names, setup.dtypes), cleaned)
         else None)
  }

  /** Since `told0`, every batch told respects every bound, and its fitness
      is what the turn works out from that batch's minibatch results, kept
      in `log`: one result per candidate when the minibatch waits, none
      otherwise. The optimiser accepts only one fitness per candidate. */
  ghost predicate ToldSince(told0: seq<(seq<seq<real>>, seq<Fitness>)>, told: seq<(seq<seq<real>>, seq<Fitness>)>,
                            setup: CmaSetup, settings: CmaSettings, wait: bool, log: seq<seq<Fitness>>)
  {
    |setup.names| == |setup.dtypes| &&
    |told0| <= |told| && told[..|told0|] == told0 && |log| == |told| - |told0| &&
    forall j :: |told0| <= j < |told| ==>
      BatchInBounds(told[j].0, setup) &&
      |told[j].1| == |told[j].0| &&
      |log[j - |told0|]| == (if wait then |told[j].0| else 0) &&
      told[j].1 == TellValue(settings, setup, told[j].0, log[j - |told0|])
  }

  lemma ToldSinceSnoc(told0: seq<(seq<seq<real>>, seq<Fitness>)>, told: seq<(seq<seq<real>>, seq<Fitness>)>,
                      setup: CmaSetup, settings: CmaSettings, wait: bool, log: seq<seq<Fitness>>,
                      cands: seq<seq<real>>, res: seq<Fitness>)
    requires ToldSince(told0, told, setup, settings, wait, log) && BatchInBounds(cands, setup)
    requires |res| == (if wait then |cands| else 0)
    requires |TellValue(settings, setup, cands, res)| == |cands|
    ensures ToldSince(told0, told + [(cands, TellValue(settings, setup, cands, res))], setup, settings, wait, log + [res])
  {
    var told' := told + [(cands, TellValue(settings, setup, cands, res))];
    var log' := log + [res];
    assert told'[..|told0|] == told[..|told0|];
    forall j | |told0| <= j < |told'|
      ensures BatchInBounds(told'[j].0, setup) && |told'[j].1| == |told'[j].0| &&
              |log'[j - |told0|]| == (if wait then |told'[j].0| else 0) &&
              told'[j].1 == TellValue(settings, setup, told'[j].0, log'[j - |told0|])
    {
      if j < |told| {
        assert told'[j] == told[j] && log'[j - |told0|] == log[j - |told0|];
      }
    }
  }

  /** Without an iteration callback every fitness told is the batch's
      results with NaN replaced, so a number; and when the minibatch does not
      wait, only an empty batch can be told: any other would get no fitness
      at all, which the optimiser refuses. */
  lemma ToldWithoutCallback(told0: seq<(seq<seq<real>>, seq<Fitness>)>, told: seq<(seq<seq<real>>, seq<Fitness>)>,
                            setup: CmaSetup, settings: CmaSettings, wait: bool, log: seq<seq<Fitness>>)
    requires ToldSince(told0, told, setup, settings, wait, log) && settings.iterCallback.None?
    ensures forall j :: |told0| <= j < |told| ==>
              told[j].1 == ReplaceNaN(log[j - |told0|], settings.nanReplacement) &&
              forall f :: f in told[j].1 ==> f.Num?
    ensures !wait ==> forall j :: |told0| <= j < |told| ==> told[j] == ([], [])
  {
    forall j | |told0| <= j < |told|
      ensures told[j].1 == ReplaceNaN(log[j - |told0|], settings.nanReplacement)
      ensures forall f :: f in told[j].1 ==> f.Num?
      ensures !wait ==> told[j] == ([], [])
    {
      ReplaceNaNSound(log[j - |told0|], settings.nanReplacement);
    }
  }

  class SubmitPbs {
    /** How option values print in a command line (`str.format`). */
    const show: Value -> string
    /** How the job wrapper names a job from its parameters. */
    const jobNameOf: Dict -> string
    const gateway: Gateway
    const username: string
    /** `pbs_submit_cmd`: `qsub`, `sbatch` or anything else (e.g. `sh`). */
    const submitCmd: string
    const submitLabel: string
    const partition: string
    /** The walltime, in seconds. */
    const walltimeSeconds: int
    /** The quality-of-service tier written into scripts. */
    const qos: string
    const limitMaxQueuedJobs: int
    var numQueuedJobs: int
    /** `jobs_tracking_dict`. */
    var jobs: map<string, JobRecord>
    /** The order in which job names entered `jobs_tracking_dict`. */
    var jobOrder: seq<string>
    /** `result_tracking_dict`, keyed by the parameter set. */
    var resultTracking: map<Dict, ResultRecord>

    /** The tracking order lists every tracked job once; every job's
        parameter set has a result record; a submitted job has a start time. */
    ghost predicate Valid()
      reads this
    {
      ValidOn(jobOrder, jobs, resultTracking)
    }

    /** `__init__` with submission information: the tier is worked out from
        the walltime when it says `auto`, and the queue is counted once. */
    constructor (show: Value -> string, jobNameOf: Dict -> string, gateway: Gateway,
                 username: string, submitCmd: string, submitLabel: string, partition: string,
                 walltimeSeconds: int, qosSetting: string, limitMaxQueuedJobs: int)
      modifies gateway
      ensures Valid()
      ensures this.show == show && this.jobNameOf == jobNameOf && this.gateway == gateway
      ensures this.username == username && this.submitCmd == submitCmd && this.submitLabel == submitLabel
      ensures this.partition == partition && this.walltimeSeconds == walltimeSeconds
      ensures this.limitMaxQueuedJobs == limitMaxQueuedJobs
      ensures qos == ResolveQos(qosSetting, walltimeSeconds)
      ensures jobs == map[] && jobOrder == [] && resultTracking == map[]
      ensures QueueJobName(submitCmd, submitLabel).None? ==> numQueuedJobs == 0
      ensures QueueJobName(submitCmd, submitLabel).Some? && !old(gateway.exhausted) && old(gateway.listings) != [] ==>
                numQueuedJobs == |QueuedLines(old(gateway.listings[0]), username,
                                              QueueJobName(submitCmd, submitLabel).value, partition)|
      ensures numQueuedJobs >= 0
      ensures gateway.scripts == old(gateway.scripts) && gateway.submitted == old(gateway.submitted)
    {
      this.show, this.jobNameOf, this.gateway := show, jobNameOf, gateway;
      this.username, this.submitCmd, this.submitLabel := username, submitCmd, submitLabel;
      this.partition, this.walltimeSeconds := partition, walltimeSeconds;
      this.qos := ResolveQos(qosSetting, walltimeSeconds);
      this.limitMaxQueuedJobs := limitMaxQueuedJobs;
      numQueuedJobs := 0;
      jobs, jobOrder, resultTracking := map[], [], map[];
      new;
      UpdateRunningJobsNumber();
    }

    /** `update_running_jobs_number`: the number of our lines in the next
        queue listing; zero, without asking, when there is no queue. */
    method UpdateRunningJobsNumber()
      modifies this`numQueuedJobs, gateway
      ensures QueueJobName(submitCmd, submitLabel).None? ==>
                numQueuedJobs == 0 && gateway.Measure() == old(gateway.Measure())
      ensures QueueJobName(submitCmd, submitLabel).Some? && !old(gateway.exhausted) && old(gateway.listings) != [] ==>
                numQueuedJobs == |QueuedLines(old(gateway.listings[0]), username,
                                              QueueJobName(submitCmd, submitLabel).value, partition)|
      ensures QueueJobName(submitCmd, submitLabel).Some? ==>
                gateway.Measure() < old(gateway.Measure()) || old(gateway.exhausted)
      ensures numQueuedJobs >= 0
      ensures gateway.Measure() <= old(gateway.Measure())
      ensures gateway.scripts == old(gateway.scripts) && gateway.submitted == old(gateway.submitted)
    {
      match QueueJobName(submitCmd, submitLabel) {
        case None =>
          numQueuedJobs := 0;
        case Some(jobname) =>
          var lines := gateway.NextListing();
          numQueuedJobs := |QueuedLines(lines, username, jobname, partition)|;
      }
    }

    /** `wait_queue_not_full`: poll the queue until it holds fewer jobs than
        the limit. */
    method WaitQueueNotFull()
      requires limitMaxQueuedJobs > 0
      modifies this`numQueuedJobs, gateway
      ensures !gateway.exhausted ==> numQueuedJobs < limitMaxQueuedJobs
      ensures numQueuedJobs >= 0
      ensures gateway.Measure() <= old(gateway.Measure())
      ensures gateway.scripts == old(gateway.scripts) && gateway.submitted == old(gateway.submitted)
    {
      UpdateRunningJobsNumber();
      while numQueuedJobs >= limitMaxQueuedJobs && !gateway.exhausted
        invariant QueueJobName(submitCmd, submitLabel).None? ==> numQueuedJobs == 0
        invariant numQueuedJobs >= 0
        invariant gateway.Measure() <= old(gateway.Measure())
        invariant gateway.scripts == old(gateway.scripts) && gateway.submitted == old(gateway.submitted)
        decreases gateway.Measure()
      {
        UpdateRunningJobsNumber();
      }
    }

    /** `submit_job`: write the script, wait for room when the queue is more
        than three quarters full, then hand it to the queue. A job is only
        ever handed over while the queue is below its limit. */
    method SubmitJob(command: string)
      modifies this`numQueuedJobs, gateway
      ensures gateway.scripts == old(gateway.scripts) + [command]
      ensures gateway.submitted == old(gateway.submitted) + [command]
      ensures !ShouldWait(limitMaxQueuedJobs, old(numQueuedJobs)) ==>
                numQueuedJobs == old(numQueuedJobs) && gateway.Measure() == old(gateway.Measure())
      ensures limitMaxQueuedJobs > 0 && !gateway.exhausted ==> numQueuedJobs < limitMaxQueuedJobs
      ensures gateway.Measure() <= old(gateway.Measure())
    {
      gateway.WriteScript(command);
      if ShouldWait(limitMaxQueuedJobs, numQueuedJobs) {
        WaitQueueNotFull();
      } else if limitMaxQueuedJobs > 0 {
        ThrottleSafe(limitMaxQueuedJobs, numQueuedJobs);
      }
      gateway.Submit(command);
    }

    /** `create_submit_job_parameters`: overlay the forced parameters on the
        (shared) options, render the command, write its script and submit it
        when asked, and count one more queued job. The overlaid options are
        returned, since the source changes the caller's dictionary. */
    method CreateSubmitJobParameters(infos: CommandInfos, force: Option<Dict>, submit: bool)
      returns (updated: CommandInfos)
      modifies this`numQueuedJobs, gateway
      ensures updated == if force.Some? then CommandInfos(infos.command, Update(infos.otherOptions, force.value))
                         else infos
      ensures gateway.scripts == old(gateway.scripts) + [updated.command + Args(show, updated.otherOptions)]
      ensures gateway.submitted == old(gateway.submitted) +
                if submit then [updated.command + Args(show, updated.otherOptions)] else []
      ensures !submit || !ShouldWait(limitMaxQueuedJobs, old(numQueuedJobs)) ==>
                numQueuedJobs == old(numQueuedJobs) + 1 && gateway.Measure() == old(gateway.Measure())
      ensures submit && limitMaxQueuedJobs > 0 && !gateway.exhausted ==> numQueuedJobs <= limitMaxQueuedJobs
      ensures gateway.Measure() <= old(gateway.Measure())
    {
      updated := infos;
      if force.Some? {
        updated := CommandInfos(infos.command, Update(infos.otherOptions, force.value));
      }
      var line := CreateSimulationCommand(show, updated.command, updated.otherOptions);
      if submit {
        SubmitJob(line);
      } else {
        gateway.WriteScript(line);
      }
      numQueuedJobs := numQueuedJobs + 1;
    }
  
    // -------------------------------------------------------------------
    // Job tracking.

    /** `track_new_job`: the job enters as `waiting`, without result, start
        time or submission; its parameter set gets a fresh result record. */
    method TrackNewJob(name: string, jobParams: Dict, parameters: Dict)
      requires Valid()
      modifies this`jobs, this`jobOrder, this`resultTracking
      ensures Valid()
      ensures jobs == old(jobs)[name := JobRecord(Waiting, jobParams, None, parameters, None, 0)]
      ensures resultTracking == old(resultTracking)[parameters := ResultRecord(name, None)]
      ensures jobOrder == if name in old(jobs) then old(jobOrder) else old(jobOrder) + [name]
    {
      if name !in jobs {
        jobOrder := jobOrder + [name];
      }
      jobs := jobs[name := JobRecord(Waiting, jobParams, None, parameters, None, 0)];
      resultTracking := resultTracking[parameters := ResultRecord(name, None)];
    }

    /** `complete_job`: the job becomes `completed` with the result the job
        reports, and its parameter set's record gets the same result. */
    method CompleteJob(name: string) returns (f: Fitness)
      requires Valid() && name in jobs
      modifies this`jobs, this`resultTracking, gateway
      ensures Valid()
      ensures jobs == old(jobs)[name := old(jobs[name]).(status := Completed, result := Some(f))]
      ensures resultTracking == old(resultTracking)[old(jobs[name]).parameters :=
                old(resultTracking[jobs[name].parameters]).(result := Some(f))]
      ensures !old(gateway.exhausted) && old(gateway.results) != [] ==> f == old(gateway.results[0])
      ensures gateway.Measure() < old(gateway.Measure()) || old(gateway.exhausted)
      ensures gateway.Measure() <= old(gateway.Measure())
      ensures gateway.scripts == old(gateway.scripts) && gateway.submitted == old(gateway.submitted)
    {
      f := gateway.NextResult();
      var job := jobs[name];
      jobs := jobs[name := job.(status := Completed, result := Some(f))];
      resultTracking := resultTracking[job.parameters := resultTracking[job.parameters].(result := Some(f))];
    }

    /** `submit_jobwrapper`: the job's parameters get its name as `job_name`;
        unless the job reports itself already completed, a script running it
        is written (and submitted when asked); either way it becomes
        `submitted`, started now, with one more submission. */
    method SubmitJobwrapper(name: string, infos: CommandInfos, submit: bool) returns (resent: bool, started: real)
      requires Valid() && name in jobs
      modifies this`numQueuedJobs, this`jobs, gateway
      ensures Valid()
      ensures jobs == old(jobs)[name := Resubmitted(old(jobs[name]), name, started)]
      ensures !old(gateway.exhausted) && old(gateway.completions) != [] ==> resent == !old(gateway.completions[0])
      ensures resent ==>
                gateway.scripts == old(gateway.scripts) + [infos.command + Args(show, Set(old(jobs[name].jobParams), "job_name", StrV(name)))]
      ensures resent && submit ==>
                gateway.submitted == old(gateway.submitted) + [infos.command + Args(show, Set(old(jobs[name].jobParams), "job_name", StrV(name)))]
      ensures !resent ==> gateway.scripts == old(gateway.scripts)
      ensures !resent || !submit ==> gateway.submitted == old(gateway.submitted)
      ensures gateway.Measure() < old(gateway.Measure()) || old(gateway.exhausted)
      ensures gateway.Measure() <= old(gateway.Measure())
    {
      var params := Set(jobs[name].jobParams, "job_name", StrV(name));
      var done := gateway.NextCompleted();
      ghost var m := gateway.Measure();
      resent := !done;
      if resent {
        var _ := CreateSubmitJobParameters(CommandInfos(infos.command, params), None, submit);
      }
      assert gateway.Measure() <= m;
      started := gateway.NextClock();
      MarkSubmitted(name, started);
    }

    /** The tracking half of `submit_jobwrapper`. */
    method MarkSubmitted(name: string, started: real)
      requires Valid() && name in jobs
      modifies this`jobs
      ensures Valid()
      ensures jobs == old(jobs)[name := Resubmitted(old(jobs[name]), name, started)]
    {
      jobs := jobs[name := Resubmitted(jobs[name], name, started)];
    }

    /** One turn of the barrier on a job still marked submitted: ask whether
        it is done; if not, read the clock and decide by the polling rule.
        A finished job is collected; an overrunning one is resubmitted while it
        has submissions left and force-completed otherwise. */
    method PollJob(name: string, infos: CommandInfos, maxSubmissions: int)
      returns (d: Decision, done: bool, waited: real)
      requires Valid() && name in jobs && jobs[name].status == Submitted
      modifies this`numQueuedJobs, this`jobs, this`resultTracking, gateway
      ensures Valid()
      ensures d == PollDecision(done, waited, walltimeSeconds, old(jobs[name].submissions), maxSubmissions)
      ensures !old(gateway.exhausted) && old(gateway.completions) != [] ==> done == old(gateway.completions[0])
      ensures jobs.Keys == old(jobs).Keys && name in jobs
      ensures forall n :: n in old(jobs) && n != name ==> jobs[n] == old(jobs[n])
      ensures d == Collect || d == ForceComplete ==> jobs[name].status == Completed && jobs[name].result.Some?
      ensures d == KeepWaiting ==> jobs[name] == old(jobs[name])
      ensures d == Resubmit ==> jobs[name].status == Submitted && jobs[name].submissions == old(jobs[name].submissions) + 1
      ensures d != Resubmit ==> jobs[name].submissions == old(jobs[name].submissions)
      ensures gateway.Measure() < old(gateway.Measure()) || old(gateway.exhausted)
      ensures gateway.Measure() <= old(gateway.Measure())
    {
      done := gateway.NextCompleted();
      waited := 0.0;
      if !done {
        var now := gateway.NextClock();
        waited := now - jobs[name].timeStarted.value;
      }
      d := PollDecision(done, waited, walltimeSeconds, jobs[name].submissions, maxSubmissions);
      ghost var m := gateway.Measure();
      match d {
        case Collect =>
          var _ := CompleteJob(name);
        case KeepWaiting =>
        case Resubmit =>
          var _, _ := SubmitJobwrapper(name, infos, true);
        case ForceComplete =>
          var _ := CompleteJob(name);
      }
      assert gateway.Measure() <= m;
    }
  
    /** One turn of the deque loop: pop the first job and deal with it. */
    method BarrierTurn(ghost j0: map<string, JobRecord>, pending: seq<string>, notified: seq<string>,
                       forced: seq<string>, infos: CommandInfos, maxSubmissions: int)
      returns (pending': seq<string>, notified': seq<string>, forced': seq<string>)
      requires Valid() && Barrier(j0, jobs, pending, notified, forced, maxSubmissions)
      requires pending != [] && !gateway.exhausted
      modifies this`numQueuedJobs, this`jobs, this`resultTracking, gateway
      ensures Valid() && Barrier(j0, jobs, pending', notified', forced', maxSubmissions)
      ensures gateway.Measure() < old(gateway.Measure()) ||
              (gateway.Measure() == old(gateway.Measure()) && |pending'| < |pending|)
    {
      var name := pending[0];
      if jobs[name].status == Submitted {
        ghost var before := jobs;
        var d, _, _ := PollJob(name, infos, maxSubmissions);
        if d == Collect {
          BarrierCollected(j0, before, jobs, pending, notified, forced, maxSubmissions);
          pending', notified', forced' := pending[1..], notified + [name], forced;
        } else {
          BarrierRequeued(j0, before, jobs, pending, notified, forced, maxSubmissions, d == ForceComplete);
          pending', notified', forced' := pending[1..] + [name], notified,
                                          if d == ForceComplete then forced + [name] else forced;
        }
      } else {
        pending', notified', forced' := pending[1..], notified, forced;
        BarrierSkipped(j0, jobs, pending, notified, forced, maxSubmissions);
      }
    }

    /** `wait_all_jobs_collect_results`: the deque loop over the jobs that
        are submitted on entry. A completed job is skipped, a finished one
        collected (and passed to the result callback: `notified`, in order),
        an unfinished one polled and put back; one that keeps overrunning is
        resubmitted while it has submissions left, then force-completed
        (`forced`) without a callback. When the loop ends on its own, every
        job submitted on entry is completed; no job is ever pushed past
        `maxSubmissions` submissions, and none is reported twice. */
    method WaitAllJobsCollectResults(infos: CommandInfos, maxSubmissions: int)
      returns (notified: seq<string>, forced: seq<string>)
      requires Valid()
      modifies this`numQueuedJobs, this`jobs, this`resultTracking, gateway
      ensures Valid()
      ensures jobs.Keys == old(jobs).Keys
      ensures forall n :: n in old(jobs) && old(jobs[n]).status != Submitted ==> jobs[n] == old(jobs[n])
      ensures !gateway.exhausted ==>
                forall n :: n in old(jobs) && old(jobs[n]).status == Submitted ==> jobs[n].status == Completed
      ensures forall n :: n in old(jobs) && old(jobs[n]).status == Submitted ==>
                (jobs[n].status == Completed <==> n in notified || n in forced)
      ensures forall n :: n in notified || n in forced ==>
                n in old(jobs) && old(jobs[n]).status == Submitted && jobs[n].result.Some?
      ensures forall n :: n in forced ==> jobs[n].submissions >= maxSubmissions
      ensures forall n :: n in old(jobs) ==>
                jobs[n].submissions == old(jobs[n]).submissions || jobs[n].submissions <= maxSubmissions
      ensures Distinct(notified) && Distinct(forced) && forall n :: n in notified ==> n !in forced
      ensures gateway.Measure() <= old(gateway.Measure())
    {
      ghost var j0 := jobs;
      notified, forced := [], [];
      var pending := SubmittedJobs(jobOrder, jobs);
      SubmittedJobsDistinct(jobOrder, jobs);
      BarrierStart(j0, pending, maxSubmissions);
      while pending != [] && !gateway.exhausted
        invariant Valid() && Barrier(j0, jobs, pending, notified, forced, maxSubmissions)
        invariant gateway.Measure() <= old(gateway.Measure())
        decreases gateway.Measure(), |pending|
      {
        pending, notified, forced := BarrierTurn(j0, pending, notified, forced, infos, maxSubmissions);
      }
      BarrierFacts(j0, jobs, pending, notified, forced, maxSubmissions);
      if !gateway.exhausted {
        BarrierDone(j0, jobs, notified, forced, maxSubmissions);
      }
    }

    /** The submitting half of `submit_minibatch_jobswrapper`: every
        parameter set becomes a tracked job, named from its job parameters,
        and is submitted, in order, until one whose job parameters cannot be
        built or lack a `session_id` raises a `KeyError`. */
    method SubmitAll(batch: seq<Dict>, infos: CommandInfos, submit: bool)
      returns (r: Result<()>, names: seq<string>)
      requires Valid()
      modifies this`numQueuedJobs, this`jobs, this`jobOrder, this`resultTracking, gateway
      ensures Valid()
      ensures r.Ok? <==> forall i :: 0 <= i < |batch| ==> Ready(infos.otherOptions, batch[i])
      ensures |names| <= |batch| && (r.Ok? ==> |names| == |batch|)
      ensures forall i :: 0 <= i < |names| ==>
                JobNameFor(jobNameOf, infos.otherOptions, batch[i]) == Some(names[i]) &&
                names[i] in jobs && jobs[names[i]].status == Submitted
      ensures gateway.Measure() <= old(gateway.Measure())
    {
      names := [];
      var i := 0;
      while i < |batch|
        invariant 0 <= i <= |batch| && |names| == i
        invariant Valid()
        invariant Admitted(jobNameOf, infos.otherOptions, batch, i, names)
        invariant AllSubmitted(jobs, names)
        invariant gateway.Measure() <= old(gateway.Measure())
      {
        ghost var before := jobs;
        var one := SubmitOne(batch[i], infos, submit);
        if one.Err? {
          AdmittedAll(jobNameOf, infos.otherOptions, batch, i, names);
          return Err(one.error), names;
        }
        AllSubmittedSnoc(before, jobs, names, one.value);
        AdmittedSnoc(jobNameOf, infos.otherOptions, batch, i, names, one.value);
        names := names + [one.value];
        i := i + 1;
      }
      AdmittedAll(jobNameOf, infos.otherOptions, batch, i, names);
      r := Ok(());
    }

    /** One parameter set of the minibatch: build its job parameters, track
        the job under the name its parameters give it, and submit it. */
    method SubmitOne(p: Dict, infos: CommandInfos, submit: bool) returns (r: Result<string>)
      requires Valid()
      modifies this`numQueuedJobs, this`jobs, this`jobOrder, this`resultTracking, gateway
      ensures Valid()
      ensures r.Ok? <==> Ready(infos.otherOptions, p)
      ensures r.Ok? ==>
                JobNameFor(jobNameOf, infos.otherOptions, p) == Some(r.value) &&
                r.value in jobs && jobs[r.value].status == Submitted &&
                jobs[r.value].parameters == p && jobs[r.value].submissions == 1
      ensures forall n :: n in old(jobs) ==> n in jobs
      ensures forall n :: n in old(jobs) && (r.Err? || n != r.value) ==> jobs[n] == old(jobs[n])
      ensures gateway.Measure() <= old(gateway.Measure())
    {
      var jp := PrepareJobParameters(infos.otherOptions, p);
      if jp.Err? {
        return Err(jp.error);
      }
      if Lookup(jp.value, "session_id").None? {
        return Err("KeyError");
      }
      var name := jobNameOf(jp.value);
      TrackAndSubmit(name, jp.value, p, infos, submit);
      r := Ok(name);
    }

    /** Track a new job for the parameter set `p` and submit it: it ends
        submitted once, and every other job is left as it was. */
    method TrackAndSubmit(name: string, jobParams: Dict, p: Dict, infos: CommandInfos, submit: bool)
      requires Valid()
      modifies this`numQueuedJobs, this`jobs, this`jobOrder, this`resultTracking, gateway
      ensures Valid()
      ensures name in jobs && jobs[name].status == Submitted && jobs[name].parameters == p &&
              jobs[name].submissions == 1
      ensures forall n :: n in old(jobs) ==> n in jobs
      ensures forall n :: n in old(jobs) && n != name ==> jobs[n] == old(jobs[n])
      ensures gateway.Measure() <= old(gateway.Measure())
    {
      ghost var m := gateway.Measure();
      TrackNewJob(name, jobParams, p);
      assert gateway.Measure() == m;
      var _, _ := SubmitJobwrapper(name, infos, submit);
    }

    /** The job of parameter set `p` is tracked and completed with result `f`. */
    ghost predicate CompletedWith(otherOptions: Dict, p: Dict, f: Fitness)
      reads this
    {
      match JobNameFor(jobNameOf, otherOptions, p)
      case None => false
      case Some(n) => n in jobs && jobs[n].status == Completed && jobs[n].result == Some(f)
    }

    /** The results of the named jobs, in order, a missing one as NaN. */
    method CollectResults(names: seq<string>) returns (results: seq<Fitness>)
      requires forall i :: 0 <= i < |names| ==> names[i] in jobs
      ensures |results| == |names|
      ensures forall i :: 0 <= i < |names| ==>
                (jobs[names[i]].result.Some? ==> results[i] == jobs[names[i]].result.value) &&
                (jobs[names[i]].result.None? ==> results[i] == NaN)
    {
      results := [];
      var i := 0;
      while i < |names|
        invariant 0 <= i <= |names| && |results| == i
        invariant forall k :: 0 <= k < i ==> results[k] == ResultOf(jobs[names[k]])
      {
        results := results + [ResultOf(jobs[names[i]])];
        i := i + 1;
      }
    }

    /** `submit_minibatch_jobswrapper`: submit the batch (a set whose job
        parameters cannot be built, or lack a `session_id`, stops it with a
        `KeyError`); when asked to wait, run the barrier and return the
        results in the order of the batch, each the result its job
        completed with; otherwise return nothing. */
    method SubmitMinibatch(batch: seq<Dict>, infos: CommandInfos, submit: bool, wait: bool)
      returns (r: Result<seq<Fitness>>, names: seq<string>)
      requires Valid()
      modifies this`numQueuedJobs, this`jobs, this`jobOrder, this`resultTracking, gateway
      ensures Valid()
      ensures r.Ok? <==> forall i :: 0 <= i < |batch| ==> Ready(infos.otherOptions, batch[i])
      ensures |names| <= |batch| && (r.Ok? ==> |names| == |batch|)
      ensures forall i :: 0 <= i < |names| ==>
                JobNameFor(jobNameOf, infos.otherOptions, batch[i]) == Some(names[i]) && names[i] in jobs
      ensures r.Ok? && !wait ==>
                r.value == [] && forall i :: 0 <= i < |names| ==> jobs[names[i]].status == Submitted
      ensures r.Ok? && wait ==> |r.value| == |batch|
      ensures r.Ok? && wait && !gateway.exhausted ==>
                forall i :: 0 <= i < |batch| ==>
                  jobs[names[i]].status == Completed && jobs[names[i]].result == Some(r.value[i])
      ensures gateway.Measure() <= old(gateway.Measure())
    {
      ghost var measure0 := gateway.Measure();
      var submitted;
      submitted, names := SubmitAll(batch, infos, submit);
      assert gateway.Measure() <= measure0;
      if submitted.Err? {
        return Err(submitted.error), names;
      }
      if !wait {
        return Ok([]), names;
      }
      ghost var before := jobs;
      var _, _ := WaitAllJobsCollectResults(infos, DefaultMaxSubmissions);
      assert forall i :: 0 <= i < |names| ==> names[i] in before && before[names[i]].status == Submitted;
      var results := CollectResults(names);
      r := Ok(results);
    }

    // -------------------------------------------------------------------
    // The generators.

    /** Hand one more accepted set to `create_submit_job_parameters` with
        the shared options, when there is a submission to make: the scripts
        written since `base` are then the lines of all accepted sets. */
    method Emit(infos: Option<CommandInfos>, opts: Dict, accepted: seq<Dict>, x: Dict, submit: bool,
                ghost base: seq<string>)
      returns (opts': Dict)
      requires Emitted(show, infos, base, gateway.scripts, opts, accepted)
      modifies this`numQueuedJobs, gateway
      ensures Emitted(show, infos, base, gateway.scripts, opts', accepted + [x])
      ensures infos.None? || !submit ==> gateway.submitted == old(gateway.submitted)
      ensures gateway.Measure() <= old(gateway.Measure())
    {
      opts' := opts;
      if infos.Some? {
        var updated := CreateSubmitJobParameters(CommandInfos(infos.value.command, opts), Some(x), submit);
        opts' := updated.otherOptions;
        LinesSnoc(show, infos.value, accepted, x);
      }
    }

    /** `generate_submit_constrained_parameters_grid`: every combination of
        the (converted) grid values, in order, is screened by the filter; the
        accepted sets are returned and, when there is a submission, each gets
        a script as soon as it is accepted. A missing `range` is a
        `KeyError`; the filter's first exception ends the run. */
    method GenerateGrid(ranges: Ranges, filter: Filter, infos: Option<CommandInfos>, submit: bool)
      returns (r: Result<seq<Dict>>)
      modifies this`numQueuedJobs, gateway
      ensures GridAxes(ranges).Err? ==> r.Err? && gateway.scripts == old(gateway.scripts)
      ensures GridAxes(ranges).Ok? ==> r == Screen(filter, Cross(GridAxes(ranges).value))
      ensures infos.None? ==> gateway.scripts == old(gateway.scripts)
      ensures infos.Some? && r.Ok? ==>
                gateway.scripts == old(gateway.scripts) + Lines(show, infos.value, r.value)
      ensures infos.None? || !submit ==> gateway.submitted == old(gateway.submitted)
      ensures gateway.Measure() <= old(gateway.Measure())
    {
      var axes := GridAxes(ranges);
      if axes.Err? {
        return Err(axes.error);
      }
      r := ScreenGrid(Cross(axes.value), filter, infos, submit);
    }

    /** The screening loop of the grid sweep: every candidate, in order,
        goes through the filter, and each accepted one gets a script when
        there is a submission; the filter's first exception ends the run. */
    method ScreenGrid(cands: seq<Dict>, filter: Filter, infos: Option<CommandInfos>, submit: bool)
      returns (r: Result<seq<Dict>>)
      modifies this`numQueuedJobs, gateway
      ensures r == Screen(filter, cands)
      ensures infos.None? ==> gateway.scripts == old(gateway.scripts)
      ensures infos.Some? && r.Ok? ==>
                gateway.scripts == old(gateway.scripts) + Lines(show, infos.value, r.value)
      ensures infos.None? || !submit ==> gateway.submitted == old(gateway.submitted)
      ensures gateway.Measure() <= old(gateway.Measure())
    {
      var accepted: seq<Dict> := [];
      var opts := if infos.Some? then infos.value.otherOptions else [];
      var i := 0;
      ghost var scripts0, submitted0, measure0 := gateway.scripts, gateway.submitted, gateway.Measure();
      while i < |cands|
        invariant 0 <= i <= |cands|
        invariant Screen(filter, cands[..i]) == Ok(accepted)
        invariant Emitted(show, infos, scripts0, gateway.scripts, opts, accepted)
        invariant infos.None? || !submit ==> gateway.submitted == submitted0
        invariant gateway.Measure() <= measure0
      {
        var err;
        opts, accepted, err := ScreenTurn(cands, i, filter, infos, opts, accepted, submit, scripts0);
        if err.Some? {
          return Err(err.value);
        }
        i := i + 1;
      }
      assert cands[..i] == cands;
      r := Ok(accepted);
    }

    /** One candidate of the grid: screened by the filter and, when accepted,
        emitted; an exception is what screening the whole grid yields. */
    method ScreenTurn(cands: seq<Dict>, i: nat, filter: Filter, infos: Option<CommandInfos>, opts: Dict,
                      accepted: seq<Dict>, submit: bool, ghost base: seq<string>)
      returns (opts': Dict, accepted': seq<Dict>, err: Option<string>)
      requires i < |cands| && Screen(filter, cands[..i]) == Ok(accepted)
      requires Emitted(show, infos, base, gateway.scripts, opts, accepted)
      modifies this`numQueuedJobs, gateway
      ensures err.Some? ==> Screen(filter, cands) == Err(err.value) && gateway.scripts == old(gateway.scripts)
      ensures err.None? ==> Screen(filter, cands[..i + 1]) == Ok(accepted') &&
                            Emitted(show, infos, base, gateway.scripts, opts', accepted')
      ensures infos.None? || !submit ==> gateway.submitted == old(gateway.submitted)
      ensures gateway.Measure() <= old(gateway.Measure())
    {
      ScreenStep(filter, cands, i);
      opts', accepted', err := opts, accepted, None;
      match Apply(filter, cands[i]) {
        case Raise(e) =>
          err := Some(e);
        case Reject =>
        case Accept(d) =>
          opts' := Emit(infos, opts, accepted, d, submit, base);
          accepted' := accepted + [d];
      }
    }

    /** `generate_submit_constrained_parameters_random`: draw fresh sets, one
        uniform draw per parameter, until `n` have been accepted by the
        filter; each accepted set gets a script as soon as it is accepted
        when there is a submission. An unknown sampling type, a sampler
        that cannot draw, and the filter's exceptions end the run. With no
        parameter at all every draw is the empty set: a filter rejecting it
        would keep the source looping for ever, which the model reports as
        `NeverEnds`. */
    method GenerateRandom(ranges: Ranges, n: int, filter: Filter, infos: Option<CommandInfos>, submit: bool)
      returns (r: Result<seq<Dict>>)
      modifies this`numQueuedJobs, gateway
      ensures Samplers(ranges).Err? ==> r.Err? && gateway.scripts == old(gateway.scripts)
      ensures r.Ok? ==> Samplers(ranges).Ok?
      ensures r.Ok? ==> |r.value| <= if n > 0 then n else 0
      ensures r.Ok? && !gateway.exhausted ==> |r.value| == if n > 0 then n else 0
      ensures r.Ok? ==> forall i :: 0 <= i < |r.value| ==> Sampled(Samplers(ranges).value, filter, r.value[i])
      ensures infos.None? ==> gateway.scripts == old(gateway.scripts)
      ensures infos.Some? && r.Ok? ==>
                gateway.scripts == old(gateway.scripts) + Lines(show, infos.value, r.value)
      ensures infos.None? || !submit ==> gateway.submitted == old(gateway.submitted)
      ensures gateway.Measure() <= old(gateway.Measure())
    {
      var ss := Samplers(ranges);
      if ss.Err? {
        return Err(ss.error);
      }
      var samplers := ss.value;
      if samplers == [] && n > 0 && Apply(filter, []).Reject? {
        return Err(NeverEnds);
      }
      r := DrawAccepted(samplers, n, filter, infos, submit);
    }

    /** The drawing loop of the random sweep: draw and screen fresh sets
        until `n` have been accepted, writing a script for each accepted one
        when there is a submission. */
    method DrawAccepted(samplers: seq<(string, Sampler)>, n: int, filter: Filter, infos: Option<CommandInfos>,
                        submit: bool)
      returns (r: Result<seq<Dict>>)
      requires samplers == [] && n > 0 ==> !Apply(filter, []).Reject?
      modifies this`numQueuedJobs, gateway
      ensures r.Ok? ==> |r.value| <= if n > 0 then n else 0
      ensures r.Ok? && !gateway.exhausted ==> |r.value| == if n > 0 then n else 0
      ensures r.Ok? ==> forall i :: 0 <= i < |r.value| ==> Sampled(samplers, filter, r.value[i])
      ensures infos.None? ==> gateway.scripts == old(gateway.scripts)
      ensures infos.Some? && r.Ok? ==>
                gateway.scripts == old(gateway.scripts) + Lines(show, infos.value, r.value)
      ensures infos.None? || !submit ==> gateway.submitted == old(gateway.submitted)
      ensures gateway.Measure() <= old(gateway.Measure())
    {
      var accepted: seq<Dict> := [];
      var opts := if infos.Some? then infos.value.otherOptions else [];
      while |accepted| < n && !gateway.exhausted
        invariant n > 0 ==> |accepted| <= n
        invariant n <= 0 ==> accepted == []
        invariant forall k :: 0 <= k < |accepted| ==> Sampled(samplers, filter, accepted[k])
        invariant Emitted(show, infos, old(gateway.scripts), gateway.scripts, opts, accepted)
        invariant infos.None? || !submit ==> gateway.submitted == old(gateway.submitted)
        invariant gateway.Measure() <= old(gateway.Measure())
        decreases gateway.Measure(), n - |accepted|
      {
        var x, err := DrawScreened(samplers, filter);
        if err.Some? {
          return Err(err.value);
        }
        if x.Some? {
          opts := Emit(infos, opts, accepted, x.value, submit, old(gateway.scripts));
          accepted := accepted + [x.value];
        }
      }
      r := Ok(accepted);
    }

    /** One fresh parameter set: one uniform draw per parameter, in order. */
    method DrawSet(samplers: seq<(string, Sampler)>) returns (d: Result<Dict>)
      modifies gateway
      ensures !gateway.exhausted && d.Ok? ==> Drawn(samplers, d.value)
      ensures samplers == [] && !gateway.exhausted ==> d == Ok([])
      ensures samplers != [] ==> gateway.Measure() < old(gateway.Measure()) || old(gateway.exhausted)
      ensures gateway.Measure() <= old(gateway.Measure())
      ensures gateway.scripts == old(gateway.scripts) && gateway.submitted == old(gateway.submitted)
    {
      var us := gateway.NextDraws(|samplers|);
      d := SampleAll(samplers, us);
      if !gateway.exhausted && d.Ok? {
        assert |us| == |samplers| && forall k :: 0 <= k < |us| ==> 0.0 <= us[k] < 1.0;
      }
    }

    /** A fresh set, drawn and screened by the filter: the set the filter
        accepts (possibly rewritten), nothing when it rejects the draw or the
        gateway ran dry, or the error that ends the run. */
    method DrawScreened(samplers: seq<(string, Sampler)>, filter: Filter) returns (x: Option<Dict>, err: Option<string>)
      modifies gateway
      ensures x.Some? ==> err.None? && Sampled(samplers, filter, x.value)
      ensures gateway.exhausted ==> x.None? && err.None?
      ensures samplers == [] && !Apply(filter, []).Reject? && !gateway.exhausted ==> x.Some? || err.Some?
      ensures samplers != [] ==> gateway.Measure() < old(gateway.Measure()) || old(gateway.exhausted)
      ensures gateway.Measure() <= old(gateway.Measure())
      ensures gateway.scripts == old(gateway.scripts) && gateway.submitted == old(gateway.submitted)
    {
      x, err := None, None;
      var d := DrawSet(samplers);
      if gateway.exhausted {
        return;
      }
      if d.Err? {
        return None, Some(d.error);
      }
      match Apply(filter, d.value) {
        case Raise(e) =>
          err := Some(e);
        case Reject =>
        case Accept(a) =>
          x := Some(a);
      }
    }

    /** One round of the sequential loop: a fresh set is drawn and, when the
        filter accepts it, run as a minibatch of one. Without submission
        infos an accepted set fails with `TypeError` (`None['other_options']`
        in `prepare_job_parameters`). */
    method SequentialTurn(samplers: seq<(string, Sampler)>, filter: Filter, infos: Option<CommandInfos>,
                          submit: bool, wait: bool)
      returns (x: Option<Dict>, err: Option<string>)
      requires Valid()
      modifies this`numQueuedJobs, this`jobs, this`jobOrder, this`resultTracking, gateway
      ensures Valid()
      ensures x.Some? ==> infos.Some? && err.None? && Sampled(samplers, filter, x.value)
                          && Ready(infos.value.otherOptions, x.value)
      ensures infos.None? ==> x.None?
      ensures samplers == [] && !Apply(filter, []).Reject? && !gateway.exhausted ==> x.Some? || err.Some?
      ensures samplers != [] ==> gateway.Measure() < old(gateway.Measure()) || old(gateway.exhausted)
      ensures gateway.Measure() <= old(gateway.Measure())
    {
      var a;
      a, err := DrawScreened(samplers, filter);
      x := None;
      if a.Some? {
        if infos.None? {
          return None, Some("TypeError");
        }
        var res, _ := SubmitMinibatch([a.value], infos.value, submit, wait);
        if res.Err? {
          return None, Some(res.error);
        }
        assert [a.value][0] == a.value;
        x := a;
      }
    }

    /** `generate_submit_sequential_optimisation`: draw fresh sets until
        `maxIterations` of them have passed the filter, and run each as a
        minibatch of one (waiting for it when asked to). A rejected set does
        not count. The source returns nothing; the model returns the sets it
        submitted. Without submission infos nothing can be run: the first
        accepted set fails with `TypeError`. */
    method GenerateSequential(ranges: Ranges, maxIterations: int, filter: Filter, infos: Option<CommandInfos>,
                              submit: bool, wait: bool)
      returns (r: Result<seq<Dict>>)
      requires Valid()
      modifies this`numQueuedJobs, this`jobs, this`jobOrder, this`resultTracking, gateway
      ensures Valid()
      ensures Samplers(ranges).Err? ==> r.Err?
      ensures r.Ok? ==> Samplers(ranges).Ok?
      ensures r.Ok? ==> |r.value| <= if maxIterations > 0 then maxIterations else 0
      ensures r.Ok? && !gateway.exhausted ==> |r.value| == if maxIterations > 0 then maxIterations else 0
      ensures r.Ok? ==> forall i :: 0 <= i < |r.value| ==>
                infos.Some? && Sampled(Samplers(ranges).value, filter, r.value[i])
                && Ready(infos.value.otherOptions, r.value[i])
      ensures infos.None? && r.Ok? ==> r.value == []
      ensures gateway.Measure() <= old(gateway.Measure())
    {
      var ss := Samplers(ranges);
      if ss.Err? {
        return Err(ss.error);
      }
      var samplers := ss.value;
      if samplers == [] && maxIterations > 0 && Apply(filter, []).Reject? {
        return Err(NeverEnds);
      }
      r := SequentialLoop(samplers, maxIterations, filter, infos, submit, wait);
    }

    /** The loop of `generate_submit_sequential_optimisation`, once the
        samplers are known. */
    method SequentialLoop(samplers: seq<(string, Sampler)>, maxIterations: int, filter: Filter,
                          infos: Option<CommandInfos>, submit: bool, wait: bool)
      returns (r: Result<seq<Dict>>)
      requires Valid()
      requires samplers == [] && maxIterations > 0 ==> !Apply(filter, []).Reject?
      modifies this`numQueuedJobs, this`jobs, this`jobOrder, this`resultTracking, gateway
      ensures Valid()
      ensures r.Ok? ==> |r.value| <= if maxIterations > 0 then maxIterations else 0
      ensures r.Ok? && !gateway.exhausted ==> |r.value| == if maxIterations > 0 then maxIterations else 0
      ensures r.Ok? ==> forall i :: 0 <= i < |r.value| ==>
                infos.Some? && Sampled(samplers, filter, r.value[i]) && Ready(infos.value.otherOptions, r.value[i])
      ensures infos.None? && r.Ok? ==> r.value == []
      ensures gateway.Measure() <= old(gateway.Measure())
    {
      var ran: seq<Dict> := [];
      while |ran| < maxIterations && !gateway.exhausted
        invariant Valid()
        invariant maxIterations > 0 ==> |ran| <= maxIterations
        invariant maxIterations <= 0 ==> ran == []
        invariant infos.None? ==> ran == []
        invariant infos.Some? ==> AllRan(samplers, filter, infos.value.otherOptions, ran)
        invariant gateway.Measure() <= old(gateway.Measure())
        decreases gateway.Measure(), maxIterations - |ran|
      {
        var x, err := SequentialTurn(samplers, filter, infos, submit, wait);
        if gateway.exhausted {
          break;
        }
        if err.Some? {
          return Err(err.value);
        }
        if x.Some? {
          AllRanSnoc(samplers, filter, infos.value.otherOptions, ran, x.value);
          ran := ran + [x.value];
        }
      }
      r := Ok(ran);
    }

    // -------------------------------------------------------------------
    // CMA-ES.

    /** The inner `for` of the repair loop: every listed index (once per
        violated bound, as listed) gets a fresh candidate from `ask(1)`. */
    method Reask(opt: Optimizer, cands: seq<seq<real>>, flagged: seq<int>) returns (cands': seq<seq<real>>)
      requires opt.Valid() && forall c :: c in cands ==> |c| == opt.dim
      requires forall x :: x in flagged ==> 0 <= x < |cands|
      modifies opt
      ensures opt.Valid() && opt.told == old(opt.told)
      ensures |cands'| == |cands| && forall c :: c in cands' ==> |c| == opt.dim
      ensures forall i :: 0 <= i < |cands| && i !in flagged ==> cands'[i] == cands[i]
      ensures flagged != [] ==> opt.Measure() < old(opt.Measure()) || old(opt.exhausted)
      ensures opt.Measure() <= old(opt.Measure())
    {
      cands' := cands;
      var j := 0;
      while j < |flagged|
        invariant 0 <= j <= |flagged|
        invariant opt.Valid() && opt.told == old(opt.told)
        invariant |cands'| == |cands| && forall c :: c in cands' ==> |c| == opt.dim
        invariant forall i :: 0 <= i < |cands| && i !in flagged[..j] ==> cands'[i] == cands[i]
        invariant j > 0 ==> opt.Measure() < old(opt.Measure()) || old(opt.exhausted)
        invariant opt.Measure() <= old(opt.Measure())
      {
        var v := opt.AskOne();
        assert flagged[j] in flagged;
        cands' := cands'[flagged[j] := v];
        assert flagged[..j + 1] == flagged[..j] + [flagged[j]];
        j := j + 1;
      }
      assert flagged[..j] == flagged;
    }

    /** One turn of the repair loop: re-ask the flagged candidates and run
        the bounds check again. A candidate in bounds is kept. */
    method RepairTurn(opt: Optimizer, cur: seq<seq<real>>, flagged: seq<int>, setup: CmaSetup)
      returns (next: Result<seq<seq<real>>>, flagged': seq<int>)
      requires opt.Valid() && opt.dim == |setup.names| == |setup.dtypes|
      requires forall c :: c in cur ==> |c| == opt.dim
      requires CheckCandidates(Dicts(cur, setup.names, setup.dtypes), setup.names, setup.ranges, 0) == Ok(flagged)
      requires flagged != [] && !opt.exhausted
      modifies opt
      ensures opt.Valid() && opt.told == old(opt.told)
      ensures opt.Measure() < old(opt.Measure())
      ensures next.Ok? ==> |next.value| == |cur| && forall c :: c in next.value ==> |c| == opt.dim
      ensures next.Ok? ==> forall i :: 0 <= i < |cur| ==>
                InBounds(ArrayToDict(cur[i], setup.names, setup.dtypes), setup.names, setup.ranges) ==>
                next.value[i] == cur[i]
      ensures next.Ok? ==>
                CheckCandidates(Dicts(next.value, setup.names, setup.dtypes), setup.names, setup.ranges, 0) == Ok(flagged')
    {
      var names, dtypes, ranges := setup.names, setup.dtypes, setup.ranges;
      CheckCandidatesFlags(Dicts(cur, names, dtypes), names, ranges, 0);
      var cur' := Reask(opt, cur, flagged);
      var check := CheckCandidates(Dicts(cur', names, dtypes), names, ranges, 0);
      if check.Err? {
        return Err(check.error), [];
      }
      next, flagged' := Ok(cur'), check.value;
    }

    /** The repair loop of `perform_cma_es_optimization`: while the bounds
        check lists candidates, re-ask those. A candidate in bounds is never
        replaced, and when the optimiser did not run dry every candidate
        ends in bounds. A value the check cannot compare, or a missing bound,
        ends the run. */
    method RepairCandidates(opt: Optimizer, cands: seq<seq<real>>, setup: CmaSetup)
      returns (r: Result<seq<seq<real>>>)
      requires opt.Valid() && opt.dim == |setup.names| == |setup.dtypes|
      requires forall c :: c in cands ==> |c| == opt.dim
      modifies opt
      ensures opt.Valid() && opt.told == old(opt.told)
      ensures r.Ok? ==> |r.value| == |cands| && forall c :: c in r.value ==> |c| == opt.dim
      ensures r.Ok? ==> forall i :: 0 <= i < |cands| ==>
                (InBounds(ArrayToDict(cands[i], setup.names, setup.dtypes), setup.names, setup.ranges) ==>
                 r.value[i] == cands[i])
      ensures r.Ok? && !opt.exhausted ==> BatchInBounds(r.value, setup)
      ensures opt.Measure() <= old(opt.Measure())
    {
      var names, dtypes, ranges := setup.names, setup.dtypes, setup.ranges;
      var cur := cands;
      var check := CheckCandidates(Dicts(cur, names, dtypes), names, ranges, 0);
      if check.Err? {
        return Err(check.error);
      }
      var flagged := check.value;
      while flagged != [] && !opt.exhausted
        invariant opt.Valid() && opt.told == old(opt.told)
        invariant |cur| == |cands| && forall c :: c in cur ==> |c| == opt.dim
        invariant forall i :: 0 <= i < |cands| && InBounds(ArrayToDict(cands[i], names, dtypes), names, ranges) ==>
                    cur[i] == cands[i]
        invariant CheckCandidates(Dicts(cur, names, dtypes), names, ranges, 0) == Ok(flagged)
        invariant opt.Measure() <= old(opt.Measure())
        decreases opt.Measure()
      {
        var next;
        next, flagged := RepairTurn(opt, cur, flagged, setup);
        if next.Err? {
          return Err(next.error);
        }
        cur := next.value;
      }
      if !opt.exhausted {
        CheckCandidatesEmpty(Dicts(cur, names, dtypes), names, ranges, 0);
      }
      r := Ok(cur);
    }

    /** `perform_cma_es_optimization`: set the optimiser up from the ranges,
        then, until it says stop, ask a batch, repair it into bounds, run it
        as a minibatch, replace NaN results, let the iteration callback
        override them, and tell the optimiser. Every batch told respects
        every bound, and its fitness is `TellValue` of the minibatch results
        logged in `log`; a fitness of the wrong length ends the run with the
        optimiser's refusal. */
    method PerformCmaEsOptimization(opt: Optimizer, ranges: Ranges, settings: CmaSettings, infos: CommandInfos,
                                    submit: bool, wait: bool)
      returns (r: Result<CmaSetup>, ghost log: seq<seq<Fitness>>)
      requires Valid() && opt.Valid() && opt.dim == |ranges|
      modifies this`numQueuedJobs, this`jobs, this`jobOrder, this`resultTracking, gateway, opt
      ensures Valid() && opt.Valid()
      ensures SetupCma(ranges, settings.sigma0, settings.popsize, settings.autoScaling, settings.useBounds).Err? ==>
                r.Err? && opt.told == old(opt.told)
      ensures r.Ok? ==> r == SetupCma(ranges, settings.sigma0, settings.popsize, settings.autoScaling, settings.useBounds)
      ensures |old(opt.told)| <= |opt.told| && opt.told[..|old(opt.told)|] == old(opt.told)
      ensures SetupCma(ranges, settings.sigma0, settings.popsize, settings.autoScaling, settings.useBounds).Ok? ==>
                ToldSince(old(opt.told), opt.told,
                          SetupCma(ranges, settings.sigma0, settings.popsize, settings.autoScaling, settings.useBounds).value,
                          settings, wait, log)
      ensures settings.iterCallback.None? && wait ==>
                forall j :: |old(opt.told)| <= j < |opt.told| ==>
                  |opt.told[j].1| == |opt.told[j].0| && forall f :: f in opt.told[j].1 ==> f.Num?
      ensures gateway.Measure() <= old(gateway.Measure())
    {
      log := [];
      var s := SetupCma(ranges, settings.sigma0, settings.popsize, settings.autoScaling, settings.useBounds);
      if s.Err? {
        return Err(s.error), log;
      }
      var setup := s.value;
      ghost var told0 := opt.told;
      assert opt.told[..|told0|] == told0;
      var stop := opt.Stop();
      var err: Option<string> := None;
      while !stop
        invariant Valid() && opt.Valid() && opt.dim == |setup.names| == |setup.dtypes|
        invariant !stop ==> !opt.exhausted
        invariant ToldSince(told0, opt.told, setup, settings, wait, log)
        invariant gateway.Measure() <= old(gateway.Measure())
        decreases opt.Measure()
      {
        ghost var batch, res;
        err, stop, log, batch, res := CmaTurn(opt, setup, settings, infos, submit, wait, told0, log);
      }
      if settings.iterCallback.None? {
        ToldWithoutCallback(told0, opt.told, setup, settings, wait, log);
      }
      r := if err.Some? then Err(err.value) else Ok(setup);
    }

    /** One turn of the optimisation loop: ask, repair, run, tell, and ask
        whether to stop. An error from the repair or the minibatch ends the
        loop without telling, and so does a fitness whose length is not the
        batch's (the optimiser refuses it: without waiting and without a
        callback override there is no fitness at all). When a batch is told,
        its fitness is `TellValue` of the minibatch results `res`, and while
        the environment lasts each of those is the result its candidate's
        job completed with. */
    method CmaTurn(opt: Optimizer, setup: CmaSetup, settings: CmaSettings, infos: CommandInfos,
                   submit: bool, wait: bool, ghost told0: seq<(seq<seq<real>>, seq<Fitness>)>,
                   ghost log: seq<seq<Fitness>>)
      returns (err: Option<string>, stop: bool, ghost log': seq<seq<Fitness>>,
               ghost batch: seq<seq<real>>, ghost res: seq<Fitness>)
      requires Valid() && opt.Valid() && opt.dim == |setup.names| == |setup.dtypes| && !opt.exhausted
      requires ToldSince(told0, opt.told, setup, settings, wait, log)
      modifies this`numQueuedJobs, this`jobs, this`jobOrder, this`resultTracking, gateway, opt
      ensures Valid() && opt.Valid()
      ensures ToldSince(told0, opt.told, setup, settings, wait, log')
      ensures forall c :: c in batch ==> |c| == |setup.names|
      ensures (opt.told == old(opt.told) && log' == log) ||
              (err.None? && opt.told == old(opt.told) + [(batch, TellValue(settings, setup, batch, res))] &&
               log' == log + [res])
      ensures opt.told != old(opt.told) && wait && !gateway.exhausted ==>
                |res| == |batch| &&
                forall i :: 0 <= i < |batch| ==>
                  CompletedWith(infos.otherOptions, ArrayToDict(batch[i], setup.names, setup.dtypes), res[i])
      ensures err.Some? ==> stop
      ensures !stop ==> !opt.exhausted
      ensures opt.Measure() < old(opt.Measure())
      ensures gateway.Measure() <= old(gateway.Measure())
    {
      log', batch, res := log, [], [];
      var repaired := AskRepaired(opt, setup);
      if repaired.Err? {
        return Some(repaired.error), true, log', batch, res;
      }
      if opt.exhausted {
        return None, true, log', batch, res;
      }
      var cands := repaired.value;
      var fitness;
      fitness, res := Evaluate(cands, setup, settings, infos, submit, wait);
      batch := cands;
      if fitness.Err? {
        return Some(fitness.error), true, log', batch, res;
      }
      err, stop, log' := TellBatch(opt, setup, settings, wait, told0, log, cands, fitness.value, res);
    }

    /** `cma_es.tell(candidates, fitness)`, then ask whether to stop. The
        optimiser refuses a fitness whose length is not the batch's
        (`ValueError`), which ends the run with nothing told. */
    method TellBatch(opt: Optimizer, setup: CmaSetup, settings: CmaSettings, wait: bool,
                     ghost told0: seq<(seq<seq<real>>, seq<Fitness>)>, ghost log: seq<seq<Fitness>>,
                     cands: seq<seq<real>>, fitness: seq<Fitness>, ghost res: seq<Fitness>)
      returns (err: Option<string>, stop: bool, ghost log': seq<seq<Fitness>>)
      requires opt.Valid() && ToldSince(told0, opt.told, setup, settings, wait, log)
      requires BatchInBounds(cands, setup) && forall c :: c in cands ==> |c| == |setup.names|
      requires |res| == (if wait then |cands| else 0) && fitness == TellValue(settings, setup, cands, res)
      modifies opt
      ensures opt.Valid() && ToldSince(told0, opt.told, setup, settings, wait, log')
      ensures err.Some? ==> err == Some("ValueError") && stop && opt.told == old(opt.told) && log' == log &&
                            |fitness| != |cands|
      ensures err.None? ==> opt.told == old(opt.told) + [(cands, fitness)] && log' == log + [res] &&
                            |fitness| == |cands|
      ensures !stop ==> !opt.exhausted
      ensures opt.Measure() <= old(opt.Measure())
    {
      if |fitness| != |cands| {
        return Some("ValueError"), true, log;
      }
      ToldSinceSnoc(told0, opt.told, setup, settings, wait, log, cands, res);
      opt.Tell(cands, fitness);
      log' := log + [res];
      err := None;
      stop := opt.Stop();
    }

    /** `ask()` followed by the repair of out-of-bounds candidates. */
    method AskRepaired(opt: Optimizer, setup: CmaSetup) returns (r: Result<seq<seq<real>>>)
      requires opt.Valid() && opt.dim == |setup.names| == |setup.dtypes| && !opt.exhausted
      modifies opt
      ensures opt.Valid() && opt.told == old(opt.told)
      ensures r.Ok? ==> forall c :: c in r.value ==> |c| == opt.dim
      ensures r.Ok? && !opt.exhausted ==> BatchInBounds(r.value, setup)
      ensures opt.Measure() < old(opt.Measure())
    {
      var asked := opt.Ask();
      r := RepairCandidates(opt, asked, setup);
    }

    /** Run a repaired batch as a minibatch and work out what to tell: the
        callback's override when it gives one, the NaN-free results
        otherwise. `res` are the minibatch results: one per candidate when
        waiting, each the result its candidate's job completed with while the
        environment lasts, and none otherwise. */
    method Evaluate(cands: seq<seq<real>>, setup: CmaSetup, settings: CmaSettings, infos: CommandInfos,
                    submit: bool, wait: bool)
      returns (r: Result<seq<Fitness>>, ghost res: seq<Fitness>)
      requires Valid() && |setup.names| == |setup.dtypes| && forall c :: c in cands ==> |c| == |setup.names|
      modifies this`numQueuedJobs, this`jobs, this`jobOrder, this`resultTracking, gateway
      ensures Valid()
      ensures r.Ok? <==> forall i :: 0 <= i < |cands| ==>
                Ready(infos.otherOptions, ArrayToDict(cands[i], setup.names, setup.dtypes))
      ensures r.Ok? ==> r.value == TellValue(settings, setup, cands, res)
      ensures r.Ok? ==> |res| == if wait then |cands| else 0
      ensures r.Ok? && wait && !gateway.exhausted ==>
                forall i :: 0 <= i < |cands| ==>
                  CompletedWith(infos.otherOptions, ArrayToDict(cands[i], setup.names, setup.dtypes), res[i])
      ensures r.Ok? && settings.iterCallback.None? && wait ==>
                |r.value| == |cands| && forall f :: f in r.value ==> f.Num?
      ensures gateway.Measure() <= old(gateway.Measure())
    {
      var batch := Dicts(cands, setup.names, setup.dtypes);
      var results, names := SubmitMinibatch(batch, infos, submit, wait);
      if results.Err? {
        return Err(results.error), [];
      }
      res := results.value;
      var cleaned := ReplaceNaN(results.value, settings.nanReplacement);
      var override := if settings.iterCallback.Some? then settings.iterCallback.value(batch, cleaned) else None;
      r := Ok(Told(results.value, settings.nanReplacement, override));
    }

    /** `generate_submit_constrained_parameters_from_module_parameters`: pick
        the generator named by `parameter_generation`. A CMA-ES run needs
        submission infos to build its jobs; any other mode generates
        nothing and changes nothing. */
    method GenerateFromDescriptor(sub: Submission, opt: Optimizer) returns (r: Result<Outcome>, ghost log: seq<seq<Fitness>>)
      requires Valid() && opt.Valid() && opt.dim == |sub.ranges|
      modifies this`numQueuedJobs, this`jobs, this`jobOrder, this`resultTracking, gateway, opt
      ensures Valid()
      ensures sub.generation == "grid" ==>
                if GridAxes(sub.ranges).Err? then r.Err?
                else match Screen(sub.filter, Cross(GridAxes(sub.ranges).value))
                       case Ok(sets) => r == Ok(Sets(sets))
                       case Err(e) => r == Err(e)
      ensures sub.generation == "random" && r.Ok? ==>
                r.value.Sets? && Samplers(sub.ranges).Ok? &&
                |r.value.sets| <= (if sub.numRandomSamples > 0 then sub.numRandomSamples else 0) &&
                forall i :: 0 <= i < |r.value.sets| ==> Sampled(Samplers(sub.ranges).value, sub.filter, r.value.sets[i])
      ensures sub.generation == "random" && r.Ok? && !gateway.exhausted ==>
                |r.value.sets| == if sub.numRandomSamples > 0 then sub.numRandomSamples else 0
      ensures sub.generation == "random" && sub.infos.Some? && r.Ok? && r.value.Sets? ==>
                gateway.scripts == old(gateway.scripts) + Lines(show, sub.infos.value, r.value.sets)
      ensures sub.generation == "cma-es" && sub.infos.None? ==> r.Err? && opt.told == old(opt.told)
      ensures sub.generation == "cma-es" ==>
                var setup := SetupCma(sub.ranges, sub.cma.sigma0, sub.cma.popsize, sub.cma.autoScaling, sub.cma.useBounds);
                (r.Ok? ==> setup.Ok? && r == Ok(Optimised(setup.value))) &&
                (setup.Ok? ==> forall j :: |old(opt.told)| <= j < |opt.told| ==> BatchInBounds(opt.told[j].0, setup.value))
      ensures |old(opt.told)| <= |opt.told| && opt.told[..|old(opt.told)|] == old(opt.told)
      ensures sub.generation == "cma-es" &&
              SetupCma(sub.ranges, sub.cma.sigma0, sub.cma.popsize, sub.cma.autoScaling, sub.cma.useBounds).Ok? ==>
                ToldSince(old(opt.told), opt.told,
                          SetupCma(sub.ranges, sub.cma.sigma0, sub.cma.popsize, sub.cma.autoScaling, sub.cma.useBounds).value,
                          sub.cma, sub.waitJobs, log)
      ensures sub.generation == "cma-es" && sub.cma.iterCallback.None? && sub.waitJobs ==>
                forall j :: |old(opt.told)| <= j < |opt.told| ==>
                  |opt.told[j].1| == |opt.told[j].0| && forall f :: f in opt.told[j].1 ==> f.Num?
      ensures sub.generation !in {"grid", "random", "cma-es"} ==>
                r == Ok(NoGeneration) && gateway.scripts == old(gateway.scripts) &&
                gateway.submitted == old(gateway.submitted) && opt.told == old(opt.told)
    {
      log := [];
      assert "grid" != "random" && "grid" != "cma-es" && "random" != "cma-es";
      if sub.generation == "grid" {
        var g := GenerateGrid(sub.ranges, sub.filter, sub.infos, sub.submitJobs);
        r := if g.Ok? then Ok(Sets(g.value)) else Err(g.error);
      } else if sub.generation == "random" {
        var g := GenerateRandom(sub.ranges, sub.numRandomSamples, sub.filter, sub.infos, sub.submitJobs);
        r := if g.Ok? then Ok(Sets(g.value)) else Err(g.error);
      } else if sub.generation == "cma-es" {
        r, log := GenerateCmaEs(sub, opt);
      } else {
        r := Ok(NoGeneration);
      }
    }

    /** The `cma-es` mode of the descriptor: the optimisation needs the
        submission infos to build its jobs. */
    method GenerateCmaEs(sub: Submission, opt: Optimizer) returns (r: Result<Outcome>, ghost log: seq<seq<Fitness>>)
      requires Valid() && opt.Valid() && opt.dim == |sub.ranges|
      modifies this`numQueuedJobs, this`jobs, this`jobOrder, this`resultTracking, gateway, opt
      ensures Valid()
      ensures sub.infos.None? ==> r.Err? && opt.told == old(opt.told)
      ensures var setup := SetupCma(sub.ranges, sub.cma.sigma0, sub.cma.popsize, sub.cma.autoScaling, sub.cma.useBounds);
              (r.Ok? ==> setup.Ok? && r == Ok(Optimised(setup.value))) &&
              (setup.Ok? ==> forall j :: |old(opt.told)| <= j < |opt.told| ==> BatchInBounds(opt.told[j].0, setup.value))
      ensures |old(opt.told)| <= |opt.told| && opt.told[..|old(opt.told)|] == old(opt.told)
      ensures SetupCma(sub.ranges, sub.cma.sigma0, sub.cma.popsize, sub.cma.autoScaling, sub.cma.useBounds).Ok? ==>
                ToldSince(old(opt.told), opt.told,
                          SetupCma(sub.ranges, sub.cma.sigma0, sub.cma.popsize, sub.cma.autoScaling, sub.cma.useBounds).value,
                          sub.cma, sub.waitJobs, log)
      ensures sub.cma.iterCallback.None? && sub.waitJobs ==>
                forall j :: |old(opt.told)| <= j < |opt.told| ==>
                  |opt.told[j].1| == |opt.told[j].0| && forall f :: f in opt.told[j].1 ==> f.Num?
    {
      log := [];
      if sub.infos.None? {
        return Err("TypeError"), log;
      }
      var o;
      o, log := PerformCmaEsOptimization(opt, sub.ranges, sub.cma, sub.infos.value, sub.submitJobs, sub.waitJobs);
      r := if o.Ok? then Ok(Optimised(o.value)) else Err(o.error);
    }
  }
}
