# SubmitPBS orchestration and sequential fitting, in Dafny

This project models the job-orchestration core of a Bayesian visual
working-memory research code base, along with the pieces that feed it and
the pieces it feeds.

**The engine.** The `SubmitPBS` engine turns parameter sets into cluster
jobs for PBS (`qsub`) or SLURM (`sbatch`):

- It generates parameter sets from a grid, by random sampling, by
  sequential sampling, or through a CMA-ES optimiser.
- It screens them with an experiment's filtering function.
- It renders each job's command line and writes and submits its script.
- It throttles submission against the queue's length.
- It tracks every job: waiting, then submitted, then completed.
- It runs the polling barrier. The barrier collects results, resubmits
  jobs that overrun their walltime, force-completes a job that has used
  all its submissions, and calls an experiment's result callback.

**The experiment descriptors.** The model includes the filtering functions
and best-result callbacks from five experiment descriptors.

**The fitting experiment.** `FitExperimentSequentialSubjectAll` sets up one
sampler per (number of items, recall time) pair of a human dataset and
applies a function to every pair.

**Triangle helpers.** Three numpy helpers fill the triangles of a matrix.

**How state is modelled.** State the source changes in place is modelled
imperatively:

- `SubmitPbs` is a class. Its fields are the tracking dictionaries and the
  queue counter.
- `FitExperimentSequentialSubjectAll` is a class holding its samplers and
  its response cache.
- The three callback dictionaries are classes.
- The triangle helpers work on an `array2`.
- The outside world is `Environment.Gateway` and `Environment.Optimizer`.
  These are scripted inputs: queue listings, uniform draws, completion
  answers, job results, clock readings, and CMA-ES `stop`/`ask` answers.
  Each method says what it reads and what it writes.
- When a script runs out, the world is *exhausted*. The engine's loops
  then stop, and their postconditions are stated for the non-exhausted
  case. This replaces the source's unbounded waiting.

Pure logic is modelled by functions and lemmas:

- command-line rendering and decoding;
- the queue filter;
- the quality-of-service tier;
- the parameter grid, its converters and the samplers;
- the CMA-ES bridge;
- the filter arithmetic;
- the best-result tracking.

## Model

| member | source | states |
|---|---|---|
| Common.Lookup | submitpbs.py:569-571 | `d.get(k)`: there is a value exactly when `k` is a key, and it is the value stored under `k` |
| Common.Set | fitexperiment_sequential.py:143-145 | `d[k] = v` keeps the key order when `k` exists and appends `k` otherwise |
| Common.SetLookup | fitexperiment_sequential.py:143-145 | after `d[k] = v`, `k` maps to `v` and every other key keeps its value |
| Common.UpdateLookup | submitpbs.py:925-926 | after `d.update(e)`, keys of `e` map to `e`'s values and all others keep `d`'s |
| Common.UpdateKeepsKeys | submitpbs.py:925-926 | `d.update(e)` loses no key of `d` and adds every key of `e` |
| Common.Restrict | Experiments/fitexperiment_sigmabaseline_cmaes_08_2016/generator_cmaes_bays09_LL_3try_Mratiosigmaxsigmabaselinelapse_090816.py:199 | `utils.subdict(d, names)`: a key maps to `d`'s value when it is one of `names`, and is absent otherwise |
| Common.Trunc | fitexperiment_sequential.py:112 | Python's `int(x)` truncates toward zero, on both signs |
| CommandLine.CreateSimulationCommand | submitpbs.py:296-321 | the loop yields the command followed by ` --k v` for each option in order, or ` --k` when the value is `None` |
| CommandLine.ArgsAppend | submitpbs.py:315-319 | rendering two option lists in turn is rendering their concatenation |
| CommandLine.ParseFlag | submitpbs.py:316-317 | ` --name` followed by more groups reads back as the flag without a value |
| CommandLine.ParseValued | submitpbs.py:318-319 | ` --name value` reads back as the flag with that value |
| CommandLine.ParseRendered | submitpbs.py:303-307 | for renderable options, decoding the rendered arguments gives back every (name, value text) in order |
| CommandLine.RenderedInjective | submitpbs.py:296-321 | two renderable option lists that render to the same line say the same thing |
| QueueStatus.QueueJobName | submitpbs.py:195-205 | PBS looks for the label cut to 16 characters; SLURM uses the whole label; other commands count nothing |
| QueueStatus.QueuedLines | submitpbs.py:209-212 | the comprehension keeps exactly the lines that mention the user, the job name and, when one is set, the partition |
| QueueStatus.CountAll | submitpbs.py:209-212 | every line is counted exactly when every line is ours |
| QueueStatus.PartitionNarrows | submitpbs.py:209-212 | naming a partition never raises the count |
| QueueStatus.CountAppend | submitpbs.py:209-212 | the count of a listing in two parts is the sum of the parts' counts |
| QueueStatus.ThrottleSafe | submitpbs.py:389-392 | with a positive limit, not waiting means the queue is below the limit, and a full queue always waits |
| QueueStatus.AutoQos | submitpbs.py:96-111 | `qos='auto'` picks the first tier, among short, normal, medium and long, whose bound admits the walltime |
| QueueStatus.ResolveQos | submitpbs.py:95-111 | an explicit tier is kept; `auto` gives one of the four tiers |
| QueueStatus.AutoQosMonotone | submitpbs.py:103-111 | a longer walltime never gets a shorter tier |
| ParameterSpace.Convert | submitpbs.py:535 | `dtype(x)`: `int` truncates toward zero (`i <= x < i+1` for `x >= 0`, `i-1 < x <= i` below 0), so it is exact on whole numbers; `float` keeps `x` |
| ParameterSpace.ConvertAll | submitpbs.py:535 | each range value is converted by its parameter's dtype, in order |
| ParameterSpace.GridAxes | submitpbs.py:535 | the axes are the converted ranges in order; a parameter without `range` raises `KeyError` |
| ParameterSpace.Prepend | submitpbs.py:535-537 | an item is put in front of every combination of the remaining axes |
| ParameterSpace.ExtendShape | submitpbs.py:535-537 | value `i` of the first axis, with combination `j` of the rest, sits at `i*|rest|+j` (the assumed product order, first axis slowest) |
| ParameterSpace.ExtendMember | submitpbs.py:535-537 | a dictionary is in the extended product exactly when its head is on the first axis and its tail is in the rest |
| ParameterSpace.CrossMember | submitpbs.py:535-537 | the grid holds exactly the dictionaries that pick one value per axis, in axis order |
| ParameterSpace.CrossSize | submitpbs.py:535-537 | the grid size is the product of the axis lengths |
| ParameterSpace.ScreenNoFilter | submitpbs.py:544-548 | without a filter every candidate is kept, in order |
| ParameterSpace.ScreenMember | submitpbs.py:544-548 | a kept set is exactly one the filter accepted, as the filter left it, for some candidate |
| ParameterSpace.ScreenRaises | submitpbs.py:544-548 | the loop raises exactly when the filter raises on some candidate |
| ParameterSpace.ScreenSnoc | submitpbs.py:544-548 | one more candidate extends the outcome by that candidate's verdict |
| ParameterSpace.ScreenAppend | submitpbs.py:544-548 | screening two stretches of candidates is screening each in turn |
| ParameterSpace.ScreenStep | submitpbs.py:545-553 | screening one more candidate of a grid adds that candidate's verdict; an exception there is the outcome of the whole grid |
| ParameterSpace.SamplerFor | submitpbs.py:509-518 | a given `sampling_fct` wins; otherwise `uniform` or `randint`; `KeyError` without a `sampling_type`, `ValueError` for an unknown one |
| ParameterSpace.Samplers | submitpbs.py:509-518 | every parameter gets its sampler, and the loop raises exactly when one parameter cannot get one |
| ParameterSpace.RandIntRange | submitpbs.py:516 | `randint(low, high)` draws an int in [low, high) |
| ParameterSpace.UniformRange | submitpbs.py:514 | `low + rand()*(high-low)` lies in [low, high] |
| ParameterSpace.SampleAll | submitpbs.py:474-477 | a fresh set holds every parameter, in range order |
| ParameterSpace.SampleAllEntry | submitpbs.py:474-477 | entry `i` is parameter `i` sampled from draw `i` |
| CmaBridge.SortNames | submitpbs.py:639 | `sorted(keys)`: ascending string order, and a permutation of the names |
| CmaBridge.LexTotal | submitpbs.py:639 | any two names are comparable in Python's string order |
| CmaBridge.RangeOf | submitpbs.py:641 | the entry of a named parameter, when there is one |
| CmaBridge.WithDefaults | submitpbs.py:643-650 | a missing `x0` becomes `(high-low)/2` and a missing `scaling` becomes `(high-low)/(3 sigma0)`; with either bound missing, `ValueError`; given values are kept |
| CmaBridge.DefaultX0NotMidpoint | submitpbs.py:646 | the default `x0 = (high-low)/2` equals the range's midpoint exactly when `low` is 0 |
| CmaBridge.DefaultScalingReach | submitpbs.py:648 | with the default scaling, `3*sigma0*scaling` is exactly the width of the range |
| CmaBridge.SetRange | submitpbs.py:643-648 | writing an entry back changes that name's entry only, and keeps the keys and their order |
| CmaBridge.DefaultedStable | submitpbs.py:643-650 | defaulting an entry a second time changes nothing, so one name's write-back leaves the others' defaults as they were |
| CmaBridge.DefaultAllStep | submitpbs.py:640-650 | one step of the loop: after the first name is defaulted in place, the rest of the loop sees the same defaults |
| CmaBridge.DefaultAll | submitpbs.py:638-650 | the loop over the names in the order given (sorted, in `SetupCma`): it succeeds exactly when every name is present and can be defaulted; otherwise the error is that of the first refused name; on success every listed name holds its defaulted entry, other names are untouched, and the keys keep their order |
| CmaBridge.RangeNames | submitpbs.py:639 | the keys of the range dictionary, in order |
| CmaBridge.Dtypes | submitpbs.py:836 | the dtypes in name order; a name not in the ranges raises |
| CmaBridge.InitialPoint | submitpbs.py:849-854 | `cma_init_parameters`: each `x0` converted by its dtype, in name order |
| CmaBridge.Popsize | submitpbs.py:683-687 | `auto_10x` gives 10 per parameter, a number is taken as is, and absence sets nothing |
| CmaBridge.Scalings | submitpbs.py:653 | the scalings in name order, each the named parameter's own `scaling` |
| CmaBridge.Bounds | submitpbs.py:693 | the `low` (or `high`) of every parameter in name order; a missing bound raises |
| CmaBridge.Options | submitpbs.py:682-693 | `CMA_stds` is set exactly when auto-scaling is on and the scalings are not all close to 1; the bounds are set as asked |
| CmaBridge.ArrayToDict | submitpbs.py:831-836 | coordinate `i` goes under name `i`, converted by dtype `i` |
| CmaBridge.DictToArray | submitpbs.py:815-821 | the values in name order; a missing name raises `KeyError` |
| CmaBridge.RoundTrip | submitpbs.py:815-836 | for distinct names, array to dictionary and back gives the converted array |
| CmaBridge.Dicts | submitpbs.py:839-846 | every candidate array of a batch becomes its dictionary, in order |
| CmaBridge.OutOfBounds | submitpbs.py:807 | `(v < low) or (v > high)`: a value below `low` is out of bounds without `high` being read; `False` exactly when the value lies within both bounds |
| CmaBridge.CheckOne | submitpbs.py:806-809 | the inner loop reports only the index of the candidate it checks |
| CmaBridge.CheckOneCons | submitpbs.py:806-809 | the inner loop checks the first name, then the rest, and reports both in order |
| CmaBridge.CheckOneBelowLow | submitpbs.py:806-809 | a value below its `low` never makes the check fail, even when the parameter has no `high`, and it flags the candidate |
| CmaBridge.CheckOneCount | submitpbs.py:806-809 | the candidate's index is appended once per violated bound, so nothing is appended exactly when it is in bounds |
| CmaBridge.CheckCandidatesRange | submitpbs.py:796-811 | every reported index is an index of the batch |
| CmaBridge.CheckCandidatesCount | submitpbs.py:796-811 | index `j` occurs as often as candidate `j` violates a bound |
| CmaBridge.CheckCandidatesEmpty | submitpbs.py:796-811 | nothing is reported exactly when every candidate is in bounds |
| CmaBridge.CheckCandidatesFlags | submitpbs.py:796-811 | every reported index names a candidate that is out of bounds |
| CmaBridge.ReplaceNaNSound | submitpbs.py:744 | after the replacement no NaN is left: each NaN became the replacement and numbers are unchanged |
| CmaBridge.Told | submitpbs.py:744-761 | the iteration callback's `fitness_results` wins; otherwise one number per result |
| CmaBridge.SetupCma | submitpbs.py:638-707 | the names are the sorted keys, a permutation of them; the ranges are those of the defaulting loop over the sorted names, and its first refusal is the error; the dtypes, the start point and the `CMA_stds` and bounds options are those of `Dtypes`, `InitialPoint`, `Scalings`/`Options` and `Bounds` on the defaulted ranges; bounds are set exactly when asked |
| CmaBridge.SetupDefaulted | submitpbs.py:638-650 | the set-up's entry for its `k`-th name is that name's own entry with the defaults filled in |
| CmaBridge.SetupStart | submitpbs.py:645-646 | parameter `k` starts at its own `x0` or at `(high-low)/2`, converted by its dtype |
| CmaBridge.SetupStds | submitpbs.py:647-653 | when `CMA_stds` is set, entry `k` is the parameter's own `scaling` or `(high-low)/(3 sigma0)` |
| CmaBridge.SetupBounds | submitpbs.py:692-693 | when bounds are used, entry `k` is the parameter's own `low` and `high` |
| JobLifecycle.PrepareJobParameters | submitpbs.py:918-930 | a copy of the options overlaid with the set; `KeyError` exactly when no `action_to_do` results |
| JobLifecycle.PrepareJobParametersSound | submitpbs.py:925-928 | `job_action` takes the previous `action_to_do`, `action_to_do` becomes `launcher_do_run_job`, the set's values win, and other options are kept |
| JobLifecycle.PollDecision | submitpbs.py:1010-1049 | collect exactly when done; resubmit exactly when overrun (over 1.2 walltimes) with submissions left; force-complete when overrun without any |
| JobLifecycle.TimeoutRunShape | submitpbs.py:1033-1046 | a job that keeps overrunning is resubmitted until it reaches the limit, then force-completed once |
| Environment.Gateway.NextListing | submitpbs.py:197-207 | the next `qstat`/`squeue` listing; an empty script exhausts the world |
| Environment.Gateway.NextDraws | submitpbs.py:514-516 | the next `k` uniform draws in [0, 1) |
| Environment.Gateway.NextCompleted | submitpbs.py:971 | the next `check_completed` answer |
| Environment.Gateway.NextResult | submitpbs.py:955 | the next `get_result` answer |
| Environment.Gateway.NextClock | submitpbs.py:980 | the next `time.time()` reading |
| Environment.Gateway.WriteScript | submitpbs.py:324-377 | `make_script` records the script's command and nothing else |
| Environment.Gateway.Submit | submitpbs.py:402-405 | the script is handed to the queue and recorded |
| Environment.Optimizer.Stop | submitpbs.py:715 | `stop()`; an exhausted script stops the run |
| Environment.Optimizer.Ask | submitpbs.py:718 | `ask()`: a batch of candidates, each with one coordinate per parameter |
| Environment.Optimizer.AskOne | submitpbs.py:728 | `ask(1)[0]`: one candidate of the right dimension |
| Environment.Optimizer.Tell | submitpbs.py:761 | `tell` records the batch and its fitness |
| SubmitPbsEngine.Lines | submitpbs.py:545-553 | one script line per accepted set |
| SubmitPbsEngine.LinesSnoc | submitpbs.py:551-553 | one more accepted set adds the command rendered with the options after its own overlay |
| SubmitPbsEngine.LinesCarry | submitpbs.py:280-281 | the shared options are overlaid in place, so set `i`'s line carries set `i`'s values |
| SubmitPbsEngine.OverlaidUntouched | submitpbs.py:280-281 | a key no accepted set mentions keeps the submission's own option |
| SubmitPbsEngine.SubmittedJobs | submitpbs.py:995 | the deque holds exactly the tracked jobs whose status is submitted |
| SubmitPbsEngine.SubmittedJobsDistinct | submitpbs.py:995 | no job enters the deque twice |
| SubmitPbsEngine.AdmittedAll | submitpbs.py:882-891 | after the loop, every set of the batch is ready and `names[i]` is set `i`'s job |
| SubmitPbsEngine.BarrierSkipped | submitpbs.py:1004-1006 | popping a job that is no longer submitted keeps the barrier invariant |
| SubmitPbsEngine.BarrierCollected | submitpbs.py:1010-1018 | a collected job leaves the deque, is completed and is notified once |
| SubmitPbsEngine.BarrierRequeued | submitpbs.py:1029-1071 | a job still running goes to the back of the deque; a forced one is completed, recorded as forced and also put back at the back of the deque |
| SubmitPbsEngine.ToldSinceSnoc | submitpbs.py:741-761 | telling one more in-bounds batch, with one fitness per candidate computed from its minibatch results, keeps the told log tied to the logged results |
| SubmitPbsEngine.ToldWithoutCallback | submitpbs.py:741-761 | without an iteration callback every fitness told is the batch's results with NaN replaced, hence a number; without waiting only an empty batch can be told |
| SubmitPbsEngine.SubmitPbs.constructor | submitpbs.py:66-150 | empty tracking dictionaries; the tier is resolved from the walltime; the queue count is that of our lines in the first queue listing, or 0 without a queue |
| SubmitPbsEngine.SubmitPbs.UpdateRunningJobsNumber | submitpbs.py:187-212 | the count is the number of our lines in the next listing, or 0 for a submit command that is neither `qsub` nor `sbatch` |
| SubmitPbsEngine.SubmitPbs.WaitQueueNotFull | submitpbs.py:215-236 | it returns with the queue below the limit, unless the world ran out |
| SubmitPbsEngine.SubmitPbs.SubmitJob | submitpbs.py:380-417 | one script written and submitted; it waits only past 3/4 of a positive limit, and then leaves the queue below the limit |
| SubmitPbsEngine.SubmitPbs.CreateSubmitJobParameters | submitpbs.py:271-293 | the forced set is overlaid on the shared options in place; a script of the rendered command is written and, when asked, submitted; the count goes up by one |
| SubmitPbsEngine.SubmitPbs.TrackNewJob | submitpbs.py:933-943 | the job enters as waiting with no result and no submission, and its parameters map to it in the result tracking |
| SubmitPbsEngine.SubmitPbs.CompleteJob | submitpbs.py:946-956 | the job becomes completed with the next result, and the result tracking of its parameters gets the same result |
| SubmitPbsEngine.SubmitPbs.SubmitJobwrapper | submitpbs.py:959-981 | the job's parameters get `job_name`; a script is written only if it is not already done; it is marked submitted with a start time and one more submission |
| SubmitPbsEngine.SubmitPbs.MarkSubmitted | submitpbs.py:978-981 | status submitted, start time, and submissions plus one; nothing else changes |
| SubmitPbsEngine.Resubmitted | submitpbs.py:965-981 | the record after a submission: status submitted, the new start time, one more submission, `job_name` set in its parameters; parameter set and result kept |
| SubmitPbsEngine.SubmitPbs.PollJob | submitpbs.py:1008-1071 | the decision is `PollDecision` of the answers; collected and forced jobs are completed with a result; a resubmitted job has one more submission; other jobs are untouched |
| SubmitPbsEngine.SubmitPbs.BarrierTurn | submitpbs.py:998-1071 | one pop keeps the barrier invariant and makes progress |
| SubmitPbsEngine.SubmitPbs.WaitAllJobsCollectResults | submitpbs.py:984-1071 | every job submitted on entry ends completed, either notified or force-completed; no job passes the submission limit; none is reported twice; other jobs are untouched |
| SubmitPbsEngine.BarrierFacts | submitpbs.py:984-1071 | under the barrier invariant: untouched jobs are unchanged, a job submitted on entry is completed exactly when it was notified or forced, forced jobs reached the submission limit, nothing is both notified and forced |
| SubmitPbsEngine.BarrierDone | submitpbs.py:995-998 | once the deque is empty, every job submitted on entry is completed |
| SubmitPbsEngine.SubmitPbs.SubmitAll | submitpbs.py:882-894 | every set is tracked and submitted in order, and it stops with `KeyError` exactly when a set is not ready |
| SubmitPbsEngine.SubmitPbs.SubmitOne | submitpbs.py:884-894 | a ready set gets a tracked, submitted job under its name; other jobs are untouched |
| SubmitPbsEngine.SubmitPbs.TrackAndSubmit | submitpbs.py:889-894 | the new job is tracked with its parameter set and submitted once; other jobs are untouched |
| SubmitPbsEngine.SubmitPbs.CollectResults | submitpbs.py:904-910 | the results in batch order, each the one its job completed with |
| SubmitPbsEngine.SubmitPbs.SubmitMinibatch | submitpbs.py:859-914 | results come in batch order, each the result its job completed with; without waiting, nothing is returned and every job is submitted; `KeyError` exactly when a set is not ready |
| SubmitPbsEngine.SubmitPbs.Emit | submitpbs.py:551-553 | with submission infos, one more script line for the accepted set |
| SubmitPbsEngine.SubmitPbs.GenerateGrid | submitpbs.py:524-558 | the result is the screened grid; one script per accepted set with the overlaid options; nothing is submitted unless asked |
| SubmitPbsEngine.SubmitPbs.ScreenGrid | submitpbs.py:544-558 | the outcome is the screened candidate list; one script per accepted set, in order, with the overlaid options |
| SubmitPbsEngine.SubmitPbs.ScreenTurn | submitpbs.py:546-553 | one candidate: the screened prefix grows by its verdict and its script is written when accepted; an exception is the outcome of the whole grid |
| SubmitPbsEngine.SubmitPbs.GenerateRandom | submitpbs.py:452-497 | exactly `num_random_samples` sets (unless the world ran out), each one a sampling round the filter accepted; one script per set |
| SubmitPbsEngine.SubmitPbs.DrawAccepted | submitpbs.py:470-492 | at most, and unless the world ran out exactly, `num_random_samples` sets, each a sampling round the filter accepted, with one script each |
| SubmitPbsEngine.SubmitPbs.DrawScreened | submitpbs.py:474-480 | one draw per parameter, then the filter: a kept set is a sampling round the filter accepted; with parameters every round consumes input |
| SubmitPbsEngine.SubmitPbs.DrawSet | submitpbs.py:474-477 | one fresh set drawn from the samplers, one draw per parameter |
| SubmitPbsEngine.SubmitPbs.SequentialTurn | submitpbs.py:589-605 | a set that passes the filter is sampled, ready and run as a minibatch of one; without submission infos no set is run (`TypeError`, submitpbs.py:924); every round consumes input |
| SubmitPbsEngine.SubmitPbs.GenerateSequential | submitpbs.py:563-605 | exactly `max_optimisation_iterations` sets are run (unless the world ran out), each sampled and accepted by the filter; without submission infos none is run, so a positive maximum ends in an error unless the world ran out |
| SubmitPbsEngine.SubmitPbs.SequentialLoop | submitpbs.py:584-605 | the `while` loop: at most the maximum number of sets, each sampled and accepted; none without submission infos |
| SubmitPbsEngine.SubmitPbs.Reask | submitpbs.py:727-730 | flagged candidates are asked again and the others are kept |
| SubmitPbsEngine.SubmitPbs.RepairCandidates | submitpbs.py:724-732 | after repair the batch lies within bounds, and in-bounds candidates are untouched |
| SubmitPbsEngine.SubmitPbs.RepairTurn | submitpbs.py:725-732 | one repair round re-asks the optimiser, keeps in-bounds candidates and returns the new list of out-of-bound indices |
| SubmitPbsEngine.SubmitPbs.AskRepaired | submitpbs.py:718-732 | `ask()` then repair: a batch within bounds |
| SubmitPbsEngine.SubmitPbs.Evaluate | submitpbs.py:741-758 | the fitness is `Told` of the minibatch results: NaN replaced, or the callback's `fitness_results` when it gives one; the results are one per candidate when waiting, each the result its candidate's job completed with while the environment lasts, and none otherwise; `KeyError` exactly when a set is not ready |
| SubmitPbsEngine.SubmitPbs.CmaTurn | submitpbs.py:715-761 | one ask–repair–run–tell turn: either nothing is told, or the repaired batch is told with the fitness worked out from its minibatch results, which are the results its jobs completed with while the environment lasts |
| SubmitPbsEngine.SubmitPbs.TellBatch | submitpbs.py:759-761 | `cma_es.tell`: a fitness of the batch's length is appended to the told log; any other is refused with nothing told |
| SubmitPbsEngine.SubmitPbs.PerformCmaEsOptimization | submitpbs.py:608-793 | the setup is `SetupCma` and its failures raise before anything is told; every batch told respects the bounds and gets one fitness per candidate, the NaN-replaced minibatch results or the callback's `fitness_results`, as logged; without a callback and when waiting, every fitness told is a number |
| SubmitPbsEngine.SubmitPbs.GenerateFromDescriptor | submitpbs.py:423-446 | dispatch on `parameter_generation`: grid gives the screened grid; random gives sampled sets, `n` of them while the environment lasts, with their command lines written; cma-es gives `SetupCma` and tells only batches within its bounds, each with the fitness worked out from its minibatch results (a number per candidate without a callback when waiting); any other mode returns nothing and changes nothing |
| SubmitPbsEngine.SubmitPbs.GenerateCmaEs | submitpbs.py:445-446 | the `cma-es` mode: `SetupCma`'s outcome, and every batch told within its bounds with the fitness worked out from its minibatch results; without submission infos, nothing is told |
| ExperimentFilters.AllCloseInts | Experiments/fitexperiment_sigmabaseline_cmaes_08_2016/generator_cmaes_bays09_LL_3try_Mratiosigmaxsigmabaselinelapse_090816.py:121 | `np.allclose` on integers below 10^5 is equality |
| ExperimentFilters.IntSqrt | Experiments/fitexperiment_sigmabaseline_cmaes_08_2016/generator_cmaes_bays09_LL_3try_Mratiosigmaxsigmabaselinelapse_090816.py:109 | `floor(n**0.5)` is the integer square root |
| ExperimentFilters.EvenFloor | Experiments/fitexperiment_sigmabaseline_cmaes_08_2016/generator_cmaes_bays09_LL_3try_Mratiosigmaxsigmabaselinelapse_090816.py:110 | `floor(x/2)*2` is the largest even integer not above `x` |
| ExperimentFilters.ClampOf | Experiments/fitexperiment_sigmabaseline_cmaes_08_2016/generator_cmaes_bays09_LL_3try_Mratiosigmaxsigmabaselinelapse_090816.py:108-112 | `M_conj_prior = int(M*ratio)`; a negative prior or a zero `M_true` raises |
| ExperimentFilters.ClampInputs | Experiments/fitexperiment_sigmabaseline_cmaes_08_2016/generator_cmaes_bays09_LL_3try_Mratiosigmaxsigmabaselinelapse_090816.py:108 | a missing `M` or `ratio_conj` raises `KeyError` |
| ExperimentFilters.ClampVerdict | Experiments/fitexperiment_sigmabaseline_cmaes_08_2016/generator_cmaes_bays09_LL_3try_Mratiosigmaxsigmabaselinelapse_090816.py:102-121 | with `should_clamp` it always accepts, after the rewrite; otherwise it accepts `d` unchanged or rejects |
| ExperimentFilters.ClampRewrites | Experiments/fitexperiment_sigmabaseline_cmaes_08_2016/generator_cmaes_bays09_LL_3try_Mratiosigmaxsigmabaselinelapse_090816.py:114-119 | the accepted set has `M = M_true` and `ratio_conj = M_conj_true/M_true`, and other keys unchanged |
| ExperimentFilters.ClampSquareMaximal | Experiments/fitexperiment_sigmabaseline_cmaes_08_2016/generator_cmaes_bays09_LL_3try_Mratiosigmaxsigmabaselinelapse_090816.py:109 | `M_conj_true` is the largest perfect square not above `M_conj_prior` |
| ExperimentFilters.ClampEvenMaximal | Experiments/fitexperiment_sigmabaseline_cmaes_08_2016/generator_cmaes_bays09_LL_3try_Mratiosigmaxsigmabaselinelapse_090816.py:110 | `M_feat_true` is the largest even number not above `M - M_conj_prior` |
| ExperimentFilters.ClampNeverIncreases | Experiments/fitexperiment_sigmabaseline_cmaes_08_2016/generator_cmaes_bays09_LL_3try_Mratiosigmaxsigmabaselinelapse_090816.py:108-111 | the clamped `M` never exceeds `M` |
| ExperimentFilters.ClampExact | Experiments/fitexperiment_sigmabaseline_cmaes_08_2016/generator_cmaes_bays09_LL_3try_Mratiosigmaxsigmabaselinelapse_090816.py:120-121 | an integer `M` equals `M_true` exactly when both parts are already exact |
| ExperimentFilters.ClampCloseExact | Experiments/fitexperiment_sigmabaseline_cmaes_08_2016/generator_cmaes_bays09_LL_3try_Mratiosigmaxsigmabaselinelapse_090816.py:120-121 | for an integer `M` below 10^5, `M_true` is close to `M` (the `allclose` test) exactly when nothing would be clamped |
| ExperimentFilters.NoClampAcceptsExact | Experiments/fitexperiment_sigmabaseline_cmaes_08_2016/generator_cmaes_bays09_LL_3try_Mratiosigmaxsigmabaselinelapse_090816.py:120-121 | without clamping, an integer `M` is accepted unchanged exactly when nothing would be clamped |
| ExperimentFilters.RandomSweepM | Experiments/sigmaoutput_normalisedsigmax_random/generator_normalisedsigmaxsigmaoutput_random_fitting_experiments_sigmaxMratiosigmaoutput_050914.py:110 | the sweep's `M` is drawn in [6, 625) |
| ExperimentFilters.TotalVerdict | Experiments/hierarchicalrandomnetwork_characterisation/generator_constant_total_MMlower_fullaccess_feature_sampling_190613.py:18-26 | it accepts only `d` itself; an unknown comparison rejects; a missing entry raises |
| ExperimentFilters.TotalEqualExact | Experiments/hierarchicalrandomnetwork_characterisation/generator_constant_total_MMlower_fullaccess_feature_sampling_190613.py:23-24 | in `equal` mode, with integer values, it accepts exactly when `M + M_layer_one` equals the target |
| ExperimentFilters.TotalSmallerEqual | Experiments/hierarchicalrandomnetwork_characterisation/generator_constant_total_MMlower_fullaccess_feature_sampling_190613.py:25-26 | in `smaller_equal` mode it accepts exactly when the sum is at most the target and `M < M_layer_one` |
| ExperimentFilters.CandVerdict | Experiments/hierarchicalrandomnetwork_characterisation/generator_constant_total_MMlower_fullaccess_feature_sampling_190613.py:23-28 | a grid point is accepted, unchanged, exactly when its sizes add up to 200 |
| ExperimentFilters.RowScreen | Experiments/hierarchicalrandomnetwork_characterisation/generator_constant_total_MMlower_fullaccess_feature_sampling_190613.py:57-62 | screening one value of `M` against the `M_layer_one` axis keeps the single matching point |
| ExperimentFilters.GridScreen | Experiments/hierarchicalrandomnetwork_characterisation/generator_constant_total_MMlower_fullaccess_feature_sampling_190613.py:57-62 | screening the grid is screening it one value of `M` at a time |
| ExperimentFilters.HitsFrom | Experiments/hierarchicalrandomnetwork_characterisation/generator_constant_total_MMlower_fullaccess_feature_sampling_190613.py:57-58 | from `M = 2j+1` on, the kept points are `M = 2j+2, ..., 198` |
| ExperimentFilters.HierarchicalAxes | Experiments/hierarchicalrandomnetwork_characterisation/generator_constant_total_MMlower_fullaccess_feature_sampling_190613.py:57-62 | the converted axes are `M` in 1..200 and `M_layer_one` in 2, 4, ..., 198 |
| ExperimentFilters.LayerAxis | Experiments/hierarchicalrandomnetwork_characterisation/generator_constant_total_MMlower_fullaccess_feature_sampling_190613.py:58 | the `M_layer_one` axis alone crosses into one-entry rows |
| ExperimentFilters.HierarchicalGrid | Experiments/hierarchicalrandomnetwork_characterisation/generator_constant_total_MMlower_fullaccess_feature_sampling_190613.py:18-62 | of the 200 × 99 grid points, exactly the 99 with `M = 200 - M_layer_one` are kept, in grid order |
| BestCallbacks.TrackNaN | Experiments/cmaes_fit_experiment/generator_cmaes_distfitexpbic_mixed_Mratiosigmax_rangebis_allT_200214.py:38-49 | the stored result stays NaN, with nothing recorded, exactly while every result seen is NaN |
| BestCallbacks.TrackMinimum | Experiments/cmaes_fit_experiment/generator_cmaes_distfitexpbic_mixed_Mratiosigmax_rangebis_allT_200214.py:38-49 | once a number has been seen, the stored result is the lowest number seen, with its job |
| BestCallbacks.TrackNonIncreasing | Experiments/cmaes_fit_experiment/generator_cmaes_distfitexpbic_mixed_Mratiosigmax_rangebis_allT_200214.py:41-45 | across calls the stored number never goes up |
| BestCallbacks.BestSeen.constructor | Experiments/cmaes_fit_experiment/generator_cmaes_distfitexpbic_mixed_Mratiosigmax_rangebis_allT_200214.py:38 | `result=nan, job_name='', parameters=None` |
| BestCallbacks.BestSeen.Callback | Experiments/cmaes_fit_experiment/generator_cmaes_distfitexpbic_mixed_Mratiosigmax_rangebis_allT_200214.py:39-49 | a non-NaN result that is at or below the stored one, or replaces a NaN, replaces all three entries; otherwise nothing changes |
| BestCallbacks.FirstBestSeen.constructor | Experiments/cmaes_fit_experiment/generator_cmaes_distfitexpbic_mixed_ratiosigmax_singleT_120214.py:38 | `result=None, job_name='', parameters=None` |
| BestCallbacks.FirstBestSeen.Callback | Experiments/cmaes_fit_experiment/generator_cmaes_distfitexpbic_mixed_ratiosigmax_singleT_120214.py:39-49 | the condition as Python groups it: `None`, or (`<=` and not NaN) |
| BestCallbacks.FirstAlwaysRecorded | Experiments/cmaes_fit_experiment/generator_cmaes_distfitexpbic_mixed_ratiosigmax_singleT_120214.py:41 | the first job is always recorded, even with a NaN result |
| BestCallbacks.NaNFirstSticks | Experiments/cmaes_fit_experiment/generator_cmaes_distfitexpbic_mixed_ratiosigmax_singleT_120214.py:41 | if the first result is NaN, it stays the best for ever |
| BestCallbacks.NaNFirstCounterexample | Experiments/cmaes_fit_experiment/generator_cmaes_distfitexpbic_mixed_ratiosigmax_singleT_120214.py:41 | jobs NaN then 1.0: the callback keeps NaN |
| BestCallbacks.IntendedMatchesNaNInit | Experiments/cmaes_fit_experiment/generator_cmaes_distfitexpbic_mixed_ratiosigmax_singleT_120214.py:41 | with the intended grouping, the `None` start agrees step by step with the NaN-start tracker |
| BestCallbacks.RerunOptions | Experiments/fitexperiment_sigmabaseline_cmaes_08_2016/generator_cmaes_bays09_LL_3try_Mratiosigmaxsigmabaselinelapse_090816.py:215-231 | the rerun's option keys, in the order written |
| BestCallbacks.BestSeenRerun.constructor | Experiments/fitexperiment_sigmabaseline_cmaes_08_2016/generator_cmaes_bays09_LL_3try_Mratiosigmaxsigmabaselinelapse_090816.py:191 | nothing seen yet, no best parameters, and a deep copy of the submission infos |
| BestCallbacks.BestSeenRerun.Record | Experiments/fitexperiment_sigmabaseline_cmaes_08_2016/generator_cmaes_bays09_LL_3try_Mratiosigmaxsigmabaselinelapse_090816.py:194-199 | a new best replaces the result, the job name, the parameters and the fitted sub-dictionary together; otherwise nothing changes |
| BestCallbacks.BestSeenRerun.SubmitRerun | Experiments/fitexperiment_sigmabaseline_cmaes_08_2016/generator_cmaes_bays09_LL_3try_Mratiosigmaxsigmabaselinelapse_090816.py:232-243 | a fresh engine with label `bestparam_rerun` and a 40-hour walltime submits the best set without waiting |
| BestCallbacks.BestSeenRerun.Callback | Experiments/fitexperiment_sigmabaseline_cmaes_08_2016/generator_cmaes_bays09_LL_3try_Mratiosigmaxsigmabaselinelapse_090816.py:192-248 | as `Record`; on a new best with `submit_best`, the shared infos get the rerun options and a rerun engine submits the best set |
| SequentialFit.Wrap | fitexperiment_sequential.py:147-149 | a negative numpy index counts from the end |
| SequentialFit.Select | fitexperiment_sequential.py:147-149 | an index mask picks `xs[mask[k]]` in mask order; a `slice(0, n)` takes the first `min(n, len)` |
| SequentialFit.Pick | fitexperiment_sequential.py:156-157 | fancy indexing: entry `k` is `xs[ix[k]]` |
| SequentialFit.Range | fitexperiment_sequential.py:111-114 | `np.arange(k)` is `0..k-1` |
| SequentialFit.SelectionCount | fitexperiment_sequential.py:110-119 | a size above 1 counts `min(n, int(size))`; otherwise `floor(n*size)` |
| SequentialFit.FilterDatapoints | fitexperiment_sequential.py:92-123 | a given mask is used as is; a positive size selects sequentially or randomly; otherwise `slice(0, n)`; an unknown method raises, and the count is the mask's size |
| SequentialFit.SequentialMask | fitexperiment_sequential.py:109-114 | the sequential mask is `arange` of the count |
| SequentialFit.ComputedMaskFits | fitexperiment_sequential.py:109-121 | a computed mask is distinct and within [0, n), so it fits every data row |
| SequentialFit.Recalls | fitexperiment_sequential.py:238 | `range(1, T+1)` paired with `T` |
| SequentialFit.PairsMembers | fitexperiment_sequential.py:237-240 | the loop visits exactly the pairs `(T, trecall)` with `T` in `T_space` and `1 <= trecall <= T` |
| SequentialFit.PairsDistinct | fitexperiment_sequential.py:237-240 | no pair is visited twice when `T_space` is distinct |
| SequentialFit.SetupParametersLookup | fitexperiment_sequential.py:143-145 | `T`, `N` and `fixed_cued_feature_time = trecall - 1` are set, and nothing else changes |
| SequentialFit.SequentialFitExperiment.constructor | fitexperiment_sequential.py:42-51 | nothing is enforced (-1, -1), there is no sampler, and the caches are empty |
| SequentialFit.SequentialFitExperiment.NamesStored | fitexperiment_sequential.py:188-193 | the cached names for the enforced pair; `KeyError` when none are cached |
| SequentialFit.SequentialFitExperiment.StoreResponses | fitexperiment_sequential.py:167-176 | the current theta is cached under `name` for the enforced pair; with no sampler, `AttributeError` |
| SequentialFit.SequentialFitExperiment.RestoreResponses | fitexperiment_sequential.py:178-186 | the current sampler's theta becomes the cached one; `KeyError` or `AssertionError` for an unknown pair or name |
| SequentialFit.SequentialFitExperiment.SetupExperimentalStimuli | fitexperiment_sequential.py:126-164 | a `T` not in `T_space` fails; the same pair does nothing; a known pair is reused; a new pair is built from the masked data with the human responses cached; samplers only grow |
| SequentialFit.SequentialFitExperiment.Build | fitexperiment_sequential.py:142-161 | parameters set; sampler of the masked stimuli and responses; `human` cached; `KeyError` for missing data |
| SequentialFit.SequentialFitExperiment.BuildSampler | fitexperiment_sequential.py:147-161 | a missing pair is a `KeyError` changing nothing; otherwise the pair's sampler holds the masked stimuli and responses, is made current, and its human responses are cached |
| SequentialFit.SequentialFitExperiment.ApplyFctDataset | fitexperiment_sequential.py:210-224 | sets the pair up, then returns `fct` of the experiment as it now stands |
| SequentialFit.SequentialFitExperiment.ApplyRecalls | fitexperiment_sequential.py:238-240 | `fct` of every recall time of one `T`, in order |
| SequentialFit.SequentialFitExperiment.ApplyFctDatasetsAll | fitexperiment_sequential.py:227-248 | one result per visited pair, in loop order, each `fct` of that pair's sampler; it fails only when some pair has no data |
| SequentialFit.Create | fitexperiment_sequential.py:33-123 | the constructor with `init_filter_datapoints`: the mask and count from `FilterDatapoints`, its failure, and an empty experiment |
| TriangularArrays.TriangleCount | utils_math.py:58-59 | both triangles of an n×n array hold n(n-1)/2 positions |
| TriangularArrays.LowerIndexNumbers | utils_math.py:62 | the rank of a lower position is below the count and grows in row-major order |
| TriangularArrays.UpperIndexNumbers | utils_math.py:76 | the same for the upper triangle |
| TriangularArrays.LowerRank | utils_math.py:62 | a lower position's rank lies below the count |
| TriangularArrays.UpperRank | utils_math.py:76 | an upper position's rank lies below the count |
| TriangularArrays.UpperAt | utils_math.py:83 | the upper position of a given row-major rank |
| TriangularArrays.AssignLower | utils_math.py:62 | boolean-mask assignment: the k-th lower position gets `v[k]` (or one broadcast value); a count mismatch is `ValueError` and leaves the array unchanged; other entries never change |
| TriangularArrays.AssignUpper | utils_math.py:76 | the same on the upper triangle |
| TriangularArrays.TrilSet | utils_math.py:50-62 | `check_sizes` raises `AssertionError` before any write when the length is not the count; otherwise the masked assignment |
| TriangularArrays.TriuSet | utils_math.py:64-76 | the same on the upper triangle |
| TriangularArrays.UpperValues | utils_math.py:83 | `array[upper mask]` is the upper entries in row-major order |
| TriangularArrays.CopySource | utils_math.py:83 | the upper position whose value lower position `(i, j)` receives |
| TriangularArrays.TriuToTril | utils_math.py:78-83 | lower `(i, j)` gets the old value at `CopySource(i, j)`; the diagonal and upper triangle are unchanged; mismatched counts raise `ValueError` |
| TriangularArrays.TransposeUpToThree | utils_math.py:78-83 | up to 3×3, `CopySource(i, j) == (j, i)`: the copy is the transpose |
| TriangularArrays.NotTransposeFromFour | utils_math.py:78-83 | from 4×4 on, `(2, 1)` receives `(0, 3)` rather than `(1, 2)` |
| TriangularArrays.TriuToTrilTranspose | utils_math.py:78-81 | the intended copy: `a[i, j] = old a[j, i]` below the diagonal, so the array ends up symmetric |

## Left out

- **Processes and I/O.** The model leaves out starting processes (`qstat`, `squeue`, `qsub`, `sh`), the file system (`make_dirs`, `open_submit_file`, `add_to_submit_file`, script text), `chdir`, sleeping, logging, progress displays, printing and `np.save`. Their observable effects are the `Environment.Gateway` logs and answers.
- **Script contents.** `getEnvCommandString`, the PBS script template and the script's contents are left out. Only each script's command line is modelled.
- **Numbers.** Floating point is modelled as exact reals, and NaN is a separate value. Rounding in `np.floor(n*size)`, `n**0.5` and `x/2.` is not modelled; the filters use the exact integer square root and floor.
- **Python dict order.** Python 2 dictionaries have no set order. The model gives them insertion order, so "in order" statements hold for that order.
- **Outside computations.** `str.format` of values (`show`), the job wrapper's naming (`jobNameOf`), the `'%s%.2f'` label of a parameter set (`labelOf`), and the function applied to a fitting experiment are parameters. A function that mutates the experiment is not modelled.
- **CMA-ES internals.** The optimiser is a script of `stop`/`ask` answers. The `transform_fct` options, `tolx`, `tolfun`, `boundary_handling`, the log, its plots and the `KeyboardInterrupt` handler are left out.
- SubmitPbsEngine.SubmitPbs.PerformCmaEsOptimization: returns the `CmaSetup`, not `cma_es.result()` and `best`, which belong to the optimiser library.
- SubmitPbsEngine.SubmitPbs.TellBatch: the optimiser library's check of `tell` is modelled as a refusal of any fitness whose length is not the batch's, reported as `ValueError`. The library itself is not part of this model. Without waiting and without a callback override the source hands `tell` an empty array (submitpbs.py:911-912), so a non-empty batch ends the run there.
- SubmitPbsEngine.SubmitPbs.PerformCmaEsOptimization: the job results behind each told fitness are stated for the turn that tells it (`CmaTurn`, `Evaluate`). A later batch may re-track a job under the same name, so the link is not restated for the whole run.
- SubmitPbsEngine.SubmitPbs.GenerateCmaEs: without submission infos it fails up front (`TypeError`), as `GenerateFromDescriptor` then does.
- SubmitPbsEngine.SubmitPbs.GenerateFromDescriptor: a `cma-es` descriptor without submission infos fails up front. The source fails later, at the first minibatch's `prepare_job_parameters`, after the optimiser has been set up.
- SubmitPbsEngine.SubmitPbs.GenerateRandom: with no parameters and a filter that always rejects, the source loops for ever. The model returns `Err` instead.
- SubmitPbsEngine.SubmitPbs.GenerateSequential: returns the sets it ran, where the source returns `None`. The infinite-loop case is handled as in `GenerateRandom`. Missing submission infos are modelled (`TypeError` at the first accepted set), but the caller supplies the three `.get` defaults: `max_optimisation_iterations=100` (submitpbs.py:568), `submit_jobs=False` (submitpbs.py:871) and `wait_jobs_completed=True` (submitpbs.py:873).
- SubmitPbsEngine.SubmitPbs.WaitQueueNotFull: its postcondition holds only while the scripted world lasts, because the source may wait for ever.
- SubmitPbsEngine.SubmitPbs.CollectResults: a job without a result reads as NaN. The source fails on `None.shape` (submitpbs.py:906-907). In the model a job has no result only when the scripted environment ran out before the barrier completed it.
- ParameterSpace.ExtendShape: `utils.cross` is not part of this model. The grid order assumed is that of `itertools.product`: the first axis varies slowest.
- SubmitPbsEngine.SubmitPbs.SubmitMinibatch: a job's result is a scalar fitness. Array-shaped results (`result_shape`) are not modelled.
- SequentialFit.Create: loading the dataset (`load_dataset`) is left out. This covers the experiment-id and subject assertions, and the `subject_smallestN[subject - 1]` lookup that gives `smallestN`. The data arrive as a map from pairs to rows. The model assumes every row holds at least `smallestN` points and that a given mask fits, so the `IndexError` of a mask that does not fit is not modelled. A random selection takes its permutation as a parameter.
- SequentialFit.SequentialFitExperiment.ApplyFctDatasetsAll: the `return_array` conversion to a numpy array is left out.
- SequentialFit.SequentialFitExperiment.Build: `launchers.init_everything` is modelled by a sampler that holds the masked stimuli and responses. The network, the data generator and the `stimuli_to_use` parameter are left out.
- **Not in the core.** `get_em_fits_arrays`, `compute_dist_experimental_em_fits_currentT`, and the iteration-plot callbacks of the descriptors are not part of this model.
- BestCallbacks.BestSeenRerun.Callback: the `try`/`except` that swallows a failed rerun is not modelled, because the rerun cannot fail in the model. The callback's use of `locals()` is not modelled either.

## Findings

| source | as written | input that shows it | evidently intended | confidence | as-written member | corrected member |
|---|---|---|---|---|---|---|
| utils_math.py:78-83 | `triu_2_tril` assigns the upper entries, in row-major order, to the lower positions in row-major order | any 4×4 array: `a[2, 1]` receives `a[0, 3]` | copy the upper triangle into the lower one, which for a symmetric matrix evidently means by transposition, `a[i, j] = a[j, i]` for `i > j` | high; not executed | TriangularArrays.NotTransposeFromFour | TriangularArrays.TriuToTrilTranspose |
| Experiments/cmaes_fit_experiment/generator_cmaes_distfitexpbic_mixed_ratiosigmax_singleT_120214.py:41 | `result is None or new <= result and not isnan(new)` groups as `None or (<= and not NaN)`, so a first NaN result is stored, and no later number can beat it | jobs with results NaN, then 1.0: the best stays NaN | `(None or new <= result) and not isnan(new)`, as in the other fits, which never store NaN | medium; not executed | BestCallbacks.NaNFirstCounterexample | BestCallbacks.IntendedMatchesNaNInit |
