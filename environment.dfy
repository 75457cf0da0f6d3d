/** The outside world of the engine, as scripted answers. Every observation
    the engine makes — a queue listing, a uniform random draw, whether a job
    has finished, a job's result, a clock reading, a CMA-ES stop test or
    candidate batch — is read from a stream fixed in advance. Reading from an
    empty stream marks the stream holder `exhausted`: the run stops there, and
    every promise of the engine is made for runs whose input did not run out.
    Submissions and scripts are appended to logs. */
module Environment {
  import opened Common

  /** A draw of `np.random.rand()`: a real in [0, 1). */
  type Unit = u: real | 0.0 <= u < 1.0

  /** The job queue, the files and the clock. */
  class Gateway {
    var listings: seq<seq<string>>
    var draws: seq<Unit>
    var completions: seq<bool>
    var results: seq<Fitness>
    var clock: seq<real>
    var exhausted: bool
    /** Commands written into job scripts, in order. */
    var scripts: seq<string>
    /** Commands handed to the queue, in order. */
    var submitted: seq<string>

    function Size(): nat
      reads this
    {
      |listings| + |draws| + |completions| + |results| + |clock|
    }

    /** Decreases with every read until the input runs out, then stays 0. */
    function Measure(): nat
      reads this
    {
      if exhausted then 0 else Size() + 1
    }

    constructor (listings: seq<seq<string>>, draws: seq<Unit>, completions: seq<bool>,
                 results: seq<Fitness>, clock: seq<real>)
      ensures this.listings == listings && this.draws == draws && this.completions == completions
      ensures this.results == results && this.clock == clock
      ensures !exhausted && scripts == [] && submitted == []
    {
      this.listings, this.draws, this.completions := listings, draws, completions;
      this.results, this.clock := results, clock;
      exhausted, scripts, submitted := false, [], [];
    }

    /** The next queue listing (`qstat`/`squeue` output lines). */
    method NextListing() returns (lines: seq<string>)
      modifies this
      ensures !old(exhausted) && old(listings) != [] ==>
                lines == old(listings[0]) && listings == old(listings[1..]) && !exhausted
      ensures old(exhausted) || old(listings) == [] ==> exhausted && listings == old(listings)
      ensures draws == old(draws) && completions == old(completions) && results == old(results)
      ensures clock == old(clock) && scripts == old(scripts) && submitted == old(submitted)
      ensures Measure() < old(Measure()) || old(exhausted)
    {
      if !exhausted && listings != [] {
        lines, listings := listings[0], listings[1..];
      } else {
        lines, exhausted := [], true;
      }
    }

    /** The next `k` uniform draws in [0, 1). */
    method NextDraws(k: nat) returns (us: seq<Unit>)
      modifies this
      ensures |us| == k
      ensures !old(exhausted) && k <= |old(draws)| ==>
                us == old(draws[..k]) && draws == old(draws[k..]) && !exhausted
      ensures old(exhausted) || k > |old(draws)| ==> exhausted && draws == old(draws)
      ensures listings == old(listings) && completions == old(completions) && results == old(results)
      ensures clock == old(clock) && scripts == old(scripts) && submitted == old(submitted)
      ensures k > 0 ==> Measure() < old(Measure()) || old(exhausted)
      ensures Measure() <= old(Measure())
    {
      if !exhausted && k <= |draws| {
        us, draws := draws[..k], draws[k..];
      } else {
        us, exhausted := seq(k, _ => 0.0), true;
      }
    }

    /** The next answer of `check_completed`. */
    method NextCompleted() returns (done: bool)
      modifies this
      ensures !old(exhausted) && old(completions) != [] ==>
                done == old(completions[0]) && completions == old(completions[1..]) && !exhausted
      ensures old(exhausted) || old(completions) == [] ==> exhausted && !done && completions == old(completions)
      ensures listings == old(listings) && draws == old(draws) && results == old(results)
      ensures clock == old(clock) && scripts == old(scripts) && submitted == old(submitted)
      ensures Measure() < old(Measure()) || old(exhausted)
    {
      if !exhausted && completions != [] {
        done, completions := completions[0], completions[1..];
      } else {
        done, exhausted := false, true;
      }
    }

    /** The next answer of `get_result`. */
    method NextResult() returns (f: Fitness)
      modifies this
      ensures !old(exhausted) && old(results) != [] ==>
                f == old(results[0]) && results == old(results[1..]) && !exhausted
      ensures old(exhausted) || old(results) == [] ==> exhausted && results == old(results)
      ensures listings == old(listings) && draws == old(draws) && completions == old(completions)
      ensures clock == old(clock) && scripts == old(scripts) && submitted == old(submitted)
      ensures Measure() < old(Measure()) || old(exhausted)
    {
      if !exhausted && results != [] {
        f, results := results[0], results[1..];
      } else {
        f, exhausted := NaN, true;
      }
    }

    /** The next reading of `time.time()`. */
    method NextClock() returns (t: real)
      modifies this
      ensures !old(exhausted) && old(clock) != [] ==>
                t == old(clock[0]) && clock == old(clock[1..]) && !exhausted
      ensures old(exhausted) || old(clock) == [] ==> exhausted && clock == old(clock)
      ensures listings == old(listings) && draws == old(draws) && completions == old(completions)
      ensures results == old(results) && scripts == old(scripts) && submitted == old(submitted)
      ensures Measure() < old(Measure()) || old(exhausted)
    {
      if !exhausted && clock != [] {
        t, clock := clock[0], clock[1..];
      } else {
        t, exhausted := 0.0, true;
      }
    }

    /** `make_script`: a script running `command` is written. */
    method WriteScript(command: string)
      modifies this`scripts
      ensures scripts == old(scripts) + [command]
    {
      scripts := scripts + [command];
    }

    /** The script of `command` is handed to the queue. */
    method Submit(command: string)
      modifies this`submitted
      ensures submitted == old(submitted) + [command]
    {
      submitted := submitted + [command];
    }
  }

  /** The CMA-ES optimiser as seen by the engine: `stop()`, `ask()`,
      `ask(1)[0]` and `tell()`. Candidates have `dim` coordinates. */
  class Optimizer {
    const dim: nat
    var stops: seq<bool>
    var batches: seq<seq<seq<real>>>
    var singles: seq<seq<real>>
    var exhausted: bool
    /** Every `tell`, in order: the candidates and the fitness told. */
    var told: seq<(seq<seq<real>>, seq<Fitness>)>

    ghost predicate Valid()
      reads this
    {
      (forall b :: b in batches ==> forall v :: v in b ==> |v| == dim) &&
      (forall v :: v in singles ==> |v| == dim)
    }

    function Measure(): nat
      reads this
    {
      if exhausted then 0 else |stops| + |batches| + |singles| + 1
    }

    constructor (dim: nat, stops: seq<bool>, batches: seq<seq<seq<real>>>, singles: seq<seq<real>>)
      requires forall b :: b in batches ==> forall v :: v in b ==> |v| == dim
      requires forall v :: v in singles ==> |v| == dim
      ensures Valid() && this.dim == dim
      ensures this.stops == stops && this.batches == batches && this.singles == singles
      ensures !exhausted && told == []
    {
      this.dim, this.stops, this.batches, this.singles := dim, stops, batches, singles;
      exhausted, told := false, [];
    }

    /** `stop()`: an exhausted script stops the optimisation. */
    method Stop() returns (stop: bool)
      requires Valid()
      modifies this
      ensures Valid() && batches == old(batches) && singles == old(singles) && told == old(told)
      ensures !old(exhausted) && old(stops) != [] ==> stop == old(stops[0]) && stops == old(stops[1..]) && !exhausted
      ensures old(exhausted) || old(stops) == [] ==> stop && exhausted
      ensures Measure() < old(Measure()) || old(exhausted)
    {
      if !exhausted && stops != [] {
        stop, stops := stops[0], stops[1..];
      } else {
        stop, exhausted := true, true;
      }
    }

    /** `ask()`: a batch of candidates. */
    method Ask() returns (cands: seq<seq<real>>)
      requires Valid()
      modifies this
      ensures Valid() && stops == old(stops) && singles == old(singles) && told == old(told)
      ensures forall v :: v in cands ==> |v| == dim
      ensures !old(exhausted) && old(batches) != [] ==> cands == old(batches[0]) && batches == old(batches[1..]) && !exhausted
      ensures old(exhausted) || old(batches) == [] ==> cands == [] && exhausted
      ensures Measure() < old(Measure()) || old(exhausted)
    {
      if !exhausted && batches != [] {
        assert batches[0] in batches;
        assert forall b :: b in batches[1..] ==> b in batches;
        cands, batches := batches[0], batches[1..];
      } else {
        cands, exhausted := [], true;
      }
    }

    /** `ask(1)[0]`: one fresh candidate. */
    method AskOne() returns (v: seq<real>)
      requires Valid()
      modifies this
      ensures Valid() && stops == old(stops) && batches == old(batches) && told == old(told)
      ensures |v| == dim
      ensures !old(exhausted) && old(singles) != [] ==> v == old(singles[0]) && singles == old(singles[1..]) && !exhausted
      ensures old(exhausted) || old(singles) == [] ==> exhausted
      ensures Measure() < old(Measure()) || old(exhausted)
    {
      if !exhausted && singles != [] {
        assert singles[0] in singles;
        assert forall w :: w in singles[1..] ==> w in singles;
        v, singles := singles[0], singles[1..];
      } else {
        v, exhausted := seq(dim, _ => 0.0), true;
      }
    }

    /** `tell(candidates, fitness)`. */
    method Tell(cands: seq<seq<real>>, fitness: seq<Fitness>)
      modifies this`told
      ensures told == old(told) + [(cands, fitness)]
    {
      told := told + [(cands, fitness)];
    }
  }
}
