/** The queue throttle's pure parts: which queue lines count as this
    submitter's jobs, when a submission must first wait for the queue to
    drain, and the automatic choice of a quality-of-service tier from the
    walltime. The loop that polls the queue lives in `SubmitPbsEngine`. */
module QueueStatus {
  import opened Common

  /** The job name to look for in the queue listing: PBS (`qsub`) shows at
      most 16 characters of it, SLURM (`sbatch`) all of it; with any other
      submit command there is no queue to ask (`None`). */
  function QueueJobName(submitCmd: string, submitLabel: string): (r: Option<string>)
    ensures r.Some? <==> submitCmd == "qsub" || submitCmd == "sbatch"
    ensures r.Some? ==> r.value <= submitLabel && |r.value| <= |submitLabel|
    ensures submitCmd == "qsub" ==> |r.value| == if |submitLabel| < 16 then |submitLabel| else 16
    ensures submitCmd == "sbatch" ==> r.value == submitLabel
  {
    if submitCmd == "qsub" then Some(submitLabel[..if |submitLabel| < 16 then |submitLabel| else 16])
    else if submitCmd == "sbatch" then Some(submitLabel)
    else None
  }

  /** A queue line is one of ours when it mentions the user and the job
      name, and also the partition when one is set. */
  predicate Ours(line: string, username: string, jobname: string, partition: string)
  {
    Contains(line, username) && Contains(line, jobname)
    && (partition != "" ==> Contains(line, partition))
  }

  /** The list comprehension over the queue listing: our lines, in order.
      The number of queued jobs is its length. */
  function QueuedLines(lines: seq<string>, username: string, jobname: string, partition: string): (r: seq<string>)
    ensures |r| <= |lines|
    ensures forall x :: x in r ==> x in lines && Ours(x, username, jobname, partition)
    ensures forall i :: 0 <= i < |lines| && Ours(lines[i], username, jobname, partition) ==> lines[i] in r
  {
    if lines == [] then []
    else
      var tail := QueuedLines(lines[1..], username, jobname, partition);
      assert forall i :: 1 <= i < |lines| ==> lines[i] == lines[1..][i - 1];
      if Ours(lines[0], username, jobname, partition) then [lines[0]] + tail else tail
  }

  /** Every line of the listing is counted exactly when all of them are ours. */
  lemma {:induction false} CountAll(lines: seq<string>, username: string, jobname: string, partition: string)
    ensures |QueuedLines(lines, username, jobname, partition)| == |lines|
            <==> forall i :: 0 <= i < |lines| ==> Ours(lines[i], username, jobname, partition)
  {
    if lines != [] {
      var tail := lines[1..];
      CountAll(tail, username, jobname, partition);
      if forall i :: 0 <= i < |lines| ==> Ours(lines[i], username, jobname, partition) {
        forall i | 0 <= i < |tail| ensures Ours(tail[i], username, jobname, partition) {
          assert tail[i] == lines[i + 1];
        }
      }
      if forall i :: 0 <= i < |tail| ==> Ours(tail[i], username, jobname, partition) {
        if Ours(lines[0], username, jobname, partition) {
          forall i | 0 <= i < |lines| ensures Ours(lines[i], username, jobname, partition) {
            if i > 0 {
              assert lines[i] == tail[i - 1];
            }
          }
        }
      }
    }
  }

  /** Naming a partition can only lower the count. */
  lemma {:induction false} PartitionNarrows(lines: seq<string>, username: string, jobname: string, partition: string)
    ensures |QueuedLines(lines, username, jobname, partition)| <= |QueuedLines(lines, username, jobname, "")|
  {
    if lines != [] {
      PartitionNarrows(lines[1..], username, jobname, partition);
    }
  }

  /** A listing read in two parts counts as the sum of the parts. */
  lemma {:induction false} CountAppend(a: seq<string>, b: seq<string>, username: string, jobname: string, partition: string)
    ensures QueuedLines(a + b, username, jobname, partition)
            == QueuedLines(a, username, jobname, partition) + QueuedLines(b, username, jobname, partition)
  {
    if a == [] {
      assert a + b == b;
    } else {
      assert (a + b)[1..] == a[1..] + b;
      CountAppend(a[1..], b, username, jobname, partition);
    }
  }

  /** `submit_job`'s throttle test: with a positive limit, wait only once the
      queue holds more than three quarters of it (Python 2 integer division). */
  predicate ShouldWait(limit: int, queued: int)
  {
    limit > 0 && queued > (3 * limit) / 4
  }

  /** When a positive limit does not make the submission wait, the queue is
      below the limit, so the submission cannot overfill it; and a queue at or
      above the limit always waits. */
  lemma ThrottleSafe(limit: int, queued: int)
    requires limit > 0
    ensures !ShouldWait(limit, queued) ==> queued < limit
    ensures queued >= limit ==> ShouldWait(limit, queued)
  {
  }

  /** The quality-of-service tiers and the longest walltime, in seconds,
      each accepts; `long` has no bound. */
  function QosLimit(tier: string): Option<int>
  {
    if tier == "short" then Some(3600)
    else if tier == "normal" then Some(24 * 3600)
    else if tier == "medium" then Some(72 * 3600)
    else None
  }

  const Tiers: seq<string> := ["short", "normal", "medium", "long"]

  /** `qos == 'auto'`: the first tier whose bound admits the walltime. */
  function AutoQos(walltimeSeconds: int): (r: string)
    ensures r in Tiers
    ensures QosLimit(r).Some? ==> walltimeSeconds <= QosLimit(r).value
    ensures forall k :: 0 <= k < |Tiers| && Tiers[k] == r ==>
              forall j :: 0 <= j < k ==> walltimeSeconds > QosLimit(Tiers[j]).value
  {
    if walltimeSeconds <= 1 * 3600 then "short"
    else if walltimeSeconds <= 24 * 3600 then "normal"
    else if walltimeSeconds <= 72 * 3600 then "medium"
    else "long"
  }

  /** The tier in the submission information: computed only when it says
      `auto`, kept as given otherwise. */
  function ResolveQos(qos: string, walltimeSeconds: int): (r: string)
    ensures qos == "auto" ==> r in Tiers
    ensures qos != "auto" ==> r == qos
  {
    if qos == "auto" then AutoQos(walltimeSeconds) else qos
  }

  function TierRank(tier: string): nat
  {
    if tier == "short" then 0 else if tier == "normal" then 1 else if tier == "medium" then 2 else 3
  }

  /** A longer walltime never gets a shorter tier. */
  lemma AutoQosMonotone(w1: int, w2: int)
    requires w1 <= w2
    ensures TierRank(AutoQos(w1)) <= TierRank(AutoQos(w2))
  {
  }
}
