/**
 * The worker of worker.js: one iteration of `workerLoop` claims a pending
 * job; the command's completion callback records the outcome; for a failure
 * with retries left, a timer later puts the job back to pending. The command
 * outcome, the timer and the clock are inputs here: the caller runs
 * `FinishExecution` when the command ends and `FireRetryTimer` when the timer
 * goes off.
 */
module Worker {
  import opened Wrappers
  import opened Js
  import opened Jobs
  import opened Db

  /** The configuration key for the base of the exponential backoff, and its default. */
  const BackoffBaseKey: string := "backoff_base"
  const DefaultBackoffBase: int := 2

  /**
   * `getConfig(key, defaultValue)`: the default when the key was never set,
   * otherwise `parseInt` of the stored text with no radix (so a `0x` prefix
   * reads as hexadecimal, and text without digits gives NaN).
   */
  function GetConfig(config: map<string, string>, key: string, default: int): (r: Number)
    ensures key !in config ==> r == Int(default)
    ensures key in config ==> r == ParseInt(config[key], Unspecified)
  {
    if key in config then ParseInt(config[key], Unspecified) else Int(default)
  }

  /** A number stored with `config set` is the number `getConfig` reads back. */
  lemma GetConfigReadsBackNumber(config: map<string, string>, key: string, default: int, n: int)
    requires key in config && config[key] == IntToDecimal(n)
    ensures GetConfig(config, key, default) == Int(n)
  {
    ParseIntRoundTrip(n, Unspecified);
  }

  /** `b` raised to the power `e`. */
  function Pow(b: int, e: nat): int
  {
    if e == 0 then 1 else b * Pow(b, e - 1)
  }

  lemma {:induction false} PowAtLeastOne(b: int, e: nat)
    requires b >= 1
    ensures Pow(b, e) >= 1
  {
    if e > 0 {
      PowAtLeastOne(b, e - 1);
    }
  }

  lemma {:induction false} PowStrictlyIncreasing(b: int, e1: nat, e2: nat)
    requires b >= 2 && e1 < e2
    ensures Pow(b, e1) < Pow(b, e2)
  {
    PowAtLeastOne(b, e2 - 1);
    if e1 < e2 - 1 {
      PowStrictlyIncreasing(b, e1, e2 - 1);
    }
  }

  /** `Math.pow(base, attempts)`: the retry delay in seconds. */
  function BackoffDelay(base: Number, attempts: nat): (d: Number)
    ensures base.Int? ==> d == Int(Pow(base.n, attempts))
    ensures base.NaN? ==> d == (if attempts == 0 then Int(1) else NaN)
  {
    match base
    case Int(b) => Int(Pow(b, attempts))
    case NaN => if attempts == 0 then Int(1) else NaN
  }

  /** With the default base the delays after the first, second and third failure are 2, 4 and 8 seconds. */
  lemma DefaultBackoffDelays()
    ensures BackoffDelay(Int(DefaultBackoffBase), 1) == Int(2)
    ensures BackoffDelay(Int(DefaultBackoffBase), 2) == Int(4)
    ensures BackoffDelay(Int(DefaultBackoffBase), 3) == Int(8)
  {
  }

  /** For a base of at least 2, each further failure waits strictly longer. */
  lemma BackoffGrows(base: int, a1: nat, a2: nat)
    requires base >= 2 && a1 < a2
    ensures BackoffDelay(Int(base), a1).n < BackoffDelay(Int(base), a2).n
  {
    PowStrictlyIncreasing(base, a1, a2);
  }

  /** What the completion callback writes: the new state and attempts, and the retry delay when it arms a timer. */
  datatype Verdict = Verdict(state: string, attempts: nat, retryDelay: Option<Number>)

  /**
   * The callback's decision for a job claimed with `attempts` and
   * `maxRetries`: attempts go up by one; success completes the job; a
   * failure that brings attempts above the limit kills it; any other failure
   * marks it failed and arms a retry after `backoff_base ^ attempts` seconds.
   */
  function Decide(attempts: nat, maxRetries: int, succeeded: bool, config: map<string, string>): (v: Verdict)
    ensures v.attempts == attempts + 1
    ensures v.state in States
    ensures v.state == Completed <==> succeeded
    ensures v.state == Dead <==> !succeeded && attempts + 1 > maxRetries
    ensures v.state == Failed <==> !succeeded && attempts + 1 <= maxRetries
    ensures v.retryDelay.Some? <==> v.state == Failed
    ensures v.retryDelay.Some? ==>
              v.retryDelay.value == BackoffDelay(GetConfig(config, BackoffBaseKey, DefaultBackoffBase), attempts + 1)
  {
    var next := attempts + 1;
    if succeeded then Verdict(Completed, next, None)
    else if next > maxRetries then Verdict(Dead, next, None)
    else Verdict(Failed, next, Some(BackoffDelay(GetConfig(config, BackoffBaseKey, DefaultBackoffBase), next)))
  }

  /**
   * The states that consecutive failing executions leave behind, starting
   * from a job with `attempts`, each retry timer having fired in between,
   * up to the execution that moves the job to the dead-letter queue.
   */
  function FailureTrace(attempts: nat, maxRetries: int, config: map<string, string>): seq<string>
    decreases if attempts <= maxRetries then maxRetries - attempts + 1 else 0
  {
    var v := Decide(attempts, maxRetries, false, config);
    if v.state == Dead then [Dead] else [v.state] + FailureTrace(v.attempts, maxRetries, config)
  }

  /**
   * A job that keeps failing is executed `maxRetries - attempts + 1` times
   * (once when it is already at its limit): every execution but the last
   * leaves it failed, the last leaves it dead.
   */
  lemma {:induction false} FailureTraceShape(attempts: nat, maxRetries: int, config: map<string, string>)
    ensures var t := FailureTrace(attempts, maxRetries, config);
            && |t| == (if attempts <= maxRetries then maxRetries - attempts + 1 else 1)
            && t[|t| - 1] == Dead
            && forall i :: 0 <= i < |t| - 1 ==> t[i] == Failed
    decreases if attempts <= maxRetries then maxRetries - attempts + 1 else 0
  {
    var v := Decide(attempts, maxRetries, false, config);
    if v.state != Dead {
      FailureTraceShape(v.attempts, maxRetries, config);
    }
  }

  /** A fresh job with limit `maxRetries >= 0` dies on its `maxRetries + 1`-th failing execution. */
  lemma DiesOnFailureMaxRetriesPlusOne(maxRetries: nat, config: map<string, string>)
    ensures |FailureTrace(0, maxRetries, config)| == maxRetries + 1
  {
    FailureTraceShape(0, maxRetries, config);
  }

  /** A retry armed by the completion callback: which job, the attempts it writes back, and the delay in seconds. */
  datatype Retry = Retry(id: string, attempts: nat, delay: Number)

  /**
   * One iteration of `workerLoop` up to starting the command: select some
   * pending row (any one: there is no ordering) and mark it processing.
   * With no pending row nothing changes and the loop sleeps. Returns the row
   * as it was selected, which the completion callback works from.
   */
  method ClaimNext(db: Database, now: int) returns (claimed: Option<Row>)
    requires db.Valid()
    modifies db
    ensures db.Valid() && db.config == old(db.config)
    ensures claimed.None? <==> !HasPending(old(db.jobs))
    ensures claimed.None? ==> db.jobs == old(db.jobs)
    ensures claimed.Some? ==>
              && claimed.value.id in old(db.jobs)
              && old(db.jobs)[claimed.value.id] == claimed.value
              && claimed.value.state == Pending
              && db.jobs == old(db.jobs)[claimed.value.id := claimed.value.(state := Processing, updatedAt := now)]
    ensures SameIdentity(old(db.jobs), db.jobs)
    ensures KnownStates(old(db.jobs)) ==> KnownStates(db.jobs)
  {
    if !HasPending(db.jobs) {
      return None;
    }
    var id :| id in db.jobs && db.jobs[id].state == Pending;
    var job := db.jobs[id];
    db.jobs := db.jobs[id := job.(state := Processing, updatedAt := now)];
    claimed := Some(job);
  }

  /**
   * The completion callback of the command started for `job` (the row as
   * claimed): write the decided state and `attempts + 1` to that row, and
   * return the retry timer it arms, if any.
   */
  method FinishExecution(db: Database, job: Row, succeeded: bool, now: int) returns (retry: Option<Retry>)
    requires db.Valid()
    modifies db
    ensures db.Valid() && db.config == old(db.config)
    ensures var v := Decide(job.attempts, job.maxRetries, succeeded, old(db.config));
            db.jobs == if job.id in old(db.jobs)
                       then old(db.jobs)[job.id := old(db.jobs)[job.id].(state := v.state, attempts := v.attempts, updatedAt := now)]
                       else old(db.jobs)
    ensures job.id in old(db.jobs) ==> db.jobs[job.id].attempts == job.attempts + 1
    ensures job.id in old(db.jobs) ==>
              db.jobs[job.id].state == if succeeded then Completed
                                       else if job.attempts + 1 > job.maxRetries then Dead
                                       else Failed
    ensures retry.Some? <==> !succeeded && job.attempts + 1 <= job.maxRetries
    ensures retry.Some? ==>
              retry.value == Retry(job.id, job.attempts + 1,
                                   BackoffDelay(GetConfig(old(db.config), BackoffBaseKey, DefaultBackoffBase), job.attempts + 1))
    ensures SameIdentity(old(db.jobs), db.jobs)
    ensures KnownStates(old(db.jobs)) ==> KnownStates(db.jobs)
  {
    var v := Decide(job.attempts, job.maxRetries, succeeded, db.config);
    retry := None;
    if v.retryDelay.Some? {
      retry := Some(Retry(job.id, v.attempts, v.retryDelay.value));
    }
    if job.id in db.jobs {
      db.jobs := db.jobs[job.id := db.jobs[job.id].(state := v.state, attempts := v.attempts, updatedAt := now)];
    }
  }

  /** The retry timer for job `id` goes off: the row is put back to pending with the attempts the callback counted. */
  method FireRetryTimer(db: Database, id: string, attempts: nat, now: int)
    requires db.Valid()
    modifies db
    ensures db.Valid() && db.config == old(db.config)
    ensures db.jobs == if id in old(db.jobs)
                       then old(db.jobs)[id := old(db.jobs)[id].(state := Pending, attempts := attempts, updatedAt := now)]
                       else old(db.jobs)
    ensures SameIdentity(old(db.jobs), db.jobs)
    ensures KnownStates(old(db.jobs)) ==> KnownStates(db.jobs)
  {
    if id in db.jobs {
      db.jobs := db.jobs[id := db.jobs[id].(state := Pending, attempts := attempts, updatedAt := now)];
    }
  }
}
