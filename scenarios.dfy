/**
 * Whole lifecycles driven through the front end and the worker, from an
 * empty store: what a caller can conclude from the operations' contracts
 * alone.
 */
module Scenarios {
  import opened Wrappers
  import opened Js
  import opened Jobs
  import opened Db
  import opened QueueCtl
  import opened Worker

  /** A payload with only an id, a command and possibly a retry limit. */
  function SimplePayload(id: string, command: string, maxRetries: Field<int>): Payload
  {
    Payload(Given(id), Given(command), Absent, Absent, maxRetries, Absent, Absent)
  }

  /**
   * One worker pass over a table that holds only `job`, pending: the claim
   * must take it, and the callback records the command's outcome.
   */
  method RunSoleJob(db: Database, job: Row, succeeded: bool, now: int) returns (retry: Option<Retry>)
    requires db.Valid() && db.jobs == map[job.id := job] && job.state == Pending
    modifies db
    ensures db.Valid() && db.config == old(db.config)
    ensures var v := Decide(job.attempts, job.maxRetries, succeeded, db.config);
            && db.jobs == map[job.id := job.(state := v.state, attempts := v.attempts, updatedAt := now)]
            && retry == (if v.retryDelay.Some? then Some(Retry(job.id, v.attempts, v.retryDelay.value)) else None)
  {
    assert job.id in db.jobs && db.jobs[job.id].state == Pending;
    var claimed := ClaimNext(db, now);
    assert claimed == Some(job);
    retry := FinishExecution(db, job, succeeded, now);
  }

  /** `enqueue {"id":"j1","command":"echo hi"}`, then one worker pass whose command succeeds. */
  method EnqueueThenSucceed(now: int) returns (enqueued: Row, finished: Row)
    ensures enqueued == Row("j1", "echo hi", Pending, 0, DefaultMaxRetries, now, now)
    ensures finished.state == Completed && finished.attempts == 1 && finished.updatedAt == now + 2
  {
    var db := new Database();
    MinimalPayload(db.jobs, "j1", "echo hi", now);
    var r := Enqueue(db, SimplePayload("j1", "echo hi", Absent), now);
    enqueued := r.value;
    var retry := RunSoleJob(db, enqueued, true, now + 2);
    finished := db.jobs["j1"];
  }

  /**
   * A job with `max_retries` 1 survives its first failure (1 is not above
   * 1), is retried, and dies on the second; the corrected `dlq retry` then revives it.
   */
  method FailTwiceThenRevive(now: int) returns (afterFirst: Row, afterSecond: Row, revived: Row)
    ensures afterFirst.state == Failed && afterFirst.attempts == 1
    ensures afterSecond.state == Dead && afterSecond.attempts == 2
    ensures revived.state == Pending && revived.attempts == 0 && revived.maxRetries == 1
  {
    var db := new Database();
    var job := Row("j1", "false", Pending, 0, 1, now, now);
    PayloadWithLimit(db.jobs, db.config, "j1", "false", 1, now);
    var r := Enqueue(db, SimplePayload("j1", "false", Given(1)), now);

    var retry := RunSoleJob(db, job, false, now);
    afterFirst := db.jobs["j1"];

    FireRetryTimer(db, retry.value.id, retry.value.attempts, now + 2);
    var again := job.(attempts := 1, updatedAt := now + 2);
    assert db.jobs == map["j1" := again];
    retry := RunSoleJob(db, again, false, now + 3);
    afterSecond := db.jobs["j1"];

    var ok := DlqRetry(db, "j1", now + 4);
    revived := db.jobs["j1"];
  }

  /** A new store where `backoff_base` is set to 3 and a job `j1` with limit 5 is enqueued. */
  method StoreWithBaseThree(now: int) returns (db: Database, job: Row)
    ensures fresh(db) && db.Valid() && db.jobs == map["j1" := job]
    ensures job == Row("j1", "false", Pending, 0, 5, now, now)
    ensures GetConfig(db.config, BackoffBaseKey, DefaultBackoffBase) == Int(3)
  {
    db := new Database();
    ConfigSet(db, BackoffBaseKey, "3");
    assert IntToDecimal(3) == "3";
    GetConfigReadsBackNumber(db.config, BackoffBaseKey, DefaultBackoffBase, 3);
    job := Row("j1", "false", Pending, 0, 5, now, now);
    PayloadWithLimit(db.jobs, db.config, "j1", "false", 5, now);
    var r := Enqueue(db, SimplePayload("j1", "false", Given(5)), now);
  }

  /** With `backoff_base` set to 3, the first two failures wait 3 and then 9 seconds. */
  method BackoffWithBaseThree(now: int) returns (first: Retry, second: Retry)
    ensures first == Retry("j1", 1, Int(3))
    ensures second == Retry("j1", 2, Int(9))
  {
    var db, job := StoreWithBaseThree(now);
    var retry := RunSoleJob(db, job, false, now);
    first := retry.value;

    FireRetryTimer(db, "j1", 1, now + 3);
    var again := job.(attempts := 1, updatedAt := now + 3);
    assert db.jobs == map["j1" := again];
    retry := RunSoleJob(db, again, false, now + 3);
    second := retry.value;
    assert Pow(3, 2) == 9;
  }
}
