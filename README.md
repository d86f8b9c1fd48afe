# queuectl job table and lifecycle, in Dafny

queuectl is a job queue backed by SQLite. Clients enqueue shell-command jobs from the
command line. Workers pick up pending jobs and run them. Failures are retried with
exponential backoff. Jobs that run out of retries go to a dead-letter queue (DLQ), from which
`dlq retry` is meant to bring them back (as written it cannot; see Findings).

This project models the job table and the lifecycle transitions applied to it:

- `Db.Database` is a class holding the two tables of db.js. `jobs` maps a job id to its row,
  and `config` maps a key to its text value. Both are primary keys, so a map captures their
  uniqueness.
- `Jobs.NewJob` is the `Job` constructor of job.js. JavaScript default parameters replace only
  *missing* properties. A `null` is passed through and later violates a NOT NULL column.
- `QueueCtl` holds the front-end commands: `enqueue`, `list`, `status`, `dlq list`,
  `dlq retry`, `config set` and `config get`. Each is modelled as what it does to the tables,
  and errors are result values.
- `Worker` covers one iteration of `workerLoop` (`ClaimNext`), the command's completion
  callback (`FinishExecution`, with the command's outcome as a boolean), and the delayed reset
  to pending (`FireRetryTimer`). The caller invokes the callback and the timer explicitly.
  `Decide` is the callback's pure decision.
- `Js` holds what the code borrows from JavaScript: properties that are missing or `null`,
  string truthiness, and `parseInt`. Enqueue calls `parseInt` with radix 10. `getConfig` calls
  it with no radix, so a `0x` prefix means hexadecimal there.
- `Scenarios` runs whole lifecycles from an empty store. It uses only the operations' contracts.

Time is an integer `now` supplied by the caller. Job states are stored as text, because
`enqueue` passes a payload's `state` through unchecked. The five states the code uses are
constants.

## Behaviour a reader might not expect

The model follows the code in each of these cases:

- A failed execution kills the job when `attempts + 1 > max_retries` (worker.js:38), not
  `>=`. With `max_retries = 1`, the first failure leaves the job `failed` and the second
  kills it (`Scenarios.FailTwiceThenRevive`).
- `failed` is written to the table (worker.js:53-55). It becomes `pending` only when the retry
  timer fires (worker.js:46-50).
- A claim takes any pending row: `LIMIT 1` with no ordering and no eligibility time. The claim
  is an unconditional update, not a compare-and-swap.
- The table has no `available_at` column, so there is no backoff gate. The delay exists only
  as the timer's delay.
- A payload with `"max_retries": null` does not fall back to 3. Unless the configuration
  supplies a limit, `enqueue` fails on the NOT NULL constraint.
- A payload may set `state` and `attempts` itself. A row whose state is not one of the five is
  never claimed and is not counted by `status`.

## Model

| member | source | states |
|---|---|---|
| `Js.ParseInt` | worker.js:6 | `parseInt` gives NaN exactly when no digits follow the white space, the sign and, without a radix, a `0x`/`0X` prefix. A negative result needs a `-` sign. |
| `Js.ParseIntRoundTrip` | queuectl.js:36 | A number stored as its decimal text (`Js.IntToDecimal`, the string SQLite hands back for an integer) parses back to itself, with radix 10 or with no radix. |
| `Js.HexWithoutRadix` | worker.js:6 | Without a radix, `"0x10"` reads as 16. With radix 10 (as at queuectl.js:36) it reads as 0. |
| `Js.TrailingText` | queuectl.js:36 | Leading white space is skipped, the sign is kept and text after the digits is ignored: `" -7 tries"` gives -7. |
| `Js.NoDigits` | queuectl.js:36-37 | Two texts with no digit to read give NaN: `"abc"` with radix 10, and the empty text with no radix. |
| `Jobs.OrDefault` | job.js:5-7 | A destructuring default replaces a missing property and keeps any other value, `null` included. |
| `Jobs.NewJob` | job.js:2-17 | `id` and `command` are copied exactly. Missing `state`, `attempts` and `max_retries` become `pending`, 0 and 3, and given ones are kept. Each timestamp is the supplied one, otherwise `now` (the `new Date()` fallback, modelled by `Jobs.OrNow`). |
| `Db.Database.constructor` | db.js:7-20 | A new database has both tables empty, and every row is keyed by its own id. |
| `Db.UnknownColumn` | db.js:7-15 | Finds the first assigned column that the `jobs` table lacks: the named column is at some position `k`, and every column before `k` exists. It returns None exactly when all assigned columns exist. |
| `Db.ToRow` | db.js:10-12 | A job becomes a row exactly when `state`, `attempts` and `max_retries` are non-null, with every field carried over. Otherwise the error names the first null column in table order: `state` exactly when state is null, `attempts` exactly when state is set and attempts is null, `max_retries` exactly when both are set and the limit is null. |
| `Db.InState` | queuectl.js:81-83 | Contains exactly the rows whose state is the given one, unchanged. |
| `Db.CountAllIsCardinality` | queuectl.js:100-105 | Adding the per-state counts over distinct states counts each row in one of those states exactly once. |
| `Db.StatusCountsEveryRow` | queuectl.js:98-105 | When every row is in one of the five states, the five counts add up to the number of rows. |
| `Db.CountAllFiveStates` | queuectl.js:98 | The sum over the five states, term by term. |
| `QueueCtl.ConfigLookup` | queuectl.js:31-33 | Returns the stored text exactly when the key has a row. |
| `QueueCtl.ConfiguredMaxRetries` | queuectl.js:35-37 | The configured limit exists exactly when `max_retries` is stored, non-empty and parses with radix 10. Empty or non-numeric text is ignored. |
| `QueueCtl.ResolveMaxRetries` | queuectl.js:34-39 | A given `max_retries` is kept. A missing or null one takes the configured limit when there is one, and otherwise stays as it was. |
| `QueueCtl.Admit` | queuectl.js:19-61 | Rejected as invalid exactly when `id` or `command` is missing, null or empty (not truthy, `Js.Truthy`). Admitted exactly when both are truthy, `state` and `attempts` are not null, a null `max_retries` has a configured limit to fall back on, and the id is not in the table. An existing id is never admitted. An admitted row carries the payload's id and command, its state (default pending), attempts (default 0) and timestamps (default `now`). |
| `QueueCtl.AdmittedMaxRetries` | queuectl.js:34-41 | An admitted job's limit is the payload's value, else the configured limit, else 3. |
| `QueueCtl.NullMaxRetriesWithoutConfig` | queuectl.js:34-56 | A null `max_retries` with no usable configured limit makes enqueue fail on the NOT NULL `max_retries` column. |
| `QueueCtl.ConfiguredLimitApplies` | queuectl.js:31-41 | After `config set max_retries <n>`, a job enqueued without its own limit gets `n`. |
| `QueueCtl.MinimalPayload` | queuectl.js:19-56 | `{"id","command"}` alone, with a fresh id and no configuration, becomes a pending row with 0 attempts, limit 3 and both timestamps `now`. |
| `QueueCtl.PayloadWithLimit` | queuectl.js:34 | A payload with a fresh id, a command and its own `max_retries` becomes a pending row with 0 attempts and that limit, whatever the configuration says. |
| `QueueCtl.Enqueue` | queuectl.js:19-62 | Inserts exactly the admitted row under its id. On any error the table is unchanged. The config table is never touched. |
| `QueueCtl.List` | queuectl.js:79-85 | Returns exactly the rows in the requested state. With no filter or an empty one (falsy), it returns every row. |
| `QueueCtl.Status` | queuectl.js:97-108 | For each of the five states, the count (`Db.CountInState`) is exactly the number of rows in that state, and `workers` is 0. If every row is in a known state, the five counts sum to the table size. |
| `QueueCtl.DlqList` | queuectl.js:160-167 | Returns exactly the rows in state `dead`. |
| `QueueCtl.DlqRetryAsWritten` | queuectl.js:180-189 | As written: an id that is absent or not dead is refused as not in the DLQ. |
| `QueueCtl.DlqRetryAsWrittenNeverRevives` | queuectl.js:187-189 | As written, every dead job is refused, because the UPDATE names `available_at` and the table has no such column. |
| `QueueCtl.Revived` | queuectl.js:187-189 | A revived row is pending with 0 attempts and `updated_at = now`. Its id, command, limit and creation time are unchanged. |
| `QueueCtl.DlqRetryIntendedPrepares` | queuectl.js:187-189 | Without `available_at`, every column the corrected UPDATE assigns exists in the `jobs` table, so the statement can be prepared. |
| `QueueCtl.DlqRetry` | queuectl.js:179-191 | Corrected `dlq retry`. An absent or non-dead id gives `NotInDlq` and changes nothing. A dead job becomes exactly its revived row. No row's identity changes. |
| `QueueCtl.ConfigSet` | queuectl.js:205-211 | Inserts or overwrites one key. `get` then yields the new value, every other key reads as before, and jobs are untouched. |
| `QueueCtl.ConfigGet` | queuectl.js:223-229 | Returns None ("not set") exactly for a key never set, and the stored text otherwise. |
| `Worker.GetConfig` | worker.js:4-7 | Returns the default when the key has no row, and `parseInt` (no radix) of the stored text otherwise. |
| `Worker.GetConfigReadsBackNumber` | worker.js:4-7 | A number stored with `config set` is what `getConfig` returns. |
| `Worker.BackoffDelay` | worker.js:44-45 | The delay is `base ^ attempts` for an integer base. A NaN base gives NaN, except at exponent 0. |
| `Worker.DefaultBackoffDelays` | worker.js:44-45 | With the default base 2, the first three failures wait 2, 4 and 8 seconds. |
| `Worker.BackoffGrows` | worker.js:44-45 | For a base of at least 2, the delay strictly increases with attempts. |
| `Worker.Decide` | worker.js:30-45 | Attempts become the claimed value plus one. The job is completed iff the command succeeded, dead iff it failed with `attempts + 1 > max_retries`, and failed otherwise. A retry is armed, with delay `backoff_base ^ (attempts + 1)`, exactly when the state is failed. |
| `Worker.FailureTraceShape` | worker.js:37-50 | `Worker.FailureTrace` lists the states a job that keeps failing passes through. A job that keeps failing from `attempts` runs `max_retries - attempts + 1` more times (once if already past the limit). Every run but the last leaves it failed, and the last leaves it dead. |
| `Worker.DiesOnFailureMaxRetriesPlusOne` | worker.js:37-40 | A fresh job with limit `m` dies on exactly its `m + 1`-th failing execution. |
| `Worker.ClaimNext` | worker.js:13-25 | With no pending row, nothing changes and None is returned. Otherwise some pending row is returned as selected, and it alone becomes `processing` with `updated_at = now`. No row's id, command or limit changes. |
| `Worker.FinishExecution` | worker.js:29-56 | The claimed row's attempts become exactly the claimed `attempts + 1`. Its state becomes completed on success, dead on a failure past the limit, and failed otherwise. A retry timer is returned only in the failed case, with the backoff delay. No other row changes, and no id, command or limit changes. |
| `Worker.FireRetryTimer` | worker.js:46-50 | The job becomes `pending` with the attempts the callback counted, and nothing else changes. |
| `Scenarios.RunSoleJob` | worker.js:13-56 | When the only row is pending, one worker pass claims it, and the callback writes exactly the decided state and attempts to it. |
| `Scenarios.EnqueueThenSucceed` | worker.js:29-33 | Enqueuing `j1` gives a pending row with 0 attempts and limit 3. One successful pass leaves it completed with 1 attempt. |
| `Scenarios.FailTwiceThenRevive` | worker.js:37-55 | With limit 1: failed after the first failure, dead with 2 attempts after the second. The corrected `dlq retry` (`QueueCtl.DlqRetry`) then makes it pending with 0 attempts; the program's own `dlq retry` refuses the dead job (see Findings). |
| `Scenarios.BackoffWithBaseThree` | worker.js:44-50 | With `backoff_base` set to 3, the first two failures arm retries of 3 and 9 seconds. |

## Left out

- JSON parsing of the enqueue argument: a payload arrives already parsed. Non-string `id`,
  `command` or `state`, non-integer `attempts` or `max_retries`, and negative `attempts` are
  not representable (`Jobs.Payload`). A negative `max_retries` is representable and is kept
  as given.
- Console output, `console.table`, and `process.exit`: errors are result values instead.
- `child_process.exec`: the command's outcome is a boolean, and stdout/stderr are ignored.
- `setTimeout`, the one- and two-second sleeps, and the polling loop: each iteration and each
  timer firing is a call made by the caller. Node's handling of a NaN, negative or very large
  delay is not modelled.
- Concurrency between workers: operations are sequential. The select and the update of a claim
  are one step (worker.js:13-25).
- Floating-point behaviour: `parseInt` and `Math.pow` results beyond 2^53 lose precision in
  the source, but the model keeps them exact. Negative zero is not distinguished from zero.
- Timestamps are integers, not ISO strings. A supplied but empty timestamp string, which
  `created_at || now` would replace, has no integer counterpart.
- One clock reading per operation: job.js:16-17 calls `new Date()` once for each missing
  timestamp, so the two can differ by the time between the calls. The model passes one `now`,
  so missing timestamps are equal (`QueueCtl.MinimalPayload`, `Scenarios.EnqueueThenSucceed`).
- `Db.ToRow` requires `id` and `command` to be present, because `enqueue` checks both before
  inserting. SQLite's acceptance of a NULL text primary key is therefore never reached.
- Row order in `list` and `dlq list`: the query has no ORDER BY, so rows are returned as a map
  keyed by id.
- `worker start`: its destructured import does not match worker.js's export. `worker stop`
  is not implemented in the source.
- The SQLite connection and the table bootstrap are not modelled: the store starts empty.

## Findings

| source | as written | input that shows it | evidently intended | confidence | as-written member | corrected member |
|---|---|---|---|---|---|---|
| queuectl.js:187-189 | The UPDATE also assigns `available_at`, which the `jobs` table created at db.js:7-15 does not have. SQLite refuses to prepare the statement, and the uncaught error ends the command with the job still dead. | `dlq retry j1` for any job `j1` in state `dead` | state `pending`, `attempts = 0`, `updated_at = now` | high; not executed. A database file created by another version with that column would not show it. | `QueueCtl.DlqRetryAsWritten` (shown by `QueueCtl.DlqRetryAsWrittenNeverRevives`) | `QueueCtl.DlqRetry` (its UPDATE prepares: `QueueCtl.DlqRetryIntendedPrepares`) |
