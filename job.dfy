/**
 * The `Job` record of job.js: the object the front end builds from an
 * enqueue payload before inserting it. JavaScript default parameters apply
 * only to properties that are missing (`undefined`); a property given as
 * `null` is passed through as `null`.
 */
module Jobs {
  import opened Js

  /** The five states a job's lifecycle uses (stored as text). */
  const Pending: string := "pending"
  const Processing: string := "processing"
  const Completed: string := "completed"
  const Failed: string := "failed"
  const Dead: string := "dead"

  /** The states in the order `status` reports them. */
  const States: seq<string> := [Pending, Processing, Completed, Failed, Dead]

  /** The retry limit a job gets when neither the payload nor the configuration gives one. */
  const DefaultMaxRetries: int := 3

  /**
   * A parsed enqueue payload. Timestamps are integers here; `id`, `command`
   * and `state` are strings and `attempts` a non-negative integer when given.
   */
  datatype Payload = Payload(
    id: Field<string>,
    command: Field<string>,
    state: Field<string>,
    attempts: Field<nat>,
    maxRetries: Field<int>,
    createdAt: Field<int>,
    updatedAt: Field<int>)

  /** The object `new Job(payload)` builds. */
  datatype Job = Job(
    id: Field<string>,
    command: Field<string>,
    state: Field<string>,
    attempts: Field<nat>,
    maxRetries: Field<int>,
    createdAt: int,
    updatedAt: int)

  /** A destructuring default: it replaces a missing property and nothing else. */
  function OrDefault<T>(f: Field<T>, default: T): (r: Field<T>)
    ensures f.Absent? ==> r == Given(default)
    ensures !f.Absent? ==> r == f
  {
    if f.Absent? then Given(default) else f
  }

  /** `t || now` for a timestamp: a supplied timestamp is kept, a missing or null one becomes `now`. */
  function OrNow(t: Field<int>, now: int): int
  {
    if t.Given? then t.value else now
  }

  /** `new Job(p)` at time `now`. */
  function NewJob(p: Payload, now: int): (j: Job)
    ensures j.id == p.id && j.command == p.command
    ensures p.state.Absent? ==> j.state == Given(Pending)
    ensures p.attempts.Absent? ==> j.attempts == Given(0)
    ensures p.maxRetries.Absent? ==> j.maxRetries == Given(DefaultMaxRetries)
    ensures !p.state.Absent? ==> j.state == p.state
    ensures !p.attempts.Absent? ==> j.attempts == p.attempts
    ensures !p.maxRetries.Absent? ==> j.maxRetries == p.maxRetries
    ensures j.createdAt == (if p.createdAt.Given? then p.createdAt.value else now)
    ensures j.updatedAt == (if p.updatedAt.Given? then p.updatedAt.value else now)
  {
    Job(p.id, p.command,
        OrDefault(p.state, Pending),
        OrDefault(p.attempts, 0),
        OrDefault(p.maxRetries, DefaultMaxRetries),
        OrNow(p.createdAt, now),
        OrNow(p.updatedAt, now))
  }
}
