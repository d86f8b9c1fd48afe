/**
 * The command-line front end of queuectl.js, reduced to what each command
 * does to the store: `enqueue`, `list`, `status`, `dlq list`, `dlq retry`,
 * `config set` and `config get`. Console output and process exit codes
 * become result values.
 */
module QueueCtl {
  import opened Wrappers
  import opened Js
  import opened Jobs
  import opened Db

  /** The configuration key that supplies the default retry limit. */
  const MaxRetriesKey: string := "max_retries"

  /** Why `enqueue` gives up: a bad payload, a NOT NULL column left null, or a taken id. */
  datatype EnqueueError = InvalidJob | NotNull(column: string) | DuplicateId

  /** Why `dlq retry` gives up: no dead job with that id, or a statement SQLite cannot prepare. */
  datatype DlqError = NotInDlq | NoSuchColumn(column: string)

  /** `SELECT value FROM config WHERE key = ?`: the stored text, or None when the key was never set. */
  function ConfigLookup(config: map<string, string>, key: string): (r: Option<string>)
    ensures r.Some? <==> key in config
    ensures r.Some? ==> r.value == config[key]
  {
    if key in config then Some(config[key]) else None
  }

  /**
   * The retry limit the configuration supplies to `enqueue`: the stored
   * `max_retries` text when it is non-empty and `parseInt(value, 10)` is a
   * number; None otherwise.
   */
  function ConfiguredMaxRetries(config: map<string, string>): (r: Option<int>)
    ensures r.Some? <==> MaxRetriesKey in config && config[MaxRetriesKey] != ""
                         && ParseInt(config[MaxRetriesKey], Decimal).Int?
    ensures r.Some? ==> r.value == ParseInt(config[MaxRetriesKey], Decimal).n
  {
    match ConfigLookup(config, MaxRetriesKey)
    case None => None
    case Some(text) =>
      if text == "" then None
      else match ParseInt(text, Decimal)
           case NaN => None
           case Int(n) => Some(n)
  }

  /**
   * The payload's `max_retries` after `enqueue` has consulted the
   * configuration: a given value is kept; a missing or null one is replaced
   * by the configured limit when there is one, and otherwise left as it was.
   */
  function ResolveMaxRetries(given: Field<int>, config: map<string, string>): (r: Field<int>)
    ensures given.Given? ==> r == given
    ensures !given.Given? && ConfiguredMaxRetries(config).Some? ==> r == Given(ConfiguredMaxRetries(config).value)
    ensures !given.Given? && ConfiguredMaxRetries(config).None? ==> r == given
  {
    if given.Absent? || given.Null? then
      match ConfiguredMaxRetries(config)
      case Some(n) => Given(n)
      case None => given
    else given
  }

  /**
   * What `enqueue` decides for payload `p` against tables `jobs` and
   * `config` at time `now`: the row it inserts, or why it inserts nothing.
   */
  function Admit(jobs: map<string, Row>, config: map<string, string>, p: Payload, now: int)
    : (r: Result<Row, EnqueueError>)
    ensures r == Err(InvalidJob) <==> !Truthy(p.id) || !Truthy(p.command)
    ensures r.Ok? <==> && Truthy(p.id) && Truthy(p.command)
                       && !p.state.Null? && !p.attempts.Null?
                       && (p.maxRetries.Null? ==> ConfiguredMaxRetries(config).Some?)
                       && p.id.value !in jobs
    ensures r.Ok? ==> r.value.id == p.id.value && r.value.command == p.command.value
    ensures r.Ok? ==> r.value.id !in jobs
    ensures Truthy(p.id) && p.id.value in jobs ==> r.Err?
    ensures r == Err(DuplicateId) ==> p.id.value in jobs
    ensures r.Ok? ==> r.value.state == (if p.state.Given? then p.state.value else Pending)
    ensures r.Ok? ==> r.value.attempts == (if p.attempts.Given? then p.attempts.value else 0)
    ensures r.Ok? ==> r.value.createdAt == OrNow(p.createdAt, now) && r.value.updatedAt == OrNow(p.updatedAt, now)
  {
    if !Truthy(p.id) || !Truthy(p.command) then Err(InvalidJob)
    else
      var job := NewJob(p.(maxRetries := ResolveMaxRetries(p.maxRetries, config)), now);
      match ToRow(job)
      case Err(column) => Err(NotNull(column))
      case Ok(row) => if row.id in jobs then Err(DuplicateId) else Ok(row)
  }

  /**
   * The retry limit an admitted job gets, in order: the payload's own value,
   * else the configured `max_retries`, else the default of 3.
   */
  lemma AdmittedMaxRetries(jobs: map<string, Row>, config: map<string, string>, p: Payload, now: int)
    requires Admit(jobs, config, p, now).Ok?
    ensures Admit(jobs, config, p, now).value.maxRetries ==
              if p.maxRetries.Given? then p.maxRetries.value
              else if ConfiguredMaxRetries(config).Some? then ConfiguredMaxRetries(config).value
              else DefaultMaxRetries
  {
  }

  /**
   * A payload whose `max_retries` is `null` is not given the default: unless
   * the configuration supplies a limit, the null reaches the NOT NULL column
   * and `enqueue` fails.
   */
  lemma NullMaxRetriesWithoutConfig(jobs: map<string, Row>, config: map<string, string>, p: Payload, now: int)
    requires Truthy(p.id) && Truthy(p.command)
    requires !p.state.Null? && !p.attempts.Null? && p.maxRetries.Null?
    requires ConfiguredMaxRetries(config).None?
    ensures Admit(jobs, config, p, now) == Err(NotNull("max_retries"))
  {
  }

  /** A limit stored with `config set max_retries <n>` is the one an enqueued job without its own gets. */
  lemma ConfiguredLimitApplies(jobs: map<string, Row>, config: map<string, string>, p: Payload, now: int, n: int)
    requires MaxRetriesKey in config && config[MaxRetriesKey] == IntToDecimal(n)
    requires p.maxRetries.Absent?
    requires Admit(jobs, config, p, now).Ok?
    ensures Admit(jobs, config, p, now).value.maxRetries == n
  {
    ParseIntRoundTrip(n, Decimal);
    AdmittedMaxRetries(jobs, config, p, now);
  }

  /** A payload with only `id` and `command` becomes a pending job with no attempts and limit 3. */
  lemma MinimalPayload(jobs: map<string, Row>, id: string, command: string, now: int)
    requires id != "" && command != "" && id !in jobs
    ensures Admit(jobs, map[], Payload(Given(id), Given(command), Absent, Absent, Absent, Absent, Absent), now)
            == Ok(Row(id, command, Pending, 0, DefaultMaxRetries, now, now))
  {
  }

  /** A payload with an id, a command and its own retry limit becomes a pending row with that limit. */
  lemma PayloadWithLimit(jobs: map<string, Row>, config: map<string, string>, id: string, command: string,
                         maxRetries: int, now: int)
    requires id != "" && command != "" && id !in jobs
    ensures Admit(jobs, config, Payload(Given(id), Given(command), Absent, Absent, Given(maxRetries), Absent, Absent), now)
            == Ok(Row(id, command, Pending, 0, maxRetries, now, now))
  {
  }

  /** `enqueue <payload>`: insert the admitted row, or change nothing. */
  method Enqueue(db: Database, p: Payload, now: int) returns (r: Result<Row, EnqueueError>)
    requires db.Valid()
    modifies db
    ensures db.Valid() && db.config == old(db.config)
    ensures r == Admit(old(db.jobs), old(db.config), p, now)
    ensures r.Ok? ==> db.jobs == old(db.jobs)[r.value.id := r.value]
    ensures r.Err? ==> db.jobs == old(db.jobs)
  {
    if !Truthy(p.id) || !Truthy(p.command) {
      return Err(InvalidJob);
    }
    var payload := p.(maxRetries := ResolveMaxRetries(p.maxRetries, db.config));
    var job := NewJob(payload, now);
    var row := ToRow(job);
    if row.Err? {
      return Err(NotNull(row.error));
    }
    if row.value.id in db.jobs {
      return Err(DuplicateId);
    }
    db.jobs := db.jobs[row.value.id := row.value];
    r := Ok(row.value);
  }

  /** `list [--state s]`: the rows in state `s`, or every row when no (or an empty) filter is given. */
  function List(db: Database, state: Option<string>): (rows: map<string, Row>)
    reads db
    ensures forall id :: id in rows <==> id in db.jobs && (state.None? || state.value == "" || db.jobs[id].state == state.value)
    ensures forall id :: id in rows ==> rows[id] == db.jobs[id]
  {
    if state.Some? && state.value != "" then InState(db.jobs, state.value) else db.jobs
  }

  /** `status`: for each of the five states the number of rows in it, and a `workers` entry that is always 0. */
  method Status(db: Database) returns (summary: map<string, nat>)
    ensures summary.Keys == (set s | s in States) + {"workers"}
    ensures forall s :: s in States ==> summary[s] == CountInState(db.jobs, s)
    ensures summary["workers"] == 0
    ensures KnownStates(db.jobs) ==>
              summary[Pending] + summary[Processing] + summary[Completed] + summary[Failed] + summary[Dead] == |db.jobs|
  {
    summary := map[];
    for i := 0 to |States|
      invariant summary.Keys == set j | 0 <= j < i :: States[j]
      invariant forall s :: s in summary ==> summary[s] == CountInState(db.jobs, s)
    {
      summary := summary[States[i] := CountInState(db.jobs, States[i])];
    }
    summary := summary["workers" := 0];
    if KnownStates(db.jobs) {
      StatusCountsEveryRow(db.jobs);
      CountAllFiveStates(db.jobs);
    }
  }

  /** `dlq list`: the rows in state `dead`. */
  function DlqList(db: Database): (rows: map<string, Row>)
    reads db
    ensures forall id :: id in rows <==> id in db.jobs && db.jobs[id].state == Dead
    ensures forall id :: id in rows ==> rows[id] == db.jobs[id]
  {
    InState(db.jobs, Dead)
  }

  /** The columns the `dlq retry` UPDATE assigns. */
  const DlqRetryAssigns: seq<string> := ["state", "attempts", "updated_at", "available_at"]

  /** `dlq retry <id>` exactly as written: the lookup, then an UPDATE that SQLite must first prepare. */
  function DlqRetryAsWritten(jobs: map<string, Row>, id: string, now: int)
    : (r: Result<map<string, Row>, DlqError>)
    ensures id !in jobs || jobs[id].state != Dead ==> r == Err(NotInDlq)
  {
    if id !in jobs || jobs[id].state != Dead then Err(NotInDlq)
    else match UnknownColumn(DlqRetryAssigns)
         case Some(column) => Err(NoSuchColumn(column))
         case None => Ok(jobs[id := Revived(jobs[id], now)])
  }

  /**
   * As written, `dlq retry` never revives a job: the table has no
   * `available_at` column, so the UPDATE is refused for every dead job.
   */
  lemma DlqRetryAsWrittenNeverRevives(jobs: map<string, Row>, id: string, now: int)
    requires id in jobs && jobs[id].state == Dead
    ensures DlqRetryAsWritten(jobs, id, now) == Err(NoSuchColumn("available_at"))
  {
  }

  /** Without `available_at`, every column the statement assigns exists, so SQLite can prepare it. */
  lemma DlqRetryIntendedPrepares()
    ensures UnknownColumn(DlqRetryIntendedAssigns).None?
  {
  }

  /** A dead job brought back: pending again with its attempts reset; nothing that identifies it changes. */
  function Revived(row: Row, now: int): (r: Row)
    ensures r.state == Pending && r.attempts == 0 && r.updatedAt == now
    ensures r.id == row.id && r.command == row.command && r.maxRetries == row.maxRetries && r.createdAt == row.createdAt
  {
    row.(state := Pending, attempts := 0, updatedAt := now)
  }

  /** The columns `dlq retry` evidently means to assign, all of which the table has. */
  const DlqRetryIntendedAssigns: seq<string> := ["state", "attempts", "updated_at"]

  /** `dlq retry <id>` as intended: a dead job goes back to pending with no attempts; anything else is refused. */
  method DlqRetry(db: Database, id: string, now: int) returns (r: Result<(), DlqError>)
    requires db.Valid()
    modifies db
    ensures db.Valid() && db.config == old(db.config)
    ensures r.Err? <==> id !in old(db.jobs) || old(db.jobs)[id].state != Dead
    ensures r.Err? ==> r.error == NotInDlq && db.jobs == old(db.jobs)
    ensures r.Ok? ==> db.jobs == old(db.jobs)[id := Revived(old(db.jobs)[id], now)]
    ensures SameIdentity(old(db.jobs), db.jobs)
  {
    if id !in db.jobs || db.jobs[id].state != Dead {
      return Err(NotInDlq);
    }
    db.jobs := db.jobs[id := Revived(db.jobs[id], now)];
    r := Ok(());
  }

  /** `config set <key> <value>`: insert or overwrite. */
  method ConfigSet(db: Database, key: string, value: string)
    requires db.Valid()
    modifies db
    ensures db.Valid() && db.jobs == old(db.jobs)
    ensures db.config == old(db.config)[key := value]
    ensures ConfigGet(db, key) == Some(value)
    ensures forall k :: k != key ==> ConfigGet(db, k) == old(ConfigGet(db, k))
  {
    db.config := db.config[key := value];
  }

  /** `config get <key>`: the stored value, or None ("not set") for a key never set. */
  function ConfigGet(db: Database, key: string): (r: Option<string>)
    reads db
    ensures r.None? <==> key !in db.config
    ensures r.Some? ==> r.value == db.config[key]
  {
    ConfigLookup(db.config, key)
  }
}
