/**
 * The persisted store of db.js: a `jobs` table keyed by `id` and a `config`
 * table keyed by `key`, held in memory as two maps. Each SQL statement of the
 * front end and the worker reads or rewrites rows of these maps.
 */
module Db {
  import opened Wrappers
  import opened Js
  import opened Jobs

  /** A row of the `jobs` table; every column is NOT NULL. */
  datatype Row = Row(
    id: string,
    command: string,
    state: string,
    attempts: nat,
    maxRetries: int,
    createdAt: int,
    updatedAt: int)

  /** The columns the `jobs` table is created with. */
  const JobColumns: set<string> :=
    {"id", "command", "state", "attempts", "max_retries", "created_at", "updated_at"}

  /**
   * The first column of an UPDATE's SET list that the `jobs` table lacks;
   * SQLite refuses to prepare such a statement ("no such column").
   */
  function UnknownColumn(assigns: seq<string>): (r: Option<string>)
    ensures r.None? <==> forall i :: 0 <= i < |assigns| ==> assigns[i] in JobColumns
    ensures r.Some? ==> exists k :: 0 <= k < |assigns| && assigns[k] == r.value && r.value !in JobColumns
                          && forall i :: 0 <= i < k ==> assigns[i] in JobColumns
  {
    if assigns == [] then None
    else if assigns[0] !in JobColumns then Some(assigns[0])
    else UnknownColumn(assigns[1..])
  }

  /**
   * The row inserted for job `j`, or the first of `state`, `attempts`,
   * `max_retries` that is null and so violates its NOT NULL constraint.
   * The front end inserts only jobs whose `id` and `command` it has checked.
   */
  function ToRow(j: Job): (r: Result<Row, string>)
    requires j.id.Given? && j.command.Given?
    ensures r.Ok? <==> j.state.Given? && j.attempts.Given? && j.maxRetries.Given?
    ensures r.Ok? ==> r.value == Row(j.id.value, j.command.value, j.state.value, j.attempts.value,
                                     j.maxRetries.value, j.createdAt, j.updatedAt)
    ensures r == Err("state") <==> !j.state.Given?
    ensures r == Err("attempts") <==> j.state.Given? && !j.attempts.Given?
    ensures r == Err("max_retries") <==> j.state.Given? && j.attempts.Given? && !j.maxRetries.Given?
  {
    if !j.state.Given? then Err("state")
    else if !j.attempts.Given? then Err("attempts")
    else if !j.maxRetries.Given? then Err("max_retries")
    else Ok(Row(j.id.value, j.command.value, j.state.value, j.attempts.value,
                j.maxRetries.value, j.createdAt, j.updatedAt))
  }

  /** The database file: both tables. */
  class Database {
    var jobs: map<string, Row>
    var config: map<string, string>

    /** Each row is stored under its own primary key. */
    ghost predicate Valid()
      reads this
    {
      forall id :: id in jobs ==> jobs[id].id == id
    }

    /** A freshly created database with both tables empty. */
    constructor ()
      ensures Valid() && jobs == map[] && config == map[]
    {
      jobs := map[];
      config := map[];
    }
  }

  /** `SELECT COUNT(*) FROM jobs WHERE state = ?`. */
  function CountInState(jobs: map<string, Row>, state: string): nat
  {
    |set id | id in jobs && jobs[id].state == state|
  }

  /** `SELECT * FROM jobs WHERE state = ?`, keyed by id. */
  function InState(jobs: map<string, Row>, state: string): (rows: map<string, Row>)
    ensures forall id :: id in rows <==> id in jobs && jobs[id].state == state
    ensures forall id :: id in rows ==> rows[id] == jobs[id]
  {
    map id | id in jobs && jobs[id].state == state :: jobs[id]
  }

  /** Some row is in state `pending`. */
  predicate HasPending(jobs: map<string, Row>)
  {
    exists id :: id in jobs && jobs[id].state == Pending
  }

  /**
   * No row was added or removed, and no row's `id`, `command`,
   * `max_retries` or `created_at` changed.
   */
  ghost predicate SameIdentity(before: map<string, Row>, after: map<string, Row>)
  {
    && before.Keys == after.Keys
    && forall id :: id in before ==>
         && after[id].id == before[id].id
         && after[id].command == before[id].command
         && after[id].maxRetries == before[id].maxRetries
         && after[id].createdAt == before[id].createdAt
  }

  /** Every row is in one of the five lifecycle states. */
  ghost predicate KnownStates(jobs: map<string, Row>)
  {
    forall id :: id in jobs ==> jobs[id].state in States
  }

  /** The sum of the counts for each state in `states`. */
  function CountAll(jobs: map<string, Row>, states: seq<string>): nat
  {
    if states == [] then 0 else CountInState(jobs, states[0]) + CountAll(jobs, states[1..])
  }

  /** Counting state by state over distinct states counts each row in one of them exactly once. */
  lemma {:induction false} CountAllIsCardinality(jobs: map<string, Row>, states: seq<string>)
    requires forall i, j :: 0 <= i < j < |states| ==> states[i] != states[j]
    ensures CountAll(jobs, states) == |set id | id in jobs && jobs[id].state in states|
  {
    if states != [] {
      var rest := states[1..];
      CountAllIsCardinality(jobs, rest);
      var first := set id | id in jobs && jobs[id].state == states[0];
      var others := set id | id in jobs && jobs[id].state in rest;
      assert first * others == {};
      assert first + others == set id | id in jobs && jobs[id].state in states;
    }
  }

  /** When every row is in a known state, the five counts of `status` add up to the size of the table. */
  lemma StatusCountsEveryRow(jobs: map<string, Row>)
    requires KnownStates(jobs)
    ensures CountAll(jobs, States) == |jobs|
  {
    CountAllIsCardinality(jobs, States);
    assert (set id | id in jobs && jobs[id].state in States) == jobs.Keys;
  }

  /** The sum over the five states, written out. */
  lemma CountAllFiveStates(jobs: map<string, Row>)
    ensures CountAll(jobs, States) == CountInState(jobs, Pending) + CountInState(jobs, Processing)
              + CountInState(jobs, Completed) + CountInState(jobs, Failed) + CountInState(jobs, Dead)
  {
    var s1, s2, s3, s4 := States[1..], States[2..], States[3..], States[4..];
    assert s1 == [Processing, Completed, Failed, Dead] && s1[1..] == s2;
    assert s2 == [Completed, Failed, Dead] && s2[1..] == s3;
    assert s3 == [Failed, Dead] && s3[1..] == s4;
    assert s4 == [Dead] && s4[1..] == [];
    assert CountAll(jobs, s4) == CountInState(jobs, Dead);
    assert CountAll(jobs, s3) == CountInState(jobs, Failed) + CountAll(jobs, s4);
    assert CountAll(jobs, s2) == CountInState(jobs, Completed) + CountAll(jobs, s3);
    assert CountAll(jobs, s1) == CountInState(jobs, Processing) + CountAll(jobs, s2);
  }
}
