/** The stage_runs table and StageRunStore: create a run of one workflow
    stage, read it back by ID, overwrite its status and timing. */
module StageRuns {
  import opened Base

  /** The six statuses the code names. Nothing checks transitions between them. */
  datatype StageRunStatus = Pending | Running | Completed | Failed | Approved | Rejected

  /** A row of the stage_runs table, and the Go struct that carries one. The
      two contexts are JSON documents kept as opaque bytes; the two timing
      fields are nullable. */
  datatype StageRun = StageRun(
    id: Uuid,
    projectId: Uuid,
    stageName: string,
    status: StageRunStatus,
    inputContext: Bytes,
    outputContext: Bytes,
    startedAt: Option<Time>,
    completedAt: Option<Time>,
    createdAt: Time,
    updatedAt: Time)

  /** The table together with the last instant the store's clock handed out. */
  datatype StageRunDb = StageRunDb(rows: map<Uuid, StageRun>, clock: Time)

  const CreateContext := "failed to create stage run"
  const GetContext := "failed to get stage run"
  const UpdateContext := "failed to update stage run status"

  ghost predicate WellFormed(db: StageRunDb) {
    forall id | id in db.rows ::
      && db.rows[id].id == id
      && id != Nil
      && db.rows[id].createdAt <= db.rows[id].updatedAt <= db.clock
  }

  /** The fields the caller chooses at creation, which the store keeps verbatim. */
  ghost predicate SameCallerFields(a: StageRun, b: StageRun) {
    && a.projectId == b.projectId
    && a.stageName == b.stageName
    && a.inputContext == b.inputContext
    && a.outputContext == b.outputContext
  }

  /** What CreateStageRun leaves behind: the new table and clock, the caller's
      struct as overwritten, and the error returned. */
  datatype CreateOutcome = CreateOutcome(db: StageRunDb, stageRun: StageRun, err: Option<StoreError>)

  /** CreateStageRun: overwrite ID, status and both timestamps of the caller's
      struct, then insert it as one row. The timing fields are the caller's. */
  function CreateStep(db: StageRunDb, s: StageRun, minted: MintedUuid, dbUp: bool): (r: CreateOutcome)
    ensures r.stageRun.id == minted && r.stageRun.status == Pending
    ensures SameCallerFields(r.stageRun, s)
    ensures r.stageRun.startedAt == s.startedAt && r.stageRun.completedAt == s.completedAt
    ensures db.clock < r.stageRun.createdAt <= r.stageRun.updatedAt == r.db.clock
    ensures r.err.None? <==> dbUp && minted !in db.rows
    ensures r.err.Some? ==> r.err.value.context == CreateContext && r.db.rows == db.rows
    ensures r.err.None? ==> r.db.rows.Keys == db.rows.Keys + {minted} && r.db.rows[minted] == r.stageRun
    ensures forall id | id in db.rows :: id in r.db.rows && r.db.rows[id] == db.rows[id]
  {
    var createdAt := db.clock + 1;
    var updatedAt := db.clock + 2;
    var stamped := s.(id := minted, status := Pending, createdAt := createdAt, updatedAt := updatedAt);
    var err := InsertError(db.rows, minted, dbUp, CreateContext);
    var rows := if err.None? then db.rows[minted := stamped] else db.rows;
    CreateOutcome(StageRunDb(rows, updatedAt), stamped, err)
  }

  /** What UpdateStageRunStatus leaves behind: the new table and clock, and the error returned. */
  datatype UpdateOutcome = UpdateOutcome(db: StageRunDb, err: Option<StoreError>)

  /** UpdateStageRunStatus: set status, started_at, completed_at and
      updated_at of the row with this ID, if there is one. An absent timing
      argument clears that column. Rows affected is never looked at. */
  function UpdateStatusStep(db: StageRunDb, id: Uuid, status: StageRunStatus,
                            startedAt: Option<Time>, completedAt: Option<Time>, dbUp: bool): (r: UpdateOutcome)
    ensures r.db.clock == db.clock + 1
    ensures r.err.None? <==> dbUp
    ensures r.err.Some? ==> r.err.value == StoreError(UpdateContext, Unavailable)
    ensures r.db.rows.Keys == db.rows.Keys
    ensures forall k | k in db.rows && (k != id || !dbUp) :: r.db.rows[k] == db.rows[k]
    ensures dbUp && id in db.rows ==>
      var (was, now) := (db.rows[id], r.db.rows[id]);
      && now.status == status
      && now.startedAt == startedAt && now.completedAt == completedAt
      && now.updatedAt == r.db.clock
      && now.id == was.id && SameCallerFields(now, was) && now.createdAt == was.createdAt
  {
    var now := db.clock + 1;
    if !dbUp then UpdateOutcome(StageRunDb(db.rows, now), Some(StoreError(UpdateContext, Unavailable)))
    else if id in db.rows then
      var row := db.rows[id].(status := status, startedAt := startedAt, completedAt := completedAt, updatedAt := now);
      UpdateOutcome(StageRunDb(db.rows[id := row], now), None)
    else UpdateOutcome(StageRunDb(db.rows, now), None)
  }

  /** One call of the store's API, with the environment's answers fixed in advance. */
  datatype Call =
    | CreateCall(stageRun: StageRun, minted: MintedUuid, dbUp: bool)
    | GetCall(id: Uuid, dbUp: bool)
    | UpdateStatusCall(id: Uuid, status: StageRunStatus, startedAt: Option<Time>, completedAt: Option<Time>, dbUp: bool)

  function Apply(db: StageRunDb, c: Call): StageRunDb {
    match c
    case CreateCall(s, minted, dbUp) => CreateStep(db, s, minted, dbUp).db
    case GetCall(_, _) => db
    case UpdateStatusCall(id, status, startedAt, completedAt, dbUp) =>
      UpdateStatusStep(db, id, status, startedAt, completedAt, dbUp).db
  }

  function Run(db: StageRunDb, calls: seq<Call>): StageRunDb
    decreases |calls|
  {
    if calls == [] then db else Run(Apply(db, calls[0]), calls[1..])
  }

  /** What a stored run keeps for ever: its ID, its project, stage name, both
      contexts and created_at; its updated_at may only grow. */
  ghost predicate Persists(before: StageRun, after: StageRun) {
    && after.id == before.id
    && SameCallerFields(after, before)
    && after.createdAt == before.createdAt
    && before.updatedAt <= after.updatedAt
  }

  lemma ApplyPreserves(db: StageRunDb, c: Call)
    requires WellFormed(db)
    ensures WellFormed(Apply(db, c))
    ensures forall id | id in db.rows :: id in Apply(db, c).rows && Persists(db.rows[id], Apply(db, c).rows[id])
  {
  }

  /** No sequence of calls deletes a stage run or changes its identity, its
      project, its stage name, its contexts or its creation time, and
      updated_at never goes back. */
  lemma {:induction false} RunPreserves(db: StageRunDb, calls: seq<Call>)
    requires WellFormed(db)
    ensures WellFormed(Run(db, calls))
    ensures forall id | id in db.rows :: id in Run(db, calls).rows && Persists(db.rows[id], Run(db, calls).rows[id])
    decreases |calls|
  {
    if calls != [] {
      var mid := Apply(db, calls[0]);
      ApplyPreserves(db, calls[0]);
      RunPreserves(mid, calls[1..]);
      assert Run(db, calls) == Run(mid, calls[1..]);
    }
  }

  /** A successful create followed by a lookup returns the project, stage
      name, contexts and timing fields as supplied, with status pending. */
  lemma CreateThenGet(db: StageRunDb, s: StageRun, minted: MintedUuid)
    requires minted !in db.rows
    ensures var r := CreateStep(db, s, minted, true);
      && r.err.None?
      && Lookup(r.db.rows, minted, true, GetContext) == Success(Some(r.stageRun))
      && SameCallerFields(r.stageRun, s) && r.stageRun.status == Pending
      && r.stageRun.startedAt == s.startedAt && r.stageRun.completedAt == s.completedAt
  {
  }

  /** Updating to running with a start time and no completion time, then to
      completed passing the same start time and a completion time, leaves the
      row completed with both times as passed. */
  lemma {:induction false} RunningThenCompleted(db: StageRunDb, id: Uuid, started: Time, completed: Time)
    requires id in db.rows
    ensures var first := UpdateStatusStep(db, id, Running, Some(started), None, true).db;
      && first.rows[id].status == Running
      && first.rows[id].startedAt == Some(started) && first.rows[id].completedAt == None
      && var second := UpdateStatusStep(first, id, Completed, first.rows[id].startedAt, Some(completed), true).db;
      && second.rows[id].status == Completed
      && second.rows[id].startedAt == Some(started) && second.rows[id].completedAt == Some(completed)
  {
  }

  /** The store accepts every edge between the six statuses, with any timing
      arguments. */
  lemma EveryTransitionAccepted(db: StageRunDb, id: Uuid, from: StageRunStatus, to: StageRunStatus,
                                startedAt: Option<Time>, completedAt: Option<Time>)
    requires id in db.rows && db.rows[id].status == from
    ensures var r := UpdateStatusStep(db, id, to, startedAt, completedAt, true);
      r.err.None? && r.db.rows[id].status == to
  {
  }

  /** Updating an ID with no row still reports success and changes no row. */
  lemma UpdateMissingIsSilent(db: StageRunDb, id: Uuid, status: StageRunStatus,
                              startedAt: Option<Time>, completedAt: Option<Time>)
    requires id !in db.rows
    ensures var r := UpdateStatusStep(db, id, status, startedAt, completedAt, true);
      r.err.None? && r.db.rows == db.rows
  {
  }

  /** StageRunStore: NewStageRunStore wraps a handle on an existing database. */
  class StageRunStore {
    var rows: map<Uuid, StageRun>
    var clock: Time

    ghost function Db(): StageRunDb
      reads this
    {
      StageRunDb(rows, clock)
    }

    ghost predicate Valid()
      reads this
    {
      WellFormed(Db())
    }

    constructor (db: StageRunDb)
      requires WellFormed(db)
      ensures Valid() && Db() == db
    {
      rows := db.rows;
      clock := db.clock;
    }

    /** time.Now(): a reading strictly later than every earlier one. */
    method Now() returns (t: Time)
      modifies this`clock
      ensures t == clock == old(clock) + 1
    {
      clock := clock + 1;
      t := clock;
    }

    method CreateStageRun(stageRun: Ptr<StageRun>, minted: MintedUuid, dbUp: bool) returns (err: Option<StoreError>)
      requires Valid()
      modifies this, stageRun
      ensures Valid()
      ensures var r := CreateStep(old(Db()), old(stageRun.val), minted, dbUp);
        Db() == r.db && stageRun.val == r.stageRun && err == r.err
    {
      stageRun.val := stageRun.val.(id := minted);
      stageRun.val := stageRun.val.(status := Pending);
      var createdAt := Now();
      stageRun.val := stageRun.val.(createdAt := createdAt);
      var updatedAt := Now();
      stageRun.val := stageRun.val.(updatedAt := updatedAt);

      if !dbUp {
        err := Some(StoreError(CreateContext, Unavailable));
      } else if minted in rows {
        err := Some(StoreError(CreateContext, UniqueViolation));
      } else {
        rows := rows[minted := stageRun.val];
        err := None;
      }
    }

    method GetStageRun(id: Uuid, dbUp: bool) returns (r: Result<Option<StageRun>, StoreError>)
      ensures r == Lookup(rows, id, dbUp, GetContext)
    {
      if !dbUp {
        r := Failure(StoreError(GetContext, Unavailable));
      } else if id in rows {
        r := Success(Some(rows[id]));
      } else {
        r := Success(None);
      }
    }

    method UpdateStageRunStatus(id: Uuid, status: StageRunStatus, startedAt: Option<Time>,
                                completedAt: Option<Time>, dbUp: bool) returns (err: Option<StoreError>)
      requires Valid()
      modifies this
      ensures Valid()
      ensures var r := UpdateStatusStep(old(Db()), id, status, startedAt, completedAt, dbUp);
        Db() == r.db && err == r.err
    {
      var now := Now();
      if !dbUp {
        err := Some(StoreError(UpdateContext, Unavailable));
        return;
      }
      if id in rows {
        rows := rows[id := rows[id].(status := status, startedAt := startedAt,
                                     completedAt := completedAt, updatedAt := now)];
      }
      err := None;
    }
  }
}
