/** The projects table and ProjectStore: create a project, read it back by ID,
    overwrite its status. */
module Projects {
  import opened Base

  /** The four statuses the code names. Nothing checks transitions between them. */
  datatype ProjectStatus = Created | Running | Completed | Failed

  /** A row of the projects table, and the Go struct that carries one. */
  datatype Project = Project(
    id: Uuid,
    name: string,
    description: Option<string>,
    status: ProjectStatus,
    createdAt: Time,
    updatedAt: Time)

  /** The table together with the last instant the store's clock handed out. */
  datatype ProjectDb = ProjectDb(rows: map<Uuid, Project>, clock: Time)

  const CreateContext := "failed to create project"
  const GetContext := "failed to get project"
  const UpdateContext := "failed to update project status"

  /** Every row sits under its own non-nil ID, and its timestamps were handed
      out by the clock in order. */
  ghost predicate WellFormed(db: ProjectDb) {
    forall id | id in db.rows ::
      && db.rows[id].id == id
      && id != Nil
      && db.rows[id].createdAt <= db.rows[id].updatedAt <= db.clock
  }

  /** What CreateProject leaves behind: the new table and clock, the caller's
      struct as overwritten, and the error returned. */
  datatype CreateOutcome = CreateOutcome(db: ProjectDb, project: Project, err: Option<StoreError>)

  /** CreateProject: overwrite ID, status and both timestamps of the caller's
      struct, then insert it as one row. */
  function CreateStep(db: ProjectDb, p: Project, minted: MintedUuid, dbUp: bool): (r: CreateOutcome)
    ensures r.project.id == minted && r.project.status == Created
    ensures r.project.name == p.name && r.project.description == p.description
    ensures db.clock < r.project.createdAt <= r.project.updatedAt == r.db.clock
    ensures r.err.None? <==> dbUp && minted !in db.rows
    ensures r.err.Some? ==> r.err.value.context == CreateContext && r.db.rows == db.rows
    ensures r.err.None? ==> r.db.rows.Keys == db.rows.Keys + {minted} && r.db.rows[minted] == r.project
    ensures forall id | id in db.rows :: id in r.db.rows && r.db.rows[id] == db.rows[id]
  {
    var createdAt := db.clock + 1;
    var updatedAt := db.clock + 2;
    var stamped := p.(id := minted, status := Created, createdAt := createdAt, updatedAt := updatedAt);
    var err := InsertError(db.rows, minted, dbUp, CreateContext);
    var rows := if err.None? then db.rows[minted := stamped] else db.rows;
    CreateOutcome(ProjectDb(rows, updatedAt), stamped, err)
  }

  /** What UpdateProjectStatus leaves behind: the new table and clock, and the error returned. */
  datatype UpdateOutcome = UpdateOutcome(db: ProjectDb, err: Option<StoreError>)

  /** UpdateProjectStatus: set status and updated_at of the row with this ID,
      if there is one. Rows affected is never looked at. */
  function UpdateStatusStep(db: ProjectDb, id: Uuid, status: ProjectStatus, dbUp: bool): (r: UpdateOutcome)
    ensures r.db.clock == db.clock + 1
    ensures r.err.None? <==> dbUp
    ensures r.err.Some? ==> r.err.value == StoreError(UpdateContext, Unavailable)
    ensures r.db.rows.Keys == db.rows.Keys
    ensures forall k | k in db.rows && (k != id || !dbUp) :: r.db.rows[k] == db.rows[k]
    ensures dbUp && id in db.rows ==>
      var (was, now) := (db.rows[id], r.db.rows[id]);
      && now.status == status
      && now.updatedAt == r.db.clock
      && now.id == was.id && now.name == was.name
      && now.description == was.description && now.createdAt == was.createdAt
  {
    var now := db.clock + 1;
    if !dbUp then UpdateOutcome(ProjectDb(db.rows, now), Some(StoreError(UpdateContext, Unavailable)))
    else if id in db.rows then
      UpdateOutcome(ProjectDb(db.rows[id := db.rows[id].(status := status, updatedAt := now)], now), None)
    else UpdateOutcome(ProjectDb(db.rows, now), None)
  }

  /** One call of the store's API, with the environment's answers (the minted
      UUID, whether the database is reachable) fixed in advance. */
  datatype Call =
    | CreateCall(project: Project, minted: MintedUuid, dbUp: bool)
    | GetCall(id: Uuid, dbUp: bool)
    | UpdateStatusCall(id: Uuid, status: ProjectStatus, dbUp: bool)

  function Apply(db: ProjectDb, c: Call): ProjectDb {
    match c
    case CreateCall(p, minted, dbUp) => CreateStep(db, p, minted, dbUp).db
    case GetCall(_, _) => db
    case UpdateStatusCall(id, status, dbUp) => UpdateStatusStep(db, id, status, dbUp).db
  }

  /** The table after a sequence of calls, one after the other. */
  function Run(db: ProjectDb, calls: seq<Call>): ProjectDb
    decreases |calls|
  {
    if calls == [] then db else Run(Apply(db, calls[0]), calls[1..])
  }

  /** What a stored row keeps for ever: its ID, name, description and
      created_at; its updated_at may only grow. */
  ghost predicate Persists(before: Project, after: Project) {
    && after.id == before.id
    && after.name == before.name
    && after.description == before.description
    && after.createdAt == before.createdAt
    && before.updatedAt <= after.updatedAt
  }

  /** Each call keeps the table well formed, keeps every row, and changes a
      row only in its status and updated_at. */
  lemma ApplyPreserves(db: ProjectDb, c: Call)
    requires WellFormed(db)
    ensures WellFormed(Apply(db, c))
    ensures forall id | id in db.rows :: id in Apply(db, c).rows && Persists(db.rows[id], Apply(db, c).rows[id])
  {
  }

  /** No sequence of calls deletes a project or changes its identity, name,
      description or creation time, and updated_at never goes back. */
  lemma {:induction false} RunPreserves(db: ProjectDb, calls: seq<Call>)
    requires WellFormed(db)
    ensures WellFormed(Run(db, calls))
    ensures forall id | id in db.rows :: id in Run(db, calls).rows && Persists(db.rows[id], Run(db, calls).rows[id])
    decreases |calls|
  {
    if calls != [] {
      var mid := Apply(db, calls[0]);
      ApplyPreserves(db, calls[0]);
      RunPreserves(mid, calls[1..]);
      assert Run(db, calls) == Run(mid, calls[1..]);
    }
  }

  /** A successful create followed by a lookup of the new ID returns the
      caller's name and description with status created. */
  lemma CreateThenGet(db: ProjectDb, p: Project, minted: MintedUuid)
    requires minted !in db.rows
    ensures var r := CreateStep(db, p, minted, true);
      && r.err.None?
      && Lookup(r.db.rows, r.project.id, true, GetContext) == Success(Some(r.project))
      && r.project.name == p.name && r.project.description == p.description
      && r.project.status == Created
  {
  }

  /** After a status update, the row's updated_at is strictly later than the
      one it had, in particular later than the one set at creation. */
  lemma UpdateAdvancesUpdatedAt(db: ProjectDb, id: Uuid, status: ProjectStatus)
    requires WellFormed(db) && id in db.rows
    ensures var r := UpdateStatusStep(db, id, status, true);
      r.db.rows[id].updatedAt > db.rows[id].updatedAt
  {
  }

  /** The store accepts every edge between the four statuses: whatever the
      row's current status, the update succeeds and writes the new one. */
  lemma EveryTransitionAccepted(db: ProjectDb, id: Uuid, from: ProjectStatus, to: ProjectStatus)
    requires id in db.rows && db.rows[id].status == from
    ensures var r := UpdateStatusStep(db, id, to, true);
      r.err.None? && r.db.rows[id].status == to
  {
  }

  /** Updating an ID with no row still reports success and changes no row. */
  lemma UpdateMissingIsSilent(db: ProjectDb, id: Uuid, status: ProjectStatus)
    requires id !in db.rows
    ensures var r := UpdateStatusStep(db, id, status, true);
      r.err.None? && r.db.rows == db.rows
  {
  }

  /** ProjectStore: NewProjectStore wraps a handle on an existing database; the
      table and the clock stand for that database and for time.Now(). */
  class ProjectStore {
    var rows: map<Uuid, Project>
    var clock: Time

    ghost function Db(): ProjectDb
      reads this
    {
      ProjectDb(rows, clock)
    }

    ghost predicate Valid()
      reads this
    {
      WellFormed(Db())
    }

    constructor (db: ProjectDb)
      requires WellFormed(db)
      ensures Valid() && Db() == db
    {
      rows := db.rows;
      clock := db.clock;
    }

    /** time.Now(): a reading strictly later than every earlier one. */
    method Now() returns (t: Time)
      modifies this`clock
      ensures t == clock == old(clock) + 1
    {
      clock := clock + 1;
      t := clock;
    }

    method CreateProject(project: Ptr<Project>, minted: MintedUuid, dbUp: bool) returns (err: Option<StoreError>)
      requires Valid()
      modifies this, project
      ensures Valid()
      ensures var r := CreateStep(old(Db()), old(project.val), minted, dbUp);
        Db() == r.db && project.val == r.project && err == r.err
    {
      project.val := project.val.(id := minted);
      project.val := project.val.(status := Created);
      var createdAt := Now();
      project.val := project.val.(createdAt := createdAt);
      var updatedAt := Now();
      project.val := project.val.(updatedAt := updatedAt);

      if !dbUp {
        err := Some(StoreError(CreateContext, Unavailable));
      } else if minted in rows {
        err := Some(StoreError(CreateContext, UniqueViolation));
      } else {
        rows := rows[minted := project.val];
        err := None;
      }
    }

    method GetProject(id: Uuid, dbUp: bool) returns (r: Result<Option<Project>, StoreError>)
      ensures r == Lookup(rows, id, dbUp, GetContext)
    {
      if !dbUp {
        r := Failure(StoreError(GetContext, Unavailable));
      } else if id in rows {
        r := Success(Some(rows[id]));
      } else {
        r := Success(None);
      }
    }

    method UpdateProjectStatus(id: Uuid, status: ProjectStatus, dbUp: bool) returns (err: Option<StoreError>)
      requires Valid()
      modifies this
      ensures Valid()
      ensures var r := UpdateStatusStep(old(Db()), id, status, dbUp);
        Db() == r.db && err == r.err
    {
      var now := Now();
      if !dbUp {
        err := Some(StoreError(UpdateContext, Unavailable));
        return;
      }
      if id in rows {
        rows := rows[id := rows[id].(status := status, updatedAt := now)];
      }
      err := None;
    }
  }
}
