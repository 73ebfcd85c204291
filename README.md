# Workflow-engine persistence layer and project-created handler, in Dafny

This project models the persistence layer of the workflow engine's
orchestrator: the three typed stores for projects, personas and stage runs.
It also models the orchestrator's handler for project-created events, which
turns each event payload into one new project.

Each store is a keyed table of records. Behind the SQL text, each store
operation is a plain table update:

- `Create…` overwrites the caller's ID, its default status where the record
  has one, and its timestamps, then inserts one row.
- `Get…` looks a row up by ID. A missing row is an absent result, not an
  error.
- `Update…Status` overwrites a few named columns of one row. It leaves every
  other column and every other row alone.

Every store is a Dafny `class` with two fields. `rows: map<Uuid, Row>` is the
table. `clock: Time` is the last instant handed out by `Now()`, which stands
for `time.Now()`. The Go functions that write into the caller's struct take a
`Ptr<Row>`, a one-field class standing for the Go pointer. They overwrite it
field by field, as the Go code does.

Each method is proved against a pure step function (`CreateStep`,
`UpdateStatusStep`) over a value of the table and clock (`ProjectDb`,
`PersonaDb`, `StageRunDb`). Those functions state what the operation means.
Lemmas over `Run`, a sequence of calls applied one after another, state what
holds across many calls.

Three things come from outside the program and are parameters:

- The UUID from `uuid.New()` is the parameter `minted`. Its type
  `MintedUuid` excludes `uuid.Nil`, because version-4 UUIDs are never nil.
  If `minted` already keys a row, the INSERT fails with a unique-key
  violation. So "the new ID is fresh" is proved from the outcome, not
  assumed.
- Whether the statement goes through is the parameter `dbUp`. When it is
  false, the statement fails, and the error is wrapped with the same context
  text the Go code uses. `dbUp == false` stands for every statement failure
  other than a duplicate key: an unreachable database, a cancelled call, or
  data Postgres rejects (such as a NUL character in a name). The duplicate
  key has its own cause, `UniqueViolation`.
- Time comes from a strictly increasing counter.

Nullable columns are `Option`s. JSON columns are opaque `seq<bv8>`, stored
verbatim. The status enums are plain datatypes. No operation checks
transitions, and the lemmas prove that every edge is accepted.

Files: `base.dfy` (shared types and the generic insert and lookup
behaviour), `projects.dfy`, `personas.dfy`, `stage_runs.dfy`,
`orchestrator.dfy`, and `scenarios.dfy`, which holds the store tests as
verified client methods.

## Model

| member | source | states |
|---|---|---|
| Base.InsertError | orchestrator/store/project_store.go:48-58 | an INSERT reports no error exactly when the database is reachable and the key is not yet in the table; otherwise the error carries the operation's context, and a reachable database means a unique-key violation |
| Base.Lookup | orchestrator/store/project_store.go:62-84 | a lookup fails only when the database is unreachable; otherwise it is present exactly when the ID is in the table, and then it is that row: a missing row is absent, not an error |
| Projects.CreateStep | orchestrator/store/project_store.go:38-60 | the caller's struct gets the minted ID, status `created` and two clock readings later than every earlier one, and keeps its name and description; on success exactly the new key is added, holding that struct; on failure (unreachable, or key already used) the table is unchanged and the struct is overwritten all the same; existing rows never change |
| Projects.UpdateStatusStep | orchestrator/store/project_store.go:86-97 | the clock is read once; it succeeds exactly when the database is reachable, whether or not the ID has a row; on the matching row only status and updated_at change (to the given status and the new reading); no key is added or removed and every other row is unchanged |
| Projects.ApplyPreserves | orchestrator/store/project_store.go:38-97 | any one store call keeps the table well formed (every row under its own non-nil ID, created_at <= updated_at <= clock) and changes an existing row at most in status and updated_at, with updated_at not decreasing |
| Projects.RunPreserves | orchestrator/store/project_store.go:38-97 | after any sequence of store calls every project is still present, with the same ID, name, description and created_at, and an updated_at no earlier than before |
| Projects.CreateThenGet | orchestrator/store/project_store.go:38-84 | after a successful create, looking up the new ID returns the stored struct, with the caller's name and description and status `created` |
| Projects.UpdateAdvancesUpdatedAt | orchestrator/store/project_store.go:92 | after a status update, the row's updated_at is strictly later than before, including the value set at creation |
| Projects.EveryTransitionAccepted | orchestrator/store/project_store.go:14-19 | from any of the four statuses to any of the four, the update succeeds and the row then holds the new status |
| Projects.UpdateMissingIsSilent | orchestrator/store/project_store.go:92-96 | updating an ID with no row returns success and leaves every row unchanged |
| Projects.ProjectStore.constructor | orchestrator/store/project_store.go:34-36 | the store wraps an existing well-formed table and clock |
| Projects.ProjectStore.CreateProject | orchestrator/store/project_store.go:38-60 | overwrites the caller's struct and updates the table and clock exactly as `CreateStep` says, returning its error; the table stays well formed |
| Projects.ProjectStore.GetProject | orchestrator/store/project_store.go:62-84 | returns `Lookup` on the current table with the context "failed to get project" |
| Projects.ProjectStore.UpdateProjectStatus | orchestrator/store/project_store.go:86-97 | updates the table and clock exactly as `UpdateStatusStep` says, returning its error; the table stays well formed |
| Personas.CreateStep | orchestrator/store/persona_store.go:32-54 | the caller's struct gets the minted ID and two fresh clock readings, and keeps its name, description, prompt template and model-config bytes; on success exactly the new key is added; on failure the table is unchanged; existing rows never change |
| Personas.RunKeepsRows | orchestrator/store/persona_store.go:24-79 | there is no update or delete: after any sequence of calls every stored persona is still there and exactly as it was, and the table stays well formed |
| Personas.CreateThenGet | orchestrator/store/persona_store.go:32-79 | after a successful create, looking up the new ID returns name, description, prompt template and model-config bytes exactly as supplied |
| Personas.PersonaStore.constructor | orchestrator/store/persona_store.go:28-30 | the store wraps an existing well-formed table and clock |
| Personas.PersonaStore.CreatePersona | orchestrator/store/persona_store.go:32-54 | overwrites the caller's struct and updates the table and clock exactly as `CreateStep` says, returning its error |
| Personas.PersonaStore.GetPersona | orchestrator/store/persona_store.go:56-79 | returns `Lookup` on the current table with the context "failed to get persona" |
| StageRuns.CreateStep | orchestrator/store/stage_run_store.go:46-72 | the caller's struct gets the minted ID, status `pending` and two fresh clock readings, and keeps project ID, stage name, both contexts and both timing fields as supplied; on success exactly the new key is added; on failure the table is unchanged; existing rows never change |
| StageRuns.UpdateStatusStep | orchestrator/store/stage_run_store.go:102-113 | succeeds exactly when the database is reachable; on the matching row, status, started_at and completed_at become exactly the arguments (an absent argument clears the column) and updated_at the new reading; ID, project, stage name, contexts, created_at and every other row are unchanged |
| StageRuns.ApplyPreserves | orchestrator/store/stage_run_store.go:46-113 | any one store call keeps the table well formed and changes an existing run at most in status, timing fields and updated_at, with updated_at not decreasing |
| StageRuns.RunPreserves | orchestrator/store/stage_run_store.go:46-113 | after any sequence of store calls every stage run is still present with the same ID, project, stage name, contexts and created_at, and an updated_at no earlier than before |
| StageRuns.CreateThenGet | orchestrator/store/stage_run_store.go:46-100 | after a successful create, looking up the new ID returns project, stage name, contexts and timing fields as supplied, with status `pending` |
| StageRuns.RunningThenCompleted | orchestrator/store/stage_run_store.go:102-113 | an update to `running` with start T and no completion reads back as T and unset; a following update to `completed` passing T again and completion T2 reads back as T and T2 |
| StageRuns.EveryTransitionAccepted | orchestrator/store/stage_run_store.go:14-23 | from any of the six statuses to any of the six, with any timing arguments, the update succeeds and the row holds the new status |
| StageRuns.UpdateMissingIsSilent | orchestrator/store/stage_run_store.go:102-113 | updating an ID with no row returns success and leaves every row unchanged |
| StageRuns.StageRunStore.constructor | orchestrator/store/stage_run_store.go:42-44 | the store wraps an existing well-formed table and clock |
| StageRuns.StageRunStore.CreateStageRun | orchestrator/store/stage_run_store.go:46-72 | overwrites the caller's struct and updates the table and clock exactly as `CreateStep` says, returning its error |
| StageRuns.StageRunStore.GetStageRun | orchestrator/store/stage_run_store.go:74-100 | returns `Lookup` on the current table with the context "failed to get stage run" |
| StageRuns.StageRunStore.UpdateStageRunStatus | orchestrator/store/stage_run_store.go:102-113 | updates the table and clock exactly as `UpdateStatusStep` says, returning its error |
| Orchestration.HandleStep | orchestrator/main.go:63-79 | applies `CreateStep` to the struct `EventProject` builds (main.go:69-72); no existing project changes; if the create succeeds, exactly one row is added under the minted ID, named "Project from Event: " followed by the payload verbatim, with description "Created via event bus" and status `created`; if it fails, the table is unchanged and nothing is reported |
| Orchestration.HandleAllCreatesOnePerEvent | orchestrator/main.go:63-79 | handling N events in any completion order never touches an existing project and adds at most N; a failed create drops only its own event, since every event whose create succeeded on its turn has its named project, in status `created`, in the final table; when every create succeeds it adds exactly N, one per payload, each named after its payload and in status `created` |
| Orchestration.SamePayloadTwice | orchestrator/main.go:69-73 | after a first event whose ID is new, a second event with the same payload adds a second project exactly when its minted ID is new and differs from the first; the two projects then have the same name, so the handler is not idempotent |
| Orchestration.Orchestrator.HandleProjectCreatedEvent | orchestrator/main.go:63-79 | changes the project store exactly as `HandleStep` says and returns nothing; a store error is swallowed |
| StoreScenarios.ProjectCreateAndGet | orchestrator/store/store_test.go:76-116 | on cleared tables, a created project gets a non-nil ID and reads back with the given name and description and status `created` |
| StoreScenarios.ProjectUpdateStatus | orchestrator/store/store_test.go:118-148 | after a create and an update to `running`, the project reads back as `running` with an updated_at later than the one set at creation |
| StoreScenarios.PersonaCreateAndGet | orchestrator/store/store_test.go:150-191 | a created persona gets a non-nil ID and reads back with the given name, prompt template and model-config bytes |
| StoreScenarios.StageRunCreateAndGet | orchestrator/store/store_test.go:193-243 | a stage run created for a project gets a non-nil ID, is `pending` in the caller's struct, and reads back with that project ID, stage name, input context and unset timing fields |
| StoreScenarios.StageRunUpdateStatus | orchestrator/store/store_test.go:245-305 | after an update to `running` with a start time, and then to `completed` passing the start time read back and a completion time, the run reads back with both times as passed |

## Where the system's design notes and the code differ

In these cases the model follows the code:

- The design notes say a status update on a missing row fails. The code never
  checks rows affected, so the update reports success and changes nothing
  (`UpdateMissingIsSilent`).
- The design notes say a new stage run starts with both timing fields unset. The
  code stores whatever timing fields the caller passes.
  `StageRuns.CreateStep` keeps them as given.
- The design notes say the handler parses the payload. The code never parses it
  and uses the raw text in the project's name.
- The design notes list legal status transitions. No code checks them, so the
  model proves instead that every edge is accepted.

## Left out

- The Redis subscription loop, the goroutine started per message, and the
  signal wait in `Run` (orchestrator/main.go:37-61) are left out. Their
  subject is concurrency and network I/O. `HandleAll` covers any order in
  which handler calls finish, each call applied in turn. It does not model
  two handlers running at the same time.
- `main()`, the configuration loader, the mock publisher, and the
  connection-pool setup in `NewStore` are left out. They are process
  start-up and driver plumbing.
- The `Store` struct that bundles the three stores is not modelled. The
  orchestrator holds only the project store it uses.
- The SQL text and Postgres semantics are not modelled. The stores act on an
  abstract keyed table. There is no foreign-key check from
  `stage_runs.project_id` to `projects`, no CHECK constraint on the status
  columns, and no JSONB validation or re-formatting of the JSON columns.
  The schema that would decide these is not part of this model.
- Timestamps are naturals from a counter that increases by one at each
  `time.Now()`. Wall-clock readings that repeat, and Postgres truncating to
  microseconds, are not modelled.
- The `context.Context` argument, and with it cancellation and deadlines, is
  not modelled. Every failure of a statement other than a duplicate key is
  the single `Unavailable` cause, chosen by the `dbUp` parameter.
- Strings are Dafny `string`s, which cannot hold the invalid UTF-8 that a Go
  string taken from an event payload can.
- Each store has its own clock, while `time.Now()` is one clock shared by
  all three stores. Ordering of timestamps across stores is not modelled:
  for example, nothing says a stage run is stamped after its project.
- The log lines written by the handler are not modelled.
- Projects.ProjectStatus: Go's `ProjectStatus` is an open string type, so
  any string could be passed to `UpdateProjectStatus`. The model admits only
  the four named constants. The same holds for
  `StageRuns.StageRunStatus` and its six constants.
- Orchestration.EventProject: the handler's struct literal leaves `Status`
  at Go's zero value `""`, which the status datatype cannot express. The
  model uses `created` there. `CreateProject` overwrites the field before
  anything reads it.
- Base.Bytes: a nil `json.RawMessage` and an empty one are both `[]` in the
  model. What the database driver does with a nil value is not modelled.
