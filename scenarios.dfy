/** The store tests as client code: each method starts from cleared tables,
    calls the stores exactly as the test does, and promises what the test
    checks, for every choice of names, payloads, minted IDs and clock. */
module StoreScenarios {
  import opened Base
  import Projects
  import Personas
  import StageRuns

  /** Create a project, read it back: same name and description, status created. */
  method ProjectCreateAndGet(name: string, description: string, minted: MintedUuid, now: Time)
    returns (id: Uuid, retrieved: Result<Option<Projects.Project>, StoreError>)
    ensures id == minted && id != Nil
    ensures retrieved.Success? && retrieved.value.Some?
    ensures && retrieved.value.value.name == name
            && retrieved.value.value.description == Some(description)
            && retrieved.value.value.status == Projects.Created
  {
    var store := new Projects.ProjectStore(Projects.ProjectDb(map[], now));
    var project := new Ptr(Projects.Project(Nil, name, Some(description), Projects.Created, 0, 0));
    var err := store.CreateProject(project, minted, true);
    id := project.val.id;
    retrieved := store.GetProject(id, true);
  }

  /** Create a project, set it running, read it back: status running and an
      updated_at later than the one the caller's struct got at creation. */
  method ProjectUpdateStatus(name: string, minted: MintedUuid, now: Time)
    returns (createdUpdatedAt: Time, retrieved: Result<Option<Projects.Project>, StoreError>)
    ensures retrieved.Success? && retrieved.value.Some?
    ensures retrieved.value.value.status == Projects.Running
    ensures retrieved.value.value.updatedAt > createdUpdatedAt
  {
    var store := new Projects.ProjectStore(Projects.ProjectDb(map[], now));
    var project := new Ptr(Projects.Project(Nil, name, None, Projects.Created, 0, 0));
    var err := store.CreateProject(project, minted, true);
    createdUpdatedAt := project.val.updatedAt;
    err := store.UpdateProjectStatus(project.val.id, Projects.Running, true);
    retrieved := store.GetProject(project.val.id, true);
  }

  /** Create a persona, read it back: same name, prompt template and
      model-config bytes. */
  method PersonaCreateAndGet(name: string, promptTemplate: string, modelConfig: Bytes, minted: MintedUuid, now: Time)
    returns (id: Uuid, retrieved: Result<Option<Personas.Persona>, StoreError>)
    ensures id == minted && id != Nil
    ensures retrieved.Success? && retrieved.value.Some?
    ensures && retrieved.value.value.name == name
            && retrieved.value.value.promptTemplate == promptTemplate
            && retrieved.value.value.modelConfig == modelConfig
  {
    var store := new Personas.PersonaStore(Personas.PersonaDb(map[], now));
    var persona := new Ptr(Personas.Persona(Nil, name, None, promptTemplate, modelConfig, 0, 0));
    var err := store.CreatePersona(persona, minted, true);
    id := persona.val.id;
    retrieved := store.GetPersona(id, true);
  }

  /** Create a project, then a stage run of it with unset timing fields, read
      the run back: pending, with its project, stage name and input context. */
  method StageRunCreateAndGet(stageName: string, inputContext: Bytes,
                              projectMinted: MintedUuid, runMinted: MintedUuid, now: Time)
    returns (projectId: Uuid, runId: Uuid, status: StageRuns.StageRunStatus,
             retrieved: Result<Option<StageRuns.StageRun>, StoreError>)
    ensures projectId == projectMinted
    ensures runId == runMinted && runId != Nil
    ensures status == StageRuns.Pending
    ensures retrieved.Success? && retrieved.value.Some?
    ensures && retrieved.value.value.projectId == projectId
            && retrieved.value.value.stageName == stageName
            && retrieved.value.value.inputContext == inputContext
            && retrieved.value.value.status == StageRuns.Pending
            && retrieved.value.value.startedAt == None
            && retrieved.value.value.completedAt == None
  {
    var projects := new Projects.ProjectStore(Projects.ProjectDb(map[], now));
    var project := new Ptr(Projects.Project(Nil, "Project for StageRun", None, Projects.Created, 0, 0));
    var err := projects.CreateProject(project, projectMinted, true);
    projectId := project.val.id;

    var runs := new StageRuns.StageRunStore(StageRuns.StageRunDb(map[], now));
    var stageRun := new Ptr(StageRuns.StageRun(Nil, projectId, stageName, StageRuns.Pending,
                                               inputContext, [], None, None, 0, 0));
    err := runs.CreateStageRun(stageRun, runMinted, true);
    runId := stageRun.val.id;
    status := stageRun.val.status;
    retrieved := runs.GetStageRun(runId, true);
  }

  /** Create a stage run; set it running with start time `started` and no
      completion time; read it back; set it completed passing the start time
      just read and completion time `completed`; read it back again. */
  method StageRunUpdateStatus(stageName: string, projectId: Uuid, started: Time, completed: Time,
                              minted: MintedUuid, now: Time)
    returns (afterRunning: Result<Option<StageRuns.StageRun>, StoreError>,
             afterCompleted: Result<Option<StageRuns.StageRun>, StoreError>)
    ensures afterRunning.Success? && afterRunning.value.Some?
    ensures && afterRunning.value.value.status == StageRuns.Running
            && afterRunning.value.value.startedAt == Some(started)
            && afterRunning.value.value.completedAt == None
    ensures afterCompleted.Success? && afterCompleted.value.Some?
    ensures && afterCompleted.value.value.status == StageRuns.Completed
            && afterCompleted.value.value.startedAt == Some(started)
            && afterCompleted.value.value.completedAt == Some(completed)
  {
    var runs := new StageRuns.StageRunStore(StageRuns.StageRunDb(map[], now));
    var stageRun := new Ptr(StageRuns.StageRun(Nil, projectId, stageName, StageRuns.Pending,
                                               [], [], None, None, 0, 0));
    var err := runs.CreateStageRun(stageRun, minted, true);
    var id := stageRun.val.id;

    err := runs.UpdateStageRunStatus(id, StageRuns.Running, Some(started), None, true);
    afterRunning := runs.GetStageRun(id, true);

    err := runs.UpdateStageRunStatus(id, StageRuns.Completed, afterRunning.value.value.startedAt, Some(completed), true);
    afterCompleted := runs.GetStageRun(id, true);
  }
}
