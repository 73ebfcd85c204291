/** The personas table and PersonaStore: create a persona and read it back by
    ID. There is no update and no delete. */
module Personas {
  import opened Base

  /** A row of the personas table, and the Go struct that carries one. The
      model configuration is a JSON document kept as opaque bytes. */
  datatype Persona = Persona(
    id: Uuid,
    name: string,
    description: Option<string>,
    promptTemplate: string,
    modelConfig: Bytes,
    createdAt: Time,
    updatedAt: Time)

  /** The table together with the last instant the store's clock handed out. */
  datatype PersonaDb = PersonaDb(rows: map<Uuid, Persona>, clock: Time)

  const CreateContext := "failed to create persona"
  const GetContext := "failed to get persona"

  ghost predicate WellFormed(db: PersonaDb) {
    forall id | id in db.rows ::
      && db.rows[id].id == id
      && id != Nil
      && db.rows[id].createdAt <= db.rows[id].updatedAt <= db.clock
  }

  /** What CreatePersona leaves behind: the new table and clock, the caller's
      struct as overwritten, and the error returned. */
  datatype CreateOutcome = CreateOutcome(db: PersonaDb, persona: Persona, err: Option<StoreError>)

  /** CreatePersona: overwrite the ID and both timestamps of the caller's
      struct, then insert it as one row. */
  function CreateStep(db: PersonaDb, p: Persona, minted: MintedUuid, dbUp: bool): (r: CreateOutcome)
    ensures r.persona.id == minted
    ensures && r.persona.name == p.name && r.persona.description == p.description
            && r.persona.promptTemplate == p.promptTemplate && r.persona.modelConfig == p.modelConfig
    ensures db.clock < r.persona.createdAt <= r.persona.updatedAt == r.db.clock
    ensures r.err.None? <==> dbUp && minted !in db.rows
    ensures r.err.Some? ==> r.err.value.context == CreateContext && r.db.rows == db.rows
    ensures r.err.None? ==> r.db.rows.Keys == db.rows.Keys + {minted} && r.db.rows[minted] == r.persona
    ensures forall id | id in db.rows :: id in r.db.rows && r.db.rows[id] == db.rows[id]
  {
    var createdAt := db.clock + 1;
    var updatedAt := db.clock + 2;
    var stamped := p.(id := minted, createdAt := createdAt, updatedAt := updatedAt);
    var err := InsertError(db.rows, minted, dbUp, CreateContext);
    var rows := if err.None? then db.rows[minted := stamped] else db.rows;
    CreateOutcome(PersonaDb(rows, updatedAt), stamped, err)
  }

  /** One call of the store's API, with the environment's answers fixed in advance. */
  datatype Call =
    | CreateCall(persona: Persona, minted: MintedUuid, dbUp: bool)
    | GetCall(id: Uuid, dbUp: bool)

  function Apply(db: PersonaDb, c: Call): PersonaDb {
    match c
    case CreateCall(p, minted, dbUp) => CreateStep(db, p, minted, dbUp).db
    case GetCall(_, _) => db
  }

  function Run(db: PersonaDb, calls: seq<Call>): PersonaDb
    decreases |calls|
  {
    if calls == [] then db else Run(Apply(db, calls[0]), calls[1..])
  }

  /** A stored persona never changes: after any sequence of calls every row
      is still there, exactly as it was, and the clock has not gone back. */
  lemma {:induction false} RunKeepsRows(db: PersonaDb, calls: seq<Call>)
    requires WellFormed(db)
    ensures WellFormed(Run(db, calls)) && db.clock <= Run(db, calls).clock
    ensures forall id | id in db.rows :: id in Run(db, calls).rows && Run(db, calls).rows[id] == db.rows[id]
    decreases |calls|
  {
    if calls != [] {
      var mid := Apply(db, calls[0]);
      RunKeepsRows(mid, calls[1..]);
      assert Run(db, calls) == Run(mid, calls[1..]);
    }
  }

  /** A successful create followed by a lookup of the new ID returns name,
      description, prompt template and model-config bytes as supplied. */
  lemma CreateThenGet(db: PersonaDb, p: Persona, minted: MintedUuid)
    requires minted !in db.rows
    ensures var r := CreateStep(db, p, minted, true);
      && r.err.None?
      && Lookup(r.db.rows, minted, true, GetContext) == Success(Some(r.persona))
      && r.persona.name == p.name && r.persona.description == p.description
      && r.persona.promptTemplate == p.promptTemplate && r.persona.modelConfig == p.modelConfig
  {
  }

  /** PersonaStore: NewPersonaStore wraps a handle on an existing database. */
  class PersonaStore {
    var rows: map<Uuid, Persona>
    var clock: Time

    ghost function Db(): PersonaDb
      reads this
    {
      PersonaDb(rows, clock)
    }

    ghost predicate Valid()
      reads this
    {
      WellFormed(Db())
    }

    constructor (db: PersonaDb)
      requires WellFormed(db)
      ensures Valid() && Db() == db
    {
      rows := db.rows;
      clock := db.clock;
    }

    /** time.Now(): a reading strictly later than every earlier one. */
    method Now() returns (t: Time)
      modifies this`clock
      ensures t == clock == old(clock) + 1
    {
      clock := clock + 1;
      t := clock;
    }

    method CreatePersona(persona: Ptr<Persona>, minted: MintedUuid, dbUp: bool) returns (err: Option<StoreError>)
      requires Valid()
      modifies this, persona
      ensures Valid()
      ensures var r := CreateStep(old(Db()), old(persona.val), minted, dbUp);
        Db() == r.db && persona.val == r.persona && err == r.err
    {
      persona.val := persona.val.(id := minted);
      var createdAt := Now();
      persona.val := persona.val.(createdAt := createdAt);
      var updatedAt := Now();
      persona.val := persona.val.(updatedAt := updatedAt);

      if !dbUp {
        err := Some(StoreError(CreateContext, Unavailable));
      } else if minted in rows {
        err := Some(StoreError(CreateContext, UniqueViolation));
      } else {
        rows := rows[minted := persona.val];
        err := None;
      }
    }

    method GetPersona(id: Uuid, dbUp: bool) returns (r: Result<Option<Persona>, StoreError>)
      ensures r == Lookup(rows, id, dbUp, GetContext)
    {
      if !dbUp {
        r := Failure(StoreError(GetContext, Unavailable));
      } else if id in rows {
        r := Success(Some(rows[id]));
      } else {
        r := Success(None);
      }
    }
  }
}
