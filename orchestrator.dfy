/** The orchestrator's project-created event handler: every payload becomes
    one new project, created through the ProjectStore; a store error is
    logged and dropped. */
module Orchestration {
  import opened Base
  import opened Projects

  const EventNamePrefix := "Project from Event: "
  const EventDescription := "Created via event bus"

  /** The struct the handler builds before calling CreateProject: the payload,
      unparsed, after a fixed prefix as the name, and a fixed description.
      Every other field is overwritten by CreateProject. */
  function EventProject(payload: string): Project {
    Project(Nil, EventNamePrefix + payload, Some(EventDescription), Created, 0, 0)
  }

  /** The projects table after the handler has run on one payload. */
  function HandleStep(db: ProjectDb, payload: string, minted: MintedUuid, dbUp: bool): (r: ProjectDb)
    ensures r.clock == db.clock + 2
    ensures forall id | id in db.rows :: id in r.rows && r.rows[id] == db.rows[id]
    ensures !(dbUp && minted !in db.rows) ==> r.rows == db.rows
    ensures dbUp && minted !in db.rows ==>
      && r.rows.Keys == db.rows.Keys + {minted}
      && |r.rows| == |db.rows| + 1
      && r.rows[minted].id == minted
      && r.rows[minted].status == Created
      && r.rows[minted].name == EventNamePrefix + payload
      && r.rows[minted].description == Some(EventDescription)
  {
    CreateStep(db, EventProject(payload), minted, dbUp).db
  }

  /** One message taken off the channel, with the environment's answers for
      the create it triggers. */
  datatype Delivery = Delivery(payload: string, minted: MintedUuid, dbUp: bool)

  /** The handler run on each delivery in turn: any order in which concurrent
      handlers finish is one such sequence. */
  function HandleAll(db: ProjectDb, ds: seq<Delivery>): ProjectDb
    decreases |ds|
  {
    if ds == [] then db else HandleAll(HandleStep(db, ds[0].payload, ds[0].minted, ds[0].dbUp), ds[1..])
  }

  /** The database is reachable for every delivery, and the minted IDs are new
      and pairwise distinct. */
  ghost predicate AllSucceed(db: ProjectDb, ds: seq<Delivery>) {
    && (forall i | 0 <= i < |ds| :: ds[i].dbUp && ds[i].minted !in db.rows)
    && (forall i, j | 0 <= i < j < |ds| :: ds[i].minted != ds[j].minted)
  }

  /** The create of delivery `i` succeeds on its turn: the database answers
      and the minted ID is not in the table the earlier deliveries left. */
  ghost predicate SucceedsOnItsTurn(db: ProjectDb, ds: seq<Delivery>, i: nat)
    requires i < |ds|
  {
    ds[i].dbUp && ds[i].minted !in HandleAll(db, ds[..i]).rows
  }

  /** N handled events never touch an existing project and add at most N
      projects; a failed create drops only its own event, since every event
      whose create succeeded on its turn has its project in the final table;
      when every create succeeds they add exactly N, one per payload, each
      named after its payload and in status created. */
  lemma {:induction false} HandleAllCreatesOnePerEvent(db: ProjectDb, ds: seq<Delivery>)
    ensures forall id | id in db.rows :: id in HandleAll(db, ds).rows && HandleAll(db, ds).rows[id] == db.rows[id]
    ensures |HandleAll(db, ds).rows| <= |db.rows| + |ds|
    ensures forall i | 0 <= i < |ds| && SucceedsOnItsTurn(db, ds, i) ::
      && ds[i].minted in HandleAll(db, ds).rows
      && HandleAll(db, ds).rows[ds[i].minted].name == EventNamePrefix + ds[i].payload
      && HandleAll(db, ds).rows[ds[i].minted].status == Created
    ensures AllSucceed(db, ds) ==>
      && |HandleAll(db, ds).rows| == |db.rows| + |ds|
      && forall i | 0 <= i < |ds| ::
           && ds[i].minted in HandleAll(db, ds).rows
           && HandleAll(db, ds).rows[ds[i].minted].name == EventNamePrefix + ds[i].payload
           && HandleAll(db, ds).rows[ds[i].minted].status == Created
    decreases |ds|
  {
    if ds != [] {
      var mid := HandleStep(db, ds[0].payload, ds[0].minted, ds[0].dbUp);
      var rest := ds[1..];
      HandleAllCreatesOnePerEvent(mid, rest);
      assert HandleAll(db, ds) == HandleAll(mid, rest);
      forall i | 0 <= i < |ds| && SucceedsOnItsTurn(db, ds, i)
        ensures && ds[i].minted in HandleAll(db, ds).rows
                && HandleAll(db, ds).rows[ds[i].minted].name == EventNamePrefix + ds[i].payload
                && HandleAll(db, ds).rows[ds[i].minted].status == Created
      {
        if i == 0 {
          assert ds[..0] == [];
        } else {
          assert ds[i] == rest[i - 1];
          assert ds[..i][1..] == rest[..i - 1];
          assert HandleAll(db, ds[..i]) == HandleAll(mid, rest[..i - 1]);
          assert SucceedsOnItsTurn(mid, rest, i - 1);
        }
      }
      if AllSucceed(db, ds) {
        assert AllSucceed(mid, rest) by {
          forall i | 0 <= i < |rest|
            ensures rest[i].dbUp && rest[i].minted !in mid.rows
          {
            assert rest[i] == ds[i + 1];
          }
          forall i, j | 0 <= i < j < |rest|
            ensures rest[i].minted != rest[j].minted
          {
            assert rest[i] == ds[i + 1] && rest[j] == ds[j + 1];
          }
        }
        forall i | 0 <= i < |ds|
          ensures && ds[i].minted in HandleAll(db, ds).rows
                  && HandleAll(db, ds).rows[ds[i].minted].name == EventNamePrefix + ds[i].payload
                  && HandleAll(db, ds).rows[ds[i].minted].status == Created
        {
          if i > 0 {
            assert ds[i] == rest[i - 1];
          }
        }
      }
    }
  }

  /** After a first event with a new ID, a second event with the same payload
      adds a second project exactly when its ID is new and differs from the
      first, and then both carry the same name: the handler is not idempotent. */
  lemma SamePayloadTwice(db: ProjectDb, payload: string, first: MintedUuid, second: MintedUuid)
    requires first !in db.rows
    ensures var r := HandleStep(HandleStep(db, payload, first, true), payload, second, true);
      && (|r.rows| == |db.rows| + 2 <==> second !in db.rows && first != second)
      && (|r.rows| == |db.rows| + 2 ==>
            first in r.rows && second in r.rows && r.rows[first].name == r.rows[second].name)
  {
  }

  /** The Orchestrator's use of the database: o.dbStore.Projects. The event
      bus client and the configuration are not part of this model. */
  class Orchestrator {
    const projects: ProjectStore

    constructor (projects: ProjectStore)
      ensures this.projects == projects
    {
      this.projects := projects;
    }

    ghost predicate Valid()
      reads projects
    {
      projects.Valid()
    }

    /** handleProjectCreatedEvent: build the struct, create it, log the outcome. */
    method HandleProjectCreatedEvent(payload: string, minted: MintedUuid, dbUp: bool)
      requires Valid()
      modifies projects
      ensures Valid()
      ensures projects.Db() == HandleStep(old(projects.Db()), payload, minted, dbUp)
    {
      var project := new Ptr(EventProject(payload));
      var err := projects.CreateProject(project, minted, dbUp);
      // Either way the outcome is only logged: the error goes no further.
    }
  }
}
