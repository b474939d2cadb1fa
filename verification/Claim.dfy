/**
 The database claim: its persisted status, the parts of its specification that steer
 a migration, and the choice of the operation mode.
 */
module Claim {
  import opened Options
  import opened Stages

  datatype Conn = Conn(host: string, port: string, database: string, user: string, password: string, sslmode: string)

  const NO_CONN := Conn("", "", "", "", "", "")

  /** Where a server is reached. */
  datatype Addr = Addr(host: string, port: string)

  function AddrOf(c: Conn): Addr {
    Addr(c.host, c.port)
  }

  /** The checks that a connection passes before it is used. */
  predicate Usable(c: Conn) {
    c.host != "" && c.user != "" && c.password != "" && c.database != ""
  }

  datatype DbState = NoState | Ready | InProgress | UsingExistingDB | UsingSharedHost | PostMigrationInProgress

  datatype DbStatus = DbStatus(
    conn: Conn, version: string, engine: string, shape: string, minStorage: int, maxStorage: int,
    state: DbState, source: Option<Conn>)

  const NO_DB := DbStatus(NO_CONN, "", "", "", 0, 0, NoState, None)

  datatype OldDb = OldDb(conn: Option<Conn>, version: string, engine: string, shape: string, state: DbState)

  const NO_OLD_DB := OldDb(None, "", "", "", NoState)

  /** The persisted migration state: the empty text, or the name of a stage. */
  datatype Migration = Unset | At(stage: Stage)

  datatype Status = Status(active: DbStatus, newDb: DbStatus, oldDb: OldDb, migration: Migration)

  /** The host parameters that a reconcile asks for. */
  datatype Plan = Plan(engine: string, version: string, shape: string, minStorage: int, maxStorage: int)

  /**
   What stays fixed over a run: the specification of the claim, and how this controller
   derives host parameters, server names and addresses from it.
    - plan: the host parameters computed from the specification and the active database, if that succeeds
    - upgrade: whether they ask for an upgrade of the active database
    - nameOf: the server name for an engine, shape and version
    - addr: the address of the server with a given name
    - master: the password of the administrator that the controller generated for the server at an address
    - instances, groups: the crossplane resources provisioned for an engine, shape and version
    - deletes: the instance names that are deleted together with the server for an engine, shape and version
    - oldInstances, oldGroups: the crossplane resources that post-migration cleanup derives from the status
   */
  datatype Config = Config(
    useExisting: bool,
    source: Option<Conn>,
    sourceIsDatabase: bool,
    user: string,
    database: string,
    reclaim: bool,
    plan: DbStatus -> Option<Plan>,
    upgrade: DbStatus -> bool,
    nameOf: (string, string, string) -> string,
    addr: string -> Addr,
    master: Addr -> string,
    instances: (string, string, string) -> set<string>,
    groups: (string, string, string) -> set<string>,
    deletes: (string, string, string) -> set<string>,
    oldInstances: OldDb -> set<string>,
    oldGroups: OldDb -> set<string>)

  datatype Mode =
    | NotSupported
    | UseExisting
    | MigrateExistingToNewDB
    | MigrationRunning
    | UseNewDB
    | InitiateDBUpgrade
    | UpgradeRunning
    | PostMigration

  predicate NotStarted(m: Migration) {
    m == Unset || m == At(Initial)
  }

  /** A migration has been started and has not been completed. */
  predicate Running(m: Migration) {
    !NotStarted(m) && m != At(Completed)
  }

  /**
   Chooses the operation mode.  The second result is the status after the changes that the
   choice makes to it in place.  No request ever asks for a shared host.
   */
  function GetMode(c: Config, st: Status): (Mode, Status) {
    if st.oldDb.state == PostMigrationInProgress && (st.oldDb.conn.None? || st.active.state != Ready) then
      (NotSupported, st)
    else if st.oldDb.state == PostMigrationInProgress && st.active.state == Ready then
      (PostMigration, st)
    else if c.useExisting then
      (if c.source.None? || !c.sourceIsDatabase then NotSupported else UseExisting, st)
    else if c.source.Some? && !c.sourceIsDatabase then
      (NotSupported, st)
    else if c.source.None? && st.active.state == UsingExistingDB && st.active.source.None? then
      (NotSupported, st)
    else if st.active.state == UsingExistingDB && NotStarted(st.migration) then
      (MigrateExistingToNewDB, st)
    else if st.active.state == UsingExistingDB && st.migration != At(Completed) then
      (MigrationRunning, st)
    else if st.active.state == Ready && c.upgrade(st.active) then
      var mem := if st.newDb.state == NoState
                 then st.(newDb := st.newDb.(state := InProgress), migration := Unset)
                 else st;
      if NotStarted(mem.migration) then (InitiateDBUpgrade, mem)
      else if mem.migration != At(Completed) then (UpgradeRunning, mem)
      else (UseNewDB, mem)
    else
      (UseNewDB, st)
  }

  /** The connection to the database that the specification, or else the status, names as the data source. */
  function KnownSource(c: Config, st: Status): Option<Conn> {
    if c.source.Some? then c.source else st.active.source
  }

  /** The copy that is kept of a database which is no longer active. */
  function ToOld(db: DbStatus): OldDb {
    OldDb(Some(db.conn), db.version, db.engine, db.shape, NoState)
  }

  /** The switch to the new database at the end of a migration. */
  function Handover(st: Status): Status {
    Status(
      st.newDb.(state := Ready),
      NO_DB,
      if st.active.state != UsingExistingDB then ToOld(st.active).(state := PostMigrationInProgress) else st.oldDb,
      At(Completed))
  }

  /** The role that a database user inherits from: the user name without its two-character suffix. */
  function ParentRole(user: string): string {
    if |user| > 2 && user[|user| - 2] == '_' then user[..|user| - 2] else user
  }
}
