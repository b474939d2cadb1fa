/**
 Reconciling a claim as a machine whose every write is one step.

 A session is one reconcile: it keeps the in-memory copy of the status, and it may stop
 between any two steps (a crash, or an error that is returned).  A write that is refused
 is no step at all.  Every error path first persists the in-memory copy as it is, so
 Persist may be taken anywhere in a session.
 */
module Protocol {
  import opened Options
  import opened Stages
  import opened Claim
  import Sequences

  datatype Subscription = Absent | Disabled | Enabled

  datatype Server = Server(
    publication: bool,
    subscription: Subscription,
    superusers: set<string>,
    writers: set<string>,
    populated: bool,
    synced: bool,
    rows: map<string, nat>,
    sequences: map<string, Sequences.Sequence>,
    logins: map<string, string>)

  const FRESH_SERVER := Server(false, Absent, {}, {}, false, false, map[], map[], map[])

  datatype Temp = Temp(source: Option<Conn>, password: string)

  datatype World = World(
    deleting: bool,
    finalizer: bool,
    status: Status,
    app: Option<Conn>,
    temp: Option<Temp>,
    servers: map<Addr, Server>,
    instances: set<string>,
    groups: set<string>)

  /** How far a session has come. */
  datatype Pc =
    | Begin                 // the mode is chosen, its status update has not landed
    | Dispatch              // the mode's own work starts
    | Adopting              // an existing database is chosen to be used
    | HostRecorded          // the new host is in the in-memory status
    | HostReady             // the new database is provisioned
    | SourceSaved           // the temp secret holds the source connection
    | Run(stage: Stage)     // a stage is about to be executed
    | Granted               // copy_schema: superuser access is granted
    | Restored              // copy_schema: the schema is restored
    | Reading(values: map<string, int>)  // reset_target_sequence: these values are read from the source
    | Setting(left: map<string, int>)    // reset_target_sequence: these values are still to be set in the target
    | Got(next: Stage)      // the execution returned the next stage
    | TempSaved             // reroute: the temp secret is written
    | Rerouted              // reroute: the application secret is written
    | Moved(next: Stage)    // the in-memory status names the next stage
    | Switched              // the in-memory status holds the handover
    | Handed                // the handover is persisted
    | Over                  // only status writes and the return are left

  datatype Session =
    | Idle
    | Busy(mode: Mode, mem: Status, pc: Pc, src: Conn, tgt: Conn)
    | Purging(deleted: bool)

  datatype Sys = Sys(w: World, ses: Session)

  /** The parts of resetting the sequences. */
  datatype ResetStep =
    | BeginReset
    | ReadValue(name: string)
    | BeginSet
    | SetValue(name: string)
    | EndReset

  /** What executing a stage does to the databases. */
  datatype Effect =
    | Pass
    | CreatePub
    | Grant
    | Restore
    | RestoreFails
    | RevokeGrant
    | CreateSub
    | EnableSub
    | CheckReady
    | Reset(step: ResetStep)
    | RevokeWrites
    | Compare
    | DisableSub
    | DropSub
    | DropPub

  /** The applications, the replication and the owner of the claim. */
  datatype EnvEvent =
    | AppWrite(at: Addr, role: string, rows: map<string, nat>)
    | Synchronise(from: Addr, at: Addr, rows: map<string, nat>)
    | Replicate(at: Addr, rows: map<string, nat>)
    | Draw(at: Addr, name: string)
    | MarkDeleted

  datatype SessionEvent =
    | AddFinalizer
    | Open
    | Persist
    | Abort
    | Return

  /** How an existing database is put to use. */
  datatype AdoptStep =
    | ChooseExisting
    | CacheMaster
    | ReachExisting
    | GrantExisting
    | SetExistingLogin(user: string, password: string)
    | RecordExisting(user: string)
    | PublishExisting(password: string)
    | PromoteExisting

  datatype ProvisionEvent =
    | Adopt(step: AdoptStep)
    | MarkInitial
    | CreateHost
    | RecordHost(sslmode: string)
    | RefuseManaged
    | GrantWrites
    | SetLogin(user: string, password: string)
    | RecordUser(user: string)
    | CreateTemp
    | SavePassword(password: string)
    | SaveSource
    | MarkInProgress
    | Publish(password: string)
    | Promote

  datatype MigrateEvent =
    | Resume
    | Exec(effect: Effect)
    | Take
    | SaveTemp
    | Reroute
    | TakeReroute
    | SwitchActive
    | DropTemp

  datatype CleanEvent =
    | DropOldGroup(name: string)
    | DropOldInstance(name: string)
    | ClearOld
    | PurgeInstance(name: string)
    | PurgeGroup(name: string)
    | PurgeDone
    | RemoveFinalizer

  datatype Event =
    | Env(env: EnvEvent)
    | Control(control: SessionEvent)
    | Provision(provision: ProvisionEvent)
    | Migrate(migrate: MigrateEvent)
    | Clean(clean: CleanEvent)

  /** The connection that is taken for the source when a session resumes: chosen by enumeration rank. */
  function RecoverSource(w: World, m: Migration): Option<Conn> {
    if m.At? && Rank(m.stage) > Rank(RerouteTargetSecret) then
      if w.temp.Some? then w.temp.value.source else None
    else
      w.app
  }

  function Target(st: Status, password: string): Conn {
    st.newDb.conn.(password := password)
  }

  function PlannedAddr(c: Config, active: DbStatus): Addr
    requires c.plan(active).Some?
  {
    var p := c.plan(active).value;
    c.addr(c.nameOf(p.engine, p.shape, p.version))
  }

  /** Where the administrator of the source connects to. */
  function SourceAdmin(c: Config, mode: Mode, mem: Status, src: Conn): Addr {
    if mode == MigrationRunning && KnownSource(c, mem).Some? then AddrOf(KnownSource(c, mem).value) else AddrOf(src)
  }

  /** The user of a connection can log in with its password. */
  predicate LogsIn(servers: map<Addr, Server>, conn: Conn) {
    && AddrOf(conn) in servers && conn.user in servers[AddrOf(conn)].logins
    && servers[AddrOf(conn)].logins[conn.user] == conn.password
  }

  /**
   The administrator of the source can log in.  For an upgrade that is the one of the active server, at the
   address of the connection that is taken for the source.
   */
  predicate AdminLogsIn(c: Config, servers: map<Addr, Server>, mode: Mode, mem: Status, src: Conn) {
    if mode == MigrationRunning then KnownSource(c, mem).Some? && AddrOf(KnownSource(c, mem).value) in servers
    else AddrOf(src) in servers && c.master(AddrOf(src)) == c.master(AddrOf(mem.active.conn))
  }

  /** A session of a migration has all it needs: its secrets, its databases and their logins, and a stage to resume. */
  predicate Resumable(c: Config, w: World, mode: Mode, mem: Status) {
    && AddrOf(mem.newDb.conn) != AddrOf(mem.active.conn) && w.temp.Some? && w.app.Some?
    && RecoverSource(w, mem.migration).Some? && mem.migration.At? && Replicator(mem.migration.stage).Some?
    && c.plan(mem.active).Some? && PlannedAddr(c, mem.active) in w.servers
    && var src, tgt := RecoverSource(w, mem.migration).value, Target(mem, w.temp.value.password);
       && Usable(tgt) && LogsIn(w.servers, tgt) && LogsIn(w.servers, src)
       && AdminLogsIn(c, w.servers, mode, mem, src)
  }

  /** The row counts of the source tables are all reached in the target. */
  predicate Covers(target: map<string, nat>, source: map<string, nat>) {
    forall t :: t in source ==> t in target && source[t] <= target[t]
  }

  predicate HasNoEffect(s: Stage) {
    s == Initial || s == ValidateConnection || s == RerouteTargetSecret || s == WaitToDisableSource
  }

  /** One effect of a stage: the server it writes, if any, and where the session goes on. */
  datatype Deed =
    | Write(at: Addr, server: Server, pc: Pc)
    | Read(pc: Pc)

  /** The sequences of a schema that has just been restored: the names are those of the source. */
  function RestoredSequences(source: map<string, Sequences.Sequence>): map<string, Sequences.Sequence> {
    map n | n in source :: Sequences.Sequence(1, false)
  }

  /** What a part of resetting the sequences does: first all values are read, then they are set one by one. */
  function PerformReset(servers: map<Addr, Server>, ses: Session, x: ResetStep): Option<Deed>
    requires ses.Busy?
  {
    var su, tu := AddrOf(ses.src), AddrOf(ses.tgt);
    match x
    case BeginReset =>
      if ses.pc == Run(ResetTargetSequence) && su in servers && tu in servers then Some(Read(Reading(map[]))) else None
    case ReadValue(name) =>
      if ses.pc.Reading? && su in servers && name in servers[su].sequences && name !in ses.pc.values &&
         Sequences.ResetValue(servers[su].sequences[name].last).Some? then
        var value := Sequences.ResetValue(servers[su].sequences[name].last).value;
        Some(Read(Reading(ses.pc.values[name := value])))
      else None
    case BeginSet =>
      if ses.pc.Reading? && su in servers && ses.pc.values.Keys == servers[su].sequences.Keys then
        Some(Read(Setting(ses.pc.values)))
      else None
    case SetValue(name) =>
      if ses.pc.Setting? && name in ses.pc.left && tu in servers && name in servers[tu].sequences then
        var reset := Sequences.Sequence(ses.pc.left[name], true);
        Some(Write(tu, servers[tu].(sequences := servers[tu].sequences[name := reset]), Setting(ses.pc.left - {name})))
      else None
    case EndReset =>
      if ses.pc == Setting(map[]) then Some(Read(Got(RerouteTargetSecret))) else None
  }

  /** What executing a stage, or a part of it, does. */
  function Perform(c: Config, servers: map<Addr, Server>, ses: Session, x: Effect): Option<Deed>
    requires ses.Busy? && c.plan(ses.mem.active).Some?
  {
    var sa := SourceAdmin(c, ses.mode, ses.mem, ses.src);
    var su := AddrOf(ses.src);
    var ta := PlannedAddr(c, ses.mem.active);
    var tu := AddrOf(ses.tgt);
    match x
    case Pass =>
      if ses.pc.Run? && HasNoEffect(ses.pc.stage) then Some(Read(Got(Successor(ses.pc.stage)))) else None
    case CreatePub =>
      if ses.pc == Run(CreatePublication) && sa in servers then
        Some(Write(sa, servers[sa].(publication := true), Got(CopySchema)))
      else None
    case Grant =>
      if ses.pc == Run(CopySchema) && ta in servers then
        Some(Write(ta, servers[ta].(superusers := servers[ta].superusers + {ParentRole(ses.tgt.user)}), Granted))
      else None
    case Restore =>
      if ses.pc == Granted && sa in servers && tu in servers && !servers[tu].populated then
        Some(Write(tu, servers[tu].(populated := true, sequences := RestoredSequences(servers[sa].sequences)), Restored))
      else None
    case RestoreFails =>
      if ses.pc == Granted && tu in servers then
        Some(Write(tu, servers[tu].(populated := false, sequences := map[]), Over))
      else None
    case RevokeGrant =>
      if ses.pc == Restored && ta in servers then
        Some(Write(ta, servers[ta].(superusers := servers[ta].superusers - {ParentRole(ses.tgt.user)}),
                   Got(CreateSubscription)))
      else None
    case CreateSub =>
      if ses.pc == Run(CreateSubscription) && ta in servers then
        if servers[ta].subscription == Absent then
          Some(Write(ta, servers[ta].(subscription := Disabled, synced := false), Got(EnableSubscription)))
        else
          Some(Write(ta, servers[ta], Got(EnableSubscription)))
      else None
    case EnableSub =>
      if ses.pc == Run(EnableSubscription) && ta in servers && servers[ta].subscription != Absent then
        Some(Write(ta, servers[ta].(subscription := Enabled), Got(CutOverReadinessCheck)))
      else None
    case CheckReady =>
      if ses.pc == Run(CutOverReadinessCheck) && sa in servers && ta in servers then
        Some(Read(Got(if servers[ta].synced then ResetTargetSequence else Retry)))
      else None
    case Reset(step) => PerformReset(servers, ses, step)
    case RevokeWrites =>
      if ses.pc == Run(DisableSourceAccess) && sa in servers then
        Some(Write(sa, servers[sa].(writers := servers[sa].writers - {ParentRole(ses.src.user)}),
                   Got(ValidateMigrationStatus)))
      else None
    case Compare =>
      if ses.pc == Run(ValidateMigrationStatus) && su in servers && tu in servers &&
         servers[su].rows.Keys <= servers[tu].rows.Keys then
        Some(Read(Got(if Covers(servers[tu].rows, servers[su].rows) then DisableSubscription else Retry)))
      else None
    case DisableSub =>
      if ses.pc == Run(DisableSubscription) && ta in servers then
        var sub := if servers[ta].subscription == Absent then Absent else Disabled;
        Some(Write(ta, servers[ta].(subscription := sub), Got(DeleteSubscription)))
      else None
    case DropSub =>
      if ses.pc == Run(DeleteSubscription) && ta in servers then
        Some(Write(ta, servers[ta].(subscription := Absent), Got(DeletePublication)))
      else None
    case DropPub =>
      if ses.pc == Run(DeletePublication) && sa in servers then
        Some(Write(sa, servers[sa].(publication := false), Got(Completed)))
      else None
  }

  /** The state after an effect. */
  function Apply(s: Sys, d: Deed): Sys
    requires s.ses.Busy?
  {
    match d
    case Write(at, server, pc) => Sys(s.w.(servers := s.w.servers[at := server]), s.ses.(pc := pc))
    case Read(pc) => s.(ses := s.ses.(pc := pc))
  }

  /** Where a session goes on after its in-memory status has been persisted. */
  function AfterPersist(pc: Pc): Pc {
    match pc
    case Begin => Dispatch
    case Moved(n) =>
      if n == Initial then Dispatch
      else if n == WaitToDisableSource || n == MigrationInProgress then Over
      else Run(n)
    case Switched => Handed
    case _ => pc
  }

  predicate Provisions(mode: Mode) {
    mode == UseNewDB || mode == MigrateExistingToNewDB || mode == InitiateDBUpgrade
  }

  predicate Migrates(mode: Mode) {
    mode == MigrationRunning || mode == UpgradeRunning
  }

  /** A provisioning session may work on the host: a migration is first persisted as initial. */
  predicate MayProvision(ses: Session) {
    ses.Busy? && Provisions(ses.mode) && (ses.mode == UseNewDB || ses.mem.migration == At(Initial))
  }

  predicate Deletable(m: Migration) {
    m == Unset || m == At(Completed)
  }

  function OpenSession(c: Config, w: World): Session {
    if w.deleting && Deletable(w.status.migration) then Purging(false)
    else
      var (mode, mem) := GetMode(c, w.status);
      Busy(mode, mem, if mode == NotSupported then Over else Begin, NO_CONN, NO_CONN)
  }

  /** The host parameters of the plan are recorded together with the address of its server. */
  function RecordPlan(db: DbStatus, p: Plan, a: Addr, sslmode: string): DbStatus {
    db.(conn := db.conn.(host := a.host, port := a.port, sslmode := sslmode),
        version := p.version, engine := p.engine, shape := p.shape, minStorage := p.minStorage,
        maxStorage := if p.engine == "postgres" then p.maxStorage else db.maxStorage)
  }

  /** Applications use the database of their secret, and the active one through connections they still have. */
  predicate InUse(w: World, a: Addr) {
    a == AddrOf(w.status.active.conn) || (w.app.Some? && a == AddrOf(w.app.value))
  }

  function NextEnvironment(s: Sys, e: EnvEvent): Option<Sys> {
    match e
    case AppWrite(a, role, rows) =>
      if a in s.w.servers && role in s.w.servers[a].writers then
        Some(s.(w := s.w.(servers := s.w.servers[a := s.w.servers[a].(rows := rows)])))
      else None
    case Replicate(a, rows) =>
      if a in s.w.servers && s.w.servers[a].subscription == Enabled then
        Some(s.(w := s.w.(servers := s.w.servers[a := s.w.servers[a].(rows := rows)])))
      else None
    case Synchronise(from, a, rows) =>
      if a in s.w.servers && s.w.servers[a].subscription == Enabled &&
         from in s.w.servers && s.w.servers[from].publication && Covers(rows, s.w.servers[from].rows) then
        Some(s.(w := s.w.(servers := s.w.servers[a := s.w.servers[a].(rows := rows, synced := true)])))
      else None
    case Draw(a, name) =>
      if a in s.w.servers && name in s.w.servers[a].sequences && InUse(s.w, a) then
        var drawn := Sequences.NextVal(s.w.servers[a].sequences[name]).1;
        Some(s.(w := s.w.(servers := s.w.servers[a := s.w.servers[a].(
          sequences := s.w.servers[a].sequences[name := drawn])])))
      else None
    case MarkDeleted => Some(s.(w := s.w.(deleting := true)))
  }

  function NextSession(c: Config, s: Sys, e: SessionEvent): Option<Sys> {
    match e
    case AddFinalizer =>
      if s.ses.Idle? && !s.w.deleting && !s.w.finalizer then Some(s.(w := s.w.(finalizer := true))) else None
    case Open =>
      if s.ses.Idle? && s.w.finalizer && c.plan(s.w.status.active).Some? then
        Some(s.(ses := OpenSession(c, s.w)))
      else None
    case Persist =>
      if s.ses.Busy? then
        Some(Sys(s.w.(status := s.ses.mem), s.ses.(pc := AfterPersist(s.ses.pc))))
      else None
    case Abort => if s.ses.Idle? then None else Some(s.(ses := Idle))
    case Return =>
      if s.ses.Busy? && (s.ses.pc in {Over, Handed, Dispatch} || s.ses.pc == Got(Retry)) then
        Some(s.(ses := Idle))
      else None
  }

  /** The status of the new database when an existing one is chosen: the active one again, if it is the same server. */
  function Chosen(st: Status, source: Conn): DbStatus {
    var db := if st.active.state == UsingExistingDB && AddrOf(st.active.conn) == AddrOf(source) then st.active else st.newDb;
    db.(state := UsingExistingDB, source := Some(source))
  }

  /** One of the two users that the rotation alternates between. */
  predicate IsAppUser(c: Config, user: string) {
    user == c.user + "_a" || user == c.user + "_b"
  }

  /** The existing database is recorded where it is reached. */
  function Reached(db: DbStatus, source: Conn): DbStatus {
    db.(conn := db.conn.(host := source.host, port := source.port, sslmode := source.sslmode,
                         database := if db.conn.database == "" then source.database else db.conn.database))
  }

  function NextAdoption(c: Config, s: Sys, x: AdoptStep): Option<Sys> {
    if !s.ses.Busy? || s.ses.mode != UseExisting || c.source.None? then None
    else
      var ses, mem, source, a := s.ses, s.ses.mem, c.source.value, AddrOf(c.source.value);
      match x
      case ChooseExisting =>
        if ses.pc == Dispatch then
          Some(s.(ses := ses.(mem := mem.(newDb := Chosen(mem, source)), pc := Adopting)))
        else None
      case CacheMaster =>
        if ses.pc == Adopting && s.w.temp.None? then Some(s.(w := s.w.(temp := Some(Temp(None, ""))))) else None
      case ReachExisting =>
        if ses.pc == Adopting then
          Some(s.(ses := ses.(mem := mem.(newDb := Reached(mem.newDb, source)), pc := HostRecorded)))
        else None
      case GrantExisting =>
        if ses.pc == HostRecorded && a in s.w.servers then
          Some(s.(w := s.w.(servers := s.w.servers[a := s.w.servers[a].(writers := s.w.servers[a].writers + {c.user})])))
        else None
      case SetExistingLogin(user, password) =>
        if ses.pc == HostRecorded && a in s.w.servers && IsAppUser(c, user) then
          Some(s.(w := s.w.(servers := s.w.servers[a := s.w.servers[a].(logins := s.w.servers[a].logins[user := password])])))
        else None
      case RecordExisting(user) =>
        if ses.pc == HostRecorded && (IsAppUser(c, user) || user == mem.newDb.conn.user) then
          Some(s.(ses := ses.(mem := mem.(newDb := mem.newDb.(conn := mem.newDb.conn.(user := user))), pc := HostReady)))
        else None
      case PublishExisting(password) =>
        if ses.pc == HostReady then Some(s.(w := s.w.(app := Some(mem.newDb.conn.(password := password))))) else None
      case PromoteExisting =>
        if ses.pc == HostReady then
          Some(s.(ses := ses.(mem := mem.(active := mem.newDb, newDb := NO_DB), pc := Over)))
        else None
  }

  function NextProvision(c: Config, s: Sys, e: ProvisionEvent): Option<Sys> {
    if e.Adopt? then NextAdoption(c, s, e.step)
    else if !s.ses.Busy? || !Provisions(s.ses.mode) || c.plan(s.ses.mem.active).None? then None
    else
      var ses := s.ses;
      var mem := ses.mem;
      var p := c.plan(mem.active).value;
      var a := PlannedAddr(c, mem.active);
      match e
      case MarkInitial =>
        if ses.pc == Dispatch && ses.mode != UseNewDB && mem.migration == Unset then
          Some(s.(ses := ses.(mem := mem.(migration := At(Initial)), pc := Moved(Initial))))
        else None
      case CreateHost =>
        if ses.pc == Dispatch && MayProvision(ses) then
          Some(s.(w := s.w.(
            servers := if a in s.w.servers then s.w.servers else s.w.servers[a := FRESH_SERVER],
            instances := s.w.instances + c.instances(p.engine, p.shape, p.version),
            groups := s.w.groups + c.groups(p.engine, p.shape, p.version))))
        else None
      case RecordHost(sslmode) =>
        if ses.pc == Dispatch && MayProvision(ses) && a in s.w.servers then
          Some(s.(ses := ses.(mem := mem.(newDb := RecordPlan(mem.newDb, p, a, sslmode)), pc := HostRecorded)))
        else None
      case RefuseManaged =>
        if ses.pc == HostRecorded && mem.migration == At(Initial) then
          Some(s.(ses := ses.(mem := mem.(migration := Unset), pc := Over)))
        else None
      case GrantWrites =>
        if ses.pc == HostRecorded && a in s.w.servers then
          Some(s.(w := s.w.(servers := s.w.servers[a := s.w.servers[a].(writers := s.w.servers[a].writers + {c.user})])))
        else None
      case SetLogin(user, password) =>
        if ses.pc == HostRecorded && a in s.w.servers && IsAppUser(c, user) then
          Some(s.(w := s.w.(servers := s.w.servers[a := s.w.servers[a].(logins := s.w.servers[a].logins[user := password])])))
        else None
      case RecordUser(user) =>
        if ses.pc == HostRecorded && (IsAppUser(c, user) || user == mem.newDb.conn.user) then
          var db := if mem.newDb.conn.database == "" then c.database else mem.newDb.conn.database;
          Some(s.(ses := ses.(mem := mem.(newDb := mem.newDb.(conn := mem.newDb.conn.(user := user, database := db))),
                              pc := HostReady)))
        else None
      case CreateTemp =>
        if ses.pc == HostReady && ses.mode != UseNewDB && s.w.temp.None? then
          Some(s.(w := s.w.(temp := Some(Temp(None, "")))))
        else None
      case SavePassword(password) =>
        if ses.pc == HostReady && ses.mode != UseNewDB && s.w.temp.Some? then
          Some(s.(w := s.w.(temp := Some(s.w.temp.value.(password := password)))))
        else None
      case SaveSource =>
        if ses.pc == HostReady && ses.mode != UseNewDB && s.w.temp.Some? && RecoverSource(s.w, mem.migration).Some? then
          Some(Sys(s.w.(temp := Some(s.w.temp.value.(source := RecoverSource(s.w, mem.migration)))),
                   ses.(pc := SourceSaved)))
        else None
      case MarkInProgress =>
        if ses.pc == SourceSaved then
          Some(s.(ses := ses.(mem := mem.(migration := At(MigrationInProgress)), pc := Moved(MigrationInProgress))))
        else None
      case Publish(password) =>
        if ses.pc == HostReady && ses.mode == UseNewDB then
          Some(s.(w := s.w.(app := Some(mem.newDb.conn.(password := password)))))
        else None
      case Promote =>
        if ses.pc == HostReady && ses.mode == UseNewDB then
          Some(s.(ses := ses.(mem := mem.(active := mem.newDb.(state := Ready), newDb := NO_DB), pc := Over)))
        else None
    }

  function NextMigration(c: Config, s: Sys, e: MigrateEvent): Option<Sys> {
    if !s.ses.Busy? || !Migrates(s.ses.mode) || (c.plan(s.ses.mem.active).None? && !e.DropTemp?) then None
    else
      var ses := s.ses;
      var mem := ses.mem;
      match e
      case Resume =>
        if ses.pc == Dispatch && Resumable(c, s.w, ses.mode, mem) then
          Some(s.(ses := ses.(
            pc := Run(Replicator(mem.migration.stage).value),
            src := RecoverSource(s.w, mem.migration).value,
            tgt := Target(mem, s.w.temp.value.password))))
        else None
      case Exec(x) =>
        var d := Perform(c, s.w.servers, ses, x);
        if d.Some? then Some(Apply(s, d.value)) else None
      case Take =>
        if ses.pc.Got? && ses.pc.next !in {Completed, Retry, RerouteTargetSecret} then
          Some(s.(ses := ses.(mem := mem.(migration := At(ses.pc.next)), pc := Moved(ses.pc.next))))
        else None
      case SaveTemp =>
        if ses.pc == Got(RerouteTargetSecret) && s.w.temp.Some? then
          Some(Sys(s.w.(temp := Some(s.w.temp.value.(source := Some(ses.src)))), ses.(pc := TempSaved)))
        else None
      case Reroute =>
        if ses.pc == TempSaved then
          Some(Sys(s.w.(app := Some(ses.tgt)), ses.(pc := Rerouted)))
        else None
      case TakeReroute =>
        if ses.pc == Rerouted then
          Some(s.(ses := ses.(mem := mem.(migration := At(RerouteTargetSecret)), pc := Moved(RerouteTargetSecret))))
        else None
      case SwitchActive =>
        if ses.pc == Got(Completed) then
          Some(s.(ses := ses.(mem := Handover(mem), pc := Switched)))
        else None
      case DropTemp =>
        if ses.pc == Handed then Some(s.(w := s.w.(temp := None))) else None
    }

  /** The crossplane resources of the planned server. */
  function PlannedInstances(c: Config, st: Status): set<string> {
    if c.plan(st.active).None? then {}
    else var p := c.plan(st.active).value; c.instances(p.engine, p.shape, p.version)
  }

  function PlannedGroups(c: Config, st: Status): set<string> {
    if c.plan(st.active).None? then {}
    else var p := c.plan(st.active).value; c.groups(p.engine, p.shape, p.version)
  }

  /** The instance names that are deleted with the planned server. */
  function PurgedInstances(c: Config, st: Status): set<string> {
    if c.plan(st.active).None? then {}
    else var p := c.plan(st.active).value; c.deletes(p.engine, p.shape, p.version)
  }

  /** Nothing is left of the planned server. */
  predicate Purged(c: Config, w: World) {
    w.instances !! PurgedInstances(c, w.status) && w.groups !! PlannedGroups(c, w.status)
  }

  function NextCleanup(c: Config, s: Sys, e: CleanEvent): Option<Sys> {
    match e
    case DropOldGroup(name) =>
      if s.ses.Busy? && s.ses.mode == PostMigration && s.ses.pc == Dispatch && name in c.oldGroups(s.ses.mem.oldDb) then
        Some(s.(w := s.w.(groups := s.w.groups - {name})))
      else None
    case DropOldInstance(name) =>
      if s.ses.Busy? && s.ses.mode == PostMigration && s.ses.pc == Dispatch && name in c.oldInstances(s.ses.mem.oldDb) then
        Some(s.(w := s.w.(instances := s.w.instances - {name})))
      else None
    case ClearOld =>
      if s.ses.Busy? && s.ses.mode == PostMigration && s.ses.pc == Dispatch then
        Some(s.(ses := s.ses.(mem := s.ses.mem.(oldDb := NO_OLD_DB), pc := Over)))
      else None
    case PurgeInstance(name) =>
      if s.ses == Purging(false) && c.reclaim && name in PurgedInstances(c, s.w.status) then
        Some(s.(w := s.w.(instances := s.w.instances - {name})))
      else None
    case PurgeGroup(name) =>
      if s.ses == Purging(false) && c.reclaim && name in PlannedGroups(c, s.w.status) then
        Some(s.(w := s.w.(groups := s.w.groups - {name})))
      else None
    case PurgeDone =>
      if s.ses == Purging(false) && (c.reclaim ==> Purged(c, s.w)) then Some(s.(ses := Purging(true))) else None
    case RemoveFinalizer =>
      if s.ses == Purging(true) then Some(Sys(s.w.(finalizer := false), Idle)) else None
  }

  /** The state after an event, if the event can happen. */
  function Next(c: Config, s: Sys, e: Event): Option<Sys> {
    match e
    case Env(x) => NextEnvironment(s, x)
    case Control(x) => NextSession(c, s, x)
    case Provision(x) => NextProvision(c, s, x)
    case Migrate(x) => NextMigration(c, s, x)
    case Clean(x) => NextCleanup(c, s, x)
  }

  /** A finite run: the states, and the events between them. */
  datatype Trace = Trace(states: seq<Sys>, events: seq<Event>)

  ghost predicate IsRun(c: Config, r: Trace) {
    && |r.states| == |r.events| + 1
    && forall i :: 0 <= i < |r.events| ==> Next(c, r.states[i], r.events[i]) == Some(r.states[i + 1])
  }

  lemma StepOf(c: Config, r: Trace, i: nat)
    requires IsRun(c, r) && i < |r.events|
    ensures Next(c, r.states[i], r.events[i]) == Some(r.states[i + 1])
  {
  }

  function Last(r: Trace): Sys
    requires |r.states| > 0
  {
    r.states[|r.states| - 1]
  }

  /** The run with one more event. */
  function Grown(r: Trace, e: Event, s': Sys): Trace {
    Trace(r.states + [s'], r.events + [e])
  }

  lemma RunGrows(c: Config, r: Trace, e: Event, s': Sys)
    requires IsRun(c, r) && Next(c, Last(r), e) == Some(s')
    ensures IsRun(c, Grown(r, e, s'))
  {
    var r' := Grown(r, e, s');
    forall i | 0 <= i < |r'.events| ensures Next(c, r'.states[i], r'.events[i]) == Some(r'.states[i + 1]) {
      if i < |r.events| {
        StepOf(c, r, i);
      }
    }
  }
}
