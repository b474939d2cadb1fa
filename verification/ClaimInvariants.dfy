/**
 What every reachable state of the protocol keeps, however often sessions are cut short:
 the shape of the status, and how the in-memory copy of a session may differ from it.
 */
module ClaimInvariants {
  import opened Options
  import opened Stages
  import opened Claim
  import opened Protocol

  /** The database was provisioned with the parameters of the plan. */
  predicate Carries(p: Option<Plan>, db: DbStatus) {
    && p.Some?
    && db.engine == p.value.engine && db.version == p.value.version && db.shape == p.value.shape
    && (p.value.engine == "postgres" ==> db.maxStorage == p.value.maxStorage)
  }

  /** The database is reached at the server that its own recorded parameters name. */
  predicate Named(c: Config, db: DbStatus) {
    AddrOf(db.conn) == c.addr(c.nameOf(db.engine, db.shape, db.version))
  }

  predicate OldNamed(c: Config, db: OldDb) {
    db.conn.Some? && AddrOf(db.conn.value) == c.addr(c.nameOf(db.engine, db.shape, db.version))
  }

  /** The laws of naming and planning on which the run properties rest. */
  ghost predicate Lawful(c: Config) {
    && !c.useExisting
    && (forall a, db {:trigger Carries(c.plan(a), db)} ::
          Carries(c.plan(a), db) ==> c.plan(db) == c.plan(a) && !c.upgrade(db))
    && (forall n {:trigger c.addr(n)} :: c.addr(n).host != "")
  }

  /** The active database is to be replaced by a new one. */
  predicate Pending(c: Config, a: DbStatus) {
    a.state == UsingExistingDB || (a.state == Ready && c.upgrade(a))
  }

  predicate SourceUsable(c: Config, st: Status) {
    && (c.source.Some? ==> c.sourceIsDatabase)
    && (st.active.state == UsingExistingDB ==> KnownSource(c, st).Some?)
  }

  /** The new and the active database are different servers. */
  predicate Apart(st: Status) {
    AddrOf(st.newDb.conn) != AddrOf(st.active.conn)
  }

  /** What holds of every persisted status, and of every in-memory copy. */
  predicate StatusInv(c: Config, st: Status) {
    && (st.active.state == NoState || st.active.state == Ready || st.active.state == UsingExistingDB)
    && (st.oldDb.state == NoState || st.oldDb.state == PostMigrationInProgress)
    && st.migration != At(Retry)
    && (st.active.state == UsingExistingDB ==> st.migration != At(Completed))
    && (st.active.state == Ready ==> Named(c, st.active))
    && (st.active.state == Ready && !c.upgrade(st.active) && c.plan(st.active).Some? ==>
          AddrOf(st.active.conn) == PlannedAddr(c, st.active))
    && (st.newDb.conn.host != "" ==>
          Carries(c.plan(st.active), st.newDb) && AddrOf(st.newDb.conn) == PlannedAddr(c, st.active))
    && (st.migration.At? && st.migration != At(Completed) ==>
          && Pending(c, st.active) && SourceUsable(c, st) && c.plan(st.active).Some?
          && (st.active.state == Ready ==> st.newDb.state != NoState)
          && st.oldDb.state == NoState)
    && (Running(st.migration) ==> st.newDb.conn.host != "")
    && (Running(st.migration) && st.migration != At(MigrationInProgress) ==> Apart(st))
    && (st.migration == At(Completed) ==> st.newDb.state == NoState)
    && (st.oldDb.state == PostMigrationInProgress ==>
          && OldNamed(c, st.oldDb)
          && st.active.state == Ready && st.migration == At(Completed) && !c.upgrade(st.active)
          && AddrOf(st.oldDb.conn.value) != AddrOf(st.active.conn))
  }

  /**
   A status from which a run may start: no migration is under way and nothing is left to
   clean up; a ready database is at the server that its parameters name, and it is the
   planned one unless an upgrade is asked for.
   */
  predicate Quiescent(c: Config, st: Status) {
    && (st.active.state == NoState || st.active.state == Ready || st.active.state == UsingExistingDB)
    && st.newDb == NO_DB && st.oldDb == NO_OLD_DB
    && (st.migration == Unset || (st.migration == At(Completed) && st.active.state != UsingExistingDB))
    && (st.active.state == Ready ==>
          && Named(c, st.active)
          && (!c.upgrade(st.active) && c.plan(st.active).Some? ==> AddrOf(st.active.conn) == PlannedAddr(c, st.active)))
  }

  /** The stage that a session executes for a persisted migration state. */
  function Resumed(m: Migration): Option<Stage> {
    if m.At? then Replicator(m.stage) else None
  }

  /** The next stage was obtained by executing the persisted one. */
  predicate Follows(m: Migration, next: Stage) {
    && Resumed(m).Some? && Resumed(m) != Some(Completed)
    && (next == Successor(Resumed(m).value) || next == Retry)
  }

  predicate ProvisionInv(c: Config, st: Status, ses: Session)
    requires ses.Busy?
  {
    var mem := ses.mem;
    && mem.oldDb == st.oldDb && st.oldDb.state == NoState
    && ses.pc in {Begin, Dispatch, HostRecorded, HostReady, SourceSaved, Moved(Initial), Moved(MigrationInProgress), Over}
    && (ses.pc in {HostRecorded, HostReady, SourceSaved} ==> mem.newDb.conn.host != "")
    && ((ses.mode != UseNewDB || ses.pc != Over) && st.newDb.conn.host != "" ==> mem.newDb.conn.host != "")
    && (ses.mode == UseNewDB ==>
          && !Pending(c, mem.active) && !Pending(c, st.active) && Deletable(mem.migration) && mem.migration == st.migration
          && ses.pc in {Begin, Dispatch, HostRecorded, HostReady, Over}
          && (ses.pc != Over ==> mem.active == st.active && mem.newDb.state == st.newDb.state)
          && (ses.pc == Over ==> mem.active.state == Ready && mem.newDb.conn.host == ""
                                 && c.plan(mem.active) == c.plan(st.active) && c.plan(st.active).Some?
                                 && AddrOf(mem.active.conn) == PlannedAddr(c, mem.active)))
    && (ses.mode != UseNewDB ==>
          && mem.active == st.active && Pending(c, mem.active) && SourceUsable(c, mem)
          && (mem.active.state == Ready ==> mem.newDb.state != NoState)
          && (ses.pc !in {Moved(MigrationInProgress), Over} ==> NotStarted(mem.migration) && !Running(st.migration))
          && (ses.pc == Moved(MigrationInProgress) ==> mem.migration == At(MigrationInProgress) && NotStarted(st.migration))
          && (ses.pc in {HostRecorded, HostReady, SourceSaved} ==> mem.migration == At(Initial) && st.migration == At(Initial))
          && (ses.pc == Moved(Initial) ==> mem.migration == At(Initial))
          && (ses.pc == Dispatch ==> mem == st)
          && (ses.pc == Over ==> mem.migration == At(MigrationInProgress) || mem.migration == Unset)
          && (ses.pc == Over && mem.migration == At(MigrationInProgress) ==> mem == st)
          && (ses.pc == Over && mem.migration == Unset ==> NotStarted(st.migration)))
  }

  predicate MigrateInv(c: Config, st: Status, ses: Session)
    requires ses.Busy?
  {
    var mem := ses.mem;
    match ses.pc
    case Begin => mem == st && Running(st.migration)
    case Dispatch => mem == st && Running(st.migration)
    case Over => mem == st && Running(st.migration)
    case Run(n) => mem == st && Running(st.migration) && Resumed(st.migration) == Some(n) && Apart(st)
    case Granted => mem == st && st.migration == At(CopySchema) && Apart(st)
    case Reading(_) => mem == st && st.migration == At(ResetTargetSequence) && Apart(st)
    case Setting(_) => mem == st && st.migration == At(ResetTargetSequence) && Apart(st)
    case Restored => mem == st && st.migration == At(CopySchema) && Apart(st)
    case Got(n) => mem == st && Running(st.migration) && Follows(st.migration, n) && Apart(st)
    case TempSaved => mem == st && st.migration == At(ResetTargetSequence) && Apart(st)
    case Rerouted => mem == st && st.migration == At(ResetTargetSequence) && Apart(st)
    case Moved(n) =>
      && mem == st.(migration := At(n)) && Running(st.migration) && Running(mem.migration)
      && Follows(st.migration, n) && n != Retry && n != Initial && n != MigrationInProgress && Apart(st)
    case Switched => mem == Handover(st) && st.migration == At(DeletePublication) && Apart(st)
    case Handed => mem == st && st.migration == At(Completed)
    case _ => false
  }

  predicate PostInv(st: Status, ses: Session)
    requires ses.Busy?
  {
    && ses.pc in {Begin, Dispatch, Over} && st.migration == At(Completed)
    && (ses.pc != Over ==> ses.mem == st && st.oldDb.state == PostMigrationInProgress)
    && (ses.pc == Over ==> ses.mem == st.(oldDb := NO_OLD_DB))
  }

  predicate Inv(c: Config, s: Sys) {
    && StatusInv(c, s.w.status)
    && match s.ses
       case Idle => true
       case Purging(_) => s.w.deleting && s.w.finalizer && Deletable(s.w.status.migration)
       case Busy(mode, mem, pc, _, _) =>
         && StatusInv(c, mem) && c.plan(mem.active).Some? && c.plan(s.w.status.active).Some?
         && (if Provisions(mode) then ProvisionInv(c, s.w.status, s.ses)
             else if Migrates(mode) then
               && MigrateInv(c, s.w.status, s.ses)
               && (pc != Handed ==> mode == ModeWhileRunning(s.w.status))
             else if mode == PostMigration then PostInv(s.w.status, s.ses)
             else mode == NotSupported && mem == s.w.status && pc == Over)
  }

  function ModeWhileRunning(st: Status): Mode {
    if st.active.state == UsingExistingDB then MigrationRunning else UpgradeRunning
  }

  /** While a migration is running, the mode is fixed by the active database and nothing is reset. */
  lemma RunningFixesMode(c: Config, st: Status)
    requires Lawful(c) && StatusInv(c, st) && Running(st.migration)
    ensures GetMode(c, st) == (ModeWhileRunning(st), st)
  {
  }

  lemma EnvironmentKeepsInv(c: Config, s: Sys, e: EnvEvent, s': Sys)
    requires Inv(c, s) && NextEnvironment(s, e) == Some(s')
    ensures Inv(c, s')
  {
  }

  lemma OpenKeepsInv(c: Config, s: Sys, s': Sys)
    requires Lawful(c) && Inv(c, s) && NextSession(c, s, Open) == Some(s')
    ensures Inv(c, s')
  {
    if Running(s.w.status.migration) {
      OpenRunningKeepsInv(c, s, s');
    } else if !(s.w.deleting && Deletable(s.w.status.migration)) {
      OpenOtherKeepsInv(c, s, s');
    }
  }

  lemma OpenRunningKeepsInv(c: Config, s: Sys, s': Sys)
    requires Lawful(c) && StatusInv(c, s.w.status) && NextSession(c, s, Open) == Some(s') && Running(s.w.status.migration)
    ensures Inv(c, s')
  {
    RunningFixesMode(c, s.w.status);
  }

  lemma OpenOtherKeepsInv(c: Config, s: Sys, s': Sys)
    requires Lawful(c) && StatusInv(c, s.w.status) && NextSession(c, s, Open) == Some(s') && !Running(s.w.status.migration)
    requires !(s.w.deleting && Deletable(s.w.status.migration))
    ensures Inv(c, s')
  {
  }

  lemma PersistProvisionKeepsInv(c: Config, s: Sys, s': Sys)
    requires Inv(c, s) && NextSession(c, s, Persist) == Some(s') && Provisions(s.ses.mode)
    ensures Inv(c, s')
  {
  }

  lemma PersistMigrateKeepsInv(c: Config, s: Sys, s': Sys)
    requires Inv(c, s) && NextSession(c, s, Persist) == Some(s') && Migrates(s.ses.mode)
    ensures Inv(c, s')
  {
  }

  lemma PersistOtherKeepsInv(c: Config, s: Sys, s': Sys)
    requires Inv(c, s) && NextSession(c, s, Persist) == Some(s') && !Provisions(s.ses.mode) && !Migrates(s.ses.mode)
    ensures Inv(c, s')
  {
  }

  lemma PersistKeepsInv(c: Config, s: Sys, s': Sys)
    requires Inv(c, s) && NextSession(c, s, Persist) == Some(s')
    ensures Inv(c, s')
  {
    if Provisions(s.ses.mode) {
      PersistProvisionKeepsInv(c, s, s');
    } else if Migrates(s.ses.mode) {
      PersistMigrateKeepsInv(c, s, s');
    } else {
      PersistOtherKeepsInv(c, s, s');
    }
  }

  lemma SessionKeepsInv(c: Config, s: Sys, e: SessionEvent, s': Sys)
    requires Lawful(c) && Inv(c, s) && NextSession(c, s, e) == Some(s')
    ensures Inv(c, s')
  {
    match e
    case Open => OpenKeepsInv(c, s, s');
    case Persist => PersistKeepsInv(c, s, s');
    case _ =>
  }

  lemma HostKeepsInv(c: Config, s: Sys, e: ProvisionEvent, s': Sys)
    requires e.MarkInitial? || e.CreateHost? || e.RecordHost? || e.RefuseManaged? || e.GrantWrites? || e.SetLogin? || e.RecordUser?
    requires Lawful(c) && Inv(c, s) && NextProvision(c, s, e) == Some(s')
    ensures Inv(c, s')
  {
  }

  lemma StartKeepsInv(c: Config, s: Sys, e: ProvisionEvent, s': Sys)
    requires e.CreateTemp? || e.SavePassword? || e.SaveSource? || e.MarkInProgress? || e.Publish?
    requires Inv(c, s) && NextProvision(c, s, e) == Some(s')
    ensures Inv(c, s')
  {
  }

  lemma PromoteKeepsInv(c: Config, s: Sys, s': Sys)
    requires Lawful(c) && Inv(c, s) && NextProvision(c, s, Promote) == Some(s')
    ensures Inv(c, s')
  {
    assert Carries(c.plan(s.ses.mem.active), s.ses.mem.newDb);
    assert Carries(c.plan(s.ses.mem.active), s.ses.mem.newDb.(state := Ready));
  }

  /** In a run that does not use an existing source, no existing database is put to use. */
  lemma NoAdoption(c: Config, s: Sys, x: AdoptStep)
    requires Inv(c, s)
    ensures NextAdoption(c, s, x) == None
  {
  }

  lemma ProvisionKeepsInv(c: Config, s: Sys, e: ProvisionEvent, s': Sys)
    requires Lawful(c) && Inv(c, s) && NextProvision(c, s, e) == Some(s')
    ensures Inv(c, s')
  {
    if e.Adopt? {
      NoAdoption(c, s, e.step);
    } else if e.Promote? {
      PromoteKeepsInv(c, s, s');
    } else if e.CreateTemp? || e.SavePassword? || e.SaveSource? || e.MarkInProgress? || e.Publish? {
      StartKeepsInv(c, s, e, s');
    } else {
      HostKeepsInv(c, s, e, s');
    }
  }

  /** How executing a stage moves a session. */
  predicate ExecMoves(pc: Pc, pc': Pc) {
    match pc
    case Run(n) =>
      || (n == CopySchema && pc' == Granted)
      || (n == ResetTargetSequence && pc'.Reading?)
      || (HasState(n) && n != CopySchema && n != ResetTargetSequence && pc'.Got? && pc'.next in {Successor(n), Retry})
    case Reading(_) => pc'.Reading? || pc'.Setting?
    case Setting(_) => pc'.Setting? || pc' == Got(RerouteTargetSecret)
    case Granted => pc' == Restored || pc' == Over
    case Restored => pc' == Got(CreateSubscription)
    case _ => false
  }

  lemma PerformMoves(c: Config, servers: map<Addr, Server>, ses: Session, x: Effect)
    requires ses.Busy? && c.plan(ses.mem.active).Some? && Perform(c, servers, ses, x).Some?
    ensures ExecMoves(ses.pc, Perform(c, servers, ses, x).value.pc)
  {
    if x.Reset? {
      ResetMoves(servers, ses, x.step);
    } else if x.Pass? {
      PassMoves(ses.pc.stage);
    } else if CopiesSchema(x) {
      CopyMoves(c, servers, ses, x);
    } else {
      EffectMoves(c, servers, ses, x);
    }
  }

  lemma ResetMoves(servers: map<Addr, Server>, ses: Session, x: ResetStep)
    requires ses.Busy? && PerformReset(servers, ses, x).Some?
    ensures ExecMoves(ses.pc, PerformReset(servers, ses, x).value.pc)
  {
  }

  predicate CopiesSchema(x: Effect) {
    x == Grant || x == Restore || x == RestoreFails || x == RevokeGrant
  }

  lemma CopyMoves(c: Config, servers: map<Addr, Server>, ses: Session, x: Effect)
    requires ses.Busy? && c.plan(ses.mem.active).Some? && Perform(c, servers, ses, x).Some? && CopiesSchema(x)
    ensures ExecMoves(ses.pc, Perform(c, servers, ses, x).value.pc)
  {
  }

  lemma PassMoves(n: Stage)
    requires HasNoEffect(n)
    ensures ExecMoves(Run(n), Got(Successor(n)))
  {
  }

  /** The stage that an effect belongs to, if it is the only one of its stage. */
  function StageOf(x: Effect): Stage {
    match x
    case CreatePub => CreatePublication
    case CreateSub => CreateSubscription
    case EnableSub => EnableSubscription
    case CheckReady => CutOverReadinessCheck
    case RevokeWrites => DisableSourceAccess
    case Compare => ValidateMigrationStatus
    case DisableSub => DisableSubscription
    case DropSub => DeleteSubscription
    case DropPub => DeletePublication
    case _ => Initial
  }

  lemma EffectMoves(c: Config, servers: map<Addr, Server>, ses: Session, x: Effect)
    requires ses.Busy? && c.plan(ses.mem.active).Some? && Perform(c, servers, ses, x).Some?
    requires !x.Reset? && !x.Pass? && !CopiesSchema(x)
    ensures ExecMoves(ses.pc, Perform(c, servers, ses, x).value.pc)
  {
    StageEnds(c, servers, ses, x);
    StageMoves(StageOf(x), Perform(c, servers, ses, x).value.pc);
  }

  lemma StageEnds(c: Config, servers: map<Addr, Server>, ses: Session, x: Effect)
    requires ses.Busy? && c.plan(ses.mem.active).Some? && Perform(c, servers, ses, x).Some?
    requires !x.Reset? && !x.Pass? && !CopiesSchema(x)
    ensures ses.pc == Run(StageOf(x))
    ensures Perform(c, servers, ses, x).value.pc in {Got(Successor(StageOf(x))), Got(Retry)}
  {
  }

  lemma StageMoves(n: Stage, pc: Pc)
    requires HasState(n) && n != CopySchema && n != ResetTargetSequence && pc in {Got(Successor(n)), Got(Retry)}
    ensures ExecMoves(Run(n), pc)
  {
  }

  lemma MoveKeepsInv(c: Config, s: Sys, s': Sys)
    requires Inv(c, s) && s.ses.Busy? && Migrates(s.ses.mode)
    requires s'.ses.Busy? && ExecMoves(s.ses.pc, s'.ses.pc)
    requires s'.w.status == s.w.status && s'.ses == s.ses.(pc := s'.ses.pc)
    ensures Inv(c, s')
  {
    if s.ses.pc.Run? {
      StageMoveKeepsFollowing(s.w.status, s.ses, s'.ses);
    }
  }

  lemma StageMoveKeepsFollowing(st: Status, ses: Session, ses': Session)
    requires ses.Busy? && ses'.Busy? && ses.pc.Run? && ExecMoves(ses.pc, ses'.pc) && Resumed(st.migration) == Some(ses.pc.stage)
    ensures ses'.pc.Got? ==> Follows(st.migration, ses'.pc.next)
    ensures ses'.pc.Granted? ==> st.migration == At(CopySchema)
    ensures ses'.pc.Reading? ==> st.migration == At(ResetTargetSequence)
    ensures ses'.pc.Got? || ses'.pc.Granted? || ses'.pc.Reading?
  {
  }

  lemma ExecKeepsInv(c: Config, s: Sys, x: Effect, s': Sys)
    requires Inv(c, s) && NextMigration(c, s, Exec(x)) == Some(s')
    ensures Inv(c, s')
  {
    PerformMoves(c, s.w.servers, s.ses, x);
    MoveKeepsInv(c, s, s');
  }

  lemma ResumeKeepsInv(c: Config, s: Sys, s': Sys)
    requires Inv(c, s) && NextMigration(c, s, Resume) == Some(s')
    ensures Inv(c, s')
  {
  }

  lemma StageMoveKeepsStatus(c: Config, st: Status, n: Stage)
    requires StatusInv(c, st) && Running(st.migration) && Apart(st) && n !in {Initial, Completed, Retry}
    ensures StatusInv(c, st.(migration := At(n)))
  {
  }

  lemma StageMoveKeepsInv(c: Config, s: Sys, n: Stage, s': Sys)
    requires Inv(c, s) && s.ses.Busy? && Migrates(s.ses.mode)
    requires s.ses.mem == s.w.status && s.ses.pc != Handed && Running(s.w.status.migration) && Apart(s.w.status)
    requires Follows(s.w.status.migration, n) && n !in {Initial, Completed, Retry, MigrationInProgress}
    requires s' == s.(ses := s.ses.(mem := s.w.status.(migration := At(n)), pc := Moved(n)))
    ensures Inv(c, s')
  {
    StageMoveKeepsStatus(c, s.w.status, n);
  }

  lemma TakeKeepsInv(c: Config, s: Sys, s': Sys)
    requires Inv(c, s) && NextMigration(c, s, Take) == Some(s')
    ensures Inv(c, s')
  {
    StageMoveKeepsInv(c, s, s.ses.pc.next, s');
  }

  lemma SecretsKeepInv(c: Config, s: Sys, e: MigrateEvent, s': Sys)
    requires e.SaveTemp? || e.Reroute? || e.DropTemp?
    requires Inv(c, s) && NextMigration(c, s, e) == Some(s')
    ensures Inv(c, s')
  {
    if e.SaveTemp? {
      SaveTempKeepsInv(c, s, s');
    }
  }

  lemma SaveTempKeepsInv(c: Config, s: Sys, s': Sys)
    requires Inv(c, s) && NextMigration(c, s, SaveTemp) == Some(s')
    ensures Inv(c, s')
  {
  }

  lemma TakeRerouteKeepsInv(c: Config, s: Sys, s': Sys)
    requires Inv(c, s) && NextMigration(c, s, TakeReroute) == Some(s')
    ensures Inv(c, s')
  {
    StageMoveKeepsInv(c, s, RerouteTargetSecret, s');
  }

  lemma HandoverKeepsStatus(c: Config, st: Status)
    requires Lawful(c) && StatusInv(c, st) && Running(st.migration) && Apart(st)
    ensures StatusInv(c, Handover(st)) && c.plan(Handover(st).active) == c.plan(st.active)
  {
    assert Carries(c.plan(st.active), st.newDb.(state := Ready));
  }

  lemma SwitchKeepsInv(c: Config, s: Sys, s': Sys)
    requires Lawful(c) && Inv(c, s) && NextMigration(c, s, SwitchActive) == Some(s')
    ensures Inv(c, s')
  {
    SwitchesAtEnd(c, s, s');
    SwitchedKeepsInv(c, s, s');
  }

  lemma SwitchesAtEnd(c: Config, s: Sys, s': Sys)
    requires Inv(c, s) && NextMigration(c, s, SwitchActive) == Some(s')
    ensures StatusInv(c, s.w.status) && s.ses.Busy? && Migrates(s.ses.mode)
    ensures s.ses.mode == ModeWhileRunning(s.w.status) && c.plan(s.w.status.active).Some?
    ensures s.w.status.migration == At(DeletePublication) && Apart(s.w.status)
    ensures s' == s.(ses := s.ses.(mem := Handover(s.w.status), pc := Switched))
  {
    OnlyDeletionCompletes(s.w.status.migration);
  }

  lemma OnlyDeletionCompletes(m: Migration)
    requires Follows(m, Completed)
    ensures m == At(DeletePublication)
  {
  }

  lemma SwitchedKeepsInv(c: Config, s: Sys, s': Sys)
    requires Lawful(c) && StatusInv(c, s.w.status) && s.ses.Busy? && Migrates(s.ses.mode)
    requires s.ses.mode == ModeWhileRunning(s.w.status) && c.plan(s.w.status.active).Some?
    requires s.w.status.migration == At(DeletePublication) && Apart(s.w.status)
    requires s' == s.(ses := s.ses.(mem := Handover(s.w.status), pc := Switched))
    ensures Inv(c, s')
  {
    HandoverKeepsStatus(c, s.w.status);
  }

  lemma MigrationKeepsInv(c: Config, s: Sys, e: MigrateEvent, s': Sys)
    requires Lawful(c) && Inv(c, s) && NextMigration(c, s, e) == Some(s')
    ensures Inv(c, s')
  {
    match e
    case Exec(x) => ExecKeepsInv(c, s, x, s');
    case Resume => ResumeKeepsInv(c, s, s');
    case Take => TakeKeepsInv(c, s, s');
    case SwitchActive => SwitchKeepsInv(c, s, s');
    case TakeReroute => TakeRerouteKeepsInv(c, s, s');
    case _ => SecretsKeepInv(c, s, e, s');
  }

  lemma DropKeepsInv(c: Config, s: Sys, e: CleanEvent, s': Sys)
    requires e.DropOldGroup? || e.DropOldInstance?
    requires Inv(c, s) && NextCleanup(c, s, e) == Some(s')
    ensures Inv(c, s')
  {
  }

  lemma ForgettingKeepsInv(c: Config, s: Sys, s': Sys)
    requires Inv(c, s) && NextCleanup(c, s, ClearOld) == Some(s')
    ensures Inv(c, s')
  {
  }

  lemma PurgeKeepsInv(c: Config, s: Sys, e: CleanEvent, s': Sys)
    requires e.PurgeInstance? || e.PurgeGroup? || e.PurgeDone? || e.RemoveFinalizer?
    requires Inv(c, s) && NextCleanup(c, s, e) == Some(s')
    ensures Inv(c, s')
  {
  }

  lemma CleanupKeepsInv(c: Config, s: Sys, e: CleanEvent, s': Sys)
    requires Inv(c, s) && NextCleanup(c, s, e) == Some(s')
    ensures Inv(c, s')
  {
    if e.ClearOld? {
      ForgettingKeepsInv(c, s, s');
    } else if e.DropOldGroup? || e.DropOldInstance? {
      DropKeepsInv(c, s, e, s');
    } else {
      PurgeKeepsInv(c, s, e, s');
    }
  }

  lemma StepKeepsInv(c: Config, s: Sys, e: Event, s': Sys)
    requires Lawful(c) && Inv(c, s) && Next(c, s, e) == Some(s')
    ensures Inv(c, s')
  {
    match e
    case Env(x) => EnvironmentKeepsInv(c, s, x, s');
    case Control(x) => SessionKeepsInv(c, s, x, s');
    case Provision(x) => ProvisionKeepsInv(c, s, x, s');
    case Migrate(x) => MigrationKeepsInv(c, s, x, s');
    case Clean(x) => CleanupKeepsInv(c, s, x, s');
  }

  /** Every state of every run satisfies the invariant. */
  lemma {:induction false} RunKeepsInv(c: Config, r: Trace, k: nat)
    requires Lawful(c) && IsRun(c, r) && Inv(c, r.states[0]) && k < |r.states|
    ensures Inv(c, r.states[k])
  {
    if k > 0 {
      RunKeepsInv(c, r, k - 1);
      StepOf(c, r, k - 1);
      StepKeepsInv(c, r.states[k - 1], r.events[k - 1], r.states[k]);
    }
  }
}
