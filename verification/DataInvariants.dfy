/**
 What every reachable state keeps about the secrets and the two databases of a migration,
 as long as no session has read back a rerouted application secret as its source.
 */
module DataInvariants {
  import opened Options
  import opened Stages
  import opened Claim
  import opened Protocol
  import opened ClaimInvariants

  /** The session resumes at the sequence reset, and the application secret already holds the target. */
  predicate ReadsReroutedSecret(s: Sys, e: Event) {
    && e == Migrate(Resume)
    && s.w.status.migration == At(ResetTargetSequence)
    && HoldsTarget(s.w)
  }

  /** The application secret holds the target of the migration. */
  predicate HoldsTarget(w: World) {
    w.temp.Some? && w.app == Some(Target(w.status, w.temp.value.password))
  }

  /** The application secret is the one of the active database, and so is the administrator's connection. */
  predicate SourceKnown(c: Config, w: World) {
    && (w.status.active.state == UsingExistingDB && KnownSource(c, w.status).Some? ==>
          AddrOf(KnownSource(c, w.status).value) == AddrOf(w.status.active.conn))
    && (Pending(c, w.status.active) && !Running(w.status.migration) ==>
          w.app.Some? && AddrOf(w.app.value) == AddrOf(w.status.active.conn))
  }

  /** Which connection each secret holds at a stage. */
  predicate SecretsAt(w: World, n: Stage) {
    && w.temp.Some? && w.temp.value.source.Some?
    && AddrOf(w.temp.value.source.value) == AddrOf(w.status.active.conn)
    && (Position(n) <= Position(CutOverReadinessCheck) ==> w.app == w.temp.value.source)
    && (n == ResetTargetSequence ==> w.app == w.temp.value.source || HoldsTarget(w))
    && (Position(n) >= Position(RerouteTargetSecret) ==> HoldsTarget(w))
  }

  /** What the source server looks like when a stage is due. */
  predicate SourceAt(n: Stage, server: Server, role: string) {
    && (Position(CopySchema) <= Position(n) <= Position(DeleteSubscription) ==> server.publication)
    && (n == Completed ==> !server.publication)
    && (Position(ValidateMigrationStatus) <= Position(n) ==> role !in server.writers)
  }

  /** What the target server looks like when a stage is due. */
  predicate TargetAt(n: Stage, server: Server, role: string) {
    && (Position(CreateSubscription) <= Position(n) ==> role !in server.superusers)
    && (n == EnableSubscription || n == DisableSubscription ==> server.subscription != Absent)
    && (Position(CutOverReadinessCheck) <= Position(n) <= Position(ValidateMigrationStatus) ==>
          server.subscription == Enabled)
    && (Position(DeletePublication) <= Position(n) ==> server.subscription == Absent)
  }

  predicate ServersAt(w: World, n: Stage) {
    var src, tgt := AddrOf(w.status.active.conn), AddrOf(w.status.newDb.conn);
    && w.temp.Some? && w.temp.value.source.Some?
    && (Position(CopySchema) <= Position(n) ==>
          src in w.servers && SourceAt(n, w.servers[src], ParentRole(w.temp.value.source.value.user)))
    && (Position(CreateSubscription) <= Position(n) ==>
          tgt in w.servers && TargetAt(n, w.servers[tgt], ParentRole(w.status.newDb.conn.user)))
  }

  /** The furthest stage that has become due, be it only in memory. */
  function Front(s: Sys): Stage
    requires s.w.status.migration.At?
  {
    if s.ses.Busy? && Migrates(s.ses.mode) then
      match s.ses.pc
      case Got(n) => if n == Retry then s.w.status.migration.stage else n
      case Moved(n) => n
      case Switched => Completed
      case _ => s.w.status.migration.stage
    else s.w.status.migration.stage
  }

  /** The session has read its source and target and is at work on the stages. */
  predicate Executes(ses: Session) {
    ses.Busy? && Migrates(ses.mode) &&
    (ses.pc.Run? || ses.pc.Reading? || ses.pc.Setting? || ses.pc.Granted? || ses.pc.Restored? || ses.pc.Got?
     || ses.pc.TempSaved? || ses.pc.Rerouted? || ses.pc.Moved?)
  }

  /** At these points the source that the session has read is not used any more. */
  predicate SourceUnused(pc: Pc) {
    pc == Run(RerouteTargetSecret) || pc == Got(WaitToDisableSource) || pc == Moved(WaitToDisableSource)
  }

  predicate SessionData(w: World, ses: Session) {
    && (Executes(ses) ==>
          && w.temp.Some?
          && ses.tgt == Target(w.status, w.temp.value.password)
          && (Some(ses.src) == w.temp.value.source || SourceUnused(ses.pc))
          && (ses.pc == Rerouted || ses.pc == Moved(RerouteTargetSecret) ==> w.app == Some(ses.tgt)))
    && (ses.Busy? && Provisions(ses.mode) && (ses.pc == SourceSaved || ses.pc == Moved(MigrationInProgress)) ==>
          w.temp.Some? && w.app.Some? && w.temp.value.source == w.app)
  }

  predicate DataInv(c: Config, s: Sys) {
    && SourceKnown(c, s.w)
    && SessionData(s.w, s.ses)
    && (Running(s.w.status.migration) ==>
          && SecretsAt(s.w, s.w.status.migration.stage)
          && ServersAt(s.w, s.w.status.migration.stage)
          && ServersAt(s.w, Front(s)))
  }

  /** The servers agree in everything that the stages of a migration rely on. */
  predicate Alike(server: Server, server': Server) {
    && server'.publication == server.publication && server'.subscription == server.subscription
    && server'.superusers == server.superusers && server'.writers == server.writers
  }

  lemma AlikeKeepsServers(w: World, a: Addr, server: Server, n: Stage)
    requires a in w.servers && Alike(w.servers[a], server) && ServersAt(w, n)
    ensures ServersAt(w.(servers := w.servers[a := server]), n)
  {
  }

  lemma AlikeKeepsData(c: Config, s: Sys, a: Addr, server: Server)
    requires DataInv(c, s) && a in s.w.servers && Alike(s.w.servers[a], server)
    ensures DataInv(c, s.(w := s.w.(servers := s.w.servers[a := server])))
  {
    if Running(s.w.status.migration) {
      AlikeKeepsServers(s.w, a, server, s.w.status.migration.stage);
      AlikeKeepsServers(s.w, a, server, Front(s));
    }
  }

  /** The environment changes rows, sequences and marks of one server only. */
  lemma EnvironmentChange(s: Sys, e: EnvEvent, s': Sys)
    requires NextEnvironment(s, e) == Some(s') && !e.MarkDeleted?
    ensures e.at in s.w.servers && e.at in s'.w.servers && Alike(s.w.servers[e.at], s'.w.servers[e.at])
    ensures s'.w.servers[e.at].logins == s.w.servers[e.at].logins
    ensures s' == s.(w := s.w.(servers := s.w.servers[e.at := s'.w.servers[e.at]]))
  {
  }

  lemma EnvironmentKeepsData(c: Config, s: Sys, e: EnvEvent, s': Sys)
    requires DataInv(c, s) && NextEnvironment(s, e) == Some(s')
    ensures DataInv(c, s')
  {
    if !e.MarkDeleted? {
      EnvironmentChange(s, e, s');
      AlikeKeepsData(c, s, e.at, s'.w.servers[e.at]);
    }
  }

  lemma OpenKeepsData(c: Config, s: Sys, s': Sys)
    requires DataInv(c, s) && NextSession(c, s, Open) == Some(s')
    ensures DataInv(c, s')
  {
  }

  lemma SecretsMove(w: World, m: Stage, n: Stage)
    requires SecretsAt(w, m) && Follows(At(m), n) && n != Completed && n != Retry
    requires n == RerouteTargetSecret ==> HoldsTarget(w)
    ensures SecretsAt(w, n)
  {
  }

  lemma RestageKeepsWorld(w: World, st: Status, n: Stage)
    requires st == w.status.(migration := st.migration)
    ensures ServersAt(w, n) ==> ServersAt(w.(status := st), n)
    ensures SecretsAt(w, n) ==> SecretsAt(w.(status := st), n)
  {
  }

  /** A stage that has become due in memory is persisted. */
  lemma PersistMoveKeepsData(c: Config, s: Sys, s': Sys, n: Stage)
    requires DataInv(c, s) && s.ses.Busy? && Migrates(s.ses.mode) && s.ses.pc == Moved(n)
    requires Running(s.w.status.migration) && s.ses.mem == s.w.status.(migration := At(n))
    requires Follows(s.w.status.migration, n) && n !in {Initial, Completed, Retry, MigrationInProgress}
    requires NextSession(c, s, Persist) == Some(s')
    ensures DataInv(c, s')
  {
    SecretsMove(s.w, s.w.status.migration.stage, n);
    RestageKeepsWorld(s.w, s.ses.mem, n);
    RestagedSession(s, s', n);
    assert Front(s') == n;
  }

  lemma RestagedSession(s: Sys, s': Sys, n: Stage)
    requires SessionData(s.w, s.ses) && s.ses.Busy? && Migrates(s.ses.mode) && s.ses.pc == Moved(n)
    requires n !in {Initial, Completed, Retry, MigrationInProgress}
    requires s' == Sys(s.w.(status := s.w.status.(migration := At(n))),
                       s.ses.(pc := AfterPersist(Moved(n))))
    ensures SessionData(s'.w, s'.ses)
  {
  }

  lemma MovedInMemory(c: Config, s: Sys, n: Stage)
    requires Inv(c, s) && s.ses.Busy? && Migrates(s.ses.mode) && s.ses.pc == Moved(n)
    ensures Running(s.w.status.migration) && s.ses.mem == s.w.status.(migration := At(n))
    ensures Follows(s.w.status.migration, n) && n !in {Initial, Completed, Retry, MigrationInProgress}
  {
  }

  lemma PersistMigrateKeepsData(c: Config, s: Sys, s': Sys)
    requires Lawful(c) && Inv(c, s) && DataInv(c, s) && s.ses.Busy? && Migrates(s.ses.mode)
    requires NextSession(c, s, Persist) == Some(s')
    ensures DataInv(c, s')
  {
    match s.ses.pc
    case Moved(n) =>
      MovedInMemory(c, s, n);
      PersistMoveKeepsData(c, s, s', n);
    case Switched => PersistSwitchKeepsData(c, s, s');
    case _ => PersistSameKeepsData(c, s, s');
  }

  /** The switch is persisted. */
  lemma PersistSwitchKeepsData(c: Config, s: Sys, s': Sys)
    requires Lawful(c) && Inv(c, s) && DataInv(c, s) && s.ses.Busy? && Migrates(s.ses.mode) && s.ses.pc == Switched
    requires NextSession(c, s, Persist) == Some(s')
    ensures DataInv(c, s')
  {
    assert Carries(c.plan(s.w.status.active), s.w.status.newDb.(state := Ready));
  }

  /** The status that is persisted already is persisted again. */
  lemma PersistSameKeepsData(c: Config, s: Sys, s': Sys)
    requires Inv(c, s) && DataInv(c, s) && s.ses.Busy? && Migrates(s.ses.mode) && !s.ses.pc.Moved? && s.ses.pc != Switched
    requires NextSession(c, s, Persist) == Some(s')
    ensures DataInv(c, s')
  {
    assert s'.w == s.w;
  }

  lemma PersistUseNewKeepsData(c: Config, s: Sys, s': Sys)
    requires Inv(c, s) && DataInv(c, s) && s.ses.Busy? && s.ses.mode == UseNewDB
    requires NextSession(c, s, Persist) == Some(s')
    ensures DataInv(c, s')
  {
    assert !Pending(c, s'.w.status.active) && !Running(s'.w.status.migration);
  }

  /** The start of a migration is persisted. */
  lemma PersistStartKeepsData(c: Config, s: Sys, s': Sys)
    requires Inv(c, s) && DataInv(c, s) && s.ses.Busy? && Provisions(s.ses.mode) && s.ses.mode != UseNewDB
    requires s.ses.pc == Moved(MigrationInProgress) && NextSession(c, s, Persist) == Some(s')
    ensures DataInv(c, s')
  {
    assert s'.w.status.active == s.w.status.active;
  }

  lemma PersistProvisionKeepsData(c: Config, s: Sys, s': Sys)
    requires Inv(c, s) && DataInv(c, s) && s.ses.Busy? && Provisions(s.ses.mode) && s.ses.mode != UseNewDB
    requires s.ses.pc != Moved(MigrationInProgress) && NextSession(c, s, Persist) == Some(s')
    ensures DataInv(c, s')
  {
    assert s'.w.status.active == s.w.status.active;
    if s.ses.pc == Over && s.ses.mem.migration != Unset {
      assert s'.w == s.w;
    } else {
      assert !Running(s'.w.status.migration) && !Running(s.w.status.migration);
    }
  }

  lemma PersistOtherKeepsData(c: Config, s: Sys, s': Sys)
    requires Inv(c, s) && DataInv(c, s) && s.ses.Busy? && !Provisions(s.ses.mode) && !Migrates(s.ses.mode)
    requires NextSession(c, s, Persist) == Some(s')
    ensures DataInv(c, s')
  {
  }

  lemma SessionKeepsData(c: Config, s: Sys, e: SessionEvent, s': Sys)
    requires Lawful(c) && Inv(c, s) && DataInv(c, s) && NextSession(c, s, e) == Some(s')
    ensures DataInv(c, s')
  {
    match e
    case Open => OpenKeepsData(c, s, s');
    case Persist =>
      if Migrates(s.ses.mode) {
        PersistMigrateKeepsData(c, s, s');
      } else if s.ses.mode == UseNewDB {
        PersistUseNewKeepsData(c, s, s');
      } else if Provisions(s.ses.mode) && s.ses.pc == Moved(MigrationInProgress) {
        PersistStartKeepsData(c, s, s');
      } else if Provisions(s.ses.mode) {
        PersistProvisionKeepsData(c, s, s');
      } else {
        PersistOtherKeepsData(c, s, s');
      }
    case _ =>
  }

  lemma ProvisionIsNotRunning(c: Config, s: Sys)
    requires Inv(c, s) && s.ses.Busy? && Provisions(s.ses.mode) && (s.ses.pc != Over || s.ses.mode == UseNewDB)
    ensures !Running(s.w.status.migration)
    ensures s.ses.mode == UseNewDB ==> !Pending(c, s.w.status.active)
  {
  }

  /** Before the secrets are saved, nothing that a migration relies on is touched. */
  lemma HostKeepsData(c: Config, s: Sys, e: ProvisionEvent, s': Sys)
    requires e.MarkInitial? || e.CreateHost? || e.RecordHost? || e.RefuseManaged? || e.GrantWrites? || e.SetLogin? || e.RecordUser?
    requires DataInv(c, s) && NextProvision(c, s, e) == Some(s') && !Running(s.w.status.migration)
    ensures DataInv(c, s')
  {
  }

  lemma StartKeepsData(c: Config, s: Sys, e: ProvisionEvent, s': Sys)
    requires e.CreateTemp? || e.SavePassword? || e.SaveSource? || e.MarkInProgress?
    requires DataInv(c, s) && NextProvision(c, s, e) == Some(s') && !Running(s.w.status.migration)
    requires e.SaveSource? ==> s.ses.mem.migration == At(Initial)
    ensures DataInv(c, s')
  {
  }

  lemma UseKeepsData(c: Config, s: Sys, e: ProvisionEvent, s': Sys)
    requires e.Publish? || e.Promote?
    requires DataInv(c, s) && NextProvision(c, s, e) == Some(s') && !Running(s.w.status.migration)
    requires !Pending(c, s.w.status.active)
    ensures DataInv(c, s')
  {
  }

  lemma ProvisionKeepsData(c: Config, s: Sys, e: ProvisionEvent, s': Sys)
    requires Lawful(c) && Inv(c, s) && DataInv(c, s) && NextProvision(c, s, e) == Some(s')
    ensures DataInv(c, s')
  {
    if e.Adopt? {
      NoAdoption(c, s, e.step);
    } else {
      ProvisionIsNotRunning(c, s);
      if e.Publish? || e.Promote? {
        UseKeepsData(c, s, e, s');
      } else if e.CreateTemp? || e.SavePassword? || e.SaveSource? || e.MarkInProgress? {
        StartKeepsData(c, s, e, s');
      } else {
        HostKeepsData(c, s, e, s');
      }
    }
  }

  lemma CleanupKeepsData(c: Config, s: Sys, e: CleanEvent, s': Sys)
    requires DataInv(c, s) && NextCleanup(c, s, e) == Some(s')
    ensures DataInv(c, s')
  {
  }

  lemma ResumeKeepsData(c: Config, s: Sys, s': Sys)
    requires Inv(c, s) && DataInv(c, s) && NextMigration(c, s, Resume) == Some(s')
    requires !ReadsReroutedSecret(s, Migrate(Resume))
    ensures DataInv(c, s')
  {
  }

  /** The session executes a persisted stage, and its four connections lead to the active and to the new database. */
  predicate AtWork(c: Config, s: Sys, n: Stage) {
    var st := s.w.status;
    && s.ses.Busy? && Migrates(s.ses.mode) && c.plan(s.ses.mem.active).Some? && Executes(s.ses)
    && Running(st.migration) && st.migration == At(n)
    && SourceKnown(c, s.w) && SecretsAt(s.w, n) && ServersAt(s.w, n)
    && s.ses.tgt == Target(st, s.w.temp.value.password)
    && s.ses.src == s.w.temp.value.source.value
    && SourceAdmin(c, s.ses.mode, s.ses.mem, s.ses.src) == AddrOf(st.active.conn)
    && AddrOf(s.ses.src) == AddrOf(st.active.conn)
    && PlannedAddr(c, s.ses.mem.active) == AddrOf(st.newDb.conn)
    && AddrOf(s.ses.tgt) == AddrOf(st.newDb.conn)
    && AddrOf(st.active.conn) != AddrOf(st.newDb.conn)
  }

  lemma ConnectionsLead(c: Config, s: Sys)
    requires Inv(c, s) && DataInv(c, s) && Executes(s.ses) && !SourceUnused(s.ses.pc) && s.ses.mem == s.w.status
    ensures Running(s.w.status.migration) && AtWork(c, s, s.w.status.migration.stage)
  {
  }

  /** The stage that is due once an effect has been applied to a session that executes stage n. */
  function Due(n: Stage, pc: Pc): Stage {
    if pc.Got? && pc.next != Retry then pc.next else n
  }

  /** An effect on the target server leaves what the due stages need. */
  lemma TargetChange(c: Config, s: Sys, n: Stage, d: Deed)
    requires AtWork(c, s, n) && d.Write? && d.pc != Rerouted && !d.pc.Moved? && d.pc != Switched
    requires d.at == AddrOf(s.w.status.newDb.conn)
    requires TargetAt(n, d.server, ParentRole(s.w.status.newDb.conn.user))
    requires TargetAt(Due(n, d.pc), d.server, ParentRole(s.w.status.newDb.conn.user))
    requires AddrOf(s.ses.src) in s.w.servers
    requires SourceAt(Due(n, d.pc), s.w.servers[AddrOf(s.ses.src)], ParentRole(s.ses.src.user))
    ensures DataInv(c, Apply(s, d))
  {
  }

  /** An effect on the source server leaves what the due stages need. */
  lemma SourceChange(c: Config, s: Sys, n: Stage, d: Deed)
    requires AtWork(c, s, n) && d.Write? && d.pc != Rerouted && !d.pc.Moved? && d.pc != Switched
    requires d.at == AddrOf(s.ses.src)
    requires SourceAt(n, d.server, ParentRole(s.ses.src.user))
    requires SourceAt(Due(n, d.pc), d.server, ParentRole(s.ses.src.user))
    requires Position(CreateSubscription) <= Position(Due(n, d.pc)) ==>
               AddrOf(s.ses.tgt) in s.w.servers &&
               TargetAt(Due(n, d.pc), s.w.servers[AddrOf(s.ses.tgt)], ParentRole(s.w.status.newDb.conn.user))
    ensures DataInv(c, Apply(s, d))
  {
  }

  /** Reading the servers changes only the session position. */
  lemma NoChange(c: Config, s: Sys, n: Stage, d: Deed)
    requires AtWork(c, s, n) && d.Read? && d.pc != Rerouted && !d.pc.Moved? && d.pc != Switched
    requires ServersAt(s.w, Due(n, d.pc))
    ensures DataInv(c, Apply(s, d))
  {
  }

  lemma CreatePubKeepsData(c: Config, s: Sys, d: Deed)
    requires AtWork(c, s, CreatePublication) && Perform(c, s.w.servers, s.ses, CreatePub) == Some(d)
    ensures DataInv(c, Apply(s, d))
  {
    SourceChange(c, s, CreatePublication, d);
  }

  lemma GrantKeepsData(c: Config, s: Sys, d: Deed)
    requires AtWork(c, s, CopySchema) && Perform(c, s.w.servers, s.ses, Grant) == Some(d)
    ensures DataInv(c, Apply(s, d))
  {
    TargetChange(c, s, CopySchema, d);
  }

  lemma RestoreKeepsData(c: Config, s: Sys, d: Deed)
    requires AtWork(c, s, CopySchema) && Perform(c, s.w.servers, s.ses, Restore) == Some(d)
    ensures DataInv(c, Apply(s, d))
  {
    TargetChange(c, s, CopySchema, d);
  }

  lemma RestoreFailsKeepsData(c: Config, s: Sys, d: Deed)
    requires AtWork(c, s, CopySchema) && Perform(c, s.w.servers, s.ses, RestoreFails) == Some(d)
    ensures DataInv(c, Apply(s, d))
  {
    TargetChange(c, s, CopySchema, d);
  }

  lemma RevokeGrantKeepsData(c: Config, s: Sys, d: Deed)
    requires AtWork(c, s, CopySchema) && Perform(c, s.w.servers, s.ses, RevokeGrant) == Some(d)
    ensures DataInv(c, Apply(s, d))
  {
    TargetChange(c, s, CopySchema, d);
  }

  lemma CreateSubKeepsData(c: Config, s: Sys, d: Deed)
    requires AtWork(c, s, CreateSubscription) && Perform(c, s.w.servers, s.ses, CreateSub) == Some(d)
    ensures DataInv(c, Apply(s, d))
  {
    TargetChange(c, s, CreateSubscription, d);
  }

  lemma EnableSubKeepsData(c: Config, s: Sys, d: Deed)
    requires AtWork(c, s, EnableSubscription) && Perform(c, s.w.servers, s.ses, EnableSub) == Some(d)
    ensures DataInv(c, Apply(s, d))
  {
    TargetChange(c, s, EnableSubscription, d);
  }

  lemma CheckReadyKeepsData(c: Config, s: Sys, d: Deed)
    requires AtWork(c, s, CutOverReadinessCheck) && Perform(c, s.w.servers, s.ses, CheckReady) == Some(d)
    ensures DataInv(c, Apply(s, d))
  {
    NoChange(c, s, CutOverReadinessCheck, d);
  }

  lemma ReadStepKeepsData(c: Config, s: Sys, x: ResetStep, d: Deed)
    requires AtWork(c, s, ResetTargetSequence) && PerformReset(s.w.servers, s.ses, x) == Some(d) && !x.SetValue?
    ensures DataInv(c, Apply(s, d))
  {
    ResetKeepsServers(s.w);
    NoChange(c, s, ResetTargetSequence, d);
  }

  lemma SetValueKeepsData(c: Config, s: Sys, x: ResetStep, d: Deed)
    requires AtWork(c, s, ResetTargetSequence) && PerformReset(s.w.servers, s.ses, x) == Some(d) && x.SetValue?
    ensures DataInv(c, Apply(s, d))
  {
    TargetChange(c, s, ResetTargetSequence, d);
  }

  lemma ResetKeepsData(c: Config, s: Sys, x: ResetStep, d: Deed)
    requires AtWork(c, s, ResetTargetSequence) && Perform(c, s.w.servers, s.ses, Reset(x)) == Some(d)
    ensures DataInv(c, Apply(s, d))
  {
    if x.SetValue? {
      SetValueKeepsData(c, s, x, d);
    } else {
      ReadStepKeepsData(c, s, x, d);
    }
  }

  lemma RevokeWritesKeepsData(c: Config, s: Sys, d: Deed)
    requires AtWork(c, s, DisableSourceAccess) && Perform(c, s.w.servers, s.ses, RevokeWrites) == Some(d)
    ensures DataInv(c, Apply(s, d))
  {
    SourceChange(c, s, DisableSourceAccess, d);
  }

  lemma CompareKeepsData(c: Config, s: Sys, d: Deed)
    requires AtWork(c, s, ValidateMigrationStatus) && Perform(c, s.w.servers, s.ses, Compare) == Some(d)
    ensures DataInv(c, Apply(s, d))
  {
    NoChange(c, s, ValidateMigrationStatus, d);
  }

  lemma DisableSubKeepsData(c: Config, s: Sys, d: Deed)
    requires AtWork(c, s, DisableSubscription) && Perform(c, s.w.servers, s.ses, DisableSub) == Some(d)
    ensures DataInv(c, Apply(s, d))
  {
    TargetChange(c, s, DisableSubscription, d);
  }

  lemma DropSubKeepsData(c: Config, s: Sys, d: Deed)
    requires AtWork(c, s, DeleteSubscription) && Perform(c, s.w.servers, s.ses, DropSub) == Some(d)
    ensures DataInv(c, Apply(s, d))
  {
    TargetChange(c, s, DeleteSubscription, d);
  }

  lemma DropPubKeepsData(c: Config, s: Sys, d: Deed)
    requires AtWork(c, s, DeletePublication) && Perform(c, s.w.servers, s.ses, DropPub) == Some(d)
    ensures DataInv(c, Apply(s, d))
  {
    SourceChange(c, s, DeletePublication, d);
  }

  lemma PassKeepsServers(w: World, m: Migration, n: Stage)
    requires m.At? && Resumed(m) == Some(n) && HasNoEffect(n) && ServersAt(w, m.stage)
    ensures ServersAt(w, Successor(n))
  {
    match n
    case RerouteTargetSecret => RerouteKeepsServers(w);
    case WaitToDisableSource => WaitKeepsServers(w);
    case _ =>
  }

  lemma ResetKeepsServers(w: World)
    requires ServersAt(w, ResetTargetSequence)
    ensures ServersAt(w, RerouteTargetSecret)
  {
  }

  lemma RerouteKeepsServers(w: World)
    requires ServersAt(w, RerouteTargetSecret)
    ensures ServersAt(w, WaitToDisableSource)
  {
  }

  lemma WaitKeepsServers(w: World)
    requires ServersAt(w, WaitToDisableSource)
    ensures ServersAt(w, DisableSourceAccess)
  {
  }

  lemma PassKeepsData(c: Config, s: Sys, s': Sys)
    requires DataInv(c, s) && NextMigration(c, s, Exec(Pass)) == Some(s')
    requires Running(s.w.status.migration) && Resumed(s.w.status.migration) == Some(s.ses.pc.stage)
    ensures DataInv(c, s')
  {
    PassKeepsServers(s.w, s.w.status.migration, s.ses.pc.stage);
    assert Front(s') == Successor(s.ses.pc.stage);
  }

  lemma EffectKeepsData(c: Config, s: Sys, x: Effect, d: Deed)
    requires s.w.status.migration.At? && AtWork(c, s, s.w.status.migration.stage)
    requires Perform(c, s.w.servers, s.ses, x) == Some(d) && x != Pass
    requires s.ses.pc.Run? ==> Resumed(s.w.status.migration) == Some(s.ses.pc.stage)
    requires s.ses.pc == Granted || s.ses.pc == Restored ==> s.w.status.migration == At(CopySchema)
    requires s.ses.pc.Reading? || s.ses.pc.Setting? ==> s.w.status.migration == At(ResetTargetSequence)
    ensures DataInv(c, Apply(s, d))
  {
    match x
    case CreatePub => CreatePubKeepsData(c, s, d);
    case Grant => GrantKeepsData(c, s, d);
    case Restore => RestoreKeepsData(c, s, d);
    case RestoreFails => RestoreFailsKeepsData(c, s, d);
    case RevokeGrant => RevokeGrantKeepsData(c, s, d);
    case CreateSub => CreateSubKeepsData(c, s, d);
    case EnableSub => EnableSubKeepsData(c, s, d);
    case CheckReady => CheckReadyKeepsData(c, s, d);
    case Reset(step) => ResetKeepsData(c, s, step, d);
    case RevokeWrites => RevokeWritesKeepsData(c, s, d);
    case Compare => CompareKeepsData(c, s, d);
    case DisableSub => DisableSubKeepsData(c, s, d);
    case DropSub => DropSubKeepsData(c, s, d);
    case DropPub => DropPubKeepsData(c, s, d);
  }

  lemma ExecKeepsData(c: Config, s: Sys, x: Effect, s': Sys)
    requires Inv(c, s) && DataInv(c, s) && NextMigration(c, s, Exec(x)) == Some(s')
    ensures DataInv(c, s')
  {
    if x == Pass {
      PassKeepsData(c, s, s');
    } else {
      EffectIsAtWork(c, s, x, s');
      EffectKeepsData(c, s, x, Perform(c, s.w.servers, s.ses, x).value);
    }
  }

  lemma EffectIsAtWork(c: Config, s: Sys, x: Effect, s': Sys)
    requires Inv(c, s) && DataInv(c, s) && NextMigration(c, s, Exec(x)) == Some(s') && x != Pass
    ensures s.w.status.migration.At? && AtWork(c, s, s.w.status.migration.stage)
    ensures s.ses.pc.Run? ==> Resumed(s.w.status.migration) == Some(s.ses.pc.stage)
    ensures s.ses.pc == Granted || s.ses.pc == Restored ==> s.w.status.migration == At(CopySchema)
    ensures s.ses.pc.Reading? || s.ses.pc.Setting? ==> s.w.status.migration == At(ResetTargetSequence)
  {
    EffectUsesSource(c, s, x, s');
    ConnectionsLead(c, s);
  }

  lemma EffectUsesSource(c: Config, s: Sys, x: Effect, s': Sys)
    requires Inv(c, s) && NextMigration(c, s, Exec(x)) == Some(s') && x != Pass
    ensures Executes(s.ses) && !SourceUnused(s.ses.pc) && s.ses.mem == s.w.status
    ensures s.ses.pc.Run? ==> Resumed(s.w.status.migration) == Some(s.ses.pc.stage)
    ensures s.ses.pc == Granted || s.ses.pc == Restored ==> s.w.status.migration == At(CopySchema)
    ensures s.ses.pc.Reading? || s.ses.pc.Setting? ==> s.w.status.migration == At(ResetTargetSequence)
  {
  }

  lemma TakeKeepsData(c: Config, s: Sys, s': Sys)
    requires DataInv(c, s) && NextMigration(c, s, Take) == Some(s')
    ensures DataInv(c, s')
  {
  }

  lemma TakeRerouteKeepsData(c: Config, s: Sys, s': Sys)
    requires DataInv(c, s) && NextMigration(c, s, TakeReroute) == Some(s')
    requires s.w.status.migration == At(ResetTargetSequence)
    ensures DataInv(c, s')
  {
    ResetKeepsServers(s.w);
    assert Front(s') == RerouteTargetSecret;
  }

  lemma SwitchKeepsData(c: Config, s: Sys, s': Sys)
    requires DataInv(c, s) && NextMigration(c, s, SwitchActive) == Some(s')
    ensures DataInv(c, s')
  {
  }

  lemma SaveTempKeepsData(c: Config, s: Sys, s': Sys)
    requires DataInv(c, s) && NextMigration(c, s, SaveTemp) == Some(s')
    requires s.w.status.migration == At(ResetTargetSequence)
    ensures DataInv(c, s')
  {
  }

  lemma RerouteKeepsData(c: Config, s: Sys, s': Sys)
    requires DataInv(c, s) && NextMigration(c, s, Reroute) == Some(s')
    requires s.w.status.migration == At(ResetTargetSequence)
    ensures DataInv(c, s')
  {
  }

  /** The secrets are rerouted while the reset of the sequences is the persisted stage. */
  lemma ReroutesAtReset(c: Config, s: Sys, e: MigrateEvent, s': Sys)
    requires e == SaveTemp || e == Reroute || e == TakeReroute
    requires Inv(c, s) && NextMigration(c, s, e) == Some(s')
    ensures s.w.status.migration == At(ResetTargetSequence)
  {
  }

  lemma SecretsKeepData(c: Config, s: Sys, e: MigrateEvent, s': Sys)
    requires e == SaveTemp || e == Reroute || e == TakeReroute
    requires Inv(c, s) && DataInv(c, s) && NextMigration(c, s, e) == Some(s')
    ensures DataInv(c, s')
  {
    ReroutesAtReset(c, s, e, s');
    match e
    case SaveTemp => SaveTempKeepsData(c, s, s');
    case Reroute => RerouteKeepsData(c, s, s');
    case TakeReroute => TakeRerouteKeepsData(c, s, s');
  }

  lemma DropTempKeepsData(c: Config, s: Sys, s': Sys)
    requires Inv(c, s) && DataInv(c, s) && NextMigration(c, s, DropTemp) == Some(s')
    ensures DataInv(c, s')
  {
  }

  lemma MigrationKeepsData(c: Config, s: Sys, e: MigrateEvent, s': Sys)
    requires Inv(c, s) && DataInv(c, s) && NextMigration(c, s, e) == Some(s')
    requires !ReadsReroutedSecret(s, Migrate(e))
    ensures DataInv(c, s')
  {
    match e
    case Resume => ResumeKeepsData(c, s, s');
    case Exec(x) => ExecKeepsData(c, s, x, s');
    case Take => TakeKeepsData(c, s, s');
    case SwitchActive => SwitchKeepsData(c, s, s');
    case DropTemp => DropTempKeepsData(c, s, s');
    case _ => SecretsKeepData(c, s, e, s');
  }

  lemma StepKeepsData(c: Config, s: Sys, e: Event, s': Sys)
    requires Lawful(c) && Inv(c, s) && DataInv(c, s) && Next(c, s, e) == Some(s')
    requires !ReadsReroutedSecret(s, e)
    ensures DataInv(c, s')
  {
    match e
    case Env(x) => EnvironmentKeepsData(c, s, x, s');
    case Control(x) => SessionKeepsData(c, s, x, s');
    case Provision(x) => ProvisionKeepsData(c, s, x, s');
    case Migrate(x) => MigrationKeepsData(c, s, x, s');
    case Clean(x) => CleanupKeepsData(c, s, x, s');
  }
}
