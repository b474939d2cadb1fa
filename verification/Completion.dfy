/**
 When a migration can be completed, and when it is stuck for good: decided by whether a session can
 still log in to what it takes for the source and the target.
 */
module Completion {
  import opened Options
  import opened Stages
  import opened Claim
  import opened Protocol
  import opened ClaimInvariants
  import opened DataInvariants
  import opened MigrationSafety
  import opened RerouteWindow
  import opened Reachability
  import opened Resets
  import opened MistakenRun
  import opened Schema

  /** What a migration needs: its two servers, its secrets, the logins in them, and sequences that can be reset. */
  predicate Fit(w: World) {
    && AddrOf(w.status.active.conn) in w.servers && AddrOf(w.status.newDb.conn) in w.servers
    && w.finalizer && w.app.Some? && w.temp.Some? && w.temp.value.source.Some? && Apart(w.status)
    && Usable(Target(w.status, w.temp.value.password)) && LogsIn(w.servers, Target(w.status, w.temp.value.password))
    && LogsIn(w.servers, w.temp.value.source.value)
    && HasRoom(w.servers[AddrOf(w.status.active.conn)].sequences, 2)
    && HasRoom(w.servers[AddrOf(w.status.newDb.conn)].sequences, 1)
  }

  predicate Good(c: Config, s: Sys) {
    Inv(c, s) && DataInv(c, s) && SchemaInv(s) && Running(s.w.status.migration) && Fit(s.w)
  }

  /**
   The secret holds the target at one of the two stages at which it is read for the source, and the administrator
   of the active server, with whom an upgrade goes on, cannot log in to the target.
   */
  predicate LockedOut(c: Config, w: World) {
    HoldsTarget(w) && ReroutesAt(w.status.migration) && !MasterFits(c, w.status)
  }

  /** Who may write to the servers. */
  function Writers(servers: map<Addr, Server>): map<Addr, set<string>> {
    map a | a in servers :: servers[a].writers
  }

  /** The two statuses differ at most in the stage of the migration. */
  predicate SameDatabases(st: Status, st': Status) {
    st' == st.(migration := st'.migration)
  }

  /** A session of the migration is about to execute the persisted stage. */
  predicate Executing(c: Config, s: Sys, n: Stage) {
    Good(c, s) && s.ses.Busy? && Migrates(s.ses.mode) && s.ses.pc == Run(n)
  }

  lemma Goes(c: Config, s: Sys, m: Sys, e: Event, m': Sys)
    requires Lawful(c) && Reaches(c, s, m) && Good(c, m) && Next(c, m, e) == Some(m') && !ReadsReroutedSecret(m, e)
    requires Running(m'.w.status.migration) && Fit(m'.w)
    ensures Reaches(c, s, m') && Good(c, m')
  {
    StepKeepsInv(c, m, e, m');
    StepKeepsData(c, m, e, m');
    StepKeepsSchema(c, m, e, m');
    Then(c, s, m, e, m');
  }

  // ---- opening a session

  lemma CanOpen(c: Config, w: World)
    requires Lawful(c) && Good(c, Sys(w, Idle))
    ensures Next(c, Sys(w, Idle), Control(Open))
            == Some(Sys(w, Busy(ModeWhileRunning(w.status), w.status, Begin, NO_CONN, NO_CONN)))
  {
    RunningFixesMode(c, w.status);
  }

  lemma CanResume(c: Config, m: Sys)
    requires Good(c, m) && m.ses.Busy? && Migrates(m.ses.mode) && m.ses.pc == Dispatch && !LockedOut(c, m.w)
    ensures Next(c, m, Migrate(Resume)).Some? && Resumed(m.w.status.migration).Some?
    ensures var m' := Next(c, m, Migrate(Resume)).value;
            m'.w == m.w && m'.ses.Busy? && m'.ses.mode == m.ses.mode && m'.ses.pc == Run(Resumed(m.w.status.migration).value)
  {
    DispatchIsPersisted(c, m);
    RecoveredLogsIn(c, m);
  }

  lemma DispatchIsPersisted(c: Config, m: Sys)
    requires Inv(c, m) && m.ses.Busy? && Migrates(m.ses.mode) && m.ses.pc == Dispatch
    ensures m.ses.mem == m.w.status && m.ses.mode == ModeWhileRunning(m.w.status)
    ensures Running(m.w.status.migration) ==> Resumed(m.w.status.migration).Some?
  {
  }

  /** What is taken for the source accepts its user and the administrator. */
  lemma RecoveredLogsIn(c: Config, m: Sys)
    requires Good(c, m) && !LockedOut(c, m.w)
    ensures Resumable(c, m.w, ModeWhileRunning(m.w.status), m.w.status)
  {
    var w := m.w;
    RecoveryAt(c, m);
    if HoldsTarget(w) && ReroutesAt(w.status.migration) {
      assert RecoverSource(w, w.status.migration) == Some(Target(w.status, w.temp.value.password));
    } else {
      assert RecoverSource(w, w.status.migration) == w.temp.value.source;
    }
    SourceLeads(c, m);
  }

  lemma SourceLeads(c: Config, m: Sys)
    requires Inv(c, m) && DataInv(c, m) && Running(m.w.status.migration)
    ensures m.w.temp.Some? && m.w.temp.value.source.Some?
    ensures AddrOf(m.w.temp.value.source.value) == AddrOf(m.w.status.active.conn)
    ensures c.plan(m.w.status.active).Some? && PlannedAddr(c, m.w.status.active) == AddrOf(m.w.status.newDb.conn)
    ensures m.w.status.active.state == UsingExistingDB ==>
              KnownSource(c, m.w.status).Some? && AddrOf(KnownSource(c, m.w.status).value) == AddrOf(m.w.status.active.conn)
    ensures Resumed(m.w.status.migration).Some?
  {
  }

  lemma Reopened(c: Config, s: Sys, w: World) returns (m: Sys)
    requires Lawful(c) && Reaches(c, s, Sys(w, Idle)) && Good(c, Sys(w, Idle)) && !IsAhead(w) && !LockedOut(c, w)
    ensures Resumed(w.status.migration).Some? && m.w == w
    ensures Reaches(c, s, m) && Executing(c, m, Resumed(w.status.migration).value)
  {
    CanOpen(c, w);
    var b := Busy(ModeWhileRunning(w.status), w.status, Begin, NO_CONN, NO_CONN);
    Goes(c, s, Sys(w, Idle), Control(Open), Sys(w, b));
    Goes(c, s, Sys(w, b), Control(Persist), Sys(w, b.(pc := Dispatch)));
    CanResume(c, Sys(w, b.(pc := Dispatch)));
    m := Next(c, Sys(w, b.(pc := Dispatch)), Migrate(Resume)).value;
    Goes(c, s, Sys(w, b.(pc := Dispatch)), Migrate(Resume), m);
  }

  // ---- executing a stage

  /** The effect of a stage that has only one. */
  function EffectOf(n: Stage): Effect {
    match n
    case CreatePublication => CreatePub
    case CreateSubscription => CreateSub
    case EnableSubscription => EnableSub
    case CutOverReadinessCheck => CheckReady
    case DisableSourceAccess => RevokeWrites
    case ValidateMigrationStatus => Compare
    case DisableSubscription => DisableSub
    case DeleteSubscription => DropSub
    case DeletePublication => DropPub
    case _ => Pass
  }

  /** The effect can happen, at a server that is there, and leads to the next stage. */
  predicate Leads(c: Config, s: Sys, x: Effect, pc: Pc)
    requires s.ses.Busy? && c.plan(s.ses.mem.active).Some?
  {
    var d := Perform(c, s.w.servers, s.ses, x);
    d.Some? && d.value.pc == pc && (d.value.Write? ==> d.value.at in s.w.servers)
  }

  predicate HasCaughtUp(w: World) {
    && AddrOf(w.status.active.conn) in w.servers && AddrOf(w.status.newDb.conn) in w.servers
    && Covers(w.servers[AddrOf(w.status.newDb.conn)].rows, w.servers[AddrOf(w.status.active.conn)].rows)
  }

  predicate IsSynced(w: World) {
    AddrOf(w.status.newDb.conn) in w.servers && w.servers[AddrOf(w.status.newDb.conn)].synced
  }

  lemma SourceStagesLead(c: Config, m: Sys, n: Stage)
    requires AtWork(c, m, n) && Fit(m.w) && m.ses.pc == Run(n)
    requires n == CreatePublication || n == DisableSourceAccess || n == DeletePublication
    ensures Leads(c, m, EffectOf(n), Got(Successor(n)))
  {
  }

  lemma TargetStagesLead(c: Config, m: Sys, n: Stage)
    requires AtWork(c, m, n) && Fit(m.w) && m.ses.pc == Run(n)
    requires n == CreateSubscription || n == EnableSubscription || n == DisableSubscription || n == DeleteSubscription
    ensures Leads(c, m, EffectOf(n), Got(Successor(n)))
  {
  }

  lemma ReadingStagesLead(c: Config, m: Sys, n: Stage)
    requires AtWork(c, m, n) && Fit(m.w) && m.ses.pc == Run(n)
    requires (n == CutOverReadinessCheck && IsSynced(m.w)) || (n == ValidateMigrationStatus && HasCaughtUp(m.w))
    ensures Leads(c, m, EffectOf(n), Got(Successor(n)))
  {
  }

  lemma IsAtWork(c: Config, m: Sys, n: Stage)
    requires Executing(c, m, n) && !HasNoEffect(n)
    ensures AtWork(c, m, n)
  {
    ConnectionsLead(c, m);
  }

  lemma StageLeads(c: Config, m: Sys, n: Stage)
    requires Executing(c, m, n) && HasState(n) && n != CopySchema && n != ResetTargetSequence
    requires n == ValidateMigrationStatus ==> HasCaughtUp(m.w)
    requires n == CutOverReadinessCheck ==> IsSynced(m.w)
    ensures Leads(c, m, EffectOf(n), Got(Successor(n)))
  {
    if !HasNoEffect(n) {
      IsAtWork(c, m, n);
      if n == CreatePublication || n == DisableSourceAccess || n == DeletePublication {
        SourceStagesLead(c, m, n);
      } else if n == CutOverReadinessCheck || n == ValidateMigrationStatus {
        ReadingStagesLead(c, m, n);
      } else {
        TargetStagesLead(c, m, n);
      }
    }
  }

  /** The session after an effect: only servers and the position have changed. */
  lemma Performs(c: Config, s: Sys, m: Sys, x: Effect, pc: Pc) returns (m': Sys)
    requires Lawful(c) && Reaches(c, s, m) && Good(c, m) && m.ses.Busy? && Migrates(m.ses.mode)
    requires c.plan(m.ses.mem.active).Some? && Leads(c, m, x, pc) && !x.Reset?
    ensures m' == Apply(m, Perform(c, m.w.servers, m.ses, x).value)
    ensures Reaches(c, s, m') && Good(c, m') && m'.ses == m.ses.(pc := pc) && m'.w.status == m.w.status
    ensures x != RevokeWrites ==> Writers(m'.w.servers) == Writers(m.w.servers)
  {
    m' := Applied(c, m, x);
    Goes(c, s, m, Migrate(Exec(x)), m');
  }

  lemma Applied(c: Config, m: Sys, x: Effect) returns (m': Sys)
    requires m.ses.Busy? && Migrates(m.ses.mode) && c.plan(m.ses.mem.active).Some? && Fit(m.w)
    requires Perform(c, m.w.servers, m.ses, x).Some? && !x.Reset?
    ensures m' == Apply(m, Perform(c, m.w.servers, m.ses, x).value) && Next(c, m, Migrate(Exec(x))) == Some(m')
    ensures Fit(m'.w) && m'.w.status == m.w.status
    ensures x != RevokeWrites ==> Writers(m'.w.servers) == Writers(m.w.servers)
  {
    PerformKeepsRows(c, m.w.servers, m.ses, x);
    PerformKeepsRoom(c, m.w.servers, m.ses, x);
    var d := Perform(c, m.w.servers, m.ses, x).value;
    m' := ExecApplies(c, m, x, d);
    if d.Write? {
      WriteKeepsFit(m.w, d.at, d.server);
    }
  }

  lemma ExecApplies(c: Config, m: Sys, x: Effect, d: Deed) returns (m': Sys)
    requires m.ses.Busy? && Migrates(m.ses.mode) && c.plan(m.ses.mem.active).Some?
    requires Perform(c, m.w.servers, m.ses, x) == Some(d)
    ensures m' == Apply(m, d) && Next(c, m, Migrate(Exec(x))) == Some(m')
    ensures m'.w == if d.Write? then m.w.(servers := m.w.servers[d.at := d.server]) else m.w
  {
    m' := Apply(m, d);
  }

  lemma WriteKeepsFit(w: World, a: Addr, server: Server)
    requires Fit(w) && a in w.servers && server.logins == w.servers[a].logins
    requires HasRoom(w.servers[a].sequences, 1) ==> HasRoom(server.sequences, 1)
    requires HasRoom(w.servers[a].sequences, 2) ==> HasRoom(server.sequences, 2)
    ensures Fit(w.(servers := w.servers[a := server]))
    ensures server.writers == w.servers[a].writers ==> Writers(w.servers[a := server]) == Writers(w.servers)
  {
  }

  lemma PerformKeepsRoom(c: Config, servers: map<Addr, Server>, ses: Session, x: Effect)
    requires ses.Busy? && c.plan(ses.mem.active).Some? && Perform(c, servers, ses, x).Some? && !x.Reset?
    ensures var d := Perform(c, servers, ses, x).value;
            d.Write? ==>
              && d.at in servers && (HasRoom(servers[d.at].sequences, 1) ==> HasRoom(d.server.sequences, 1))
              && (HasRoom(servers[d.at].sequences, 2) ==> HasRoom(d.server.sequences, 2))
  {
  }

  // ---- the target is synchronised and catches up

  lemma CatchesUp(c: Config, s: Sys, m: Sys) returns (m': Sys)
    requires Lawful(c) && Reaches(c, s, m) && Executing(c, m, ValidateMigrationStatus)
    ensures Reaches(c, s, m') && Executing(c, m', ValidateMigrationStatus) && HasCaughtUp(m'.w)
    ensures m'.w.status == m.w.status && Writers(m'.w.servers) == Writers(m.w.servers)
  {
    IsAtWork(c, m, ValidateMigrationStatus);
    m' := Replicated(c, m);
    Goes(c, s, m, Env(Replicate(AddrOf(m.w.status.newDb.conn), m.w.servers[AddrOf(m.w.status.active.conn)].rows)), m');
  }

  lemma Replicated(c: Config, m: Sys) returns (m': Sys)
    requires AtWork(c, m, ValidateMigrationStatus) && Fit(m.w)
    ensures var rows := m.w.servers[AddrOf(m.w.status.active.conn)].rows;
            Next(c, m, Env(Replicate(AddrOf(m.w.status.newDb.conn), rows))) == Some(m')
    ensures m'.ses == m.ses && m'.w.status == m.w.status && Fit(m'.w) && HasCaughtUp(m'.w)
    ensures Writers(m'.w.servers) == Writers(m.w.servers)
  {
    var src, tgt := AddrOf(m.w.status.active.conn), AddrOf(m.w.status.newDb.conn);
    m' := WithRows(m, tgt, m.w.servers[src].rows, m.w.servers[tgt].synced);
  }

  /** The first copy is completed: the target has the rows that the source has now. */
  lemma Syncs(c: Config, s: Sys, m: Sys) returns (m': Sys)
    requires Lawful(c) && Reaches(c, s, m) && Executing(c, m, CutOverReadinessCheck)
    ensures Reaches(c, s, m') && Executing(c, m', CutOverReadinessCheck) && IsSynced(m'.w)
    ensures m'.w.status == m.w.status && Writers(m'.w.servers) == Writers(m.w.servers)
  {
    IsAtWork(c, m, CutOverReadinessCheck);
    m' := Synchronised(c, m);
    var src, tgt := AddrOf(m.w.status.active.conn), AddrOf(m.w.status.newDb.conn);
    Goes(c, s, m, Env(Synchronise(src, tgt, m.w.servers[src].rows)), m');
  }

  lemma Synchronised(c: Config, m: Sys) returns (m': Sys)
    requires AtWork(c, m, CutOverReadinessCheck) && Fit(m.w)
    ensures var src, tgt := AddrOf(m.w.status.active.conn), AddrOf(m.w.status.newDb.conn);
            Next(c, m, Env(Synchronise(src, tgt, m.w.servers[src].rows))) == Some(m')
    ensures m'.ses == m.ses && m'.w.status == m.w.status && Fit(m'.w) && IsSynced(m'.w)
    ensures Writers(m'.w.servers) == Writers(m.w.servers)
  {
    var src, tgt := AddrOf(m.w.status.active.conn), AddrOf(m.w.status.newDb.conn);
    m' := WithRows(m, tgt, m.w.servers[src].rows, true);
  }

  lemma WithRows(m: Sys, a: Addr, rows: map<string, nat>, synced: bool) returns (m': Sys)
    requires Fit(m.w) && a in m.w.servers
    ensures m' == m.(w := m.w.(servers := m.w.servers[a := m.w.servers[a].(rows := rows, synced := synced)]))
    ensures Fit(m'.w) && Writers(m'.w.servers) == Writers(m.w.servers)
  {
    m' := m.(w := m.w.(servers := m.w.servers[a := m.w.servers[a].(rows := rows, synced := synced)]));
  }

  // ---- copying the schema

  predicate TargetIsPopulated(w: World) {
    AddrOf(w.status.newDb.conn) in w.servers && w.servers[AddrOf(w.status.newDb.conn)].populated
  }

  lemma Grants(c: Config, s: Sys, m: Sys) returns (m': Sys)
    requires Lawful(c) && Reaches(c, s, m) && Executing(c, m, CopySchema)
    ensures Reaches(c, s, m') && Good(c, m') && m'.ses == m.ses.(pc := Granted) && m'.w.status == m.w.status
    ensures TargetIsPopulated(m'.w) == TargetIsPopulated(m.w) && Writers(m'.w.servers) == Writers(m.w.servers)
  {
    IsAtWork(c, m, CopySchema);
    m' := Performs(c, s, m, Grant, Granted);
  }

  lemma GrantedIsAtWork(c: Config, m: Sys)
    requires Good(c, m) && m.ses.Busy? && Migrates(m.ses.mode) && (m.ses.pc == Granted || m.ses.pc == Restored)
    ensures AtWork(c, m, CopySchema)
  {
    ConnectionsLead(c, m);
  }

  lemma CopiesToEmpty(c: Config, s: Sys, m: Sys) returns (m': Sys)
    requires Lawful(c) && Reaches(c, s, m) && Executing(c, m, CopySchema) && !TargetIsPopulated(m.w)
    ensures Reaches(c, s, m') && Good(c, m') && m'.ses == m.ses.(pc := Got(CreateSubscription)) && m'.w.status == m.w.status
    ensures Writers(m'.w.servers) == Writers(m.w.servers)
  {
    var m1 := Grants(c, s, m);
    var m2 := Restores(c, s, m1);
    m' := RevokesGrant(c, s, m2);
  }

  lemma RevokesGrant(c: Config, s: Sys, m: Sys) returns (m': Sys)
    requires Lawful(c) && Reaches(c, s, m) && Good(c, m) && m.ses.Busy? && Migrates(m.ses.mode) && m.ses.pc == Restored
    ensures Reaches(c, s, m') && Good(c, m') && m'.ses == m.ses.(pc := Got(CreateSubscription))
    ensures m'.w.status == m.w.status && Writers(m'.w.servers) == Writers(m.w.servers)
  {
    GrantedIsAtWork(c, m);
    m' := Performs(c, s, m, RevokeGrant, Got(CreateSubscription));
  }

  lemma Restores(c: Config, s: Sys, m: Sys) returns (m': Sys)
    requires Lawful(c) && Reaches(c, s, m) && Good(c, m) && m.ses.Busy? && Migrates(m.ses.mode) && m.ses.pc == Granted
    requires !TargetIsPopulated(m.w)
    ensures Reaches(c, s, m') && Good(c, m') && m'.ses == m.ses.(pc := Restored) && m'.w.status == m.w.status
    ensures Writers(m'.w.servers) == Writers(m.w.servers)
  {
    GrantedIsAtWork(c, m);
    m' := Performs(c, s, m, Restore, Restored);
  }

  lemma Empties(c: Config, s: Sys, m: Sys) returns (m': Sys)
    requires Lawful(c) && Reaches(c, s, m) && Executing(c, m, CopySchema)
    ensures Reaches(c, s, m') && Executing(c, m', CopySchema) && !TargetIsPopulated(m'.w) && m'.w.status == m.w.status
    ensures Writers(m'.w.servers) == Writers(m.w.servers)
  {
    var m1 := Grants(c, s, m);
    var m2 := Drops(c, s, m1);
    m' := Reopened(c, s, m2.w);
  }

  lemma Drops(c: Config, s: Sys, m: Sys) returns (m': Sys)
    requires Lawful(c) && Reaches(c, s, m) && Good(c, m) && m.ses.Busy? && Migrates(m.ses.mode) && m.ses.pc == Granted
    ensures Reaches(c, s, m') && Good(c, m') && m'.ses == Idle && m'.w.status == m.w.status
    ensures m.w.status.migration == At(CopySchema)
    ensures !TargetIsPopulated(m'.w) && Writers(m'.w.servers) == Writers(m.w.servers)
  {
    var m1 := FailsToRestore(c, s, m);
    m' := Returns(c, s, m1);
  }

  lemma Returns(c: Config, s: Sys, m: Sys) returns (m': Sys)
    requires Lawful(c) && Reaches(c, s, m) && Good(c, m) && m.ses.Busy? && m.ses.pc == Over
    ensures Reaches(c, s, m') && Good(c, m') && m' == Sys(m.w, Idle)
  {
    m' := Sys(m.w, Idle);
    Goes(c, s, m, Control(Return), m');
  }

  lemma FailsToRestore(c: Config, s: Sys, m: Sys) returns (m': Sys)
    requires Lawful(c) && Reaches(c, s, m) && Good(c, m) && m.ses.Busy? && Migrates(m.ses.mode) && m.ses.pc == Granted
    ensures Reaches(c, s, m') && Good(c, m') && m'.ses == m.ses.(pc := Over) && m'.w.status == m.w.status
    ensures m.w.status.migration == At(CopySchema)
    ensures !TargetIsPopulated(m'.w) && Writers(m'.w.servers) == Writers(m.w.servers)
  {
    GrantedIsAtWork(c, m);
    m' := Performs(c, s, m, RestoreFails, Over);
  }

  // ---- persisting the next stage

  lemma MemoryIsPersisted(c: Config, m: Sys)
    requires Good(c, m) && m.ses.Busy? && Migrates(m.ses.mode) && (m.ses.pc.Got? || m.ses.pc == TempSaved || m.ses.pc == Rerouted)
    ensures m.ses.mem == m.w.status && c.plan(m.ses.mem.active).Some?
  {
  }

  lemma TakesAndPersists(c: Config, s: Sys, m: Sys, n: Stage) returns (m': Sys)
    requires Lawful(c) && Reaches(c, s, m) && Good(c, m) && m.ses.Busy? && Migrates(m.ses.mode) && m.ses.pc == Got(n)
    requires HasState(n) && n != Initial && n != RerouteTargetSecret
    ensures Reaches(c, s, m') && Good(c, m') && m'.ses.Busy? && m'.ses.mode == m.ses.mode
    ensures m'.ses.pc == AfterPersist(Moved(n)) && m'.w == m.w.(status := m.w.status.(migration := At(n)))
  {
    var m1 := Takes(c, s, m, n);
    m' := Sys(m1.w.(status := m1.ses.mem), m1.ses.(pc := AfterPersist(Moved(n))));
    Goes(c, s, m1, Control(Persist), m');
  }

  lemma Takes(c: Config, s: Sys, m: Sys, n: Stage) returns (m': Sys)
    requires Lawful(c) && Reaches(c, s, m) && Good(c, m) && m.ses.Busy? && Migrates(m.ses.mode) && m.ses.pc == Got(n)
    requires HasState(n) && n != Initial && n != RerouteTargetSecret
    ensures Reaches(c, s, m') && Good(c, m') && m'.w == m.w
    ensures m'.ses == m.ses.(mem := m.w.status.(migration := At(n)), pc := Moved(n))
  {
    MemoryIsPersisted(c, m);
    m' := m.(ses := m.ses.(mem := m.w.status.(migration := At(n)), pc := Moved(n)));
    Goes(c, s, m, Migrate(Take), m');
  }

  lemma WritesSecrets(c: Config, s: Sys, m: Sys) returns (m': Sys)
    requires Lawful(c) && Reaches(c, s, m) && Good(c, m) && m.ses.Busy? && Migrates(m.ses.mode)
    requires m.ses.pc == Got(RerouteTargetSecret)
    ensures Reaches(c, s, m') && Good(c, m') && m'.w.status == m.w.status
    ensures m'.ses == m.ses.(pc := Rerouted) && m'.w.servers == m.w.servers
  {
    var m1 := SavesSource(c, s, m);
    m' := WritesApp(c, s, m1);
  }

  lemma WritesApp(c: Config, s: Sys, m: Sys) returns (m': Sys)
    requires Lawful(c) && Reaches(c, s, m) && Good(c, m) && m.ses.Busy? && Migrates(m.ses.mode) && m.ses.pc == TempSaved
    ensures Reaches(c, s, m') && Good(c, m') && m'.ses == m.ses.(pc := Rerouted)
    ensures m'.w == m.w.(app := Some(m.ses.tgt))
  {
    MemoryIsPersisted(c, m);
    m' := Sys(m.w.(app := Some(m.ses.tgt)), m.ses.(pc := Rerouted));
    Goes(c, s, m, Migrate(Reroute), m');
  }

  lemma SavesSource(c: Config, s: Sys, m: Sys) returns (m': Sys)
    requires Lawful(c) && Reaches(c, s, m) && Good(c, m) && m.ses.Busy? && Migrates(m.ses.mode)
    requires m.ses.pc == Got(RerouteTargetSecret)
    ensures Reaches(c, s, m') && Good(c, m') && m'.w.status == m.w.status && m'.ses == m.ses.(pc := TempSaved)
    ensures m'.w.servers == m.w.servers
  {
    MemoryIsPersisted(c, m);
    SourceIsRead(c, m);
    m' := SavedState(c, m);
    Goes(c, s, m, Migrate(SaveTemp), m');
  }

  lemma SourceIsRead(c: Config, m: Sys)
    requires Good(c, m) && m.ses.Busy? && Migrates(m.ses.mode) && m.ses.pc == Got(RerouteTargetSecret)
    ensures Some(m.ses.src) == m.w.temp.value.source
  {
  }

  lemma SavedState(c: Config, m: Sys) returns (m': Sys)
    requires m.ses.Busy? && Migrates(m.ses.mode) && m.ses.pc == Got(RerouteTargetSecret)
    requires c.plan(m.ses.mem.active).Some? && Fit(m.w) && Some(m.ses.src) == m.w.temp.value.source
    ensures Next(c, m, Migrate(SaveTemp)) == Some(m') && Fit(m'.w)
    ensures m'.w.status == m.w.status && m'.ses == m.ses.(pc := TempSaved) && m'.w.servers == m.w.servers
  {
    m' := Sys(m.w.(temp := Some(m.w.temp.value.(source := Some(m.ses.src)))), m.ses.(pc := TempSaved));
  }

  lemma PersistsReroute(c: Config, s: Sys, m: Sys) returns (m': Sys)
    requires Lawful(c) && Reaches(c, s, m) && Good(c, m) && m.ses.Busy? && Migrates(m.ses.mode) && m.ses.pc == Rerouted
    ensures Reaches(c, s, m') && Executing(c, m', RerouteTargetSecret)
    ensures m'.w.status == m.w.status.(migration := At(RerouteTargetSecret)) && m'.w.servers == m.w.servers
  {
    MemoryIsPersisted(c, m);
    var m1 := TakesReroute(c, s, m);
    m' := Sys(m1.w.(status := m1.ses.mem), m1.ses.(pc := Run(RerouteTargetSecret)));
    Goes(c, s, m1, Control(Persist), m');
  }

  lemma TakesReroute(c: Config, s: Sys, m: Sys) returns (m': Sys)
    requires Lawful(c) && Reaches(c, s, m) && Good(c, m) && m.ses.Busy? && Migrates(m.ses.mode) && m.ses.pc == Rerouted
    requires m.ses.mem == m.w.status && c.plan(m.ses.mem.active).Some?
    ensures Reaches(c, s, m') && Good(c, m') && m'.w == m.w
    ensures m'.ses == m.ses.(mem := m.w.status.(migration := At(RerouteTargetSecret)), pc := Moved(RerouteTargetSecret))
  {
    m' := m.(ses := m.ses.(mem := m.w.status.(migration := At(RerouteTargetSecret)), pc := Moved(RerouteTargetSecret)));
    Goes(c, s, m, Migrate(TakeReroute), m');
  }

  /** The new databases become active, all at once. */
  lemma HandsOver(c: Config, s: Sys, m: Sys) returns (m': Sys)
    requires Lawful(c) && Reaches(c, s, m) && Good(c, m) && m.ses.Busy? && Migrates(m.ses.mode) && m.ses.pc == Got(Completed)
    ensures Reaches(c, s, m') && m'.w.status == Handover(m.w.status) && m'.w.finalizer
  {
    MemoryIsPersisted(c, m);
    m' := Switches(c, s, m);
  }

  lemma Switches(c: Config, s: Sys, m: Sys) returns (m': Sys)
    requires Reaches(c, s, m) && m.ses.Busy? && Migrates(m.ses.mode) && m.ses.pc == Got(Completed)
    requires m.ses.mem == m.w.status && c.plan(m.ses.mem.active).Some? && m.w.finalizer
    ensures Reaches(c, s, m') && m'.w.status == Handover(m.w.status) && m'.w.finalizer
  {
    var m1 := m.(ses := m.ses.(mem := Handover(m.w.status), pc := Switched));
    Then(c, s, m, Migrate(SwitchActive), m1);
    m' := Sys(m1.w.(status := m1.ses.mem), m1.ses.(pc := Handed));
    Then(c, s, m1, Control(Persist), m');
  }

  // ---- from stage to stage

  /** The sequences are reset to the end. */
  lemma ResetsSequences(c: Config, s: Sys, m: Sys) returns (m': Sys)
    requires Lawful(c) && Reaches(c, s, m) && Executing(c, m, ResetTargetSequence)
    ensures Reaches(c, s, m') && Good(c, m') && m'.ses == m.ses.(pc := Got(RerouteTargetSecret))
    ensures m'.w.status == m.w.status && Writers(m'.w.servers) == Writers(m.w.servers)
  {
    IsAtWork(c, m, ResetTargetSequence);
    ResetIsNamed(m);
    m' := ResetsFrom(c, s, m);
    ResetIsGood(c, m, m');
  }

  lemma ResetIsNamed(m: Sys)
    requires SchemaInv(m) && Fit(m.w) && m.w.status.migration == At(ResetTargetSequence) && m.ses.Busy? && m.ses.pc.Run?
    ensures SameNames(m.w)
  {
  }

  lemma ResetsFrom(c: Config, s: Sys, m: Sys) returns (m': Sys)
    requires Reaches(c, s, m) && AtWork(c, m, ResetTargetSequence) && Fit(m.w) && SameNames(m.w)
    requires m.ses.pc == Run(ResetTargetSequence)
    ensures Reaches(c, s, m') && m'.ses == m.ses.(pc := Got(RerouteTargetSecret))
    ensures OnlySequencesDiffer(m.w, m'.w, AddrOf(m.w.status.newDb.conn))
    ensures HasRoom(m'.w.servers[AddrOf(m.w.status.newDb.conn)].sequences, 1)
  {
    var source := m.w.servers[AddrOf(m.ses.src)].sequences;
    RoomIsEnough(source, 2);
    m' := ResetsAll(c, s, m);
    ResetTakesRoom(source, m.w.servers[AddrOf(m.ses.tgt)].sequences, m'.w.servers[AddrOf(m.ses.tgt)].sequences, 1);
  }

  lemma ResetIsGood(c: Config, m: Sys, m': Sys)
    requires Executing(c, m, ResetTargetSequence) && m'.ses == m.ses.(pc := Got(RerouteTargetSecret))
    requires SameNames(m.w) && OnlySequencesDiffer(m.w, m'.w, AddrOf(m.w.status.newDb.conn))
    requires HasRoom(m'.w.servers[AddrOf(m.w.status.newDb.conn)].sequences, 1)
    ensures Good(c, m') && Writers(m'.w.servers) == Writers(m.w.servers)
  {
    ResetKeepsInv(c, m, m');
    ResetKeepsAllData(c, m, m');
    ResetKeepsFit(m.w, m'.w);
  }

  lemma ResetKeepsInv(c: Config, m: Sys, m': Sys)
    requires Inv(c, m) && m.ses.Busy? && Migrates(m.ses.mode) && m.ses.pc == Run(ResetTargetSequence)
    requires m'.w.status == m.w.status && m'.ses == m.ses.(pc := Got(RerouteTargetSecret))
    ensures Inv(c, m') && m.w.status.migration == At(ResetTargetSequence)
  {
  }

  lemma ResetKeepsAllData(c: Config, m: Sys, m': Sys)
    requires DataInv(c, m) && m.ses.Busy? && Migrates(m.ses.mode) && m.ses.pc == Run(ResetTargetSequence)
    requires m.w.status.migration == At(ResetTargetSequence) && m'.ses == m.ses.(pc := Got(RerouteTargetSecret))
    requires OnlySequencesDiffer(m.w, m'.w, AddrOf(m.w.status.newDb.conn))
    ensures DataInv(c, m')
  {
    var a := AddrOf(m.w.status.newDb.conn);
    AlikeKeepsData(c, m, a, m'.w.servers[a]);
    ResetKeepsServers(m'.w);
    assert Front(m') == RerouteTargetSecret;
  }

  lemma ResetKeepsFit(w: World, w': World)
    requires Fit(w) && SameNames(w) && OnlySequencesDiffer(w, w', AddrOf(w.status.newDb.conn))
    requires HasRoom(w'.servers[AddrOf(w.status.newDb.conn)].sequences, 1)
    ensures Fit(w') && SameNames(w') && Writers(w'.servers) == Writers(w.servers)
  {
  }

  /** The next stage is obtained, if need be after the target has been emptied or has caught up. */
  lemma Obtains(c: Config, s: Sys, m: Sys, n: Stage) returns (m': Sys)
    requires Lawful(c) && Reaches(c, s, m) && Executing(c, m, n) && HasState(n)
    ensures Reaches(c, s, m') && Good(c, m') && m'.ses.Busy? && Migrates(m'.ses.mode)
    ensures m'.ses.pc == Got(Successor(n)) && m'.w.status == m.w.status
    ensures n != DisableSourceAccess ==> Writers(m'.w.servers) == Writers(m.w.servers)
  {
    if n == CopySchema {
      var m1 := Empties(c, s, m);
      m' := CopiesToEmpty(c, s, m1);
    } else if n == ResetTargetSequence {
      m' := ResetsSequences(c, s, m);
    } else {
      m' := ExecutesOnce(c, s, m, n);
    }
  }

  lemma ExecutesOnce(c: Config, s: Sys, m: Sys, n: Stage) returns (m': Sys)
    requires Lawful(c) && Reaches(c, s, m) && Executing(c, m, n) && HasState(n) && n != CopySchema && n != ResetTargetSequence
    ensures Reaches(c, s, m') && Good(c, m') && m'.ses.Busy? && Migrates(m'.ses.mode)
    ensures m'.ses.pc == Got(Successor(n)) && m'.w.status == m.w.status
    ensures n != DisableSourceAccess ==> Writers(m'.w.servers) == Writers(m.w.servers)
  {
    var m1 := m;
    if n == ValidateMigrationStatus {
      m1 := CatchesUp(c, s, m);
    } else if n == CutOverReadinessCheck {
      m1 := Syncs(c, s, m);
    }
    StageLeads(c, m1, n);
    m' := Performs(c, s, m1, EffectOf(n), Got(Successor(n)));
  }

  lemma GoesOnTo(c: Config, s: Sys, m: Sys, n: Stage) returns (m': Sys)
    requires Lawful(c) && Reaches(c, s, m) && Good(c, m) && m.ses.Busy? && Migrates(m.ses.mode) && m.ses.pc == Got(n)
    requires HasState(n) && n != Initial
    ensures Reaches(c, s, m') && Executing(c, m', n) && m'.w.status == m.w.status.(migration := At(n))
    ensures m'.w.servers == m.w.servers
  {
    if n == RerouteTargetSecret {
      m' := Reroutes(c, s, m);
    } else if n == WaitToDisableSource {
      m' := PersistsAndWaits(c, s, m);
    } else {
      m' := PersistsAndRuns(c, s, m, n);
    }
  }

  lemma PersistsAndRuns(c: Config, s: Sys, m: Sys, n: Stage) returns (m': Sys)
    requires Lawful(c) && Reaches(c, s, m) && Good(c, m) && m.ses.Busy? && Migrates(m.ses.mode) && m.ses.pc == Got(n)
    requires HasState(n) && n != Initial && n != RerouteTargetSecret && n != WaitToDisableSource
    ensures Reaches(c, s, m') && Executing(c, m', n) && m'.w == m.w.(status := m.w.status.(migration := At(n)))
  {
    m' := TakesAndPersists(c, s, m, n);
    assert AfterPersist(Moved(n)) == Run(n);
  }

  lemma PersistsAndWaits(c: Config, s: Sys, m: Sys) returns (m': Sys)
    requires Lawful(c) && Reaches(c, s, m) && Good(c, m) && m.ses.Busy? && Migrates(m.ses.mode)
    requires m.ses.pc == Got(WaitToDisableSource)
    ensures Reaches(c, s, m') && Executing(c, m', WaitToDisableSource)
    ensures m'.w == m.w.(status := m.w.status.(migration := At(WaitToDisableSource)))
  {
    var m1 := TakesAndPersists(c, s, m, WaitToDisableSource);
    m' := Waits(c, s, m1);
  }

  lemma Reroutes(c: Config, s: Sys, m: Sys) returns (m': Sys)
    requires Lawful(c) && Reaches(c, s, m) && Good(c, m) && m.ses.Busy? && Migrates(m.ses.mode)
    requires m.ses.pc == Got(RerouteTargetSecret)
    ensures Reaches(c, s, m') && Executing(c, m', RerouteTargetSecret)
    ensures m'.w.status == m.w.status.(migration := At(RerouteTargetSecret)) && m'.w.servers == m.w.servers
  {
    var m1 := WritesSecrets(c, s, m);
    m' := PersistsReroute(c, s, m1);
  }

  lemma Waits(c: Config, s: Sys, m: Sys) returns (m': Sys)
    requires Lawful(c) && Reaches(c, s, m) && Good(c, m) && m.ses.Busy? && m.ses.pc == Over
    requires m.w.status.migration == At(WaitToDisableSource)
    ensures Reaches(c, s, m') && Executing(c, m', WaitToDisableSource) && m'.w == m.w
  {
    var m1 := Returns(c, s, m);
    m' := Reopened(c, s, m.w);
  }

  lemma Advances(c: Config, s: Sys, m: Sys, n: Stage) returns (m': Sys)
    requires Lawful(c) && Reaches(c, s, m) && Executing(c, m, n) && HasState(n) && n != DeletePublication
    ensures Reaches(c, s, m') && Executing(c, m', Successor(n)) && SameDatabases(m.w.status, m'.w.status)
    ensures n != DisableSourceAccess ==> Writers(m'.w.servers) == Writers(m.w.servers)
  {
    SuccessorAdvances(n);
    var m1 := Obtains(c, s, m, n);
    m' := GoesOnTo(c, s, m1, Successor(n));
  }

  lemma Finishes(c: Config, s: Sys, m: Sys) returns (m': Sys)
    requires Lawful(c) && Reaches(c, s, m) && Executing(c, m, DeletePublication)
    ensures Reaches(c, s, m') && m'.w.status == Handover(m.w.status) && m'.w.finalizer
  {
    var m1 := ObtainsLast(c, s, m);
    m' := HandsOver(c, s, m1);
  }

  lemma ObtainsLast(c: Config, s: Sys, m: Sys) returns (m': Sys)
    requires Lawful(c) && Reaches(c, s, m) && Executing(c, m, DeletePublication)
    ensures Reaches(c, s, m') && Good(c, m') && m'.ses.Busy? && Migrates(m'.ses.mode)
    ensures m'.ses.pc == Got(Completed) && m'.w.status == m.w.status
  {
    m' := Obtains(c, s, m, DeletePublication);
  }

  lemma {:induction false} RunsThrough(c: Config, s: Sys, m: Sys, n: Stage, left: nat) returns (m': Sys)
    requires Lawful(c) && Reaches(c, s, m) && Executing(c, m, n) && HasState(n) && left + Position(n) == 14
    ensures Reaches(c, s, m') && m'.w.status == Handover(m.w.status) && m'.w.finalizer
    decreases left
  {
    if n == DeletePublication {
      m' := Finishes(c, s, m);
    } else {
      SuccessorAdvances(n);
      var m1 := Advances(c, s, m, n);
      m' := RunsThrough(c, s, m1, Successor(n), left - 1);
    }
  }

  lemma PositionIsBounded(n: Stage)
    requires HasState(n)
    ensures Position(n) <= 14
  {
  }

  lemma RunsToTheEnd(c: Config, s: Sys, m: Sys, n: Stage) returns (m': Sys)
    requires Lawful(c) && Reaches(c, s, m) && Executing(c, m, n) && HasState(n)
    ensures Reaches(c, s, m') && m'.w.status == Handover(m.w.status) && m'.w.finalizer
  {
    PositionIsBounded(n);
    m' := RunsThrough(c, s, m, n, 14 - Position(n));
  }

  lemma ResumedHasState(c: Config, s: Sys)
    requires Inv(c, s) && Running(s.w.status.migration) && Resumed(s.w.status.migration).Some?
    ensures HasState(Resumed(s.w.status.migration).value)
  {
  }

  /** A secret that is ahead of the stage, with an administrator that fits, lets the target be taken for the source. */
  lemma AheadIsRerunnable(c: Config, s: Sys)
    requires Lawful(c) && Good(c, s) && IsAhead(s.w) && MasterFits(c, s.w.status)
    ensures Rerunnable(c, s.w)
  {
    SourceLeads(c, s);
  }

  // ---- up to the rerouting

  /** The stages up to the reset of the sequences change nobody's right to write. */
  lemma {:induction false} ReachesReset(c: Config, s: Sys, m: Sys, n: Stage, left: nat) returns (m': Sys)
    requires Lawful(c) && Reaches(c, s, m) && Executing(c, m, n) && HasState(n)
    requires left + Position(n) == Position(ResetTargetSequence)
    ensures Reaches(c, s, m') && Executing(c, m', ResetTargetSequence)
    ensures SameDatabases(m.w.status, m'.w.status) && Writers(m'.w.servers) == Writers(m.w.servers)
    decreases left
  {
    if n == ResetTargetSequence {
      m' := m;
    } else {
      SuccessorAdvances(n);
      EarlyStage(n);
      var m1 := Advances(c, s, m, n);
      m' := ReachesReset(c, s, m1, Successor(n), left - 1);
    }
  }

  lemma EarlyStage(n: Stage)
    requires HasState(n) && Position(n) <= Position(ResetTargetSequence)
    ensures n != DeletePublication && n != DisableSourceAccess
    ensures n != ResetTargetSequence ==> Position(n) < Position(ResetTargetSequence)
  {
  }

  /** A migration that has just been started can get to where the application secret has been rerouted. */
  lemma ReachesReroute(c: Config, s: Sys, w: World) returns (m: Sys)
    requires Lawful(c) && Reaches(c, s, Sys(w, Idle)) && Good(c, Sys(w, Idle))
    requires w.status.migration == At(MigrationInProgress)
    ensures Reaches(c, s, m) && Good(c, m) && m.ses.Busy? && Migrates(m.ses.mode) && m.ses.pc == Rerouted
    ensures SameDatabases(w.status, m.w.status) && Writers(m.w.servers) == Writers(w.servers)
  {
    var m1 := Reopened(c, s, w);
    var m2 := ReachesReset(c, s, m1, Initial, 7);
    var m3 := Obtains(c, s, m2, ResetTargetSequence);
    m := WritesSecrets(c, s, m3);
  }

  lemma ReroutedIsAhead(c: Config, s: Sys)
    requires Good(c, s) && s.ses.Busy? && Migrates(s.ses.mode) && s.ses.pc == Rerouted
    ensures IsAhead(s.w)
  {
  }

  /**
   Every clean migration from an existing database can still go wrong at the moment it has rerouted the application
   secret: an interruption there can lead to the switch with the target compared only with itself.
   */
  lemma EveryRerouteCanGoWrong(c: Config, s: Sys) returns (s': Sys)
    requires Lawful(c) && Good(c, s) && s.ses.Busy? && Migrates(s.ses.mode) && s.ses.pc == Rerouted
    requires s.w.status.active.state == UsingExistingDB
    ensures Reaches(c, s, s') && IsUncheckedSwitch(s') && Rows(s'.w.servers) == Rows(s.w.servers)
    ensures s'.w.status == s.w.status.(migration := At(DeletePublication))
  {
    ReroutedIsAhead(c, s);
    AheadIsRerunnable(c, s);
    RoomIsEnough(s.w.servers[AddrOf(s.w.status.newDb.conn)].sequences, 1);
    s' := InterruptedRerouteSkipsCheck(c, s);
  }
}
