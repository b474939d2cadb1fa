/**
 The cut-over is preceded by a check against the real source: exactly in the runs in which
 no session has read a rerouted secret as its source.
 */
module CutOver {
  import opened Options
  import opened Stages
  import opened Claim
  import opened Protocol
  import opened ClaimInvariants
  import opened ClaimProperties
  import opened DataInvariants
  import opened MigrationSafety

  /** The event takes insert, update and delete on the source away from the role of its application user. */
  predicate Revokes(c: Config, s: Sys, e: Event, src: Conn) {
    && e == Migrate(Exec(RevokeWrites)) && s.ses.Busy?
    && s.ses.src == src && SourceAdmin(c, s.ses.mode, s.ses.mem, s.ses.src) == AddrOf(src)
  }

  /** The event finds every table of the source reached in the target, with the replication in place. */
  predicate Checks(s: Sys, e: Event, src: Conn, tgt: Addr) {
    && e == Migrate(Exec(Compare)) && s.ses.Busy?
    && s.ses.src == src && AddrOf(s.ses.tgt) == tgt
    && AddrOf(src) in s.w.servers && tgt in s.w.servers
    && s.w.servers[AddrOf(src)].publication && s.w.servers[tgt].subscription == Enabled
    && ParentRole(src.user) !in s.w.servers[AddrOf(src)].writers
    && Covers(s.w.servers[tgt].rows, s.w.servers[AddrOf(src)].rows)
  }

  ghost predicate RevokedAt(c: Config, r: Trace, k: nat, src: Conn, i: nat)
    requires |r.states| == |r.events| + 1 && k < |r.states|
  {
    i < k && RunningFrom(r, i, k) && Revokes(c, r.states[i], r.events[i], src)
  }

  /** The writes were revoked, and later, in the same migration, the rows were checked. */
  ghost predicate CheckedAt(c: Config, r: Trace, k: nat, src: Conn, tgt: Addr, i: nat, j: nat)
    requires |r.states| == |r.events| + 1 && k < |r.states|
  {
    i < j < k && RevokedAt(c, r, k, src, i) && Checks(r.states[j], r.events[j], src, tgt)
  }

  ghost predicate Revoked(c: Config, r: Trace, k: nat, src: Conn)
    requires |r.states| == |r.events| + 1 && k < |r.states|
  {
    exists i :: RevokedAt(c, r, k, src, i)
  }

  ghost predicate Checked(c: Config, r: Trace, k: nat, src: Conn, tgt: Addr)
    requires |r.states| == |r.events| + 1 && k < |r.states|
  {
    exists i, j :: CheckedAt(c, r, k, src, tgt, i, j)
  }

  /** The validation of the row counts has become due. */
  predicate ValidationDue(s: Sys) {
    s.w.status.migration.At? && Position(Front(s)) >= Position(ValidateMigrationStatus)
  }

  /** Stopping the replication has become due. */
  predicate StopDue(s: Sys) {
    s.w.status.migration.At? && Position(Front(s)) >= Position(DisableSubscription)
  }

  /** Only the revocation makes the validation due, and only a check makes stopping due. */
  predicate DueBy(s: Sys, e: Event, s': Sys) {
    && (ValidationDue(s') ==> ValidationDue(s) || e == Migrate(Exec(RevokeWrites)))
    && (StopDue(s') ==> StopDue(s) || e == Migrate(Exec(Compare)))
  }

  lemma PersistDue(c: Config, s: Sys, s': Sys)
    requires Inv(c, s) && NextSession(c, s, Persist) == Some(s')
    requires Running(s.w.status.migration) && Running(s'.w.status.migration)
    ensures Front(s') == Front(s)
  {
    if s.ses.pc.Moved? && Migrates(s.ses.mode) {
      PersistMoveDue(c, s, s', s.ses.pc.next);
    }
  }

  lemma PersistMoveDue(c: Config, s: Sys, s': Sys, n: Stage)
    requires NextSession(c, s, Persist) == Some(s') && s.ses.Busy? && Migrates(s.ses.mode) && s.ses.pc == Moved(n)
    requires s.w.status.migration.At? && s.ses.mem.migration == At(n) && n != Initial
    ensures Front(s') == Front(s)
  {
  }

  lemma EndDue(c: Config, s: Sys, s': Sys)
    requires Inv(c, s) && Running(s.w.status.migration)
    requires s'.w.status == s.w.status && !s'.ses.Busy?
    ensures Position(Front(s')) <= Position(Front(s))
  {
  }

  lemma PerformDue(c: Config, servers: map<Addr, Server>, ses: Session, x: Effect)
    requires ses.Busy? && c.plan(ses.mem.active).Some? && Perform(c, servers, ses, x).Some?
    ensures var pc' := Perform(c, servers, ses, x).value.pc;
            && (pc' == Got(ValidateMigrationStatus) ==> x == RevokeWrites)
            && (pc' == Got(DisableSubscription) ==> x == Compare)
  {
  }

  lemma MoveDue(s: Sys, s': Sys)
    requires s.ses.Busy? && Migrates(s.ses.mode) && s'.ses.Busy? && ExecMoves(s.ses.pc, s'.ses.pc)
    requires s'.w.status == s.w.status && s'.ses == s.ses.(pc := s'.ses.pc) && Running(s.w.status.migration)
    requires s.ses.pc.Run? ==> Resumed(s.w.status.migration) == Some(s.ses.pc.stage)
    requires s.ses.pc == Granted || s.ses.pc == Restored ==> s.w.status.migration == At(CopySchema)
    requires s.ses.pc.Reading? || s.ses.pc.Setting? ==> s.w.status.migration == At(ResetTargetSequence)
    ensures ValidationDue(s') && s'.ses.pc != Got(ValidateMigrationStatus) ==> ValidationDue(s)
    ensures StopDue(s') && s'.ses.pc != Got(DisableSubscription) ==> StopDue(s)
  {
  }

  lemma ExecDue(c: Config, s: Sys, x: Effect, s': Sys)
    requires Inv(c, s) && NextMigration(c, s, Exec(x)) == Some(s') && Running(s.w.status.migration)
    ensures DueBy(s, Migrate(Exec(x)), s')
  {
    PerformMoves(c, s.w.servers, s.ses, x);
    PerformDue(c, s.w.servers, s.ses, x);
    ExecStage(c, s, x, s');
    MoveDue(s, s');
  }

  lemma ExecStage(c: Config, s: Sys, x: Effect, s': Sys)
    requires Inv(c, s) && NextMigration(c, s, Exec(x)) == Some(s') && s'.ses.Busy? && ExecMoves(s.ses.pc, s'.ses.pc)
    ensures s.ses.pc.Run? ==> Resumed(s.w.status.migration) == Some(s.ses.pc.stage)
    ensures s.ses.pc == Granted || s.ses.pc == Restored ==> s.w.status.migration == At(CopySchema)
    ensures s.ses.pc.Reading? || s.ses.pc.Setting? ==> s.w.status.migration == At(ResetTargetSequence)
  {
  }

  lemma TakeFront(c: Config, s: Sys, s': Sys)
    requires NextMigration(c, s, Take) == Some(s') && Running(s.w.status.migration)
    ensures s'.w.status == s.w.status && Front(s') == Front(s)
  {
  }

  lemma MigrateFront(c: Config, s: Sys, e: MigrateEvent, s': Sys)
    requires Inv(c, s) && NextMigration(c, s, e) == Some(s') && !e.Exec? && Running(s.w.status.migration)
    ensures s'.w.status == s.w.status
    ensures Front(s') == Front(s) || Front(s') == ResetTargetSequence || Front(s') == RerouteTargetSecret
  {
    match e
    case Take => TakeFront(c, s, s');
    case SaveTemp => SaveTempFront(c, s, s');
    case SwitchActive => SwitchFront(c, s, s');
    case TakeReroute => TakeRerouteFront(c, s, s');
    case _ => OtherFront(c, s, e, s');
  }

  lemma SwitchFront(c: Config, s: Sys, s': Sys)
    requires NextMigration(c, s, SwitchActive) == Some(s') && Running(s.w.status.migration)
    ensures s'.w.status == s.w.status && Front(s') == Front(s)
  {
  }

  lemma TakeRerouteFront(c: Config, s: Sys, s': Sys)
    requires NextMigration(c, s, TakeReroute) == Some(s') && Running(s.w.status.migration)
    ensures s'.w.status == s.w.status && Front(s') == RerouteTargetSecret
  {
  }

  lemma OtherFront(c: Config, s: Sys, e: MigrateEvent, s': Sys)
    requires e == Resume || e == Reroute || e == DropTemp
    requires NextMigration(c, s, e) == Some(s') && Running(s.w.status.migration)
    ensures s'.w.status == s.w.status && Front(s') == Front(s)
  {
  }

  lemma SaveTempFront(c: Config, s: Sys, s': Sys)
    requires Inv(c, s) && NextMigration(c, s, SaveTemp) == Some(s') && Running(s.w.status.migration)
    ensures s'.w.status == s.w.status && Front(s') == ResetTargetSequence
  {
    ReroutesAtReset(c, s, SaveTemp, s');
  }

  lemma EnvFront(s: Sys, e: EnvEvent, s': Sys)
    requires NextEnvironment(s, e) == Some(s') && Running(s.w.status.migration)
    ensures s'.w.status == s.w.status && Front(s') == Front(s)
  {
  }

  lemma FrontDue(s: Sys, e: Event, s': Sys)
    requires Running(s.w.status.migration) && s'.w.status == s.w.status
    requires Front(s') == Front(s) || Front(s') == ResetTargetSequence || Front(s') == RerouteTargetSecret
    ensures DueBy(s, e, s')
  {
  }

  lemma MigrateDue(c: Config, s: Sys, e: MigrateEvent, s': Sys)
    requires Inv(c, s) && NextMigration(c, s, e) == Some(s') && Running(s.w.status.migration)
    ensures DueBy(s, Migrate(e), s')
  {
    if e.Exec? {
      ExecDue(c, s, e.effect, s');
    } else {
      MigrateFront(c, s, e, s');
      FrontDue(s, Migrate(e), s');
    }
  }

  lemma EnvDue(s: Sys, e: EnvEvent, s': Sys)
    requires NextEnvironment(s, e) == Some(s') && Running(s.w.status.migration)
    ensures DueBy(s, Env(e), s')
  {
    EnvFront(s, e, s');
    FrontDue(s, Env(e), s');
  }

  lemma StepDue(c: Config, s: Sys, e: Event, s': Sys)
    requires Inv(c, s) && Next(c, s, e) == Some(s')
    requires Running(s.w.status.migration) && Running(s'.w.status.migration)
    ensures DueBy(s, e, s')
  {
    match e
    case Env(x) => EnvDue(s, x, s');
    case Control(x) => ControlDue(c, s, x, s');
    case Provision(x) => NoProvisionWhileRunning(c, s, x);
    case Migrate(x) => MigrateDue(c, s, x, s');
    case Clean(x) => NoCleanupWhileRunning(c, s, x);
  }

  lemma ControlDue(c: Config, s: Sys, e: SessionEvent, s': Sys)
    requires Inv(c, s) && NextSession(c, s, e) == Some(s')
    requires Running(s.w.status.migration) && Running(s'.w.status.migration)
    ensures DueBy(s, Control(e), s')
  {
    match e
    case Persist => PersistDue(c, s, s');
    case Abort => EndDue(c, s, s');
    case Return => EndDue(c, s, s');
    case _ =>
  }

  /** What the events of a clean run have done by the time the stages are due. */
  ghost predicate History(c: Config, r: Trace, k: nat)
    requires |r.states| == |r.events| + 1 && k < |r.states|
  {
    var s := r.states[k];
    Running(s.w.status.migration) ==>
      && s.w.temp.Some? && s.w.temp.value.source.Some?
      && (ValidationDue(s) ==> Revoked(c, r, k, s.w.temp.value.source.value))
      && (StopDue(s) ==> Checked(c, r, k, s.w.temp.value.source.value, AddrOf(s.w.status.newDb.conn)))
  }

  lemma RevokedLater(c: Config, r: Trace, k: nat, src: Conn)
    requires |r.states| == |r.events| + 1 && k + 1 < |r.states| && Running(r.states[k + 1].w.status.migration)
    requires Revoked(c, r, k, src)
    ensures Revoked(c, r, k + 1, src)
  {
    var i :| RevokedAt(c, r, k, src, i);
    assert RevokedAt(c, r, k + 1, src, i);
  }

  lemma CheckedLater(c: Config, r: Trace, k: nat, src: Conn, tgt: Addr)
    requires |r.states| == |r.events| + 1 && k + 1 < |r.states| && Running(r.states[k + 1].w.status.migration)
    requires Checked(c, r, k, src, tgt)
    ensures Checked(c, r, k + 1, src, tgt)
  {
    var i, j :| CheckedAt(c, r, k, src, tgt, i, j);
    assert CheckedAt(c, r, k + 1, src, tgt, i, j);
  }

  lemma RevokesSource(c: Config, s: Sys, s': Sys)
    requires Inv(c, s) && DataInv(c, s) && NextMigration(c, s, Exec(RevokeWrites)) == Some(s')
    ensures s.w.temp.Some? && s.w.temp.value.source.Some?
    ensures Revokes(c, s, Migrate(Exec(RevokeWrites)), s.w.temp.value.source.value)
  {
    ConnectionsLead(c, s);
  }

  lemma ChecksAtWork(c: Config, s: Sys, d: Deed)
    requires AtWork(c, s, ValidateMigrationStatus) && Perform(c, s.w.servers, s.ses, Compare) == Some(d)
    ensures ValidationDue(s)
    ensures d.pc == Got(DisableSubscription) ==>
              Checks(s, Migrate(Exec(Compare)), s.w.temp.value.source.value, AddrOf(s.w.status.newDb.conn))
    ensures d.pc == Got(Retry) || d.pc == Got(DisableSubscription)
  {
    ReplicationIsInPlace(s.w);
  }

  lemma ReplicationIsInPlace(w: World)
    requires SecretsAt(w, ValidateMigrationStatus) && ServersAt(w, ValidateMigrationStatus)
    ensures var src, tgt := w.temp.value.source.value, AddrOf(w.status.newDb.conn);
            && AddrOf(src) in w.servers && tgt in w.servers
            && w.servers[AddrOf(src)].publication && w.servers[tgt].subscription == Enabled
            && ParentRole(src.user) !in w.servers[AddrOf(src)].writers
  {
  }

  lemma ComparesLate(c: Config, s: Sys, s': Sys)
    requires Inv(c, s) && NextMigration(c, s, Exec(Compare)) == Some(s')
    ensures s.w.status.migration == At(ValidateMigrationStatus)
    ensures Executes(s.ses) && s.ses.pc == Run(ValidateMigrationStatus) && s.ses.mem == s.w.status
  {
  }

  lemma CompareIsAtWork(c: Config, s: Sys, s': Sys)
    requires Inv(c, s) && DataInv(c, s) && NextMigration(c, s, Exec(Compare)) == Some(s')
    ensures AtWork(c, s, ValidateMigrationStatus)
  {
    ComparesLate(c, s, s');
    ConnectionsLead(c, s);
  }

  lemma ChecksSource(c: Config, s: Sys, s': Sys)
    requires AtWork(c, s, ValidateMigrationStatus) && NextMigration(c, s, Exec(Compare)) == Some(s')
    ensures s.w.temp.Some? && s.w.temp.value.source.Some? && ValidationDue(s)
    ensures StopDue(s') ==> Checks(s, Migrate(Exec(Compare)), s.w.temp.value.source.value, AddrOf(s.w.status.newDb.conn))
  {
    ChecksAtWork(c, s, Perform(c, s.w.servers, s.ses, Compare).value);
  }

  lemma RunRevokesSource(c: Config, r: Trace, k: nat)
    requires IsMigrationRun(c, r) && k < |r.events| && CleanUpTo(r, k) && r.events[k] == Migrate(Exec(RevokeWrites))
    requires Running(r.states[k].w.status.migration) && Running(r.states[k + 1].w.status.migration)
    ensures r.states[k].w.temp.Some? && r.states[k].w.temp.value.source.Some?
    ensures Revoked(c, r, k + 1, r.states[k].w.temp.value.source.value)
  {
    RunData(c, r, k);
    StepOf(c, r, k);
    RevokesSource(c, r.states[k], r.states[k + 1]);
    assert RevokedAt(c, r, k + 1, r.states[k].w.temp.value.source.value, k);
  }

  lemma RunChecksSource(c: Config, r: Trace, k: nat)
    requires IsMigrationRun(c, r) && k < |r.events| && CleanUpTo(r, k) && r.events[k] == Migrate(Exec(Compare))
    requires Running(r.states[k].w.status.migration) && Running(r.states[k + 1].w.status.migration)
    requires StopDue(r.states[k + 1]) && History(c, r, k)
    ensures Checked(c, r, k + 1, r.states[k].w.temp.value.source.value, AddrOf(r.states[k].w.status.newDb.conn))
  {
    RunData(c, r, k);
    StepOf(c, r, k);
    CompareIsAtWork(c, r.states[k], r.states[k + 1]);
    ChecksSource(c, r.states[k], r.states[k + 1]);
    var src := r.states[k].w.temp.value.source.value;
    var i :| RevokedAt(c, r, k, src, i);
    assert RevokedAt(c, r, k + 1, src, i);
    assert CheckedAt(c, r, k + 1, src, AddrOf(r.states[k].w.status.newDb.conn), i, k);
  }

  lemma RunStepDue(c: Config, r: Trace, k: nat)
    requires IsMigrationRun(c, r) && k < |r.events|
    requires Running(r.states[k].w.status.migration) && Running(r.states[k + 1].w.status.migration)
    ensures DueBy(r.states[k], r.events[k], r.states[k + 1])
    ensures r.states[k + 1].w.status.newDb == r.states[k].w.status.newDb
  {
    RunInv(c, r, k);
    StepOf(c, r, k);
    StepDue(c, r.states[k], r.events[k], r.states[k + 1]);
    StepMoves(c, r.states[k], r.events[k], r.states[k + 1]);
  }

  lemma HistoryStep(c: Config, r: Trace, k: nat)
    requires IsMigrationRun(c, r) && k < |r.events| && CleanUpTo(r, k) && History(c, r, k)
    requires Running(r.states[k].w.status.migration) && Running(r.states[k + 1].w.status.migration)
    ensures History(c, r, k + 1)
  {
    var s, s' := r.states[k], r.states[k + 1];
    RunStepKeepsSource(c, r, k);
    RunStepDue(c, r, k);
    var src := s.w.temp.value.source.value;
    if ValidationDue(s') {
      if ValidationDue(s) {
        RevokedLater(c, r, k, src);
      } else {
        RunRevokesSource(c, r, k);
      }
    }
    if StopDue(s') {
      if StopDue(s) {
        CheckedLater(c, r, k, src, AddrOf(s.w.status.newDb.conn));
      } else {
        RunChecksSource(c, r, k);
      }
    }
  }

  lemma PersistStartsInProgress(c: Config, s: Sys, s': Sys)
    requires Inv(c, s) && NextSession(c, s, Persist) == Some(s')
    requires !Running(s.w.status.migration) && Running(s'.w.status.migration)
    ensures s'.w.status.migration == At(MigrationInProgress) && Front(s') == MigrationInProgress
  {
  }

  lemma RunStartsInProgress(c: Config, r: Trace, k: nat)
    requires IsMigrationRun(c, r) && 0 < k < |r.states|
    requires Running(r.states[k].w.status.migration) && !Running(r.states[k - 1].w.status.migration)
    ensures r.states[k].w.status.migration == At(MigrationInProgress) && Front(r.states[k]) == MigrationInProgress
  {
    RunInv(c, r, k - 1);
    StepOf(c, r, k - 1);
    if r.events[k - 1] == Control(Persist) {
      PersistStartsInProgress(c, r.states[k - 1], r.states[k]);
    } else {
      OnlyPersistWrites(c, r.states[k - 1], r.events[k - 1], r.states[k]);
    }
  }

  lemma {:induction false} RunHistory(c: Config, r: Trace, k: nat)
    requires IsMigrationRun(c, r) && k < |r.states| && CleanUpTo(r, k)
    ensures History(c, r, k)
  {
    if k > 0 && Running(r.states[k].w.status.migration) {
      if Running(r.states[k - 1].w.status.migration) {
        RunHistory(c, r, k - 1);
        HistoryStep(c, r, k - 1);
      } else {
        HistoryStarts(c, r, k);
      }
    }
  }

  lemma HistoryStarts(c: Config, r: Trace, k: nat)
    requires IsMigrationRun(c, r) && 0 < k < |r.states| && CleanUpTo(r, k)
    requires Running(r.states[k].w.status.migration) && !Running(r.states[k - 1].w.status.migration)
    ensures History(c, r, k)
  {
    RunStartsInProgress(c, r, k);
    RunHasTemp(c, r, k);
  }

  /** The event stops the replication, or switches the active database. */
  predicate CutsOver(r: Trace, k: nat)
    requires |r.states| == |r.events| + 1 && k < |r.events|
  {
    r.events[k] == Migrate(Exec(DisableSub)) || r.events[k] == Migrate(Exec(DropSub)) || Completes(r, k)
  }

  lemma StopStage(c: Config, s: Sys, x: Effect, s': Sys)
    requires Inv(c, s) && (x == DisableSub || x == DropSub) && NextMigration(c, s, Exec(x)) == Some(s')
    ensures s.w.status.migration == At(if x == DisableSub then DisableSubscription else DeleteSubscription)
    ensures s.ses.Busy? && s.ses.pc.Run?
  {
  }

  lemma StopIsDue(c: Config, s: Sys, x: Effect, s': Sys)
    requires Inv(c, s) && (x == DisableSub || x == DropSub) && NextMigration(c, s, Exec(x)) == Some(s')
    ensures Running(s.w.status.migration) && StopDue(s)
  {
    StopStage(c, s, x, s');
    StopDueAt(s, if x == DisableSub then DisableSubscription else DeleteSubscription);
  }

  lemma StopDueAt(s: Sys, n: Stage)
    requires n == DisableSubscription || n == DeleteSubscription
    requires s.w.status.migration == At(n) && s.ses.Busy? && s.ses.pc.Run?
    ensures Running(s.w.status.migration) && StopDue(s)
  {
  }

  lemma SwitchIsDue(c: Config, s: Sys, s': Sys)
    requires Inv(c, s) && NextSession(c, s, Persist) == Some(s')
    requires Running(s.w.status.migration) && s'.w.status.migration == At(Completed)
    ensures StopDue(s)
  {
    CompletesWhenSwitched(c, s, s');
  }

  lemma RunCutOverIsDue(c: Config, r: Trace, k: nat)
    requires IsMigrationRun(c, r) && k < |r.events| && CutsOver(r, k)
    ensures Running(r.states[k].w.status.migration) && StopDue(r.states[k])
  {
    RunInv(c, r, k);
    StepOf(c, r, k);
    if Completes(r, k) {
      SwitchIsDue(c, r.states[k], r.states[k + 1]);
    } else {
      StopIsDue(c, r.states[k], r.events[k].migrate.effect, r.states[k + 1]);
    }
  }

  /** A server that nobody may write to and that receives no replication keeps its rows. */
  predicate Frozen(s: Sys, a: Addr) {
    a in s.w.servers && s.w.servers[a].writers == {} && s.w.servers[a].subscription != Enabled
  }

  lemma PerformKeepsFrozen(c: Config, s: Sys, x: Effect, d: Deed, a: Addr)
    requires s.ses.Busy? && c.plan(s.ses.mem.active).Some? && Perform(c, s.w.servers, s.ses, x) == Some(d)
    requires Frozen(s, a) && a != PlannedAddr(c, s.ses.mem.active)
    ensures Frozen(Apply(s, d), a) && Apply(s, d).w.servers[a].rows == s.w.servers[a].rows
  {
  }

  lemma ExecLeavesActive(c: Config, s: Sys, x: Effect)
    requires Inv(c, s) && NextMigration(c, s, Exec(x)).Some?
    ensures c.plan(s.ses.mem.active).Some? && AddrOf(s.w.status.active.conn) != PlannedAddr(c, s.ses.mem.active)
  {
    PerformMoves(c, s.w.servers, s.ses, x);
  }

  lemma OthersLeaveServers(c: Config, s: Sys, e: Event, s': Sys)
    requires Next(c, s, e) == Some(s') && !e.Env? && !e.Provision? && !(e.Migrate? && e.migrate.Exec?)
    ensures s'.w.servers == s.w.servers
  {
  }

  lemma StepKeepsFrozen(c: Config, s: Sys, e: Event, s': Sys, a: Addr)
    requires Inv(c, s) && Next(c, s, e) == Some(s') && Running(s.w.status.migration)
    requires a == AddrOf(s.w.status.active.conn) && Frozen(s, a)
    ensures Frozen(s', a) && s'.w.servers[a].rows == s.w.servers[a].rows
  {
    if e.Provision? {
      NoProvisionWhileRunning(c, s, e.provision);
    } else if e.Migrate? && e.migrate.Exec? {
      ExecLeavesActive(c, s, e.migrate.effect);
      PerformKeepsFrozen(c, s, e.migrate.effect, Perform(c, s.w.servers, s.ses, e.migrate.effect).value, a);
    } else if e.Env? {
      EnvKeepsFrozen(s, e.env, s', a);
    } else {
      OthersLeaveServers(c, s, e, s');
    }
  }

  lemma EnvKeepsFrozen(s: Sys, e: EnvEvent, s': Sys, a: Addr)
    requires NextEnvironment(s, e) == Some(s') && Frozen(s, a)
    ensures Frozen(s', a) && s'.w.servers[a].rows == s.w.servers[a].rows
  {
  }

  lemma RunStepKeepsFrozen(c: Config, r: Trace, k: nat, a: Addr)
    requires IsMigrationRun(c, r) && k < |r.events| && Running(r.states[k].w.status.migration)
    requires a == AddrOf(r.states[k].w.status.active.conn) && Frozen(r.states[k], a)
    ensures Frozen(r.states[k + 1], a) && r.states[k + 1].w.servers[a].rows == r.states[k].w.servers[a].rows
  {
    RunInv(c, r, k);
    StepOf(c, r, k);
    StepKeepsFrozen(c, r.states[k], r.events[k], r.states[k + 1], a);
  }

  lemma RunKeepsActive(c: Config, r: Trace, j: nat, k: nat)
    requires IsMigrationRun(c, r) && j <= k < |r.states| && RunningFrom(r, j, k)
    ensures r.states[k].w.status.active == r.states[j].w.status.active
    ensures r.states[k].w.status.newDb == r.states[j].w.status.newDb
  {
    MigrationKeepsCourse(c, r, j, k);
  }

  lemma {:induction false} FrozenRowsStay(c: Config, r: Trace, j: nat, k: nat)
    requires IsMigrationRun(c, r) && j <= k < |r.states| && RunningFrom(r, j, k)
    requires Frozen(r.states[j], AddrOf(r.states[j].w.status.active.conn))
    ensures var a := AddrOf(r.states[j].w.status.active.conn);
            Frozen(r.states[k], a) && r.states[k].w.servers[a].rows == r.states[j].w.servers[a].rows
  {
    if j < k {
      FrozenRowsStay(c, r, j, k - 1);
      RunKeepsActive(c, r, j, k - 1);
      assert Running(r.states[k - 1].w.status.migration);
      RunStepKeepsFrozen(c, r, k - 1, AddrOf(r.states[j].w.status.active.conn));
    }
  }

  /** The comparison of the rows, and what is left of it when the replication is stopped. */
  ghost predicate SafeCutOver(c: Config, r: Trace, k: nat, src: Conn, tgt: Addr, i: nat, j: nat)
    requires |r.states| == |r.events| + 1 && k < |r.states|
  {
    && CheckedAt(c, r, k, src, tgt, i, j)
    && (Frozen(r.states[j], AddrOf(src)) ==>
          && AddrOf(src) in r.states[k].w.servers
          && r.states[k].w.servers[AddrOf(src)].rows == r.states[j].w.servers[AddrOf(src)].rows)
  }

  lemma RunSourceIsActive(c: Config, r: Trace, k: nat)
    requires IsMigrationRun(c, r) && k < |r.states| && CleanUpTo(r, k) && Running(r.states[k].w.status.migration)
    ensures r.states[k].w.temp.Some? && r.states[k].w.temp.value.source.Some?
    ensures AddrOf(r.states[k].w.temp.value.source.value) == AddrOf(r.states[k].w.status.active.conn)
  {
    RunData(c, r, k);
  }

  /**
   In a clean run, whenever the subscription is disabled or dropped or the active database is
   switched, the writes on the source were revoked earlier and a later check found the target
   to have at least the rows of the source, with publication and subscription in place.  If no
   other role may write to the source, its rows are still the ones that were checked.
   */
  lemma CutOverIsChecked(c: Config, r: Trace, k: nat) returns (i: nat, j: nat)
    requires IsMigrationRun(c, r) && k < |r.events| && CleanUpTo(r, k) && CutsOver(r, k)
    ensures var w := r.states[k].w;
            && w.temp.Some? && w.temp.value.source.Some?
            && AddrOf(w.temp.value.source.value) == AddrOf(w.status.active.conn)
            && SafeCutOver(c, r, k, w.temp.value.source.value, AddrOf(w.status.newDb.conn), i, j)
  {
    RunCutOverIsDue(c, r, k);
    RunHistory(c, r, k);
    RunSourceIsActive(c, r, k);
    var src, tgt := r.states[k].w.temp.value.source.value, AddrOf(r.states[k].w.status.newDb.conn);
    i, j :| CheckedAt(c, r, k, src, tgt, i, j);
    assert RunningFrom(r, j, k);
    RunKeepsActive(c, r, j, k);
    if Frozen(r.states[j], AddrOf(src)) {
      FrozenRowsStay(c, r, j, k);
    }
  }
}
