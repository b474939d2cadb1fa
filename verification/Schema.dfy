/** Once its schema has been copied, the target has every sequence of the source. */
module Schema {
  import opened Options
  import opened Stages
  import opened Claim
  import opened Protocol
  import opened ClaimInvariants
  import opened ClaimProperties
  import opened DataInvariants
  import opened MigrationSafety
  import opened CutOver

  predicate SchemaDue(s: Sys) {
    && s.w.status.migration.At?
    && ((s.ses.Busy? && Migrates(s.ses.mode) && s.ses.pc == Restored)
        || Position(Front(s)) >= Position(CreateSubscription))
  }

  predicate SameNames(w: World) {
    var src, tgt := AddrOf(w.status.active.conn), AddrOf(w.status.newDb.conn);
    src in w.servers && tgt in w.servers ==> w.servers[src].sequences.Keys <= w.servers[tgt].sequences.Keys
  }

  predicate SchemaInv(s: Sys) {
    Running(s.w.status.migration) && SchemaDue(s) ==> SameNames(s.w)
  }

  /** The names of the sequences of a server. */
  predicate KeepsNames(servers: map<Addr, Server>, servers': map<Addr, Server>) {
    && servers'.Keys == servers.Keys
    && forall a :: a in servers ==> servers'[a].sequences.Keys == servers[a].sequences.Keys
  }

  lemma SameNamesStay(w: World, w': World)
    requires SameNames(w) && KeepsNames(w.servers, w'.servers)
    requires w'.status.active == w.status.active && w'.status.newDb == w.status.newDb
    ensures SameNames(w')
  {
  }

  lemma EnvKeepsSchema(s: Sys, e: EnvEvent, s': Sys)
    requires SchemaInv(s) && NextEnvironment(s, e) == Some(s')
    ensures SchemaInv(s')
  {
    EnvKeepsNames(s, e, s');
    if Running(s.w.status.migration) && SchemaDue(s) {
      SameNamesStay(s.w, s'.w);
    }
  }

  lemma EnvKeepsNames(s: Sys, e: EnvEvent, s': Sys)
    requires NextEnvironment(s, e) == Some(s')
    ensures KeepsNames(s.w.servers, s'.w.servers) && s'.ses == s.ses && s'.w.status == s.w.status
  {
  }

  lemma PersistKeepsSchema(c: Config, s: Sys, s': Sys)
    requires Inv(c, s) && SchemaInv(s) && NextSession(c, s, Persist) == Some(s')
    ensures SchemaInv(s')
  {
    if Running(s'.w.status.migration) {
      if Running(s.w.status.migration) {
        PersistDue(c, s, s');
        PersistMoves(c, s, s');
      } else {
        PersistStartsInProgress(c, s, s');
      }
    }
  }

  lemma EndKeepsSchema(c: Config, s: Sys, s': Sys)
    requires Inv(c, s) && SchemaInv(s) && s'.w == s.w && s'.ses == Idle
    ensures SchemaInv(s')
  {
    if Running(s.w.status.migration) {
      EndDue(c, s, s');
    }
  }

  lemma OpenKeepsSchema(c: Config, s: Sys, s': Sys)
    requires SchemaInv(s) && NextSession(c, s, Open) == Some(s')
    ensures SchemaInv(s')
  {
  }

  lemma ControlKeepsSchema(c: Config, s: Sys, e: SessionEvent, s': Sys)
    requires Inv(c, s) && SchemaInv(s) && NextSession(c, s, e) == Some(s')
    ensures SchemaInv(s')
  {
    match e
    case Persist => PersistKeepsSchema(c, s, s');
    case Open => OpenKeepsSchema(c, s, s');
    case AddFinalizer =>
    case _ => EndKeepsSchema(c, s, s');
  }

  lemma PerformKeepsNames(c: Config, servers: map<Addr, Server>, ses: Session, x: Effect)
    requires ses.Busy? && c.plan(ses.mem.active).Some? && Perform(c, servers, ses, x).Some?
    requires x != Restore && x != RestoreFails
    ensures var d := Perform(c, servers, ses, x).value;
            d.Write? ==> d.at in servers && d.server.sequences.Keys == servers[d.at].sequences.Keys
  {
  }

  lemma RestoreKeepsSchema(c: Config, s: Sys, s': Sys)
    requires Inv(c, s) && DataInv(c, s) && NextMigration(c, s, Exec(Restore)) == Some(s')
    ensures SchemaInv(s')
  {
    EffectIsAtWork(c, s, Restore, s');
  }

  /** The effect moves the session within the stage that is persisted. */
  predicate AtOwnStage(s: Sys, s': Sys) {
    && s.ses.Busy? && Migrates(s.ses.mode) && s'.ses.Busy? && ExecMoves(s.ses.pc, s'.ses.pc)
    && s'.w.status == s.w.status && s'.ses == s.ses.(pc := s'.ses.pc) && Running(s.w.status.migration)
    && (s.ses.pc.Run? ==> Resumed(s.w.status.migration) == Some(s.ses.pc.stage))
    && (s.ses.pc == Granted || s.ses.pc == Restored ==> s.w.status.migration == At(CopySchema))
    && (s.ses.pc.Reading? || s.ses.pc.Setting? ==> s.w.status.migration == At(ResetTargetSequence))
  }

  lemma ExecIsAtOwnStage(c: Config, s: Sys, x: Effect, s': Sys)
    requires Inv(c, s) && NextMigration(c, s, Exec(x)) == Some(s') && Running(s.w.status.migration)
    ensures AtOwnStage(s, s') && (x != Restore ==> s'.ses.pc != Restored)
    ensures x == RestoreFails ==> s.ses.pc == Granted && s'.ses.pc == Over
  {
    PerformMoves(c, s.w.servers, s.ses, x);
    ExecStage(c, s, x, s');
    RestoresWhenGranted(c, s.w.servers, s.ses, x);
  }

  lemma RestoresWhenGranted(c: Config, servers: map<Addr, Server>, ses: Session, x: Effect)
    requires ses.Busy? && c.plan(ses.mem.active).Some? && Perform(c, servers, ses, x).Some?
    ensures x == RestoreFails ==> ses.pc == Granted && Perform(c, servers, ses, x).value.pc == Over
    ensures x != Restore ==> Perform(c, servers, ses, x).value.pc != Restored
  {
  }

  /** Only a restore makes the schema due, and the revocation of the grant follows it. */
  lemma MoveDueForSchema(s: Sys, s': Sys)
    requires AtOwnStage(s, s') && s'.ses.pc != Restored
    ensures SchemaDue(s') ==> SchemaDue(s) && !(s.ses.pc == Granted && s'.ses.pc == Over)
  {
  }

  lemma ExecKeepsSchema(c: Config, s: Sys, x: Effect, s': Sys)
    requires Inv(c, s) && DataInv(c, s) && SchemaInv(s) && NextMigration(c, s, Exec(x)) == Some(s')
    requires Running(s.w.status.migration)
    ensures SchemaInv(s')
  {
    if x == Restore {
      RestoreKeepsSchema(c, s, s');
    } else {
      ExecIsAtOwnStage(c, s, x, s');
      MoveDueForSchema(s, s');
      if SchemaDue(s') {
        PerformKeepsNames(c, s.w.servers, s.ses, x);
        assert KeepsNames(s.w.servers, s'.w.servers);
        SameNamesStay(s.w, s'.w);
      }
    }
  }

  lemma MigrateKeepsSchema(c: Config, s: Sys, e: MigrateEvent, s': Sys)
    requires Inv(c, s) && SchemaInv(s) && NextMigration(c, s, e) == Some(s') && !e.Exec? && Running(s.w.status.migration)
    ensures SchemaInv(s')
  {
    MovesRestoreNothing(c, s, e, s');
    MoveKeepsFront(c, s, e, s');
    DueByFront(s, s');
  }

  lemma MoveKeepsFront(c: Config, s: Sys, e: MigrateEvent, s': Sys)
    requires Inv(c, s) && NextMigration(c, s, e) == Some(s') && !e.Exec? && Running(s.w.status.migration)
    ensures s'.w.status == s.w.status && s.w.status.migration.At?
    ensures Front(s') == Front(s) || Position(Front(s)) >= Position(CreateSubscription)
  {
    match e
    case Take => TakeFront(c, s, s');
    case SwitchActive => SwitchFront(c, s, s');
    case SaveTemp => RerouteFront(c, s, e, s');
    case TakeReroute => RerouteFront(c, s, e, s');
    case _ => OtherFront(c, s, e, s');
  }

  lemma RerouteFront(c: Config, s: Sys, e: MigrateEvent, s': Sys)
    requires Inv(c, s) && NextMigration(c, s, e) == Some(s') && (e == SaveTemp || e == TakeReroute)
    ensures s'.w.status == s.w.status && s.w.status.migration == At(ResetTargetSequence)
    ensures Front(s) == RerouteTargetSecret || Front(s) == ResetTargetSequence
  {
    ReroutesAtReset(c, s, e, s');
  }

  lemma MovesRestoreNothing(c: Config, s: Sys, e: MigrateEvent, s': Sys)
    requires NextMigration(c, s, e) == Some(s') && !e.Exec?
    ensures s'.ses.Busy? && s'.ses.pc != Restored && s'.w.servers == s.w.servers && s'.w.status == s.w.status
  {
  }

  lemma DueByFront(s: Sys, s': Sys)
    requires SchemaInv(s) && s'.ses.Busy? && s'.ses.pc != Restored && s'.w.servers == s.w.servers && s'.w.status == s.w.status
    requires s.w.status.migration.At? && Running(s.w.status.migration)
    requires Front(s') == Front(s) || Position(Front(s)) >= Position(CreateSubscription)
    ensures SchemaInv(s')
  {
  }

  lemma StepKeepsSchema(c: Config, s: Sys, e: Event, s': Sys)
    requires Inv(c, s) && DataInv(c, s) && SchemaInv(s) && Next(c, s, e) == Some(s')
    ensures SchemaInv(s')
  {
    match e
    case Env(x) => EnvKeepsSchema(s, x, s');
    case Control(x) => ControlKeepsSchema(c, s, x, s');
    case _ =>
      OnlyPersistWrites(c, s, e, s');
      if Running(s.w.status.migration) {
        RunningKeepsSchema(c, s, e, s');
      }
  }

  lemma RunningKeepsSchema(c: Config, s: Sys, e: Event, s': Sys)
    requires Inv(c, s) && DataInv(c, s) && SchemaInv(s) && Next(c, s, e) == Some(s') && Running(s.w.status.migration)
    requires !e.Env? && !e.Control?
    ensures SchemaInv(s')
  {
    match e
    case Provision(x) => NoProvisionWhileRunning(c, s, x);
    case Clean(x) => NoCleanupWhileRunning(c, s, x);
    case Migrate(x) =>
      if x.Exec? {
        ExecKeepsSchema(c, s, x.effect, s');
      } else {
        MigrateKeepsSchema(c, s, x, s');
      }
  }

  /** In every clean run the target has the names of the sequences of the source from the copy of the schema on. */
  lemma {:induction false} RunSchema(c: Config, r: Trace, k: nat)
    requires IsMigrationRun(c, r) && k < |r.states| && CleanUpTo(r, k)
    ensures SchemaInv(r.states[k])
  {
    if k > 0 {
      RunSchema(c, r, k - 1);
      RunStepKeepsSchema(c, r, k - 1);
    }
  }

  lemma RunStepKeepsSchema(c: Config, r: Trace, k: nat)
    requires IsMigrationRun(c, r) && k < |r.events| && CleanUpTo(r, k) && SchemaInv(r.states[k])
    ensures SchemaInv(r.states[k + 1])
  {
    RunData(c, r, k);
    StepOf(c, r, k);
    StepKeepsSchema(c, r.states[k], r.events[k], r.states[k + 1]);
  }
}
