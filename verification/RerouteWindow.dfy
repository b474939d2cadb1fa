/**
 The window of the rerouting: what becomes of a migration whose session was cut off after the
 application secret was written and before the next stage was persisted.
 */
module RerouteWindow {
  import opened Options
  import opened Stages
  import opened Claim
  import opened Protocol
  import opened ClaimInvariants
  import opened ClaimProperties
  import opened DataInvariants
  import opened MigrationSafety
  import opened CutOver

  predicate TempIsTarget(w: World) {
    w.temp.Some? && w.temp.value.source == Some(Target(w.status, w.temp.value.password))
  }

  /** The target is taken for the source, and this never heals while the migration is running. */
  predicate Mistaken(s: Sys) {
    && Running(s.w.status.migration) && HoldsTarget(s.w)
    && Position(s.w.status.migration.stage) >= Position(ResetTargetSequence)
    && (Position(s.w.status.migration.stage) >= Position(RerouteTargetSecret) ==> TempIsTarget(s.w))
    && (Executes(s.ses) ==>
          && s.ses.tgt == Target(s.w.status, s.w.temp.value.password) && s.ses.src == s.ses.tgt
          && (s.ses.pc == TempSaved || s.ses.pc == Rerouted || s.ses.pc == Moved(RerouteTargetSecret) ==> TempIsTarget(s.w)))
  }

  lemma ReadingMistakes(c: Config, s: Sys, s': Sys)
    requires Inv(c, s) && ReadsReroutedSecret(s, Migrate(Resume)) && NextMigration(c, s, Resume) == Some(s')
    ensures Mistaken(s')
  {
  }

  lemma EnvKeepsMistake(s: Sys, e: EnvEvent, s': Sys)
    requires Mistaken(s) && NextEnvironment(s, e) == Some(s')
    ensures Mistaken(s')
  {
  }

  lemma MoveKeepsMistake(c: Config, s: Sys, s': Sys, n: Stage)
    requires Mistaken(s) && NextSession(c, s, Persist) == Some(s')
    requires s.ses.Busy? && Migrates(s.ses.mode) && s.ses.pc == Moved(n) && s.ses.mem == s.w.status.(migration := At(n))
    requires Running(At(n)) && Follows(s.w.status.migration, n) && n != Retry
    ensures Mistaken(s')
  {
  }

  lemma PersistKeepsMistake(c: Config, s: Sys, s': Sys)
    requires Inv(c, s) && Mistaken(s) && NextSession(c, s, Persist) == Some(s') && Running(s'.w.status.migration)
    ensures Mistaken(s')
  {
    if Migrates(s.ses.mode) && s.ses.pc.Moved? {
      MoveKeepsMistake(c, s, s', s.ses.pc.next);
    }
  }

  lemma ControlKeepsMistake(c: Config, s: Sys, e: SessionEvent, s': Sys)
    requires Mistaken(s) && NextSession(c, s, e) == Some(s') && e != Persist
    ensures Mistaken(s')
  {
  }

  lemma ExecKeepsMistake(c: Config, s: Sys, x: Effect, s': Sys)
    requires Mistaken(s) && NextMigration(c, s, Exec(x)) == Some(s')
    ensures Mistaken(s')
  {
    PerformMoves(c, s.w.servers, s.ses, x);
  }

  lemma ResumeKeepsMistake(c: Config, s: Sys, s': Sys)
    requires Inv(c, s) && Mistaken(s) && NextMigration(c, s, Resume) == Some(s')
    ensures Mistaken(s')
  {
  }

  lemma SecretsKeepMistake(c: Config, s: Sys, e: MigrateEvent, s': Sys)
    requires e == SaveTemp || e == Reroute || e == TakeReroute
    requires Mistaken(s) && NextMigration(c, s, e) == Some(s') && s.w.status.migration == At(ResetTargetSequence)
    ensures Mistaken(s')
  {
  }

  lemma TakeKeepsMistake(c: Config, s: Sys, e: MigrateEvent, s': Sys)
    requires e == Take || e == SwitchActive
    requires Mistaken(s) && NextMigration(c, s, e) == Some(s')
    ensures Mistaken(s')
  {
  }

  lemma MigrateKeepsMistake(c: Config, s: Sys, e: MigrateEvent, s': Sys)
    requires Inv(c, s) && Mistaken(s) && NextMigration(c, s, e) == Some(s') && !e.Exec?
    ensures Mistaken(s')
  {
    match e
    case Resume => ResumeKeepsMistake(c, s, s');
    case Take => TakeKeepsMistake(c, s, e, s');
    case SwitchActive => TakeKeepsMistake(c, s, e, s');
    case DropTemp => TempStaysWhileRunning(c, s);
    case _ =>
      ReroutesAtReset(c, s, e, s');
      SecretsKeepMistake(c, s, e, s');
  }

  lemma StepKeepsMistake(c: Config, s: Sys, e: Event, s': Sys)
    requires Inv(c, s) && Mistaken(s) && Next(c, s, e) == Some(s') && Running(s'.w.status.migration)
    ensures Mistaken(s')
  {
    match e
    case Env(x) => EnvKeepsMistake(s, x, s');
    case Control(x) =>
      if x == Persist {
        PersistKeepsMistake(c, s, s');
      } else {
        ControlKeepsMistake(c, s, x, s');
      }
    case Provision(x) => NoProvisionWhileRunning(c, s, x);
    case Migrate(x) =>
      if x.Exec? {
        ExecKeepsMistake(c, s, x.effect, s');
      } else {
        MigrateKeepsMistake(c, s, x, s');
      }
    case Clean(x) => NoCleanupWhileRunning(c, s, x);
  }

  lemma RunReadingMistakes(c: Config, r: Trace, d: nat)
    requires IsMigrationRun(c, r) && d < |r.events| && ReadsReroutedSecret(r.states[d], r.events[d])
    ensures Mistaken(r.states[d + 1])
  {
    RunInv(c, r, d);
    StepOf(c, r, d);
    ReadingMistakes(c, r.states[d], r.states[d + 1]);
  }

  lemma RunStepKeepsMistake(c: Config, r: Trace, k: nat)
    requires IsMigrationRun(c, r) && k < |r.events| && Mistaken(r.states[k]) && Running(r.states[k + 1].w.status.migration)
    ensures Mistaken(r.states[k + 1])
  {
    RunInv(c, r, k);
    StepOf(c, r, k);
    StepKeepsMistake(c, r.states[k], r.events[k], r.states[k + 1]);
  }

  predicate MistakeIsKept(s: Sys, s': Sys) {
    Mistaken(s) ==> Mistaken(s')
  }

  lemma {:induction false} MistakenThroughout(states: seq<Sys>, m: nat, k: nat)
    requires m <= k < |states| && Mistaken(states[m])
    requires forall i :: m <= i < k ==> MistakeIsKept(states[i], states[i + 1])
    ensures Mistaken(states[k])
  {
    if m < k {
      MistakenThroughout(states, m, k - 1);
      assert MistakeIsKept(states[k - 1], states[k]);
    }
  }

  /** Once a rerouted secret has been read as the source, the mistake lasts as long as the migration. */
  lemma MistakeStays(c: Config, r: Trace, d: nat, k: nat)
    requires IsMigrationRun(c, r) && d < k < |r.states| && RunningFrom(r, d, k)
    requires ReadsReroutedSecret(r.states[d], r.events[d])
    ensures Mistaken(r.states[k])
  {
    RunReadingMistakes(c, r, d);
    forall i | d + 1 <= i < k ensures MistakeIsKept(r.states[i], r.states[i + 1]) {
      assert Running(r.states[i + 1].w.status.migration);
      if Mistaken(r.states[i]) {
        RunStepKeepsMistake(c, r, i);
      }
    }
    MistakenThroughout(r.states, d + 1, k);
  }

  /** The event compares the target with the database that is still active. */
  predicate ComparesSource(s: Sys, e: Event) {
    && e == Migrate(Exec(Compare)) && s.ses.Busy?
    && AddrOf(s.ses.src) == AddrOf(s.w.status.active.conn)
  }

  lemma MistakenComparesNothing(c: Config, s: Sys, s': Sys)
    requires Inv(c, s) && Mistaken(s) && NextMigration(c, s, Exec(Compare)) == Some(s')
    ensures !ComparesSource(s, Migrate(Exec(Compare)))
  {
  }

  lemma ReadingIsRunning(c: Config, s: Sys, e: Event, s': Sys)
    requires Inv(c, s) && Next(c, s, e) == Some(s') && ReadsReroutedSecret(s, e)
    ensures Running(s.w.status.migration)
  {
  }

  /** The migration starts at m and is still running at k. */
  ghost predicate OneMigration(r: Trace, m: nat, k: nat)
    requires |r.states| == |r.events| + 1
  {
    && m <= k < |r.states| && RunningFrom(r, m, k)
    && forall i :: 0 <= i < m ==> !Running(r.states[i].w.status.migration)
  }

  lemma NoCheckAfterMistake(c: Config, r: Trace, m: nat, k: nat, d: nat, j: nat)
    requires IsMigrationRun(c, r) && OneMigration(r, m, k) && m <= d < k && m <= j < k
    requires ReadsReroutedSecret(r.states[d], r.events[d])
    ensures !ComparesSource(r.states[j], r.events[j])
  {
    if r.events[j] == Migrate(Exec(Compare)) {
      RunInv(c, r, j);
      StepOf(c, r, j);
      if d < j {
        assert RunningFrom(r, d, j);
        MistakeStays(c, r, d, j);
        MistakenComparesNothing(c, r.states[j], r.states[j + 1]);
      } else {
        ComparesLate(c, r.states[j], r.states[j + 1]);
        assert RunningFrom(r, j, d);
        MigrationKeepsCourse(c, r, j, d);
      }
    }
  }

  lemma ReadingIsInside(c: Config, r: Trace, m: nat, k: nat, d: nat)
    requires IsMigrationRun(c, r) && OneMigration(r, m, k) && d < k && ReadsReroutedSecret(r.states[d], r.events[d])
    ensures m <= d
  {
    RunInv(c, r, d);
    StepOf(c, r, d);
    ReadingIsRunning(c, r.states[d], r.events[d], r.states[d + 1]);
  }

  /**
   A cut-over was preceded by a comparison with the real source exactly if no session of the
   migration had read the rerouted secret as its source.
   */
  lemma CheckedIffClean(c: Config, r: Trace, m: nat, k: nat)
    requires IsMigrationRun(c, r) && OneMigration(r, m, k) && k < |r.events| && CutsOver(r, k)
    ensures CleanUpTo(r, k) <==> exists j :: m <= j < k && ComparesSource(r.states[j], r.events[j])
  {
    if CleanUpTo(r, k) {
      var i, j := CutOverIsChecked(c, r, k);
      assert Running(r.states[j].w.status.migration) && RunningFrom(r, j, k);
      RunKeepsActive(c, r, j, k);
      assert ComparesSource(r.states[j], r.events[j]);
    } else {
      var d :| 0 <= d < k && ReadsReroutedSecret(r.states[d], r.events[d]);
      ReadingIsInside(c, r, m, k, d);
      forall j | m <= j < k ensures !ComparesSource(r.states[j], r.events[j]) {
        NoCheckAfterMistake(c, r, m, k, d, j);
      }
    }
  }

  // ---- runs whose rerouting is not interrupted

  /** The application secret has been written, and the stage of that has not been persisted. */
  predicate InWindow(ses: Session) {
    ses.Busy? && Migrates(ses.mode) && (ses.pc == Rerouted || ses.pc == Moved(RerouteTargetSecret))
  }

  predicate Interrupts(s: Sys, e: Event) {
    e == Control(Abort) && InWindow(s.ses)
  }

  /** The secret is ahead of the persisted stage. */
  predicate IsAhead(w: World) {
    w.status.migration == At(ResetTargetSequence) && HoldsTarget(w)
  }

  predicate WindowInv(s: Sys) {
    IsAhead(s.w) ==> InWindow(s.ses)
  }

  lemma SourceIsNotTarget(w: World, n: Stage)
    requires SecretsAt(w, n) && Apart(w.status) && w.app == w.temp.value.source
    ensures !HoldsTarget(w)
  {
  }

  lemma PersistKeepsWindow(c: Config, s: Sys, s': Sys)
    requires Inv(c, s) && DataInv(c, s) && WindowInv(s) && NextSession(c, s, Persist) == Some(s')
    ensures WindowInv(s')
  {
    if IsAhead(s'.w) && s'.w.status != s.w.status {
      PersistEntersReset(c, s, s');
      SourceIsNotTarget(s.w, CutOverReadinessCheck);
    }
  }

  lemma PersistEntersReset(c: Config, s: Sys, s': Sys)
    requires Inv(c, s) && NextSession(c, s, Persist) == Some(s')
    requires s'.w.status.migration == At(ResetTargetSequence) && s'.w.status != s.w.status
    ensures s.w.status.migration == At(CutOverReadinessCheck) && Apart(s.w.status)
    ensures s'.w.status == s.w.status.(migration := At(ResetTargetSequence))
  {
  }

  lemma ControlKeepsWindow(c: Config, s: Sys, e: SessionEvent, s': Sys)
    requires WindowInv(s) && NextSession(c, s, e) == Some(s') && e != Persist && !Interrupts(s, Control(e))
    ensures WindowInv(s')
  {
  }

  lemma MigrateKeepsWindow(c: Config, s: Sys, e: MigrateEvent, s': Sys)
    requires WindowInv(s) && NextMigration(c, s, e) == Some(s')
    ensures WindowInv(s')
  {
    if e.Exec? {
      PerformMoves(c, s.w.servers, s.ses, e.effect);
    }
  }

  lemma StepKeepsWindow(c: Config, s: Sys, e: Event, s': Sys)
    requires Inv(c, s) && DataInv(c, s) && WindowInv(s) && Next(c, s, e) == Some(s') && !Interrupts(s, e)
    ensures WindowInv(s')
  {
    match e
    case Env(x) =>
    case Control(x) =>
      if x == Persist {
        PersistKeepsWindow(c, s, s');
      } else {
        ControlKeepsWindow(c, s, x, s');
      }
    case Provision(x) =>
      OnlyPersistWrites(c, s, e, s');
      if Running(s.w.status.migration) {
        NoProvisionWhileRunning(c, s, x);
      }
    case Migrate(x) => MigrateKeepsWindow(c, s, x, s');
    case Clean(x) =>
      OnlyPersistWrites(c, s, e, s');
      if Running(s.w.status.migration) {
        NoCleanupWhileRunning(c, s, x);
      }
  }

  lemma RunStepKeepsWindow(c: Config, r: Trace, k: nat)
    requires IsMigrationRun(c, r) && k < |r.events| && CleanUpTo(r, k) && WindowInv(r.states[k])
    requires !Interrupts(r.states[k], r.events[k])
    ensures WindowInv(r.states[k + 1]) && !ReadsReroutedSecret(r.states[k], r.events[k])
  {
    RunData(c, r, k);
    StepOf(c, r, k);
    StepKeepsWindow(c, r.states[k], r.events[k], r.states[k + 1]);
  }

  /** If no session is cut off inside the window, no session ever reads a rerouted secret as its source. */
  lemma {:induction false} UninterruptedIsClean(c: Config, r: Trace, k: nat)
    requires IsMigrationRun(c, r) && k <= |r.events|
    requires forall i :: 0 <= i < k ==> !Interrupts(r.states[i], r.events[i])
    ensures CleanUpTo(r, k) && WindowInv(r.states[k])
  {
    if k > 0 {
      UninterruptedIsClean(c, r, k - 1);
      assert !Interrupts(r.states[k - 1], r.events[k - 1]);
      RunStepKeepsWindow(c, r, k - 1);
    }
  }

  /** The secret is ahead of the persisted stage, and no session works on the migration. */
  predicate Stranded(s: Sys) {
    && IsAhead(s.w)
    && (s.ses.Idle? || (s.ses.Busy? && Migrates(s.ses.mode) && s.ses.mem == s.w.status && s.ses.pc in {Begin, Dispatch, Over}))
  }

  lemma InterruptionStrands(c: Config, s: Sys, s': Sys)
    requires Inv(c, s) && DataInv(c, s) && Interrupts(s, Control(Abort)) && NextSession(c, s, Abort) == Some(s')
    ensures Stranded(s')
  {
  }

  lemma ControlKeepsStranded(c: Config, s: Sys, e: SessionEvent, s': Sys)
    requires Lawful(c) && StatusInv(c, s.w.status) && Stranded(s) && NextSession(c, s, e) == Some(s')
    ensures Stranded(s')
  {
    RunningFixesMode(c, s.w.status);
  }

  lemma MigrateKeepsStranded(c: Config, s: Sys, e: MigrateEvent, s': Sys)
    requires Stranded(s) && NextMigration(c, s, e) == Some(s')
    ensures e == Resume && ReadsReroutedSecret(s, Migrate(e))
  {
    if e.Exec? {
      PerformMoves(c, s.w.servers, s.ses, e.effect);
    }
  }

  lemma StepKeepsStranded(c: Config, s: Sys, e: Event, s': Sys)
    requires Lawful(c) && Inv(c, s) && Stranded(s) && Next(c, s, e) == Some(s') && !ReadsReroutedSecret(s, e)
    ensures Stranded(s')
  {
    match e
    case Env(x) =>
    case Control(x) => ControlKeepsStranded(c, s, x, s');
    case Provision(x) => NoProvisionWhileRunning(c, s, x);
    case Migrate(x) => MigrateKeepsStranded(c, s, x, s');
    case Clean(x) => NoCleanupWhileRunning(c, s, x);
  }

  lemma RunInterruptionStrands(c: Config, r: Trace, i: nat)
    requires IsMigrationRun(c, r) && i < |r.events| && CleanUpTo(r, i) && Interrupts(r.states[i], r.events[i])
    ensures Stranded(r.states[i + 1])
  {
    RunData(c, r, i);
    StepOf(c, r, i);
    InterruptionStrands(c, r.states[i], r.states[i + 1]);
  }

  lemma RunStepKeepsStranded(c: Config, r: Trace, k: nat)
    requires IsMigrationRun(c, r) && k < |r.events| && Stranded(r.states[k]) && !ReadsReroutedSecret(r.states[k], r.events[k])
    ensures Stranded(r.states[k + 1])
  {
    RunInv(c, r, k);
    StepOf(c, r, k);
    StepKeepsStranded(c, r.states[k], r.events[k], r.states[k + 1]);
  }

  lemma {:induction false} StrandedThroughout(c: Config, r: Trace, i: nat, k: nat)
    requires IsMigrationRun(c, r) && i < k < |r.states| && CleanUpTo(r, k) && Interrupts(r.states[i], r.events[i])
    ensures Stranded(r.states[k])
  {
    if i + 1 == k {
      RunInterruptionStrands(c, r, i);
    } else {
      StrandedThroughout(c, r, i, k - 1);
      assert !ReadsReroutedSecret(r.states[k - 1], r.events[k - 1]);
      RunStepKeepsStranded(c, r, k - 1);
    }
  }

  lemma StrandedIsNotDue(s: Sys)
    requires Stranded(s)
    ensures !StopDue(s)
  {
  }

  /**
   What an operator can observe: when a migration cuts over, its check was made against the real source exactly
   if no session before was cut off between writing the application secret and persisting the stage of that.
   */
  lemma CleanIffUninterrupted(c: Config, r: Trace, k: nat)
    requires IsMigrationRun(c, r) && k < |r.events| && CutsOver(r, k)
    ensures CleanUpTo(r, k) <==> forall i :: 0 <= i < k ==> !Interrupts(r.states[i], r.events[i])
  {
    if forall i :: 0 <= i < k ==> !Interrupts(r.states[i], r.events[i]) {
      UninterruptedIsClean(c, r, k);
    } else if CleanUpTo(r, k) {
      var i :| 0 <= i < k && Interrupts(r.states[i], r.events[i]);
      RunCutOverIsDue(c, r, k);
      StrandedThroughout(c, r, i, k);
      StrandedIsNotDue(r.states[k]);
    }
  }
}
