/**
 The progress of a migration: which stages are executed, and how many reconciles an
 undisturbed migration takes.
 */
module Progress {
  import opened Options
  import opened Stages
  import opened Claim
  import opened Protocol
  import opened ClaimInvariants
  import opened ClaimProperties
  import opened MigrationSafety

  /** A session never comes to execute a stage that has no replicator state. */
  lemma ExecutedStagesExist(c: Config, r: Trace, k: nat)
    requires IsClaimRun(c, r) && k < |r.states| && r.states[k].ses.Busy? && r.states[k].ses.pc.Run?
    ensures HasState(r.states[k].ses.pc.stage)
    ensures Resumed(r.states[k].w.status.migration) == Some(r.states[k].ses.pc.stage)
  {
    RunInv(c, r, k);
    StageExists(c, r.states[k]);
  }

  lemma StageExists(c: Config, s: Sys)
    requires Inv(c, s) && s.ses.Busy? && s.ses.pc.Run?
    ensures HasState(s.ses.pc.stage) && Resumed(s.w.status.migration) == Some(s.ses.pc.stage)
  {
  }

  /** A reconcile ends because a stage asked for a retry. */
  predicate Retries(s: Sys, e: Event) {
    e == Control(Return) && s.ses.Busy? && s.ses.pc == Got(Retry)
  }

  /** Nothing goes wrong in the event: no crash, no returned error, no failed restore. */
  predicate Faultless(s: Sys, e: Event) {
    && e != Control(Abort)
    && !(e == Control(Return) && s.ses.Busy? && s.ses.pc == Dispatch)
    && e != Migrate(Exec(RestoreFails))
  }

  function CountOpens(r: Trace, i: nat, j: nat): nat
    requires i <= j <= |r.events|
  {
    if i == j then 0 else CountOpens(r, i, j - 1) + (if r.events[j - 1] == Control(Open) then 1 else 0)
  }

  function CountRetries(r: Trace, i: nat, j: nat): nat
    requires |r.states| == |r.events| + 1 && i <= j <= |r.events|
  {
    if i == j then 0
    else CountRetries(r, i, j - 1) + (if Retries(r.states[j - 1], r.events[j - 1]) then 1 else 0)
  }

  /** A session is at work on the migration. */
  predicate Working(ses: Session) {
    ses.Busy? && Migrates(ses.mode) && ses.pc != Over
  }

  /** The reconciles that were not ended by a retry: the one before the wait, and the one at work. */
  function Useful(s: Sys): int
    requires s.w.status.migration.At?
  {
    (if Position(s.w.status.migration.stage) >= Position(WaitToDisableSource) then 1 else 0) +
    (if Working(s.ses) then 1 else 0)
  }

  /** The reconciles that the event adds to the useful ones. */
  function Gain(s: Sys, e: Event): int {
    if e == Control(Open) then 1 else if Retries(s, e) then -1 else 0
  }

  lemma WaitIsPassedOnce(m: Stage, n: Stage)
    requires Follows(At(m), n) && n != Completed && n != Retry
    ensures Position(n) >= Position(WaitToDisableSource) <==>
              Position(m) >= Position(WaitToDisableSource) || n == WaitToDisableSource
    ensures n == WaitToDisableSource ==> Position(m) < Position(WaitToDisableSource)
  {
  }

  lemma MoveGains(c: Config, s: Sys, s': Sys, n: Stage)
    requires s.ses.Busy? && Migrates(s.ses.mode) && s.ses.pc == Moved(n) && NextSession(c, s, Persist) == Some(s')
    requires s.w.status.migration.At? && s.ses.mem == s.w.status.(migration := At(n))
    requires Follows(s.w.status.migration, n) && n !in {Initial, Completed, Retry, MigrationInProgress}
    ensures Useful(s') == Useful(s)
  {
    WaitIsPassedOnce(s.w.status.migration.stage, n);
  }

  lemma PersistGains(c: Config, s: Sys, s': Sys)
    requires Inv(c, s) && NextSession(c, s, Persist) == Some(s')
    requires Running(s.w.status.migration) && Running(s'.w.status.migration)
    ensures Useful(s') == Useful(s)
  {
    if s.ses.pc.Moved? && Migrates(s.ses.mode) {
      MoveGains(c, s, s', s.ses.pc.next);
    }
  }

  lemma OpenGains(c: Config, s: Sys, s': Sys)
    requires Lawful(c) && Inv(c, s) && NextSession(c, s, Open) == Some(s') && Running(s.w.status.migration)
    ensures Useful(s') == Useful(s) + 1
  {
    RunningFixesMode(c, s.w.status);
  }

  lemma ReturnGains(c: Config, s: Sys, s': Sys)
    requires Inv(c, s) && NextSession(c, s, Return) == Some(s') && Running(s.w.status.migration)
    requires Faultless(s, Control(Return))
    ensures Useful(s') == Useful(s) + Gain(s, Control(Return))
  {
  }

  lemma ExecGains(c: Config, s: Sys, x: Effect, s': Sys)
    requires NextMigration(c, s, Exec(x)) == Some(s') && Running(s.w.status.migration) && x != RestoreFails
    ensures s'.w.status == s.w.status && Useful(s') == Useful(s)
  {
    PerformMoves(c, s.w.servers, s.ses, x);
  }

  lemma MigrateGains(c: Config, s: Sys, e: MigrateEvent, s': Sys)
    requires NextMigration(c, s, e) == Some(s') && Running(s.w.status.migration) && !e.Exec?
    ensures s'.w.status == s.w.status && Useful(s') == Useful(s)
  {
  }

  lemma EnvGains(s: Sys, e: EnvEvent, s': Sys)
    requires NextEnvironment(s, e) == Some(s') && Running(s.w.status.migration)
    ensures s'.w.status == s.w.status && Useful(s') == Useful(s)
  {
  }

  lemma ControlGains(c: Config, s: Sys, e: SessionEvent, s': Sys)
    requires Lawful(c) && Inv(c, s) && NextSession(c, s, e) == Some(s') && Faultless(s, Control(e))
    requires Running(s.w.status.migration) && Running(s'.w.status.migration)
    ensures Useful(s') == Useful(s) + Gain(s, Control(e))
  {
    match e
    case Open => OpenGains(c, s, s');
    case Persist => PersistGains(c, s, s');
    case Return => ReturnGains(c, s, s');
    case _ =>
  }

  lemma StepGains(c: Config, s: Sys, e: Event, s': Sys)
    requires Lawful(c) && Inv(c, s) && Next(c, s, e) == Some(s') && Faultless(s, e)
    requires Running(s.w.status.migration) && Running(s'.w.status.migration)
    ensures Useful(s') == Useful(s) + Gain(s, e)
  {
    match e
    case Env(x) => EnvGains(s, x, s');
    case Control(x) => ControlGains(c, s, x, s');
    case Provision(x) => NoProvisionWhileRunning(c, s, x);
    case Migrate(x) =>
      if x.Exec? {
        ExecGains(c, s, x.effect, s');
      } else {
        MigrateGains(c, s, x, s');
      }
    case Clean(x) => NoCleanupWhileRunning(c, s, x);
  }

  lemma RunStepGains(c: Config, r: Trace, k: nat)
    requires IsClaimRun(c, r) && k < |r.events| && Faultless(r.states[k], r.events[k])
    requires Running(r.states[k].w.status.migration) && Running(r.states[k + 1].w.status.migration)
    ensures Useful(r.states[k + 1]) == Useful(r.states[k]) + Gain(r.states[k], r.events[k])
  {
    RunInv(c, r, k);
    StepOf(c, r, k);
    StepGains(c, r.states[k], r.events[k], r.states[k + 1]);
  }

  predicate Gains(s: Sys, e: Event, s': Sys) {
    s.w.status.migration.At? && s'.w.status.migration.At? && Useful(s') == Useful(s) + Gain(s, e)
  }

  lemma {:induction false} GainsAddUp(r: Trace, m: nat, k: nat)
    requires |r.states| == |r.events| + 1 && m <= k < |r.states| && r.states[m].w.status.migration.At?
    requires forall i :: m <= i < k ==> Gains(r.states[i], r.events[i], r.states[i + 1])
    ensures r.states[k].w.status.migration.At?
    ensures CountOpens(r, m, k) + Useful(r.states[m]) == CountRetries(r, m, k) + Useful(r.states[k])
  {
    if m < k {
      GainsAddUp(r, m, k - 1);
      assert Gains(r.states[k - 1], r.events[k - 1], r.states[k]);
    }
  }

  lemma OpensAreUsefulOrRetried(c: Config, r: Trace, m: nat, k: nat)
    requires IsClaimRun(c, r) && m <= k < |r.states| && RunningFrom(r, m, k)
    requires forall i :: m <= i < k ==> Faultless(r.states[i], r.events[i])
    ensures r.states[m].w.status.migration.At? && r.states[k].w.status.migration.At?
    ensures CountOpens(r, m, k) + Useful(r.states[m]) == CountRetries(r, m, k) + Useful(r.states[k])
  {
    assert Running(r.states[m].w.status.migration);
    forall i | m <= i < k ensures Gains(r.states[i], r.events[i], r.states[i + 1]) {
      assert Running(r.states[i].w.status.migration) && Running(r.states[i + 1].w.status.migration);
      assert Faultless(r.states[i], r.events[i]);
      RunStepGains(c, r, i);
    }
    GainsAddUp(r, m, k);
  }

  lemma StartIsProvisioning(c: Config, s: Sys, s': Sys)
    requires Inv(c, s) && NextSession(c, s, Persist) == Some(s')
    requires !Running(s.w.status.migration) && Running(s'.w.status.migration)
    ensures s'.w.status.migration == At(MigrationInProgress) && Useful(s') == 0
  {
  }

  lemma RunStartIsProvisioning(c: Config, r: Trace, m: nat)
    requires IsClaimRun(c, r) && 0 < m < |r.states|
    requires !Running(r.states[m - 1].w.status.migration) && Running(r.states[m].w.status.migration)
    ensures r.states[m].w.status.migration == At(MigrationInProgress) && Useful(r.states[m]) == 0
  {
    RunInv(c, r, m - 1);
    StepOf(c, r, m - 1);
    if r.events[m - 1] == Control(Persist) {
      StartIsProvisioning(c, r.states[m - 1], r.states[m]);
    } else {
      OnlyPersistWrites(c, r.states[m - 1], r.events[m - 1], r.states[m]);
    }
  }

  lemma SwitchIsUseful(c: Config, s: Sys, s': Sys)
    requires Inv(c, s) && NextSession(c, s, Persist) == Some(s')
    requires Running(s.w.status.migration) && s'.w.status.migration == At(Completed)
    ensures Useful(s) == 2
  {
    CompletesWhenSwitched(c, s, s');
  }

  lemma RunSwitchIsUseful(c: Config, r: Trace, k: nat)
    requires IsClaimRun(c, r) && k < |r.events| && Completes(r, k)
    ensures Useful(r.states[k]) == 2
  {
    RunInv(c, r, k);
    StepOf(c, r, k);
    SwitchIsUseful(c, r.states[k], r.states[k + 1]);
  }

  /** A migration in which nothing goes wrong completes in exactly two reconciles more than it has retries. */
  lemma TwoReconcilesAndRetries(c: Config, r: Trace, m: nat, k: nat)
    requires IsClaimRun(c, r) && 0 < m <= k < |r.events|
    requires !Running(r.states[m - 1].w.status.migration) && RunningFrom(r, m, k) && Completes(r, k)
    requires forall i :: m <= i < k ==> Faultless(r.states[i], r.events[i])
    ensures CountOpens(r, m, k) == CountRetries(r, m, k) + 2
  {
    assert Running(r.states[m].w.status.migration);
    OpensAreUsefulOrRetried(c, r, m, k);
    RunStartIsProvisioning(c, r, m);
    RunSwitchIsUseful(c, r, k);
  }
}
