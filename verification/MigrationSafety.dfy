/**
 The safety of a whole migration: the source connection that a resumed session recovers
 and the replication artefacts.
 */
module MigrationSafety {
  import opened Options
  import opened Stages
  import opened Claim
  import opened Protocol
  import opened ClaimInvariants
  import opened ClaimProperties
  import opened DataInvariants

  /** A run from a claim at rest whose application secret belongs to the active database. */
  ghost predicate IsMigrationRun(c: Config, r: Trace) {
    IsClaimRun(c, r) && SourceKnown(c, r.states[0].w)
  }

  /** No session before the k-th event has read a rerouted secret as its source. */
  ghost predicate CleanUpTo(r: Trace, k: nat)
    requires |r.states| == |r.events| + 1 && k <= |r.events|
  {
    forall i :: 0 <= i < k ==> !ReadsReroutedSecret(r.states[i], r.events[i])
  }

  lemma {:induction false} RunData(c: Config, r: Trace, k: nat)
    requires IsMigrationRun(c, r) && k < |r.states| && CleanUpTo(r, k)
    ensures Inv(c, r.states[k]) && DataInv(c, r.states[k])
  {
    RunInv(c, r, k);
    if k > 0 {
      RunData(c, r, k - 1);
      StepOf(c, r, k - 1);
      assert !ReadsReroutedSecret(r.states[k - 1], r.events[k - 1]);
      StepKeepsData(c, r.states[k - 1], r.events[k - 1], r.states[k]);
    }
  }

  /**
   At every persisted position the publication and the subscription exist strictly between
   their creation and their deletion, and the temporary superuser grant is gone after the
   schema has been copied.
   */
  lemma ReplicationArtefacts(c: Config, r: Trace, k: nat)
    requires IsMigrationRun(c, r) && k < |r.states| && CleanUpTo(r, k)
    requires Running(r.states[k].w.status.migration)
    ensures var w := r.states[k].w;
            var n, src, tgt := w.status.migration.stage, AddrOf(w.status.active.conn), AddrOf(w.status.newDb.conn);
            && (Position(CreatePublication) < Position(n) < Position(DeletePublication) ==>
                  src in w.servers && w.servers[src].publication)
            && (Position(CreateSubscription) < Position(n) < Position(DeleteSubscription) ==>
                  tgt in w.servers && w.servers[tgt].subscription != Absent)
            && (Position(CopySchema) < Position(n) ==>
                  tgt in w.servers && ParentRole(w.status.newDb.conn.user) !in w.servers[tgt].superusers)
  {
    RunServers(c, r, k);
    ArtefactsAt(r.states[k].w);
  }

  lemma RunServers(c: Config, r: Trace, k: nat)
    requires IsMigrationRun(c, r) && k < |r.states| && CleanUpTo(r, k) && Running(r.states[k].w.status.migration)
    ensures ServersAt(r.states[k].w, r.states[k].w.status.migration.stage)
  {
    RunData(c, r, k);
  }

  lemma ArtefactsAt(w: World)
    requires w.status.migration.At? && ServersAt(w, w.status.migration.stage)
    ensures var n, src, tgt := w.status.migration.stage, AddrOf(w.status.active.conn), AddrOf(w.status.newDb.conn);
            && (Position(CreatePublication) < Position(n) < Position(DeletePublication) ==>
                  src in w.servers && w.servers[src].publication)
            && (Position(CreateSubscription) < Position(n) < Position(DeleteSubscription) ==>
                  tgt in w.servers && w.servers[tgt].subscription != Absent)
            && (Position(CopySchema) < Position(n) ==>
                  tgt in w.servers && ParentRole(w.status.newDb.conn.user) !in w.servers[tgt].superusers)
  {
    var n, src, tgt := w.status.migration.stage, AddrOf(w.status.active.conn), AddrOf(w.status.newDb.conn);
    if Position(CopySchema) <= Position(n) {
      SourceArtefact(n, w.servers[src], ParentRole(w.temp.value.source.value.user));
    }
    if Position(CreateSubscription) <= Position(n) {
      TargetArtefacts(n, w.servers[tgt], ParentRole(w.status.newDb.conn.user));
    }
  }

  lemma SourceArtefact(n: Stage, server: Server, role: string)
    requires SourceAt(n, server, role)
    ensures Position(CreatePublication) < Position(n) < Position(DeletePublication) ==> server.publication
  {
  }

  lemma TargetArtefacts(n: Stage, server: Server, role: string)
    requires TargetAt(n, server, role)
    ensures Position(CreateSubscription) < Position(n) < Position(DeleteSubscription) ==> server.subscription != Absent
    ensures Position(CopySchema) < Position(n) ==> role !in server.superusers
  {
  }

  /** The event persists the switch to the new database. */
  predicate Completes(r: Trace, k: nat)
    requires |r.states| == |r.events| + 1 && k < |r.events|
  {
    && r.events[k] == Control(Persist)
    && Running(r.states[k].w.status.migration)
    && r.states[k + 1].w.status.migration == At(Completed)
  }

  lemma CompletesWhenSwitched(c: Config, s: Sys, s': Sys)
    requires Inv(c, s) && NextSession(c, s, Persist) == Some(s')
    requires Running(s.w.status.migration) && s'.w.status.migration == At(Completed)
    ensures s.ses.Busy? && Migrates(s.ses.mode) && s.ses.pc == Switched && Front(s) == Completed
    ensures s.w.status.migration == At(DeletePublication)
  {
  }

  /** When a migration completes, both replication artefacts and the superuser grant are gone. */
  lemma ArtefactsAreGone(c: Config, r: Trace, k: nat)
    requires IsMigrationRun(c, r) && k < |r.events| && CleanUpTo(r, k) && Completes(r, k)
    ensures var w, w' := r.states[k].w, r.states[k + 1].w;
            var src, tgt := AddrOf(w.status.active.conn), AddrOf(w.status.newDb.conn);
            && src in w'.servers && !w'.servers[src].publication
            && tgt in w'.servers && w'.servers[tgt].subscription == Absent
            && ParentRole(w.status.newDb.conn.user) !in w'.servers[tgt].superusers
  {
    RunFrontAtCompletion(c, r, k);
    NothingAtCompletion(r.states[k].w);
  }

  lemma NothingAtCompletion(w: World)
    requires ServersAt(w, Completed)
    ensures var src, tgt := AddrOf(w.status.active.conn), AddrOf(w.status.newDb.conn);
            && src in w.servers && !w.servers[src].publication
            && tgt in w.servers && w.servers[tgt].subscription == Absent
            && ParentRole(w.status.newDb.conn.user) !in w.servers[tgt].superusers
  {
  }

  lemma FrontAtCompletion(c: Config, s: Sys, s': Sys)
    requires Inv(c, s) && DataInv(c, s) && NextSession(c, s, Persist) == Some(s')
    requires Running(s.w.status.migration) && s'.w.status.migration == At(Completed)
    ensures ServersAt(s.w, Completed) && s'.w.servers == s.w.servers
  {
    CompletesWhenSwitched(c, s, s');
  }

  lemma RunFrontAtCompletion(c: Config, r: Trace, k: nat)
    requires IsMigrationRun(c, r) && k < |r.events| && CleanUpTo(r, k) && Completes(r, k)
    ensures ServersAt(r.states[k].w, Completed) && r.states[k + 1].w.servers == r.states[k].w.servers
  {
    RunData(c, r, k);
    StepOf(c, r, k);
    FrontAtCompletion(c, r.states[k], r.states[k + 1]);
  }

  /** While a migration is running, a provisioning session has nothing left to do. */
  lemma NoProvisionWhileRunning(c: Config, s: Sys, e: ProvisionEvent)
    requires Inv(c, s) && Running(s.w.status.migration)
    ensures NextProvision(c, s, e) == None
  {
  }

  /** While a migration is running, nothing is cleaned up. */
  lemma NoCleanupWhileRunning(c: Config, s: Sys, e: CleanEvent)
    requires Inv(c, s) && Running(s.w.status.migration)
    ensures NextCleanup(c, s, e) == None
  {
  }

  lemma TempIsUntouched(c: Config, s: Sys, e: Event, s': Sys)
    requires Next(c, s, e) == Some(s') && !e.Provision? && e != Migrate(SaveTemp) && e != Migrate(DropTemp)
    ensures s'.w.temp == s.w.temp
  {
  }

  lemma StepKeepsSource(c: Config, s: Sys, e: Event, s': Sys)
    requires Inv(c, s) && DataInv(c, s) && Next(c, s, e) == Some(s') && Running(s.w.status.migration)
    ensures s.w.temp.Some? && s'.w.temp.Some? && s'.w.temp.value.source == s.w.temp.value.source
  {
    SourceIsSaved(c, s);
    if e.Provision? {
      NoProvisionWhileRunning(c, s, e.provision);
    } else if e == Migrate(SaveTemp) {
      SaveTempKeepsSource(c, s, s');
    } else if e == Migrate(DropTemp) {
      TempStaysWhileRunning(c, s);
    } else {
      TempIsUntouched(c, s, e, s');
    }
  }

  lemma SourceIsSaved(c: Config, s: Sys)
    requires DataInv(c, s) && Running(s.w.status.migration)
    ensures s.w.temp.Some? && s.w.temp.value.source.Some?
  {
  }

  lemma SaveTempKeepsSource(c: Config, s: Sys, s': Sys)
    requires DataInv(c, s) && NextMigration(c, s, SaveTemp) == Some(s')
    ensures s.w.temp.Some? && s'.w.temp.Some? && s'.w.temp.value.source == s.w.temp.value.source
  {
  }

  lemma TempStaysWhileRunning(c: Config, s: Sys)
    requires Inv(c, s) && Running(s.w.status.migration)
    ensures NextMigration(c, s, DropTemp) == None
  {
  }

  lemma RunStepKeepsSource(c: Config, r: Trace, k: nat)
    requires IsMigrationRun(c, r) && k < |r.events| && CleanUpTo(r, k) && Running(r.states[k].w.status.migration)
    ensures r.states[k].w.temp.Some? && r.states[k + 1].w.temp.Some?
    ensures r.states[k + 1].w.temp.value.source == r.states[k].w.temp.value.source
  {
    RunData(c, r, k);
    StepOf(c, r, k);
    StepKeepsSource(c, r.states[k], r.events[k], r.states[k + 1]);
  }

  lemma RunHasTemp(c: Config, r: Trace, k: nat)
    requires IsMigrationRun(c, r) && k < |r.states| && CleanUpTo(r, k) && Running(r.states[k].w.status.migration)
    ensures r.states[k].w.temp.Some? && r.states[k].w.temp.value.source.Some?
  {
    RunData(c, r, k);
  }

  predicate SameSource(s: Sys, s': Sys) {
    s.w.temp.Some? && s'.w.temp.Some? && s'.w.temp.value.source == s.w.temp.value.source
  }

  lemma {:induction false} SameSourceThroughout(states: seq<Sys>, m: nat, k: nat)
    requires m <= k < |states| && states[m].w.temp.Some?
    requires forall i :: m <= i < k ==> SameSource(states[i], states[i + 1])
    ensures SameSource(states[m], states[k])
  {
    if m < k {
      SameSourceThroughout(states, m, k - 1);
      assert SameSource(states[k - 1], states[k]);
    }
  }

  /** In a clean run the saved source connection is never lost or overwritten while a migration is running. */
  lemma SourceIsKept(c: Config, r: Trace, m: nat, k: nat)
    requires IsMigrationRun(c, r) && m <= k < |r.states| && CleanUpTo(r, k) && RunningFrom(r, m, k)
    ensures SameSource(r.states[m], r.states[k])
  {
    assert Running(r.states[m].w.status.migration);
    RunHasTemp(c, r, m);
    forall i | m <= i < k ensures SameSource(r.states[i], r.states[i + 1]) {
      assert Running(r.states[i].w.status.migration);
      RunStepKeepsSource(c, r, i);
    }
    SameSourceThroughout(r.states, m, k);
  }

  /** The stages at which the application secret is read although it may already hold the target. */
  predicate ReroutesAt(m: Migration) {
    m == At(ResetTargetSequence) || m == At(RerouteTargetSecret)
  }

  /**
   Whenever a session could resume, the connection it takes for the source is the one that the
   application secret held when the migration was persisted, except exactly when the secret already
   holds the target and the persisted stage is one of the two around the rerouting.
   */
  lemma RecoveryIsExact(c: Config, r: Trace, m: nat, k: nat)
    requires IsMigrationRun(c, r) && m <= k < |r.states| && CleanUpTo(r, k) && RunningFrom(r, m, k)
    requires r.states[m].w.status.migration == At(MigrationInProgress)
    ensures var w := r.states[k].w;
            RecoverSource(w, w.status.migration) == r.states[m].w.app
            <==> !(HoldsTarget(w) && ReroutesAt(w.status.migration))
  {
    SourceIsKept(c, r, m, k);
    assert Running(r.states[k].w.status.migration);
    AppIsSaved(c, r, m);
    RunData(c, r, k);
    RecoveryAt(c, r.states[k]);
  }

  lemma AppIsSaved(c: Config, r: Trace, m: nat)
    requires IsMigrationRun(c, r) && m < |r.states| && CleanUpTo(r, m)
    requires r.states[m].w.status.migration == At(MigrationInProgress)
    ensures r.states[m].w.temp.Some? && r.states[m].w.app == r.states[m].w.temp.value.source
  {
    RunData(c, r, m);
  }

  lemma RecoveryAt(c: Config, s: Sys)
    requires Inv(c, s) && DataInv(c, s) && Running(s.w.status.migration)
    ensures s.w.temp.Some?
    ensures RecoverSource(s.w, s.w.status.migration) == s.w.temp.value.source
            <==> !(HoldsTarget(s.w) && ReroutesAt(s.w.status.migration))
  {
  }
}
