/**
 What holds of the persisted status over whole runs: the mode is stable while a migration
 is running, the handover is atomic, no provisioned host is forgotten, the planned server
 never changes, cleanup and deletion touch only what they may.
 */
module ClaimProperties {
  import opened Options
  import opened Stages
  import opened Claim
  import opened Protocol
  import opened ClaimInvariants

  /** A run of the controller from a claim that is at rest. */
  ghost predicate IsClaimRun(c: Config, r: Trace) {
    && Lawful(c) && IsRun(c, r)
    && r.states[0].ses == Idle && Quiescent(c, r.states[0].w.status)
  }

  lemma RunInv(c: Config, r: Trace, k: nat)
    requires IsClaimRun(c, r) && k < |r.states|
    ensures Inv(c, r.states[k])
  {
    RunKeepsInv(c, r, k);
  }

  /**
   The persisted status of a running migration moves only one stage on, or makes the whole
   switch; a pending cleanup is only ever cleared.
   */
  predicate StatusMoves(st: Status, st': Status) {
    && (Running(st.migration) ==>
          || st' == st
          || st' == Handover(st)
          || (Running(st'.migration) && st' == st.(migration := st'.migration)
              && Follows(st.migration, st'.migration.stage) && st'.migration != At(Retry)))
    && (st.oldDb.state == PostMigrationInProgress ==> st' == st || st' == st.(oldDb := NO_OLD_DB))
  }

  lemma PersistMoves(c: Config, s: Sys, s': Sys)
    requires Inv(c, s) && NextSession(c, s, Persist) == Some(s')
    ensures StatusMoves(s.w.status, s'.w.status)
  {
  }

  lemma OnlyPersistWrites(c: Config, s: Sys, e: Event, s': Sys)
    requires Next(c, s, e) == Some(s') && e != Control(Persist)
    ensures s'.w.status == s.w.status
  {
  }

  lemma StepMoves(c: Config, s: Sys, e: Event, s': Sys)
    requires Inv(c, s) && Next(c, s, e) == Some(s')
    ensures StatusMoves(s.w.status, s'.w.status)
  {
    if e == Control(Persist) {
      PersistMoves(c, s, s');
    } else {
      OnlyPersistWrites(c, s, e, s');
    }
  }

  /**
   Every persisted status of a running migration is followed by one with the whole switch
   or with none of it, and a pending cleanup is never overwritten.
   */
  lemma HandoverIsAtomic(c: Config, r: Trace, k: nat)
    requires IsClaimRun(c, r) && k < |r.events|
    ensures StatusMoves(r.states[k].w.status, r.states[k + 1].w.status)
  {
    RunInv(c, r, k);
    StepOf(c, r, k);
    StepMoves(c, r.states[k], r.events[k], r.states[k + 1]);
  }

  /** A claim is never found with a pending cleanup that the mode choice does not support. */
  lemma CleanupIsSupported(c: Config, r: Trace, k: nat)
    requires IsClaimRun(c, r) && k < |r.states|
    ensures var st := r.states[k].w.status;
            st.oldDb.state == PostMigrationInProgress ==> GetMode(c, st) == (PostMigration, st)
  {
    RunInv(c, r, k);
  }

  /** Whenever a migration is running, the next reconcile continues it without any reset, towards a known host. */
  lemma ModeIsStable(c: Config, r: Trace, k: nat)
    requires IsClaimRun(c, r) && k < |r.states| && Running(r.states[k].w.status.migration)
    ensures var st := r.states[k].w.status;
            GetMode(c, st) == (ModeWhileRunning(st), st) && st.newDb.conn.host != ""
  {
    RunInv(c, r, k);
    RunningFixesMode(c, r.states[k].w.status);
  }

  predicate RunningFrom(r: Trace, i: nat, j: nat)
    requires i <= j < |r.states|
  {
    forall k {:trigger r.states[k]} :: i <= k <= j ==> Running(r.states[k].w.status.migration)
  }

  /** One migration keeps its mode and its two databases, and its position never moves back. */
  lemma {:induction false} MigrationKeepsCourse(c: Config, r: Trace, i: nat, j: nat)
    requires IsClaimRun(c, r) && i <= j < |r.states| && RunningFrom(r, i, j)
    ensures var st, st' := r.states[i].w.status, r.states[j].w.status;
            && st' == st.(migration := st'.migration)
            && GetMode(c, st').0 == GetMode(c, st).0
            && st.migration.At? && st'.migration.At?
            && Position(st.migration.stage) <= Position(st'.migration.stage)
  {
    ModeIsStable(c, r, i);
    ModeIsStable(c, r, j);
    if i < j {
      MigrationKeepsCourse(c, r, i, j - 1);
      HandoverIsAtomic(c, r, j - 1);
      assert Running(r.states[j - 1].w.status.migration) && Running(r.states[j].w.status.migration);
      CourseStep(r.states[j - 1].w.status, r.states[j].w.status);
    }
  }

  lemma CourseStep(st: Status, st': Status)
    requires StatusMoves(st, st') && Running(st.migration) && Running(st'.migration)
    ensures st' == st.(migration := st'.migration) && st.migration.At? && st'.migration.At?
    ensures Position(st.migration.stage) <= Position(st'.migration.stage)
  {
  }

  /** The servers that the status knows as provisioned for the claim. */
  function KnownServers(st: Status): set<Addr> {
    (if st.active.state == Ready then {AddrOf(st.active.conn)} else {}) +
    (if st.newDb.conn.host != "" then {AddrOf(st.newDb.conn)} else {}) +
    (if st.oldDb.state == PostMigrationInProgress && st.oldDb.conn.Some? then {AddrOf(st.oldDb.conn.value)} else {})
  }

  lemma PersistKeepsServers(c: Config, s: Sys, s': Sys)
    requires Inv(c, s) && NextSession(c, s, Persist) == Some(s')
    ensures KnownServers(s.w.status) <= KnownServers(s'.w.status)
            || (s.w.status.oldDb.state == PostMigrationInProgress
                && s'.w.status == s.w.status.(oldDb := NO_OLD_DB))
  {
    if s.ses.mode == UseNewDB && s.ses.pc == Over {
      assert AddrOf(s'.w.status.active.conn) == PlannedAddr(c, s.w.status.active);
    }
  }

  /** No provisioned server leaves the status except when post-migration cleanup clears it. */
  lemma ServersAreConserved(c: Config, r: Trace, k: nat)
    requires IsClaimRun(c, r) && k < |r.events|
    ensures var st, st' := r.states[k].w.status, r.states[k + 1].w.status;
            || KnownServers(st) <= KnownServers(st')
            || (st.oldDb.state == PostMigrationInProgress && st' == st.(oldDb := NO_OLD_DB))
  {
    RunInv(c, r, k);
    StepOf(c, r, k);
    if r.events[k] == Control(Persist) {
      PersistKeepsServers(c, r.states[k], r.states[k + 1]);
    } else {
      OnlyPersistWrites(c, r.states[k], r.events[k], r.states[k + 1]);
    }
  }

  /** The planned parameters are the same, and no upgrade is asked of another database. */
  predicate SamePlan(c: Config, a: DbStatus, a': DbStatus) {
    c.plan(a') == c.plan(a) && (a' != a ==> !c.upgrade(a'))
  }

  lemma PersistKeepsPlan(c: Config, s: Sys, s': Sys)
    requires Lawful(c) && Inv(c, s) && NextSession(c, s, Persist) == Some(s')
    ensures SamePlan(c, s.w.status.active, s'.w.status.active)
  {
    var st := s.w.status;
    if Migrates(s.ses.mode) && s.ses.pc == Switched {
      assert Carries(c.plan(st.active), st.newDb.(state := Ready));
    }
  }

  lemma StepKeepsPlan(c: Config, s: Sys, e: Event, s': Sys)
    requires Lawful(c) && Inv(c, s) && Next(c, s, e) == Some(s')
    ensures SamePlan(c, s.w.status.active, s'.w.status.active)
  {
    if e == Control(Persist) {
      PersistKeepsPlan(c, s, s');
    } else {
      OnlyPersistWrites(c, s, e, s');
    }
  }

  /**
   The host parameters, and with them the server name, are the same in every status of a run;
   and every new active database leaves no upgrade to be asked for.
   */
  lemma PlanIsStable(c: Config, r: Trace, k: nat)
    requires IsClaimRun(c, r) && k < |r.states|
    ensures SamePlan(c, r.states[0].w.status.active, r.states[k].w.status.active)
  {
    forall i | 0 <= i < k ensures SamePlan(c, r.states[i].w.status.active, r.states[i + 1].w.status.active) {
      RunInv(c, r, i);
      StepOf(c, r, i);
      StepKeepsPlan(c, r.states[i], r.events[i], r.states[i + 1]);
    }
    SamePlanThroughout(c, r.states, k);
  }

  lemma {:induction false} SamePlanThroughout(c: Config, states: seq<Sys>, k: nat)
    requires k < |states|
    requires forall i :: 0 <= i < k ==> SamePlan(c, states[i].w.status.active, states[i + 1].w.status.active)
    ensures SamePlan(c, states[0].w.status.active, states[k].w.status.active)
  {
    if k > 0 {
      SamePlanThroughout(c, states, k - 1);
      assert SamePlan(c, states[k - 1].w.status.active, states[k].w.status.active);
    }
  }

  /** How crossplane resources are named. */
  ghost predicate NamingLaws(c: Config) {
    && (forall db {:trigger OldNamed(c, db)} :: OldNamed(c, db) ==>
          && c.instances(db.engine, db.shape, db.version) <= c.oldInstances(db)
          && c.groups(db.engine, db.shape, db.version) == c.oldGroups(db))
    && (forall db, e, s, v {:trigger c.oldInstances(db), c.instances(e, s, v)} ::
          OldNamed(c, db) && c.nameOf(db.engine, db.shape, db.version) != c.nameOf(e, s, v) ==>
            c.oldInstances(db) !! c.instances(e, s, v))
    && (forall e, s, v, e', s', v' {:trigger c.groups(e, s, v), c.groups(e', s', v')} ::
          c.groups(e, s, v) == c.groups(e', s', v') ||
          c.groups(e, s, v) !! c.groups(e', s', v'))
    && (forall e, s, v, e', s', v' {:trigger c.groups(e, s, v), c.groups(e', s', v')} ::
          c.nameOf(e, s, v) != c.nameOf(e', s', v') ==> c.groups(e, s, v) !! c.groups(e', s', v'))
    && (forall e, s, v, e', s', v' {:trigger c.instances(e, s, v), c.deletes(e', s', v')} ::
          c.nameOf(e, s, v) == c.nameOf(e', s', v') ==> c.instances(e, s, v) <= c.deletes(e', s', v'))
  }

  /** The resources that were provisioned for a database. */
  function InstancesOf(c: Config, db: DbStatus): set<string> {
    c.instances(db.engine, db.shape, db.version)
  }

  function GroupsOf(c: Config, db: DbStatus): set<string> {
    c.groups(db.engine, db.shape, db.version)
  }

  lemma CleanupState(c: Config, s: Sys, e: CleanEvent, s': Sys)
    requires Inv(c, s) && NextCleanup(c, s, e) == Some(s') && (e.DropOldInstance? || e.DropOldGroup?)
    ensures OldNamed(c, s.w.status.oldDb) && Named(c, s.w.status.active)
    ensures AddrOf(s.w.status.oldDb.conn.value) != AddrOf(s.w.status.active.conn)
    ensures s'.w == if e.DropOldInstance? then s.w.(instances := s.w.instances - {e.name})
                    else s.w.(groups := s.w.groups - {e.name})
    ensures if e.DropOldInstance? then e.name in c.oldInstances(s.w.status.oldDb)
            else e.name in c.oldGroups(s.w.status.oldDb)
  {
  }

  /**
   Post-migration cleanup deletes only names of the old database: every resource with which that was
   provisioned is among them, and none of the active database.
   */
  lemma CleanupSparesActive(c: Config, r: Trace, k: nat)
    requires IsClaimRun(c, r) && NamingLaws(c) && k < |r.events|
    requires r.events[k].Clean? && (r.events[k].clean.DropOldInstance? || r.events[k].clean.DropOldGroup?)
    ensures var w, w', e := r.states[k].w, r.states[k + 1].w, r.events[k].clean;
            var o, a := w.status.oldDb, w.status.active;
            && (e.DropOldInstance? ==>
                  e.name in c.oldInstances(o) && w' == w.(instances := w.instances - {e.name}))
            && (e.DropOldGroup? ==>
                  e.name in c.oldGroups(o) && w' == w.(groups := w.groups - {e.name}))
            && c.instances(o.engine, o.shape, o.version) <= c.oldInstances(o)
            && c.groups(o.engine, o.shape, o.version) == c.oldGroups(o)
            && InstancesOf(c, a) * w.instances <= w'.instances
            && GroupsOf(c, a) * w.groups <= w'.groups
  {
    RunInv(c, r, k);
    StepOf(c, r, k);
    CleanupState(c, r.states[k], r.events[k].clean, r.states[k + 1]);
    var st := r.states[k].w.status;
    assert c.nameOf(st.oldDb.engine, st.oldDb.shape, st.oldDb.version)
           != c.nameOf(st.active.engine, st.active.shape, st.active.version);
    assert c.oldInstances(st.oldDb) !! InstancesOf(c, st.active);
    assert c.groups(st.oldDb.engine, st.oldDb.shape, st.oldDb.version) !! GroupsOf(c, st.active);
  }

  predicate Deletes(e: Event) {
    e.Clean? && (e.clean.PurgeInstance? || e.clean.PurgeGroup? || e.clean.PurgeDone? || e.clean.RemoveFinalizer?)
  }

  /** External resources and the finalizer go only when the claim is marked and no migration is under way. */
  lemma DeletionIsSafe(c: Config, r: Trace, k: nat)
    requires IsClaimRun(c, r) && k < |r.events| && Deletes(r.events[k])
    ensures r.states[k].w.deleting && Deletable(r.states[k].w.status.migration)
  {
    RunInv(c, r, k);
    StepOf(c, r, k);
  }

  /**
   The finalizer is removed in the session in which the external deletion succeeded: with the
   delete policy nothing is left of the planned server.
   */
  lemma {:induction false} PurgePrecedesFinalizer(c: Config, r: Trace, k: nat) returns (j: nat)
    requires IsRun(c, r) && r.states[0].ses == Idle && k < |r.states| && r.states[k].ses == Purging(true)
    ensures j < k && r.events[j] == Clean(PurgeDone) && (c.reclaim ==> Purged(c, r.states[j].w))
    ensures forall i {:trigger r.states[i]} :: j < i <= k ==> r.states[i].ses == Purging(true)
  {
    StepOf(c, r, k - 1);
    var s, e := r.states[k - 1], r.events[k - 1];
    if e == Clean(PurgeDone) {
      j := k - 1;
    } else {
      assert s.ses == Purging(true) by {
        assert e.Control? ==> e.control != Open || OpenSession(c, s.w) != Purging(true);
      }
      j := PurgePrecedesFinalizer(c, r, k - 1);
    }
  }
}
