/**
 Deleting a claim: what the deletion of its external resources removes, when that leaves nothing of
 the databases the claim knows, and when a marked claim can get there.
 */
module Deletion {
  import opened Options
  import opened Claim
  import opened Protocol
  import opened ClaimInvariants
  import opened ClaimProperties
  import opened MigrationSafety
  import opened Reachability
  import opened Stuck

  // ---- what a deletion removes

  /** What a session that deletes the external resources has done since it found the world as it was. */
  predicate PurgeInv(c: Config, before: World, s: Sys) {
    && s.ses.Purging? && s.w.status == before.status
    && before.instances - PurgedInstances(c, before.status) <= s.w.instances <= before.instances
    && before.groups - PlannedGroups(c, before.status) <= s.w.groups <= before.groups
    && (!c.reclaim ==> s.w.instances == before.instances && s.w.groups == before.groups)
    && (s.ses.deleted && c.reclaim ==> Purged(c, s.w))
  }

  lemma OpenStartsPurge(c: Config, s: Sys, s': Sys)
    requires s.ses == Idle && NextSession(c, s, Open) == Some(s') && s'.ses.Purging?
    ensures PurgeInv(c, s.w, s')
  {
  }

  lemma CleanKeepsPurge(c: Config, before: World, s: Sys, e: CleanEvent, s': Sys)
    requires PurgeInv(c, before, s) && NextCleanup(c, s, e) == Some(s') && s'.ses.Purging?
    ensures PurgeInv(c, before, s')
  {
  }

  lemma StepKeepsPurge(c: Config, before: World, s: Sys, e: Event, s': Sys)
    requires PurgeInv(c, before, s) && Next(c, s, e) == Some(s') && s'.ses.Purging?
    ensures PurgeInv(c, before, s')
  {
    if e.Clean? {
      CleanKeepsPurge(c, before, s, e.clean, s');
    }
  }

  lemma OnlyOpenStartsPurge(c: Config, s: Sys, e: Event, s': Sys)
    requires Next(c, s, e) == Some(s') && s'.ses.Purging? && !s.ses.Purging?
    ensures e == Control(Open) && s.ses == Idle
  {
  }

  /** A deleting session was opened at some point, and since then it has only deleted the planned server. */
  lemma {:induction false} PurgeOpened(c: Config, r: Trace, k: nat) returns (i: nat)
    requires IsRun(c, r) && r.states[0].ses == Idle && k < |r.states| && r.states[k].ses.Purging?
    ensures i < k && r.events[i] == Control(Open) && r.states[i].ses == Idle
    ensures PurgeInv(c, r.states[i].w, r.states[k])
    ensures forall j {:trigger r.states[j]} :: i < j <= k ==> r.states[j].ses.Purging?
  {
    StepOf(c, r, k - 1);
    if r.states[k - 1].ses.Purging? {
      i := PurgeOpened(c, r, k - 1);
      StepKeepsPurge(c, r.states[i].w, r.states[k - 1], r.events[k - 1], r.states[k]);
    } else {
      i := k - 1;
      OnlyOpenStartsPurge(c, r.states[i], r.events[i], r.states[k]);
      OpenStartsPurge(c, r.states[i], r.states[k]);
    }
  }

  /** The claim is let go. */
  predicate Releases(e: Event) {
    e == Clean(RemoveFinalizer)
  }

  /**
   When a claim is let go, exactly the resources of the planned server have been deleted since the
   session was opened, or nothing at all if the policy is to retain them.
   */
  lemma DeletionIsExact(c: Config, r: Trace, k: nat) returns (i: nat)
    requires IsClaimRun(c, r) && k < |r.events| && Releases(r.events[k])
    ensures i < k && r.events[i] == Control(Open) && r.states[i].ses == Idle
    ensures forall j {:trigger r.states[j]} :: i < j <= k ==> r.states[j].ses.Purging?
    ensures var w, w' := r.states[i].w, r.states[k + 1].w;
            && w'.status == w.status
            && w'.instances == (if c.reclaim then w.instances - PurgedInstances(c, w.status) else w.instances)
            && w'.groups == (if c.reclaim then w.groups - PlannedGroups(c, w.status) else w.groups)
  {
    StepOf(c, r, k);
    i := PurgeOpened(c, r, k);
  }

  // ---- when nothing is left

  /** Nothing is left of the active database and of the one that waits for its cleanup. */
  predicate LeavesNothing(c: Config, w: World) {
    var a, o := w.status.active, w.status.oldDb;
    && (a.state == Ready ==> InstancesOf(c, a) !! w.instances && GroupsOf(c, a) !! w.groups)
    && (o.state == PostMigrationInProgress ==>
          && c.instances(o.engine, o.shape, o.version) !! w.instances
          && c.groups(o.engine, o.shape, o.version) !! w.groups)
  }

  /** The databases that the status knows have a parameter group. */
  predicate Stands(c: Config, w: World) {
    var a, o := w.status.active, w.status.oldDb;
    && (a.state == Ready ==> !(GroupsOf(c, a) !! w.groups))
    && (o.state == PostMigrationInProgress ==> !(c.groups(o.engine, o.shape, o.version) !! w.groups))
  }

  /** The names computed from the specification are the ones of the active database. */
  predicate PlanIsActive(c: Config, st: Status) {
    st.active.state == Ready ==> GroupsOf(c, st.active) == PlannedGroups(c, st)
  }

  predicate CleanupPending(st: Status) {
    st.oldDb.state == PostMigrationInProgress
  }

  lemma ActiveIsLeftIff(c: Config, w: World)
    requires NamingLaws(c) && c.plan(w.status.active).Some? && w.status.active.state == Ready
    requires !(GroupsOf(c, w.status.active) !! w.groups)
    ensures var a, instances, groups := w.status.active, w.instances - PurgedInstances(c, w.status),
                                        w.groups - PlannedGroups(c, w.status);
            InstancesOf(c, a) !! instances && GroupsOf(c, a) !! groups <==> PlanIsActive(c, w.status)
  {
    var a, p := w.status.active, c.plan(w.status.active).value;
    var planned := c.groups(p.engine, p.shape, p.version);
    assert GroupsOf(c, a) == planned || GroupsOf(c, a) !! planned;
    if GroupsOf(c, a) == planned {
      assert c.nameOf(a.engine, a.shape, a.version) == c.nameOf(p.engine, p.shape, p.version);
      assert InstancesOf(c, a) <= c.deletes(p.engine, p.shape, p.version);
    }
  }

  lemma OldIsLeft(c: Config, w: World)
    requires NamingLaws(c) && StatusInv(c, w.status) && c.plan(w.status.active).Some? && CleanupPending(w.status)
    requires var o := w.status.oldDb; !(c.groups(o.engine, o.shape, o.version) !! w.groups)
    ensures var o := w.status.oldDb;
            !(c.groups(o.engine, o.shape, o.version) !! w.groups - PlannedGroups(c, w.status))
  {
    var o, p := w.status.oldDb, c.plan(w.status.active).value;
    assert AddrOf(o.conn.value) != PlannedAddr(c, w.status.active);
    assert c.nameOf(o.engine, o.shape, o.version) != c.nameOf(p.engine, p.shape, p.version);
    assert c.groups(o.engine, o.shape, o.version) !! c.groups(p.engine, p.shape, p.version);
  }

  lemma PurgeLeavesNothingIff(c: Config, w: World, w': World)
    requires NamingLaws(c) && StatusInv(c, w.status) && c.plan(w.status.active).Some? && Stands(c, w)
    requires w'.status == w.status && w'.instances == w.instances - PurgedInstances(c, w.status)
    requires w'.groups == w.groups - PlannedGroups(c, w.status)
    ensures LeavesNothing(c, w') <==> PlanIsActive(c, w.status) && !CleanupPending(w.status)
  {
    if w.status.active.state == Ready {
      ActiveIsLeftIff(c, w);
    }
    if CleanupPending(w.status) {
      OldIsLeft(c, w);
    }
  }

  lemma RunOpensPurge(c: Config, r: Trace, i: nat)
    requires IsClaimRun(c, r) && i < |r.events| && r.events[i] == Control(Open)
    ensures StatusInv(c, r.states[i].w.status) && c.plan(r.states[i].w.status.active).Some?
  {
    RunInv(c, r, i);
    StepOf(c, r, i);
  }

  /**
   With the delete policy, a claim is let go with nothing left of the databases it knows exactly if the names
   computed from its specification are those of the active database and no cleanup was pending.
   */
  lemma DeletionIsCompleteIff(c: Config, r: Trace, k: nat) returns (i: nat)
    requires IsClaimRun(c, r) && NamingLaws(c) && c.reclaim && k < |r.events| && Releases(r.events[k])
    ensures i < k && r.events[i] == Control(Open) && r.states[i].ses == Idle
    ensures forall j {:trigger r.states[j]} :: i < j <= k ==> r.states[j].ses.Purging?
    ensures var w, w' := r.states[i].w, r.states[k + 1].w;
            Stands(c, w) ==> (LeavesNothing(c, w') <==> PlanIsActive(c, w.status) && !CleanupPending(w.status))
  {
    i := DeletionIsExact(c, r, k);
    RunOpensPurge(c, r, i);
    if Stands(c, r.states[i].w) {
      PurgeLeavesNothingIff(c, r.states[i].w, r.states[k + 1].w);
    }
  }

  // ---- the mark does not disturb a migration

  /** The same state of a claim that is marked for deletion. */
  function Marked(s: Sys): Sys {
    s.(w := s.w.(deleting := true))
  }

  lemma SessionIgnoresMark(c: Config, s: Sys, e: SessionEvent, s': Sys)
    requires NextSession(c, s, e) == Some(s') && Running(s.w.status.migration) && s.w.finalizer
    ensures NextSession(c, Marked(s), e) == Some(Marked(s')) && s'.w.finalizer
  {
  }

  lemma MigrationIgnoresMark(c: Config, s: Sys, e: MigrateEvent, s': Sys)
    requires NextMigration(c, s, e) == Some(s') && s.w.finalizer
    ensures NextMigration(c, Marked(s), e) == Some(Marked(s')) && s'.w.finalizer
  {
  }

  lemma StepIgnoresMark(c: Config, s: Sys, e: Event, s': Sys)
    requires Inv(c, s) && Next(c, s, e) == Some(s') && Running(s.w.status.migration) && s.w.finalizer
    ensures Next(c, Marked(s), e) == Some(Marked(s')) && s'.w.finalizer
  {
    match e
    case Env(x) =>
    case Control(x) => SessionIgnoresMark(c, s, x, s');
    case Provision(x) => NoProvisionWhileRunning(c, s, x);
    case Migrate(x) => MigrationIgnoresMark(c, s, x, s');
    case Clean(x) => NoCleanupWhileRunning(c, s, x);
  }

  lemma {:induction false} FinalizerStays(c: Config, r: Trace, m: nat, k: nat)
    requires IsClaimRun(c, r) && m <= k < |r.states| && RunningFrom(r, m, k) && r.states[m].w.finalizer
    ensures r.states[k].w.finalizer
  {
    if m < k {
      FinalizerStays(c, r, m, k - 1);
      assert Running(r.states[k - 1].w.status.migration);
      RunStepIgnoresMark(c, r, k - 1);
    }
  }

  /** Whatever a claim can do while its migration is running, it can do just so when it is marked for deletion. */
  lemma DeletionKeepsMigrating(c: Config, r: Trace, m: nat, k: nat)
    requires IsClaimRun(c, r) && m <= k < |r.events| && RunningFrom(r, m, k) && r.states[m].w.finalizer
    ensures Next(c, Marked(r.states[k]), r.events[k]) == Some(Marked(r.states[k + 1]))
  {
    FinalizerStays(c, r, m, k);
    assert Running(r.states[k].w.status.migration);
    RunStepIgnoresMark(c, r, k);
  }

  lemma RunStepIgnoresMark(c: Config, r: Trace, k: nat)
    requires IsClaimRun(c, r) && k < |r.events| && Running(r.states[k].w.status.migration) && r.states[k].w.finalizer
    ensures Next(c, Marked(r.states[k]), r.events[k]) == Some(Marked(r.states[k + 1])) && r.states[k + 1].w.finalizer
  {
    RunInv(c, r, k);
    StepOf(c, r, k);
    StepIgnoresMark(c, r.states[k], r.events[k], r.states[k + 1]);
  }

  // ---- a marked claim is let go

  lemma {:induction false} DeletesInstances(c: Config, s: Sys, w: World, names: set<string>)
    requires c.reclaim && names <= PurgedInstances(c, w.status) && Reaches(c, s, Sys(w, Purging(false)))
    ensures Reaches(c, s, Sys(w.(instances := w.instances - names), Purging(false)))
    decreases names
  {
    if names == {} {
      assert w.(instances := w.instances - names) == w;
    } else {
      var name :| name in names;
      var w1 := w.(instances := w.instances - {name});
      Then(c, s, Sys(w, Purging(false)), Clean(PurgeInstance(name)), Sys(w1, Purging(false)));
      DeletesInstances(c, s, w1, names - {name});
      assert w1.instances - (names - {name}) == w.instances - names;
    }
  }

  lemma {:induction false} DeletesGroups(c: Config, s: Sys, w: World, names: set<string>)
    requires c.reclaim && names <= PlannedGroups(c, w.status) && Reaches(c, s, Sys(w, Purging(false)))
    ensures Reaches(c, s, Sys(w.(groups := w.groups - names), Purging(false)))
    decreases names
  {
    if names == {} {
      assert w.(groups := w.groups - names) == w;
    } else {
      var name :| name in names;
      var w1 := w.(groups := w.groups - {name});
      Then(c, s, Sys(w, Purging(false)), Clean(PurgeGroup(name)), Sys(w1, Purging(false)));
      DeletesGroups(c, s, w1, names - {name});
      assert w1.groups - (names - {name}) == w.groups - names;
    }
  }

  lemma LetsGo(c: Config, s: Sys, w: World) returns (w': World)
    requires Reaches(c, s, Sys(w, Idle)) && w.deleting && w.finalizer && Deletable(w.status.migration)
    requires c.plan(w.status.active).Some?
    ensures Reaches(c, s, Sys(w', Idle)) && !w'.finalizer && w'.status == w.status
  {
    Then(c, s, Sys(w, Idle), Control(Open), Sys(w, Purging(false)));
    w' := w;
    if c.reclaim {
      DeletesInstances(c, s, w', PurgedInstances(c, w.status));
      w' := w'.(instances := w'.instances - PurgedInstances(c, w.status));
      DeletesGroups(c, s, w', PlannedGroups(c, w.status));
      w' := w'.(groups := w'.groups - PlannedGroups(c, w.status));
    }
    Then(c, s, Sys(w', Purging(false)), Clean(PurgeDone), Sys(w', Purging(true)));
    Then(c, s, Sys(w', Purging(true)), Clean(RemoveFinalizer), Sys(w'.(finalizer := false), Idle));
    w' := w'.(finalizer := false);
  }

  ghost predicate CanBeLetGo(c: Config, w: World) {
    exists w' :: Reaches(c, Sys(w, Idle), Sys(w', Idle)) && !w'.finalizer
  }

  lemma HandedOverIsLetGo(c: Config, w: World, s: Sys)
    requires w.deleting && c.plan(Handover(w.status).active).Some?
    requires Reaches(c, Sys(w, Idle), s) && s.w.status == Handover(w.status) && s.w.finalizer
    ensures CanBeLetGo(c, w)
  {
    MarkStays(c, Sys(w, Idle), s);
    if s.ses != Idle {
      Then(c, Sys(w, Idle), s, Control(Abort), Sys(s.w, Idle));
    }
    var w' := LetsGo(c, Sys(w, Idle), s.w);
  }

  lemma HandedOverIsPlanned(c: Config, w: World)
    requires Lawful(c) && Inv(c, Sys(w, Idle)) && Running(w.status.migration) && Apart(w.status)
    ensures c.plan(Handover(w.status).active).Some?
  {
    HandoverKeepsStatus(c, w.status);
  }

  /**
   A claim that is marked in the middle of a migration can be let go exactly if its migration can be completed:
   a migration that no session can resume keeps the claim for good.
   */
  lemma MarkedClaimIsLetGoIff(c: Config, w: World)
    requires Lawful(c) && Resting(c, w) && w.deleting
    ensures CanBeLetGo(c, w) <==> CanGoOn(c, w)
  {
    if CanGoOn(c, w) {
      var s := ReachesHandover(c, w);
      HandedOverIsPlanned(c, w);
      HandedOverIsLetGo(c, w, s);
    } else {
      CannotGoOnIsBlocked(c, w);
      forall w' | Reaches(c, Sys(w, Idle), Sys(w', Idle)) ensures w'.finalizer {
        BlockedStays(c, Sys(w, Idle), Sys(w', Idle));
      }
    }
  }

  /** The same for every idle state of every clean run. */
  lemma RunMarkedIsLetGoIff(c: Config, r: Trace, k: nat)
    requires IsMigrationRun(c, r) && k < |r.states| && CleanUpTo(r, k) && r.states[k].ses == Idle
    requires Running(r.states[k].w.status.migration) && Supported(r.states[k].w) && r.states[k].w.deleting
    ensures CanBeLetGo(c, r.states[k].w) <==> CanGoOn(c, r.states[k].w)
  {
    RunRests(c, r, k);
    MarkedClaimIsLetGoIff(c, r.states[k].w);
  }

  // ---- a claim that is deleted before its upgrade

  /**
   A marked claim at rest whose planned server does not exist yet is let go in one session that deletes
   nothing: its active database stays.
   */
  lemma NothingIsDeleted(c: Config, w: World) returns (r: Trace)
    requires Lawful(c) && Quiescent(c, w.status) && c.plan(w.status.active).Some?
    requires w.deleting && w.finalizer && Purged(c, w)
    ensures IsClaimRun(c, r) && r.events == [Control(Open), Clean(PurgeDone), Clean(RemoveFinalizer)]
    ensures r.states[0] == Sys(w, Idle) && r.states[3] == Sys(w.(finalizer := false), Idle)
  {
    var s0, s1, s2 := Sys(w, Idle), Sys(w, Purging(false)), Sys(w, Purging(true));
    var s3 := Sys(w.(finalizer := false), Idle);
    var r0 := Trace([s0], []);
    assert IsRun(c, r0);
    RunGrows(c, r0, Control(Open), s1);
    var r1 := Grown(r0, Control(Open), s1);
    RunGrows(c, r1, Clean(PurgeDone), s2);
    var r2 := Grown(r1, Clean(PurgeDone), s2);
    RunGrows(c, r2, Clean(RemoveFinalizer), s3);
    r := Grown(r2, Clean(RemoveFinalizer), s3);
  }
}
