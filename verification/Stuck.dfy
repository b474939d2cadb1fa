/**
 When a migration is stuck: a session that cannot log in ends where it began, so what keeps one
 session out keeps every later one out, and only then can the handover not be reached.
 */
module Stuck {
  import opened Options
  import opened Claim
  import opened Protocol
  import opened ClaimInvariants
  import opened ClaimProperties
  import opened DataInvariants
  import opened MigrationSafety
  import opened RerouteWindow
  import opened Reachability
  import opened Resets
  import opened MistakenRun
  import opened Schema
  import opened Completion

  // ---- what keeps one session out keeps all out

  /** No session is at work on the migration. */
  predicate Waiting(s: Sys) {
    || s.ses.Idle?
    || (&& s.ses.Busy? && s.ses.mode == ModeWhileRunning(s.w.status) && s.ses.mem == s.w.status
        && (s.ses.pc == Begin || s.ses.pc == Dispatch || s.ses.pc == Over))
  }

  /** The migration is running, and no session can resume it. */
  predicate Blocked(c: Config, s: Sys) {
    Running(s.w.status.migration) && Waiting(s) && !Resumable(c, s.w, ModeWhileRunning(s.w.status), s.w.status)
  }

  /** The same servers with the same logins. */
  predicate SameLogins(servers: map<Addr, Server>, servers': map<Addr, Server>) {
    servers'.Keys == servers.Keys && forall a :: a in servers ==> servers'[a].logins == servers[a].logins
  }

  lemma ResumableStays(c: Config, w: World, w': World, mode: Mode, mem: Status)
    requires SameLogins(w.servers, w'.servers) && w'.app == w.app && w'.temp == w.temp
    ensures Resumable(c, w', mode, mem) <==> Resumable(c, w, mode, mem)
  {
  }

  lemma EnvKeepsBlocked(c: Config, s: Sys, e: EnvEvent, s': Sys)
    requires Blocked(c, s) && NextEnvironment(s, e) == Some(s')
    ensures Blocked(c, s') && s'.w.status == s.w.status && s'.w.finalizer == s.w.finalizer
  {
    if !e.MarkDeleted? {
      EnvironmentChange(s, e, s');
    }
    ResumableStays(c, s.w, s'.w, ModeWhileRunning(s.w.status), s.w.status);
  }

  lemma ControlKeepsBlocked(c: Config, s: Sys, e: SessionEvent, s': Sys)
    requires Lawful(c) && StatusInv(c, s.w.status) && Blocked(c, s) && NextSession(c, s, e) == Some(s')
    ensures Blocked(c, s') && s'.w.status == s.w.status && (s.w.finalizer ==> s'.w.finalizer)
  {
    RunningFixesMode(c, s.w.status);
    ResumableStays(c, s.w, s'.w, ModeWhileRunning(s.w.status), s.w.status);
  }

  lemma NothingMigrates(c: Config, s: Sys, e: MigrateEvent)
    requires Blocked(c, s)
    ensures NextMigration(c, s, e) == None
  {
    if e.Exec? && NextMigration(c, s, e).Some? {
      PerformMoves(c, s.w.servers, s.ses, e.effect);
    }
  }

  lemma StepKeepsBlocked(c: Config, s: Sys, e: Event, s': Sys)
    requires Lawful(c) && Inv(c, s) && Blocked(c, s) && Next(c, s, e) == Some(s')
    ensures Blocked(c, s') && s'.w.status == s.w.status && (s.w.finalizer ==> s'.w.finalizer)
  {
    match e
    case Env(x) => EnvKeepsBlocked(c, s, x, s');
    case Control(x) => ControlKeepsBlocked(c, s, x, s');
    case Provision(x) => NoProvisionWhileRunning(c, s, x);
    case Migrate(x) => NothingMigrates(c, s, x);
    case Clean(x) => NoCleanupWhileRunning(c, s, x);
  }

  lemma {:induction false} BlockedInRun(c: Config, r: Trace, k: nat)
    requires Lawful(c) && IsRun(c, r) && Inv(c, r.states[0]) && Blocked(c, r.states[0]) && k < |r.states|
    ensures Blocked(c, r.states[k]) && r.states[k].w.status == r.states[0].w.status
    ensures r.states[0].w.finalizer ==> r.states[k].w.finalizer
  {
    if k > 0 {
      BlockedInRun(c, r, k - 1);
      RunKeepsInv(c, r, k - 1);
      StepOf(c, r, k - 1);
      StepKeepsBlocked(c, r.states[k - 1], r.events[k - 1], r.states[k]);
    }
  }

  lemma BlockedStays(c: Config, s: Sys, s': Sys)
    requires Lawful(c) && Inv(c, s) && Blocked(c, s) && Reaches(c, s, s')
    ensures Blocked(c, s') && s'.w.status == s.w.status && (s.w.finalizer ==> s'.w.finalizer)
  {
    var r: Trace :| IsRun(c, r) && r.states[0] == s && r.states[|r.events|] == s';
    BlockedInRun(c, r, |r.events|);
  }

  /** In every run, clean or not: a migration that no session can resume keeps its status for good. */
  lemma BlockedForever(c: Config, r: Trace, m: nat, k: nat)
    requires IsClaimRun(c, r) && m <= k < |r.states| && Blocked(c, r.states[m])
    ensures Blocked(c, r.states[k]) && r.states[k].w.status == r.states[m].w.status
  {
    RunInv(c, r, m);
    var t := Trace(r.states[m..], r.events[m..]);
    forall i | 0 <= i < |t.events| ensures Next(c, t.states[i], t.events[i]) == Some(t.states[i + 1]) {
      StepOf(c, r, m + i);
    }
    BlockedInRun(c, t, k - m);
  }

  // ---- when the handover can be reached

  /** What the environment has to provide: the active server with the login that was saved, and room in the sequences. */
  predicate Supported(w: World) {
    && w.finalizer && w.app.Some? && w.temp.Some? && w.temp.value.source.Some?
    && AddrOf(w.status.active.conn) in w.servers && LogsIn(w.servers, w.temp.value.source.value)
    && HasRoom(w.servers[AddrOf(w.status.active.conn)].sequences, 2)
    && (AddrOf(w.status.newDb.conn) in w.servers ==> HasRoom(w.servers[AddrOf(w.status.newDb.conn)].sequences, 1))
  }

  /** The user of the new database can log in with the password that was saved for it. */
  predicate TargetLogsIn(w: World) {
    && w.temp.Some? && Usable(Target(w.status, w.temp.value.password))
    && LogsIn(w.servers, Target(w.status, w.temp.value.password))
  }

  /** The two databases are different servers, the login of the new one was saved, and the administrator is not locked out. */
  predicate CanGoOn(c: Config, w: World) {
    Apart(w.status) && TargetLogsIn(w) && !LockedOut(c, w)
  }

  lemma LockedOutIsBlocked(c: Config, w: World)
    requires Running(w.status.migration) && LockedOut(c, w)
    ensures !Resumable(c, w, ModeWhileRunning(w.status), w.status)
  {
    assert RecoverSource(w, w.status.migration) == w.app;
  }

  lemma CannotGoOnIsBlocked(c: Config, w: World)
    requires Running(w.status.migration) && !CanGoOn(c, w)
    ensures Blocked(c, Sys(w, Idle))
  {
    if LockedOut(c, w) {
      LockedOutIsBlocked(c, w);
    }
  }

  lemma PersistsSwitch(c: Config, s: Sys, m: Sys) returns (s': Sys)
    requires Reaches(c, s, m) && IsUncheckedSwitch(m)
    ensures Reaches(c, s, s') && s'.w == m.w.(status := Handover(m.w.status))
  {
    s' := Sys(m.w.(status := m.ses.mem), m.ses.(pc := Handed));
    Then(c, s, m, Control(Persist), s');
  }

  lemma GoesOnAhead(c: Config, w: World) returns (s': Sys)
    requires Lawful(c) && Good(c, Sys(w, Idle)) && Supported(w) && IsAhead(w) && !LockedOut(c, w)
    ensures Reaches(c, Sys(w, Idle), s') && s'.w.status == Handover(w.status) && s'.w.finalizer
  {
    Here(c, Sys(w, Idle));
    AheadIsRerunnable(c, Sys(w, Idle));
    RoomIsEnough(w.servers[AddrOf(w.status.newDb.conn)].sequences, 1);
    var m := StrandedSkipsCheck(c, Sys(w, Idle), w);
    s' := PersistsSwitch(c, Sys(w, Idle), m);
  }

  lemma GoesOn(c: Config, w: World) returns (s': Sys)
    requires Lawful(c) && Good(c, Sys(w, Idle)) && !IsAhead(w) && !LockedOut(c, w)
    ensures Reaches(c, Sys(w, Idle), s') && s'.w.status == Handover(w.status) && s'.w.finalizer
  {
    Here(c, Sys(w, Idle));
    var m := Reopened(c, Sys(w, Idle), w);
    ResumedHasState(c, m);
    s' := RunsToTheEnd(c, Sys(w, Idle), m, Resumed(w.status.migration).value);
  }

  /** What is known of an idle claim whose migration is running in a clean run. */
  predicate Resting(c: Config, w: World) {
    && Inv(c, Sys(w, Idle)) && DataInv(c, Sys(w, Idle)) && SchemaInv(Sys(w, Idle))
    && Running(w.status.migration) && Supported(w)
  }

  lemma ReachesHandover(c: Config, w: World) returns (s': Sys)
    requires Lawful(c) && Resting(c, w) && CanGoOn(c, w)
    ensures Reaches(c, Sys(w, Idle), s') && s'.w.status == Handover(w.status) && s'.w.finalizer
  {
    if IsAhead(w) {
      s' := GoesOnAhead(c, w);
    } else {
      s' := GoesOn(c, w);
    }
  }

  ghost predicate CanBeHandedOver(c: Config, w: World) {
    exists s' :: Reaches(c, Sys(w, Idle), s') && s'.w.status == Handover(w.status)
  }

  /**
   From an idle state the handover can be reached exactly if the two servers differ, the login of the target was
   saved, and it is not an upgrade whose secret holds the target at one of the two stages around the rerouting.
   */
  lemma HandoverReachableIff(c: Config, w: World)
    requires Lawful(c) && Resting(c, w)
    ensures CanBeHandedOver(c, w) <==> CanGoOn(c, w)
  {
    if CanGoOn(c, w) {
      var s' := ReachesHandover(c, w);
    } else {
      CannotGoOnIsBlocked(c, w);
      forall s' | Reaches(c, Sys(w, Idle), s') ensures s'.w.status != Handover(w.status) {
        BlockedStays(c, Sys(w, Idle), s');
      }
    }
  }

  lemma RunRests(c: Config, r: Trace, k: nat)
    requires IsMigrationRun(c, r) && k < |r.states| && CleanUpTo(r, k) && r.states[k].ses == Idle
    requires Running(r.states[k].w.status.migration) && Supported(r.states[k].w)
    ensures Lawful(c) && Resting(c, r.states[k].w)
  {
    RunData(c, r, k);
    RunSchema(c, r, k);
  }

  /** The same for every idle state of every clean run. */
  lemma RunHandoverReachableIff(c: Config, r: Trace, k: nat)
    requires IsMigrationRun(c, r) && k < |r.states| && CleanUpTo(r, k) && r.states[k].ses == Idle
    requires Running(r.states[k].w.status.migration) && Supported(r.states[k].w)
    ensures CanBeHandedOver(c, r.states[k].w) <==> CanGoOn(c, r.states[k].w)
  {
    RunRests(c, r, k);
    HandoverReachableIff(c, r.states[k].w);
  }
}
