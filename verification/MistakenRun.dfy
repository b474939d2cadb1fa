/**
 Where an interrupted rerouting can lead: to the handover, with the target compared only with itself.
 */
module MistakenRun {
  import opened Options
  import opened Stages
  import opened Claim
  import opened Protocol
  import opened ClaimInvariants
  import opened DataInvariants
  import opened RerouteWindow
  import opened Reachability
  import opened Resets

  /** A running migration between two reachable servers, whose secret already holds the target. */
  ghost predicate Rerunnable(c: Config, w: World) {
    var st := w.status;
    && Lawful(c) && StatusInv(c, st) && Running(st.migration) && Apart(st) && w.finalizer
    && HoldsTarget(w) && Usable(w.app.value) && LogsIn(w.servers, w.app.value) && MasterFits(c, st)
    && (st.active.state == UsingExistingDB ==> AddrOf(KnownSource(c, st).value) in w.servers)
  }

  /** The administrator of the source can log in even though the target is taken for the source. */
  predicate MasterFits(c: Config, st: Status) {
    st.active.state == UsingExistingDB || c.master(AddrOf(st.newDb.conn)) == c.master(AddrOf(st.active.conn))
  }

  /** The session that takes the target for its source, at some point of its work. */
  function MistakenSession(w: World, pc: Pc): Session
    requires w.app.Some?
  {
    Busy(ModeWhileRunning(w.status), w.status, pc, w.app.value, w.app.value)
  }

  lemma OpensMistaken(c: Config, w: World)
    requires Rerunnable(c, w)
    ensures Next(c, Sys(w, Idle), Control(Open))
            == Some(Sys(w, Busy(ModeWhileRunning(w.status), w.status, Begin, NO_CONN, NO_CONN)))
  {
    RunningFixesMode(c, w.status);
  }

  lemma ResumesMistaken(c: Config, w: World, n: Stage)
    requires Rerunnable(c, w) && w.status.migration == At(n) && RecoverSource(w, At(n)) == w.app && n != MigrationInProgress
    ensures Next(c, Sys(w, Busy(ModeWhileRunning(w.status), w.status, Dispatch, NO_CONN, NO_CONN)), Migrate(Resume))
            == Some(Sys(w, MistakenSession(w, Run(n))))
  {
  }

  lemma Reopens(c: Config, s: Sys, w: World, n: Stage)
    requires Rerunnable(c, w) && w.status.migration == At(n) && RecoverSource(w, At(n)) == w.app
    requires n != MigrationInProgress && Reaches(c, s, Sys(w, Idle))
    ensures Reaches(c, s, Sys(w, MistakenSession(w, Run(n))))
  {
    var b := Busy(ModeWhileRunning(w.status), w.status, Begin, NO_CONN, NO_CONN);
    OpensMistaken(c, w);
    Then(c, s, Sys(w, Idle), Control(Open), Sys(w, b));
    Then(c, s, Sys(w, b), Control(Persist), Sys(w, b.(pc := Dispatch)));
    ResumesMistaken(c, w, n);
    Then(c, s, Sys(w, b.(pc := Dispatch)), Migrate(Resume), Sys(w, MistakenSession(w, Run(n))));
  }

  /** The next stage is taken into the status and persisted. */
  lemma Moves(c: Config, s: Sys, m: Sys, n: Stage)
    requires Lawful(c) && Reaches(c, s, m) && m.ses.Busy? && Migrates(m.ses.mode) && c.plan(m.ses.mem.active).Some?
    requires m.ses.pc == Got(n) && n !in {Initial, Completed, Retry, RerouteTargetSecret, MigrationInProgress}
    ensures var st := m.ses.mem.(migration := At(n));
            Reaches(c, s, Sys(m.w.(status := st), m.ses.(mem := st, pc := AfterPersist(Moved(n)))))
  {
    var m1 := m.(ses := m.ses.(mem := m.ses.mem.(migration := At(n)), pc := Moved(n)));
    Then(c, s, m, Migrate(Take), m1);
    Then(c, s, m1, Control(Persist), Sys(m1.w.(status := m1.ses.mem), m1.ses.(pc := AfterPersist(Moved(n)))));
  }

  lemma Passes(c: Config, s: Sys, m: Sys, n: Stage)
    requires Reaches(c, s, m) && m.ses.Busy? && Migrates(m.ses.mode) && c.plan(m.ses.mem.active).Some?
    requires m.ses.pc == Run(n) && HasNoEffect(n)
    ensures Reaches(c, s, m.(ses := m.ses.(pc := Got(Successor(n)))))
  {
    Then(c, s, m, Migrate(Exec(Pass)), m.(ses := m.ses.(pc := Got(Successor(n)))));
  }

  /** The status of the world moved to another stage. */
  function Restaged(w: World, n: Stage): World {
    w.(status := w.status.(migration := At(n)))
  }

  lemma RestagedIsRerunnable(c: Config, w: World, n: Stage)
    requires Rerunnable(c, w) && n !in {Initial, Completed, Retry}
    ensures Rerunnable(c, Restaged(w, n)) && ModeWhileRunning(Restaged(w, n).status) == ModeWhileRunning(w.status)
  {
    StageMoveKeepsStatus(c, w.status, n);
  }

  lemma SavesAgain(c: Config, s: Sys, m: Sys)
    requires Reaches(c, s, m) && m.ses.Busy? && Migrates(m.ses.mode) && c.plan(m.ses.mem.active).Some?
    requires m.ses.pc == Got(RerouteTargetSecret) && m.w.temp.Some?
    ensures Reaches(c, s, Sys(m.w.(temp := Some(m.w.temp.value.(source := Some(m.ses.src))), app := Some(m.ses.tgt)),
                              m.ses.(pc := Rerouted)))
  {
    var m1 := Sys(m.w.(temp := Some(m.w.temp.value.(source := Some(m.ses.src)))), m.ses.(pc := TempSaved));
    Then(c, s, m, Migrate(SaveTemp), m1);
    Then(c, s, m1, Migrate(Reroute), Sys(m1.w.(app := Some(m.ses.tgt)), m.ses.(pc := Rerouted)));
  }

  lemma MovesToReroute(c: Config, s: Sys, m: Sys)
    requires Reaches(c, s, m) && m.ses.Busy? && Migrates(m.ses.mode) && c.plan(m.ses.mem.active).Some?
    requires m.ses.pc == Rerouted
    ensures var st := m.ses.mem.(migration := At(RerouteTargetSecret));
            Reaches(c, s, Sys(m.w.(status := st), m.ses.(mem := st, pc := Run(RerouteTargetSecret))))
  {
    var m1 := m.(ses := m.ses.(mem := m.ses.mem.(migration := At(RerouteTargetSecret)), pc := Moved(RerouteTargetSecret)));
    Then(c, s, m, Migrate(TakeReroute), m1);
    Then(c, s, m1, Control(Persist), Sys(m1.w.(status := m1.ses.mem), m1.ses.(pc := Run(RerouteTargetSecret))));
  }

  /** The sequences of the target are reset from its own values. */
  lemma ResetsAgain(c: Config, s: Sys, w: World) returns (w': World)
    requires Rerunnable(c, w) && CanReset(w.servers[AddrOf(w.app.value)].sequences)
    requires Reaches(c, s, Sys(w, MistakenSession(w, Run(ResetTargetSequence))))
    ensures Rerunnable(c, w') && w' == w.(servers := w'.servers) && Rows(w'.servers) == Rows(w.servers)
    ensures Reaches(c, s, Sys(w', MistakenSession(w', Got(RerouteTargetSecret))))
  {
    var m := ResetsAll(c, s, Sys(w, MistakenSession(w, Run(ResetTargetSequence))));
    w' := m.w;
    ServerDoesNotMatter(c, w, AddrOf(w.app.value), w'.servers[AddrOf(w.app.value)]);
  }

  lemma ReroutesAgain(c: Config, s: Sys, w: World)
    requires Rerunnable(c, w) && w.status.migration == At(ResetTargetSequence)
    requires Reaches(c, s, Sys(w, MistakenSession(w, Got(RerouteTargetSecret))))
    ensures var w' := Restaged(w.(temp := Some(w.temp.value.(source := w.app))), RerouteTargetSecret);
            Rerunnable(c, w') && Reaches(c, s, Sys(w', MistakenSession(w', Run(RerouteTargetSecret))))
  {
    var ses := MistakenSession(w, Got(RerouteTargetSecret));
    SavesAgain(c, s, Sys(w, ses));
    var w1 := w.(temp := Some(w.temp.value.(source := w.app)));
    MovesToReroute(c, s, Sys(w1, ses.(pc := Rerouted)));
    RestagedIsRerunnable(c, w1, RerouteTargetSecret);
  }

  lemma MovesMistaken(c: Config, s: Sys, w: World, n: Stage)
    requires Rerunnable(c, w) && Reaches(c, s, Sys(w, MistakenSession(w, Got(n))))
    requires n !in {Initial, Completed, Retry, RerouteTargetSecret, MigrationInProgress}
    ensures var w' := Restaged(w, n);
            Rerunnable(c, w') && Reaches(c, s, Sys(w', MistakenSession(w', AfterPersist(Moved(n)))))
  {
    Moves(c, s, Sys(w, MistakenSession(w, Got(n))), n);
    RestagedIsRerunnable(c, w, n);
  }

  lemma PassesMistaken(c: Config, s: Sys, w: World, n: Stage)
    requires Rerunnable(c, w) && Reaches(c, s, Sys(w, MistakenSession(w, Run(n)))) && HasNoEffect(n)
    ensures Reaches(c, s, Sys(w, MistakenSession(w, Got(Successor(n)))))
  {
    Passes(c, s, Sys(w, MistakenSession(w, Run(n))), n);
  }

  lemma WaitsAgain(c: Config, s: Sys, w: World)
    requires Rerunnable(c, w) && w.status.migration == At(RerouteTargetSecret) && w.temp.value.source == w.app
    requires Reaches(c, s, Sys(w, MistakenSession(w, Run(RerouteTargetSecret))))
    ensures var w' := Restaged(w, WaitToDisableSource);
            Rerunnable(c, w') && Reaches(c, s, Sys(w', MistakenSession(w', Run(WaitToDisableSource))))
  {
    PassesMistaken(c, s, w, RerouteTargetSecret);
    MovesMistaken(c, s, w, WaitToDisableSource);
    var w' := Restaged(w, WaitToDisableSource);
    Then(c, s, Sys(w', MistakenSession(w', Over)), Control(Return), Sys(w', Idle));
    Reopens(c, s, w', WaitToDisableSource);
  }

  lemma DisablesAgain(c: Config, s: Sys, w: World)
    requires Rerunnable(c, w) && w.status.migration == At(WaitToDisableSource)
    requires Reaches(c, s, Sys(w, MistakenSession(w, Run(WaitToDisableSource))))
    ensures var w' := Restaged(w, DisableSourceAccess);
            Rerunnable(c, w') && Reaches(c, s, Sys(w', MistakenSession(w', Run(DisableSourceAccess))))
  {
    PassesMistaken(c, s, w, WaitToDisableSource);
    MovesMistaken(c, s, w, DisableSourceAccess);
  }

  /** A server that is there is changed, but not its rows. */
  lemma ServerDoesNotMatter(c: Config, w: World, a: Addr, server: Server)
    requires Rerunnable(c, w) && a in w.servers && server.rows == w.servers[a].rows && server.logins == w.servers[a].logins
    ensures var w' := w.(servers := w.servers[a := server]);
            Rerunnable(c, w') && Rows(w'.servers) == Rows(w.servers)
  {
  }

  /** The stages that write to a server while the target is taken for the source. */
  function WriteOf(n: Stage): Effect {
    match n
    case DisableSourceAccess => RevokeWrites
    case DisableSubscription => DisableSub
    case DeleteSubscription => DropSub
    case _ => DropPub
  }

  predicate Writes(n: Stage) {
    n == DisableSourceAccess || n == DisableSubscription || n == DeleteSubscription || n == DeletePublication
  }

  lemma MistakenWrite(c: Config, w: World, n: Stage)
    requires Rerunnable(c, w) && Writes(n)
    ensures var ses := MistakenSession(w, Run(n));
            && c.plan(ses.mem.active).Some? && Perform(c, w.servers, ses, WriteOf(n)).Some?
            && Perform(c, w.servers, ses, WriteOf(n)).value.Write?
            && Perform(c, w.servers, ses, WriteOf(n)).value.pc == Got(Successor(n))
  {
  }

  lemma WritesMistaken(c: Config, s: Sys, w: World, n: Stage) returns (w': World)
    requires Rerunnable(c, w) && Writes(n) && Reaches(c, s, Sys(w, MistakenSession(w, Run(n))))
    ensures Rerunnable(c, w') && w' == w.(servers := w'.servers) && Rows(w'.servers) == Rows(w.servers)
    ensures Reaches(c, s, Sys(w', MistakenSession(w', Got(Successor(n)))))
  {
    var ses := MistakenSession(w, Run(n));
    MistakenWrite(c, w, n);
    PerformKeepsRows(c, w.servers, ses, WriteOf(n));
    var d := Perform(c, w.servers, ses, WriteOf(n)).value;
    w' := w.(servers := w.servers[d.at := d.server]);
    ServerDoesNotMatter(c, w, d.at, d.server);
    ExecutesEffect(c, s, w, ses, WriteOf(n), d);
  }

  lemma ExecutesEffect(c: Config, s: Sys, w: World, ses: Session, x: Effect, d: Deed)
    requires AtStages(c, ses) && Reaches(c, s, Sys(w, ses)) && Perform(c, w.servers, ses, x) == Some(d)
    ensures Reaches(c, s, Apply(Sys(w, ses), d))
  {
    Then(c, s, Sys(w, ses), Migrate(Exec(x)), Apply(Sys(w, ses), d));
  }

  /** A writing stage is executed, and the next one is persisted. */
  lemma WritesAndMoves(c: Config, s: Sys, w: World, n: Stage, next: Stage) returns (w': World)
    requires Rerunnable(c, w) && Writes(n) && next == Successor(n)
    requires next == ValidateMigrationStatus || next == DeleteSubscription || next == DeletePublication
    requires Reaches(c, s, Sys(w, MistakenSession(w, Run(n))))
    ensures Rerunnable(c, w') && w' == Restaged(w, next).(servers := w'.servers)
    ensures Rows(w'.servers) == Rows(w.servers)
    ensures Reaches(c, s, Sys(w', MistakenSession(w', Run(next))))
  {
    var w1 := WritesMistaken(c, s, w, n);
    MovesMistakenOn(c, s, w1, next);
    w' := Restaged(w1, next);
  }

  lemma MovesMistakenOn(c: Config, s: Sys, w: World, n: Stage)
    requires Rerunnable(c, w) && Reaches(c, s, Sys(w, MistakenSession(w, Got(n))))
    requires n == ValidateMigrationStatus || n == DeleteSubscription || n == DeletePublication
    ensures var w' := Restaged(w, n); Rerunnable(c, w') && Reaches(c, s, Sys(w', MistakenSession(w', Run(n))))
  {
    MovesMistaken(c, s, w, n);
  }

  lemma ComparesWithItself(c: Config, s: Sys, w: World)
    requires Rerunnable(c, w) && w.status.migration == At(ValidateMigrationStatus)
    requires Reaches(c, s, Sys(w, MistakenSession(w, Run(ValidateMigrationStatus))))
    ensures Reaches(c, s, Sys(w, MistakenSession(w, Got(DisableSubscription))))
  {
    var ses := MistakenSession(w, Run(ValidateMigrationStatus));
    Then(c, s, Sys(w, ses), Migrate(Exec(Compare)), Sys(w, ses.(pc := Got(DisableSubscription))));
  }

  /** From the wait on, nothing holds the migration up any more. */
  lemma CutsOverUnchecked(c: Config, s: Sys, w: World) returns (w': World)
    requires Rerunnable(c, w) && w.status.migration == At(WaitToDisableSource)
    requires Reaches(c, s, Sys(w, MistakenSession(w, Run(WaitToDisableSource))))
    ensures Rerunnable(c, w') && w' == Restaged(w, DeletePublication).(servers := w'.servers)
    ensures Rows(w'.servers) == Rows(w.servers)
    ensures Reaches(c, s, Sys(w', MistakenSession(w', Got(Completed))))
  {
    var w1 := PassesCheck(c, s, w);
    var w2 := StopsReplication(c, s, w1);
    w' := WritesMistaken(c, s, w2, DeletePublication);
  }

  lemma StopsReplication(c: Config, s: Sys, w: World) returns (w': World)
    requires Rerunnable(c, w) && w.status.migration == At(DisableSubscription)
    requires Reaches(c, s, Sys(w, MistakenSession(w, Run(DisableSubscription))))
    ensures Rerunnable(c, w') && w' == Restaged(w, DeletePublication).(servers := w'.servers)
    ensures Rows(w'.servers) == Rows(w.servers)
    ensures Reaches(c, s, Sys(w', MistakenSession(w', Run(DeletePublication))))
  {
    var w1 := WritesAndMoves(c, s, w, DisableSubscription, DeleteSubscription);
    w' := WritesAndMoves(c, s, w1, DeleteSubscription, DeletePublication);
  }

  lemma PassesCheck(c: Config, s: Sys, w: World) returns (w': World)
    requires Rerunnable(c, w) && w.status.migration == At(WaitToDisableSource)
    requires Reaches(c, s, Sys(w, MistakenSession(w, Run(WaitToDisableSource))))
    ensures Rerunnable(c, w') && w' == Restaged(w, DisableSubscription).(servers := w'.servers)
    ensures Rows(w'.servers) == Rows(w.servers)
    ensures Reaches(c, s, Sys(w', MistakenSession(w', Run(DisableSubscription))))
  {
    DisablesAgain(c, s, w);
    var w1 := WritesAndMoves(c, s, Restaged(w, DisableSourceAccess), DisableSourceAccess, ValidateMigrationStatus);
    ComparesWithItself(c, s, w1);
    MovesMistaken(c, s, w1, DisableSubscription);
    w' := Restaged(w1, DisableSubscription);
  }

  /** The switch is made in memory by a session that has taken the target for the source all along. */
  predicate IsUncheckedSwitch(s: Sys) {
    && s.ses.Busy? && Migrates(s.ses.mode) && s.ses.pc == Switched && s.ses.mem == Handover(s.w.status)
    && s.w.status.migration == At(DeletePublication) && Apart(s.w.status) && TempIsTarget(s.w)
  }

  /**
   From every world whose application secret is ahead of the persisted stage, with an administrator that can still
   log in to what is taken for the source, the migration can go on to the switch although the target was only compared
   with itself: no row of any database has to change.
   */
  lemma StrandedSkipsCheck(c: Config, s: Sys, w: World) returns (s': Sys)
    requires Rerunnable(c, w) && IsAhead(w) && CanReset(w.servers[AddrOf(w.app.value)].sequences)
    requires Reaches(c, s, Sys(w, Idle))
    ensures Reaches(c, s, s') && IsUncheckedSwitch(s') && Rows(s'.w.servers) == Rows(w.servers)
    ensures s'.w.status == w.status.(migration := At(DeletePublication)) && s'.w.finalizer
  {
    Reopens(c, s, w, ResetTargetSequence);
    var w0 := ResetsAgain(c, s, w);
    ReroutesAgain(c, s, w0);
    var w1 := Restaged(w0.(temp := Some(w.temp.value.(source := w.app))), RerouteTargetSecret);
    WaitsAgain(c, s, w1);
    var w2 := CutsOverUnchecked(c, s, Restaged(w1, WaitToDisableSource));
    s' := SwitchesUnchecked(c, s, w2);
  }

  lemma SwitchesUnchecked(c: Config, s: Sys, w: World) returns (s': Sys)
    requires Rerunnable(c, w) && w.status.migration == At(DeletePublication) && TempIsTarget(w)
    requires Reaches(c, s, Sys(w, MistakenSession(w, Got(Completed))))
    ensures Reaches(c, s, s') && IsUncheckedSwitch(s') && s'.w == w
  {
    var ses := MistakenSession(w, Got(Completed));
    s' := Sys(w, ses.(mem := Handover(w.status), pc := Switched));
    Then(c, s, Sys(w, ses), Migrate(SwitchActive), s');
  }

  /** From every session that is cut off right after the application secret was rerouted the switch can be reached unchecked. */
  lemma InterruptedRerouteSkipsCheck(c: Config, s: Sys) returns (s': Sys)
    requires s.ses.Busy? && s.ses.pc == Rerouted && Rerunnable(c, s.w) && IsAhead(s.w)
    requires CanReset(s.w.servers[AddrOf(s.w.app.value)].sequences)
    ensures Reaches(c, s, s') && IsUncheckedSwitch(s') && Rows(s'.w.servers) == Rows(s.w.servers)
    ensures s'.w.status == s.w.status.(migration := At(DeletePublication)) && s'.w.finalizer
  {
    Here(c, s);
    Then(c, s, s, Control(Abort), Sys(s.w, Idle));
    s' := StrandedSkipsCheck(c, s, s.w);
  }
}
