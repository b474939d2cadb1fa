/**
 A claim at rest that asks for another database can be migrated to it: provisioning, the start of
 the migration and its completion can all be reached.
 */
module FromRest {
  import opened Options
  import opened Stages
  import opened Claim
  import opened Protocol
  import opened ClaimInvariants
  import opened DataInvariants
  import opened MigrationSafety
  import opened CutOver
  import opened Reachability
  import opened MistakenRun
  import opened Resets
  import opened Stuck
  import opened Completion

  /** A claim at rest whose active database is to be replaced by one on another server. */
  ghost predicate Asks(c: Config, w: World) {
    var st := w.status;
    && Lawful(c) && Quiescent(c, st) && SourceKnown(c, w)
    && Pending(c, st.active) && SourceUsable(c, st) && c.plan(st.active).Some?
    && w.finalizer && !w.deleting && c.database != ""
    && PlannedAddr(c, st.active) != AddrOf(st.active.conn)
    && (st.active.state == UsingExistingDB ==> KnownSource(c, st).value.database == st.active.conn.database)
    && w.app.Some? && AddrOf(w.app.value) == AddrOf(st.active.conn) && LogsIn(w.servers, w.app.value)
    && HasRoom(w.servers[AddrOf(st.active.conn)].sequences, 2)
    && (PlannedAddr(c, st.active) in w.servers ==> HasRoom(w.servers[PlannedAddr(c, st.active)].sequences, 1))
  }

  /** The user that a new database gets. */
  function FirstUser(c: Config): string {
    c.user + "_a"
  }

  /** The mode in which the new database is provisioned, and the status with which that starts. */
  function StartMode(st: Status): Mode {
    if st.active.state == UsingExistingDB then MigrateExistingToNewDB else InitiateDBUpgrade
  }

  function StartStatus(st: Status): Status {
    if st.active.state == UsingExistingDB then st
    else st.(newDb := st.newDb.(state := InProgress), migration := Unset)
  }

  function Provisioner(st: Status, mem: Status, pc: Pc): Session {
    Busy(StartMode(st), mem, pc, NO_CONN, NO_CONN)
  }

  lemma AsksForMode(c: Config, w: World)
    requires Asks(c, w)
    ensures GetMode(c, w.status) == (StartMode(w.status), StartStatus(w.status)) && StartStatus(w.status).migration == Unset
  {
  }

  /** The status when the migration is announced. */
  function Announced(st: Status): Status {
    StartStatus(st).(migration := At(Initial))
  }

  lemma Announces(c: Config, s: Sys, w: World)
    requires Asks(c, w) && s == Sys(w, Idle)
    ensures Reaches(c, s, Sys(w.(status := Announced(w.status)), Provisioner(w.status, Announced(w.status), Dispatch)))
  {
    var st, mem := w.status, StartStatus(w.status);
    AsksForMode(c, w);
    Here(c, s);
    Then(c, s, s, Control(Open), Sys(w, Provisioner(st, mem, Begin)));
    var w1 := w.(status := mem);
    Then(c, s, Sys(w, Provisioner(st, mem, Begin)), Control(Persist), Sys(w1, Provisioner(st, mem, Dispatch)));
    var mem1 := Announced(st);
    Then(c, s, Sys(w1, Provisioner(st, mem, Dispatch)), Provision(MarkInitial), Sys(w1, Provisioner(st, mem1, Moved(Initial))));
    Then(c, s, Sys(w1, Provisioner(st, mem1, Moved(Initial))), Control(Persist),
         Sys(w1.(status := mem1), Provisioner(st, mem1, Dispatch)));
  }

  /** The planned server as it is found, or as it is created. */
  function PlannedServer(c: Config, w: World): Server
    requires c.plan(w.status.active).Some?
  {
    var a := PlannedAddr(c, w.status.active);
    if a in w.servers then w.servers[a] else FRESH_SERVER
  }

  /** The world with the planned server created and given the role of the application. */
  function Hosted(c: Config, w: World): World
    requires c.plan(w.status.active).Some?
  {
    var p, a, server := c.plan(w.status.active).value, PlannedAddr(c, w.status.active), PlannedServer(c, w);
    w.(servers := w.servers[a := server.(writers := server.writers + {c.user})],
       instances := w.instances + c.instances(p.engine, p.shape, p.version),
       groups := w.groups + c.groups(p.engine, p.shape, p.version))
  }

  /** The world in which a user of the planned server has a password. */
  function LoggedIn(c: Config, w: World, user: string, password: string): World
    requires c.plan(w.status.active).Some? && PlannedAddr(c, w.status.active) in w.servers
  {
    var a := PlannedAddr(c, w.status.active);
    w.(servers := w.servers[a := w.servers[a].(logins := w.servers[a].logins[user := password])])
  }

  /** The status with the new database recorded. */
  function Recorded(c: Config, st: Status, user: string): Status
    requires c.plan(st.active).Some?
  {
    var db := RecordPlan(st.newDb, c.plan(st.active).value, PlannedAddr(c, st.active), "require");
    st.(newDb := db.(conn := db.conn.(user := user, database := if db.conn.database == "" then c.database else db.conn.database)))
  }

  /** The status with the planned host recorded. */
  function HostOnly(c: Config, st: Status): Status
    requires c.plan(st.active).Some?
  {
    st.(newDb := RecordPlan(st.newDb, c.plan(st.active).value, PlannedAddr(c, st.active), "require"))
  }

  /** The planned server is created, recorded, and has the role of the application. */
  lemma GetsHost(c: Config, s: Sys, w: World, mode: Mode)
    requires c.plan(w.status.active).Some? && w.status.migration == At(Initial) && Provisions(mode) && mode != UseNewDB
    requires Reaches(c, s, Sys(w, Busy(mode, w.status, Dispatch, NO_CONN, NO_CONN)))
    ensures Reaches(c, s, Sys(Hosted(c, w), Busy(mode, HostOnly(c, w.status), HostRecorded, NO_CONN, NO_CONN)))
  {
    var b, p, a := Busy(mode, w.status, Dispatch, NO_CONN, NO_CONN), c.plan(w.status.active).value, PlannedAddr(c, w.status.active);
    var w1 := w.(servers := if a in w.servers then w.servers else w.servers[a := FRESH_SERVER],
                 instances := w.instances + c.instances(p.engine, p.shape, p.version),
                 groups := w.groups + c.groups(p.engine, p.shape, p.version));
    Then(c, s, Sys(w, b), Provision(CreateHost), Sys(w1, b));
    var recorded := b.(mem := HostOnly(c, w.status), pc := HostRecorded);
    Then(c, s, Sys(w1, b), Provision(RecordHost("require")), Sys(w1, recorded));
    assert w1.servers[a := w1.servers[a].(writers := w1.servers[a].writers + {c.user})] == Hosted(c, w).servers;
    Then(c, s, Sys(w1, recorded), Provision(GrantWrites), Sys(Hosted(c, w), recorded));
  }

  /** The user of the new database is recorded, with or without a new password. */
  lemma GetsUser(c: Config, s: Sys, w: World, mode: Mode, st: Status, user: string)
    requires c.plan(st.active).Some? && Provisions(mode) && IsAppUser(c, user)
    requires Reaches(c, s, Sys(w, Busy(mode, HostOnly(c, st), HostRecorded, NO_CONN, NO_CONN)))
    ensures Reaches(c, s, Sys(w, Busy(mode, Recorded(c, st, user), HostReady, NO_CONN, NO_CONN)))
  {
    var b := Busy(mode, HostOnly(c, st), HostRecorded, NO_CONN, NO_CONN);
    Then(c, s, Sys(w, b), Provision(RecordUser(user)), Sys(w, b.(mem := Recorded(c, st, user), pc := HostReady)));
  }

  lemma GetsLogin(c: Config, s: Sys, w: World, mode: Mode, st: Status, user: string, password: string)
    requires c.plan(st.active).Some? && Provisions(mode) && w.status.active == st.active && IsAppUser(c, user)
    requires PlannedAddr(c, w.status.active) in w.servers
    requires Reaches(c, s, Sys(w, Busy(mode, HostOnly(c, st), HostRecorded, NO_CONN, NO_CONN)))
    ensures Reaches(c, s, Sys(LoggedIn(c, w, user, password), Busy(mode, HostOnly(c, st), HostRecorded, NO_CONN, NO_CONN)))
  {
    var b := Busy(mode, HostOnly(c, st), HostRecorded, NO_CONN, NO_CONN);
    Then(c, s, Sys(w, b), Provision(SetLogin(user, password)), Sys(LoggedIn(c, w, user, password), b));
  }

  lemma Provisioned(c: Config, s: Sys, w: World, mode: Mode, user: string, password: string)
    requires IsAppUser(c, user)
    requires c.plan(w.status.active).Some? && w.status.migration == At(Initial) && Provisions(mode) && mode != UseNewDB
    requires Reaches(c, s, Sys(w, Busy(mode, w.status, Dispatch, NO_CONN, NO_CONN)))
    ensures Reaches(c, s, Sys(LoggedIn(c, Hosted(c, w), user, password),
                              Busy(mode, Recorded(c, w.status, user), HostReady, NO_CONN, NO_CONN)))
  {
    GetsHost(c, s, w, mode);
    GetsLogin(c, s, Hosted(c, w), mode, w.status, user, password);
    GetsUser(c, s, LoggedIn(c, Hosted(c, w), user, password), mode, w.status, user);
  }

  lemma SecretsSaved(c: Config, s: Sys, w: World, mode: Mode, mem: Status, password: string)
    requires c.plan(mem.active).Some? && mem.migration == At(Initial) && Provisions(mode) && mode != UseNewDB && w.app.Some?
    requires Reaches(c, s, Sys(w, Busy(mode, mem, HostReady, NO_CONN, NO_CONN)))
    ensures Reaches(c, s, Sys(w.(temp := Some(Temp(w.app, password))), Busy(mode, mem, SourceSaved, NO_CONN, NO_CONN)))
  {
    var b := Busy(mode, mem, HostReady, NO_CONN, NO_CONN);
    var w1 := if w.temp.None? then w.(temp := Some(Temp(None, ""))) else w;
    if w.temp.None? {
      Then(c, s, Sys(w, b), Provision(CreateTemp), Sys(w1, b));
    }
    var w2 := w1.(temp := Some(w1.temp.value.(password := password)));
    Then(c, s, Sys(w1, b), Provision(SavePassword(password)), Sys(w2, b));
    Then(c, s, Sys(w2, b), Provision(SaveSource), Sys(w.(temp := Some(Temp(w.app, password))), b.(pc := SourceSaved)));
  }

  lemma Started(c: Config, s: Sys, w: World, mode: Mode, mem: Status)
    requires c.plan(mem.active).Some? && Provisions(mode) && mode != UseNewDB
    requires Reaches(c, s, Sys(w, Busy(mode, mem, SourceSaved, NO_CONN, NO_CONN)))
    ensures Reaches(c, s, Sys(w.(status := mem.(migration := At(MigrationInProgress))), Idle))
  {
    var b, mem1 := Busy(mode, mem, SourceSaved, NO_CONN, NO_CONN), mem.(migration := At(MigrationInProgress));
    var moved := b.(mem := mem1, pc := Moved(MigrationInProgress));
    Then(c, s, Sys(w, b), Provision(MarkInProgress), Sys(w, moved));
    Then(c, s, Sys(w, moved), Control(Persist), Sys(w.(status := mem1), moved.(pc := Over)));
    Then(c, s, Sys(w.(status := mem1), moved.(pc := Over)), Control(Return), Sys(w.(status := mem1), Idle));
  }

  /** The world in which the new database has been provisioned. */
  function ProvisionedWorld(c: Config, w: World): World
    requires c.plan(w.status.active).Some? && Announced(w.status).active == w.status.active
  {
    LoggedIn(c, Hosted(c, w.(status := Announced(w.status))), FirstUser(c), "password")
  }

  /** The world in which the migration has been started. */
  function StartedWorld(c: Config, w: World): World
    requires c.plan(w.status.active).Some? && Announced(w.status).active == w.status.active
  {
    ProvisionedWorld(c, w).(
      status := Recorded(c, Announced(w.status), FirstUser(c)).(migration := At(MigrationInProgress)),
      temp := Some(Temp(w.app, "password")))
  }

  /** From every claim at rest that asks for a database on another server the migration can be started. */
  lemma CanStart(c: Config, w: World)
    requires Asks(c, w)
    ensures Reaches(c, Sys(w, Idle), Sys(StartedWorld(c, w), Idle))
  {
    var s, mode := Sys(w, Idle), StartMode(w.status);
    var w1 := w.(status := Announced(w.status));
    Announces(c, s, w);
    Provisioned(c, s, w1, mode, FirstUser(c), "password");
    SecretsSaved(c, s, ProvisionedWorld(c, w), mode, Recorded(c, w1.status, FirstUser(c)), "password");
    Started(c, s, ProvisionedWorld(c, w).(temp := Some(Temp(w.app, "password"))), mode, Recorded(c, w1.status, FirstUser(c)));
  }

  lemma StartedStatus(c: Config, w: World)
    requires Asks(c, w)
    ensures StatusInv(c, StartedWorld(c, w).status) && Apart(StartedWorld(c, w).status)
    ensures StartedWorld(c, w).status.active == w.status.active
    ensures AddrOf(StartedWorld(c, w).status.newDb.conn) == PlannedAddr(c, w.status.active)
  {
  }

  lemma StartedIsGood(c: Config, w: World)
    requires Asks(c, w)
    ensures Good(c, Sys(StartedWorld(c, w), Idle))
  {
    StartedStatus(c, w);
    StartedData(c, w);
    StartedFit(c, w);
  }

  lemma StartedFit(c: Config, w: World)
    requires Asks(c, w)
    ensures Fit(StartedWorld(c, w)) && StartedWorld(c, w).status.migration == At(MigrationInProgress)
    ensures var src := AddrOf(w.status.active.conn); StartedWorld(c, w).servers[src] == w.servers[src]
  {
    StartedStatus(c, w);
    var tgt := Target(StartedWorld(c, w).status, "password");
    assert tgt.user == FirstUser(c) && tgt.password == "password" && AddrOf(tgt) == PlannedAddr(c, w.status.active);
    assert LogsIn(StartedWorld(c, w).servers, tgt);
  }

  lemma StartedData(c: Config, w: World)
    requires Asks(c, w)
    ensures DataInv(c, Sys(StartedWorld(c, w), Idle))
  {
    StartedStatus(c, w);
  }

  /** Every claim at rest that asks for a database on another server can be brought to be served by it. */
  lemma CanComplete(c: Config, w: World) returns (s: Sys)
    requires Asks(c, w)
    ensures Reaches(c, Sys(w, Idle), s) && s.w.status.migration == At(Completed)
    ensures s.w.status.active.state == Ready && AddrOf(s.w.status.active.conn) == PlannedAddr(c, w.status.active)
    ensures w.status.active.state == Ready ==> s.w.status.oldDb.conn == Some(w.status.active.conn)
  {
    CanStart(c, w);
    StartedIsGood(c, w);
    StartedStatus(c, w);
    s := GoesOn(c, StartedWorld(c, w));
    ReachesOn(c, Sys(w, Idle), Sys(StartedWorld(c, w), Idle), s);
  }

  // ---- a handover without a check

  /** A run with an unchecked switch is not clean: the temp secret does not hold the source any more. */
  lemma UncheckedIsUnclean(c: Config, r: Trace, k: nat)
    requires IsMigrationRun(c, r) && k < |r.states| && IsUncheckedSwitch(r.states[k])
    ensures !CleanUpTo(r, k)
  {
    if CleanUpTo(r, k) {
      RunData(c, r, k);
    }
  }

  /** Rows that a server does not have. */
  function MoreThan(rows: map<string, nat>): map<string, nat> {
    map["orders" := (if "orders" in rows then rows["orders"] else 0) + 1]
  }

  /** After the rerouting, someone still writes to the source, and the target does not receive it. */
  lemma WritesMore(c: Config, s: Sys, m: Sys, role: string) returns (m': Sys)
    requires Lawful(c) && Reaches(c, s, m) && Good(c, m) && m.ses.Busy? && m.ses.pc == Rerouted
    requires role in m.w.servers[AddrOf(m.w.status.active.conn)].writers
    ensures Reaches(c, s, m') && Good(c, m') && m'.ses == m.ses && m'.w.status == m.w.status
    ensures var src, tgt := AddrOf(m.w.status.active.conn), AddrOf(m.w.status.newDb.conn);
            !Covers(m'.w.servers[tgt].rows, m'.w.servers[src].rows)
  {
    var src, tgt := AddrOf(m.w.status.active.conn), AddrOf(m.w.status.newDb.conn);
    var rows := MoreThan(m.w.servers[tgt].rows);
    m' := WithRows(m, src, rows, m.w.servers[src].synced);
    Goes(c, s, m, Env(AppWrite(src, role, rows)), m');
    assert "orders" in rows;
  }

  lemma WriterStays(c: Config, w: World, m: Sys, role: string)
    requires Asks(c, w) && role in w.servers[AddrOf(w.status.active.conn)].writers
    requires Writers(m.w.servers) == Writers(StartedWorld(c, w).servers)
    ensures var src := AddrOf(w.status.active.conn); src in m.w.servers && role in m.w.servers[src].writers
  {
    StartedFit(c, w);
    var src := AddrOf(w.status.active.conn);
    assert src in Writers(m.w.servers) && Writers(m.w.servers)[src] == Writers(StartedWorld(c, w).servers)[src];
  }

  lemma ReroutesFromRest(c: Config, w: World) returns (m: Sys)
    requires Asks(c, w)
    ensures Reaches(c, Sys(w, Idle), m) && Good(c, m) && m.ses.Busy? && Migrates(m.ses.mode) && m.ses.pc == Rerouted
    ensures SameDatabases(StartedWorld(c, w).status, m.w.status)
    ensures Writers(m.w.servers) == Writers(StartedWorld(c, w).servers)
  {
    CanStart(c, w);
    StartedIsGood(c, w);
    StartedFit(c, w);
    StartedStatus(c, w);
    m := ReachesReroute(c, Sys(w, Idle), StartedWorld(c, w));
  }

  lemma ReachesUncheckedSwitch(c: Config, w: World, role: string) returns (s: Sys)
    requires Asks(c, w) && w.status.active.state == UsingExistingDB
    requires role in w.servers[AddrOf(w.status.active.conn)].writers
    ensures Reaches(c, Sys(w, Idle), s) && IsUncheckedSwitch(s)
    ensures Handover(s.w.status) == Handover(StartedWorld(c, w).status)
    ensures var src, tgt := AddrOf(w.status.active.conn), PlannedAddr(c, w.status.active);
            src in s.w.servers && tgt in s.w.servers && !Covers(s.w.servers[tgt].rows, s.w.servers[src].rows)
  {
    var m := ReroutesFromRest(c, w);
    StartedStatus(c, w);
    WriterStays(c, w, m, role);
    var m1 := WritesMore(c, Sys(w, Idle), m, role);
    s := EveryRerouteCanGoWrong(c, m1);
    ReachesOn(c, Sys(w, Idle), m1, s);
    RowsAt(m1.w.servers, s.w.servers, AddrOf(w.status.active.conn));
    RowsAt(m1.w.servers, s.w.servers, PlannedAddr(c, w.status.active));
  }

  lemma SwitchCompletes(c: Config, r: Trace) returns (r': Trace)
    requires IsRun(c, r) && IsUncheckedSwitch(Last(r))
    ensures IsRun(c, r') && r'.states[0] == r.states[0] && |r'.events| == |r.events| + 1
    ensures Completes(r', |r.events|) && r'.states[|r.events|] == Last(r)
    ensures Last(r').w == Last(r).w.(status := Handover(Last(r).w.status))
  {
    var m := Last(r);
    var s := Sys(m.w.(status := m.ses.mem), m.ses.(pc := Handed));
    RunGrows(c, r, Control(Persist), s);
    r' := Grown(r, Control(Persist), s);
  }

  lemma RowsAt(servers: map<Addr, Server>, servers': map<Addr, Server>, a: Addr)
    requires Rows(servers) == Rows(servers') && a in servers
    ensures a in servers' && servers'[a].rows == servers[a].rows
  {
    assert a in Rows(servers') && Rows(servers')[a] == Rows(servers)[a];
  }

  /**
   Every claim at rest that uses an existing database to which someone may write, and asks for one on another server,
   has a run in which the handover is persisted although the target lacks rows of the source: the run is not clean.
   */
  lemma HandoverCanLoseRows(c: Config, w: World, role: string) returns (r: Trace, k: nat)
    requires Asks(c, w) && w.status.active.state == UsingExistingDB
    requires role in w.servers[AddrOf(w.status.active.conn)].writers
    ensures IsMigrationRun(c, r) && r.states[0] == Sys(w, Idle) && |r.events| == k + 1
    ensures Completes(r, k) && CutsOver(r, k) && !CleanUpTo(r, k)
    ensures var w', src, tgt := r.states[k + 1].w, AddrOf(w.status.active.conn), PlannedAddr(c, w.status.active);
            && w'.status.active.state == Ready && AddrOf(w'.status.active.conn) == tgt
            && src in w'.servers && tgt in w'.servers
            && !Covers(w'.servers[tgt].rows, w'.servers[src].rows)
  {
    var s := ReachesUncheckedSwitch(c, w, role);
    var r0: Trace :| IsRun(c, r0) && r0.states[0] == Sys(w, Idle) && r0.states[|r0.events|] == s;
    r := SwitchCompletes(c, r0);
    k := |r0.events|;
    UncheckedIsUnclean(c, r, k);
    StartedStatus(c, w);
  }

  // ---- an upgrade that locks itself out

  lemma CutOffIsLockedOut(c: Config, m: Sys)
    requires Good(c, m) && m.ses.Busy? && Migrates(m.ses.mode) && !MasterFits(c, m.w.status)
    requires m.ses.pc == Rerouted || (m.ses.pc == Run(RerouteTargetSecret) && m.w.status.migration == At(RerouteTargetSecret))
    ensures Blocked(c, Sys(m.w, Idle)) && ReroutesAt(m.w.status.migration) && HoldsTarget(m.w)
    ensures Next(c, m, Control(Abort)) == Some(Sys(m.w, Idle))
  {
    if m.ses.pc == Rerouted {
      ReroutedIsAhead(c, m);
    }
    LockedOutIsBlocked(c, m.w);
  }

  /**
   Every claim at rest that asks for an upgrade, with another administrator on the new server, has runs that are cut off
   before or after the rerouting is persisted and can never be completed from there.
   */
  lemma UpgradeCanLockItselfOut(c: Config, w: World) returns (w1: World, w2: World)
    requires Asks(c, w) && w.status.active.state == Ready
    requires c.master(PlannedAddr(c, w.status.active)) != c.master(AddrOf(w.status.active.conn))
    ensures Reaches(c, Sys(w, Idle), Sys(w1, Idle)) && w1.status.migration == At(ResetTargetSequence)
    ensures Reaches(c, Sys(w, Idle), Sys(w2, Idle)) && w2.status.migration == At(RerouteTargetSecret)
    ensures Blocked(c, Sys(w1, Idle)) && Blocked(c, Sys(w2, Idle))
  {
    var m := ReroutesFromRest(c, w);
    StartedStatus(c, w);
    CutOffIsLockedOut(c, m);
    ReroutedIsAhead(c, m);
    w1 := m.w;
    Then(c, Sys(w, Idle), m, Control(Abort), Sys(w1, Idle));
    var m2 := PersistsReroute(c, Sys(w, Idle), m);
    CutOffIsLockedOut(c, m2);
    w2 := m2.w;
    Then(c, Sys(w, Idle), m2, Control(Abort), Sys(w2, Idle));
  }

  // ---- a password that is not saved

  /** The temp secret holds no password of an earlier target. */
  predicate NoPassword(w: World) {
    w.temp.Some? ==> w.temp.value.password == ""
  }

  /** The provisioning session fails after the user has been recorded. */
  lemma FailsAfterUser(c: Config, w: World)
    requires Asks(c, w)
    ensures var st := Recorded(c, Announced(w.status), FirstUser(c));
            Reaches(c, Sys(w, Idle), Sys(ProvisionedWorld(c, w).(status := st), Idle))
  {
    var s, mode, st := Sys(w, Idle), StartMode(w.status), Recorded(c, Announced(w.status), FirstUser(c));
    Announces(c, s, w);
    Provisioned(c, s, w.(status := Announced(w.status)), mode, FirstUser(c), "password");
    var b, w1 := Busy(mode, st, HostReady, NO_CONN, NO_CONN), ProvisionedWorld(c, w);
    Then(c, s, Sys(w1, b), Control(Persist), Sys(w1.(status := st), b));
    Then(c, s, Sys(w1.(status := st), b), Control(Abort), Sys(w1.(status := st), Idle));
  }

  lemma StillAsksForMode(c: Config, w: World)
    requires Asks(c, w)
    ensures var st := Recorded(c, Announced(w.status), FirstUser(c));
            GetMode(c, st) == (StartMode(w.status), st) && st.active == w.status.active && st.migration == At(Initial)
  {
  }

  /** The next session finds the user, generates no password, and starts the migration without one. */
  lemma StartsWithoutPassword(c: Config, w: World, w1: World)
    requires Asks(c, w) && NoPassword(w) && w1 == ProvisionedWorld(c, w).(status := Recorded(c, Announced(w.status), FirstUser(c)))
    requires Reaches(c, Sys(w, Idle), Sys(w1, Idle))
    ensures var w2 := Hosted(c, w1).(temp := Some(Temp(w.app, "")),
                                     status := Recorded(c, w1.status, FirstUser(c)).(migration := At(MigrationInProgress)));
            Reaches(c, Sys(w, Idle), Sys(w2, Idle))
  {
    var s, mode, st := Sys(w, Idle), StartMode(w.status), w1.status;
    StillAsksForMode(c, w);
    var b := Busy(mode, st, Begin, NO_CONN, NO_CONN);
    Then(c, s, Sys(w1, Idle), Control(Open), Sys(w1, b));
    Then(c, s, Sys(w1, b), Control(Persist), Sys(w1, b.(pc := Dispatch)));
    GetsHost(c, s, w1, mode);
    GetsUser(c, s, Hosted(c, w1), mode, st, FirstUser(c));
    SavesOnlySource(c, s, Hosted(c, w1), mode, Recorded(c, st, FirstUser(c)));
    Started(c, s, Hosted(c, w1).(temp := Some(Temp(w.app, ""))), mode, Recorded(c, st, FirstUser(c)));
  }

  lemma SavesOnlySource(c: Config, s: Sys, w: World, mode: Mode, mem: Status)
    requires c.plan(mem.active).Some? && mem.migration == At(Initial) && Provisions(mode) && mode != UseNewDB
    requires w.app.Some? && NoPassword(w)
    requires Reaches(c, s, Sys(w, Busy(mode, mem, HostReady, NO_CONN, NO_CONN)))
    ensures Reaches(c, s, Sys(w.(temp := Some(Temp(w.app, ""))), Busy(mode, mem, SourceSaved, NO_CONN, NO_CONN)))
  {
    var b := Busy(mode, mem, HostReady, NO_CONN, NO_CONN);
    var w1 := if w.temp.None? then w.(temp := Some(Temp(None, ""))) else w;
    if w.temp.None? {
      Then(c, s, Sys(w, b), Provision(CreateTemp), Sys(w1, b));
    }
    Then(c, s, Sys(w1, b), Provision(SaveSource), Sys(w.(temp := Some(Temp(w.app, ""))), b.(pc := SourceSaved)));
  }

  /**
   Every claim at rest that asks for a database on another server has a run in which the password of the new user is
   lost with a failed session and the migration can never be completed.
   */
  lemma LostPasswordBlocks(c: Config, w: World) returns (w': World)
    requires Asks(c, w) && NoPassword(w)
    ensures Reaches(c, Sys(w, Idle), Sys(w', Idle)) && w'.status.migration == At(MigrationInProgress)
    ensures Blocked(c, Sys(w', Idle)) && w'.temp.Some? && w'.temp.value.password == ""
  {
    FailsAfterUser(c, w);
    var w1 := ProvisionedWorld(c, w).(status := Recorded(c, Announced(w.status), FirstUser(c)));
    StillAsksForMode(c, w);
    StartsWithoutPassword(c, w, w1);
    w' := Hosted(c, w1).(temp := Some(Temp(w.app, "")),
                         status := Recorded(c, w1.status, FirstUser(c)).(migration := At(MigrationInProgress)));
  }
}
