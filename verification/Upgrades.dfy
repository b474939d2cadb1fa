/**
 What the laws of planning and naming amount to for the controller's own parameters and names: the
 deletion of a claim whose upgrade is asked for, and a claim that all the run properties apply to.
 */
module Upgrades {
  import opened Options
  import opened Strings
  import opened Claim
  import opened HostParams
  import opened Protocol
  import opened ClaimInvariants
  import opened ClaimProperties
  import opened Naming
  import opened Resets
  import opened FromRest
  import opened Deletion

  /** The part of the controller's configuration that names and plans. */
  datatype Setup = Setup(site: Site, settings: Settings, spec: HostSpec, claim: string, source: Option<Conn>)

  function ConfigFor(u: Setup): Config {
    ConfigOf(u.site, u.settings, u.spec, u.claim, u.source, u.source.Some?, "user", "database", true)
  }

  lemma SetupIsLawful(u: Setup)
    requires SiteOk(u.site, u.claim)
    ensures Lawful(ConfigFor(u)) && NamingLaws(ConfigFor(u))
  {
    PlanningIsLawful(u.site, u.settings, u.spec, u.claim, u.source, u.source.Some?, "user", "database", true);
    NamingIsLawful(u.site, u.settings, u.spec, u.claim, u.source, u.source.Some?, "user", "database", true);
  }

  function TextOf(db: DbStatus): string {
    HostString(db.engine, db.shape, db.version)
  }

  function PlannedText(p: Params): string {
    HostString(p.engine, p.shape, p.version)
  }

  /** Both servers are named in the usual way, and the checksum tells their two texts apart. */
  predicate TellsApart(u: Setup, active: DbStatus) {
    && New(u.settings, u.spec, active).Ok?
    && var p := New(u.settings, u.spec, active).value;
       && KnownEngine(p.engine) && KnownEngine(active.engine) && '-' !in p.version && '-' !in active.version
       && (u.site.hash(PlannedText(p)) == u.site.hash(TextOf(active)) ==> PlannedText(p) == TextOf(active))
  }

  lemma EndpointsTell(u: Setup, n: string, n': string)
    requires '.' !in n && '.' !in n' && Endpoint(u.site, n) == Endpoint(u.site, n')
    ensures n == n'
  {
    assert Endpoint(u.site, n).host == n + ['.'] + u.site.domain(n);
    assert Endpoint(u.site, n').host == n' + ['.'] + u.site.domain(n');
    BeforeOfJoin(n, '.', u.site.domain(n));
    BeforeOfJoin(n', '.', u.site.domain(n'));
  }

  lemma NamesTell(u: Setup, active: DbStatus)
    requires SiteOk(u.site, u.claim) && TellsApart(u, active)
    requires var p := New(u.settings, u.spec, active).value;
             HostName(u.site, u.claim, p.engine, p.shape, p.version)
             == HostName(u.site, u.claim, active.engine, active.shape, active.version)
    ensures PlannedText(New(u.settings, u.spec, active).value) == TextOf(active)
  {
    var p := New(u.settings, u.spec, active).value;
    var x, y := u.site.hash(PlannedText(p)), u.site.hash(TextOf(active));
    var n, n' := HostName(u.site, u.claim, p.engine, p.shape, p.version),
                 HostName(u.site, u.claim, active.engine, active.shape, active.version);
    assert |x| == 8 && |y| == 8;
    assert n[|n| - 8..] == x && n'[|n'| - 8..] == y;
  }

  lemma SameTextIsSameGroup(u: Setup, active: DbStatus)
    requires TellsApart(u, active) && PlannedText(New(u.settings, u.spec, active).value) == TextOf(active)
    ensures var p := New(u.settings, u.spec, active).value;
            ParameterGroup(u.site, u.claim, p.engine, p.shape, p.version)
            == ParameterGroup(u.site, u.claim, active.engine, active.shape, active.version)
  {
    var p := New(u.settings, u.spec, active).value;
    HostStringIsInjective(p.engine, p.shape, p.version, active.engine, active.shape, active.version);
  }

  /** The planned names are those of the active database exactly if no upgrade is requested of it. */
  lemma PlanIsActiveIffNoUpgrade(u: Setup, st: Status)
    requires SiteOk(u.site, u.claim) && |u.claim| <= MAX_NAME_LEN && StatusInv(ConfigFor(u), st)
    requires st.active.state == Ready && TellsApart(u, st.active)
    ensures PlanIsActive(ConfigFor(u), st) <==> !IsUpgradeRequested(New(u.settings, u.spec, st.active).value, st.active)
  {
    var c, a, p := ConfigFor(u), st.active, New(u.settings, u.spec, st.active).value;
    var n, n' := HostName(u.site, u.claim, p.engine, p.shape, p.version),
                 HostName(u.site, u.claim, a.engine, a.shape, a.version);
    if IsUpgradeRequested(p, a) {
      UpgradeRenames(u.settings, u.spec, a);
      if n == n' {
        NamesTell(u, a);
      }
      NamesAreLevel(u.site, u.claim, p.engine, p.shape, p.version, a.engine, a.shape, a.version);
      SuffixedNamesDiffer(n, n', GroupSuffix(p.engine, p.version), GroupSuffix(a.engine, a.version));
      assert GroupsOf(c, a) == {n' + GroupSuffix(a.engine, a.version)};
    } else {
      assert '.' !in n && '.' !in n';
      EndpointsTell(u, n, n');
      NamesTell(u, a);
      SameTextIsSameGroup(u, a);
    }
  }

  /**
   With the delete policy, a claim with a ready database is let go with nothing left of its databases exactly if
   no upgrade was requested of the active one and no cleanup of an old one was pending.
   */
  lemma DeletionIsCompleteIffNoUpgrade(u: Setup, r: Trace, k: nat) returns (i: nat)
    requires SiteOk(u.site, u.claim) && |u.claim| <= MAX_NAME_LEN
    requires IsClaimRun(ConfigFor(u), r) && k < |r.events| && Releases(r.events[k])
    ensures i < k && r.events[i] == Control(Open) && r.states[i].ses == Idle
    ensures forall j {:trigger r.states[j]} :: i < j <= k ==> r.states[j].ses.Purging?
    ensures var w, w' := r.states[i].w, r.states[k + 1].w;
            Stands(ConfigFor(u), w) && w.status.active.state == Ready && TellsApart(u, w.status.active) ==>
              (LeavesNothing(ConfigFor(u), w') <==>
                 && !IsUpgradeRequested(New(u.settings, u.spec, w.status.active).value, w.status.active)
                 && !CleanupPending(w.status))
  {
    SetupIsLawful(u);
    i := DeletionIsCompleteIff(ConfigFor(u), r, k);
    RunOpensPurge(ConfigFor(u), r, i);
    var w := r.states[i].w;
    if w.status.active.state == Ready && TellsApart(u, w.status.active) {
      PlanIsActiveIffNoUpgrade(u, w.status);
    }
  }

  // ---- a claim that is served by version 14 and asks for version 15

  const SHAPE := "db.t4g.medium"

  function Digits(s: string): string {
    if s == HostString(POSTGRES, SHAPE, "15") then "00000015" else "00000014"
  }

  const SITE := Site("", false, (s: string) => Digits(s), (n: string) => "rds.example.com", "5432", (a: Addr) => a.host)

  const SETUP := Setup(SITE, Settings(Some(5432), 20, "gp3"), HostSpec(POSTGRES, "15", SHAPE, 20, 0), "orders", None)

  function Name14(): string {
    HostName(SITE, "orders", POSTGRES, SHAPE, "14")
  }

  function Name15(): string {
    HostName(SITE, "orders", POSTGRES, SHAPE, "15")
  }

  /** A server with a table, a sequence, and the user of the application. */
  const STOCKED := FRESH_SERVER.(
    writers := {"user"}, rows := map["orders" := 1], sequences := map["ids" := Sequences.Sequence(1, true)],
    logins := map["user_a" := "secret"])

  /** The claim at rest. */
  function World14(deleting: bool): World {
    var conn := Conn(Endpoint(SITE, Name14()).host, "5432", "database", "user_a", "secret", "require");
    var db := DbStatus(conn, "14", POSTGRES, SHAPE, 20, 0, Ready, None);
    World(deleting, true, Status(db, NO_DB, NO_OLD_DB, Unset), Some(conn), None, map[AddrOf(conn) := STOCKED],
          {Name14()}, {ParameterGroup(SITE, "orders", POSTGRES, SHAPE, "14")})
  }

  lemma TextsDiffer()
    ensures HostString(POSTGRES, SHAPE, "14") != HostString(POSTGRES, SHAPE, "15")
    ensures MajorVersion("14") == "14" && MajorVersion("15") == "15" && "14" != "15"
  {
    var x, y := HostString(POSTGRES, SHAPE, "14"), HostString(POSTGRES, SHAPE, "15");
    assert x[|x| - 1] == '4' && y[|y| - 1] == '5';
    assert "14"[1] != "15"[1];
    assert Before("14", '.') == "14" && Before("15", '.') == "15";
  }

  lemma SetupIsOk()
    ensures SiteOk(SETUP.site, SETUP.claim)
  {
    assert '.' !in "00000014" && '.' !in "00000015" && '.' !in "orders";
  }

  lemma UpgradeIsAsked(active: DbStatus)
    requires active == World14(false).status.active
    ensures New(SETUP.settings, SETUP.spec, active).Ok?
    ensures var p := New(SETUP.settings, SETUP.spec, active).value;
            && p.engine == POSTGRES && p.shape == SHAPE && p.version == "15" && IsUpgradeRequested(p, active)
  {
    TextsDiffer();
  }

  lemma NamesDiffer()
    ensures Name14() != Name15() && '.' !in Name14() && '.' !in Name15()
  {
    TextsDiffer();
    SetupIsOk();
    var x, y := Digits(HostString(POSTGRES, SHAPE, "14")), Digits(HostString(POSTGRES, SHAPE, "15"));
    assert Name14()[|Name14()| - 8..] == x && Name15()[|Name15()| - 8..] == y && x[7] != y[7];
  }

  lemma EndpointsDiffer()
    ensures Endpoint(SITE, Name14()) != Endpoint(SITE, Name15())
  {
    NamesDiffer();
    if Endpoint(SITE, Name14()) == Endpoint(SITE, Name15()) {
      EndpointsTell(SETUP, Name14(), Name15());
    }
  }

  lemma StockedHasRoom()
    ensures HasRoom(STOCKED.sequences, 2)
  {
  }

  lemma UpgradeIsPlanned(c: Config, active: DbStatus)
    requires c == ConfigFor(SETUP) && active == World14(false).status.active
    ensures c.plan(active).Some? && c.upgrade(active) && Named(c, active)
    ensures PlannedAddr(c, active) == Endpoint(SITE, Name15()) && PlannedAddr(c, active).host != active.conn.host
    ensures c.plan(active).value.engine == POSTGRES && c.plan(active).value.shape == SHAPE && c.plan(active).value.version == "15"
  {
    SetupIsOk();
    UpgradeIsAsked(active);
    EndpointsDiffer();
  }

  /** The claim asks for a database on another server, which has another administrator. */
  lemma SomeClaimAsks() returns (c: Config, w: World)
    ensures c == ConfigFor(SETUP) && w == World14(false) && Asks(c, w) && w.status.active.state == Ready
    ensures c.master(PlannedAddr(c, w.status.active)) != c.master(AddrOf(w.status.active.conn))
  {
    c, w := ConfigFor(SETUP), World14(false);
    SetupIsOk();
    SetupIsLawful(SETUP);
    UpgradeIsPlanned(c, w.status.active);
    StockedHasRoom();
  }

  // ---- a claim that is served by an existing database

  const LEGACY := Conn("legacy", "5432", "database", "user_a", "secret", "require")

  const MOVING := SETUP.(source := Some(LEGACY))

  function LegacyWorld(): World {
    var db := DbStatus(LEGACY, "", "", "", 0, 0, UsingExistingDB, Some(LEGACY));
    World(false, true, Status(db, NO_DB, NO_OLD_DB, Unset), Some(LEGACY), None, map[AddrOf(LEGACY) := STOCKED], {}, {})
  }

  lemma LegacyIsPlanned(active: DbStatus)
    requires active == LegacyWorld().status.active
    ensures New(MOVING.settings, MOVING.spec, active).Ok?
    ensures '.' in PlannedAddr(ConfigFor(MOVING), active).host
  {
  }

  /** The claim asks for a database of its own, and the application may write to the existing one. */
  lemma SomeExistingAsks() returns (c: Config, w: World)
    ensures c == ConfigFor(MOVING) && w == LegacyWorld() && Asks(c, w) && w.status.active.state == UsingExistingDB
    ensures "user" in w.servers[AddrOf(w.status.active.conn)].writers
  {
    c, w := ConfigFor(MOVING), LegacyWorld();
    SetupIsOk();
    SetupIsLawful(MOVING);
    LegacyIsPlanned(w.status.active);
    StockedHasRoom();
  }

  lemma GroupsOfVersions()
    ensures ParameterGroup(SITE, "orders", POSTGRES, SHAPE, "14") != ParameterGroup(SITE, "orders", POSTGRES, SHAPE, "15")
  {
    NamesDiffer();
    SetupIsOk();
    NamesAreLevel(SITE, "orders", POSTGRES, SHAPE, "14", POSTGRES, SHAPE, "15");
    SuffixedNamesDiffer(Name14(), Name15(), GroupSuffix(POSTGRES, "14"), GroupSuffix(POSTGRES, "15"));
  }

  /**
   Marked for deletion before its upgrade has started, the same claim is let go in a single session while
   everything its active database was provisioned with is still there.
   */
  lemma DeletedUpgradeLeavesServer() returns (r: Trace)
    ensures IsClaimRun(ConfigFor(SETUP), r) && ConfigFor(SETUP).reclaim
    ensures r.states[0] == Sys(World14(true), Idle) && |r.events| == 3 && Releases(r.events[2])
    ensures var w := r.states[3].w;
            && !w.finalizer && w.instances == InstancesOf(ConfigFor(SETUP), w.status.active)
            && w.groups == GroupsOf(ConfigFor(SETUP), w.status.active) && !LeavesNothing(ConfigFor(SETUP), w)
  {
    var c, w := ConfigFor(SETUP), World14(true);
    SetupIsOk();
    SetupIsLawful(SETUP);
    UpgradeIsPlanned(c, w.status.active);
    NamesDiffer();
    GroupsOfVersions();
    assert PurgedInstances(c, w.status) == {Name15()};
    assert PlannedGroups(c, w.status) == {ParameterGroup(SITE, "orders", POSTGRES, SHAPE, "15")};
    r := NothingIsDeleted(c, w);
    assert Name14() in w.instances;
  }
}
