/**
 The names of servers and crossplane resources, and the proof that the naming and planning of
 this controller obey the laws on which the properties of its runs rest.
 */
module Naming {
  import opened Options
  import opened Strings
  import opened Claim
  import opened HostParams
  import opened Protocol
  import opened ClaimInvariants
  import opened ClaimProperties

  const MAX_NAME_LEN := 44

  /**
   Where the controller runs:
    - prefix: the configured prefix of identifiers, possibly empty
    - multiAZ: whether a second instance is created for a cluster
    - hash: the checksum of a text, written with eight digits
    - domain: what the cloud appends to a server name to form its endpoint
    - port: the port of every server
    - master: the password that was generated for the administrator of a server
   */
  datatype Site = Site(prefix: string, multiAZ: bool, hash: string -> string, domain: string -> string, port: string,
                       master: Addr -> string)

  ghost predicate SiteOk(site: Site, claim: string) {
    && '.' !in site.prefix && '.' !in claim
    && forall s {:trigger site.hash(s)} :: |site.hash(s)| == 8 && '.' !in site.hash(s)
  }

  function HostName(site: Site, claim: string, engine: string, shape: string, version: string): string {
    (if site.prefix != "" then site.prefix + "-" else "") + claim + "-" + site.hash(HostString(engine, shape, version))
  }

  function GroupSuffix(engine: string, version: string): string {
    (if engine == AURORA then "-a-" else "-") + MajorVersion(version)
  }

  function ParameterGroup(site: Site, claim: string, engine: string, shape: string, version: string): string {
    HostName(site, claim, engine, shape, version) + GroupSuffix(engine, version)
  }

  function Endpoint(site: Site, name: string): Addr {
    Addr(name + "." + site.domain(name), site.port)
  }

  /** The instances that are created for a server. */
  function Instances(site: Site, claim: string, engine: string, shape: string, version: string): set<string> {
    var name := HostName(site, claim, engine, shape, version);
    if engine == AURORA && site.multiAZ then {name, name + "-2"} else {name}
  }

  /** The instance name that is read back from the endpoint of a database. */
  function OldName(db: OldDb): string {
    if db.conn.None? then "" else Before(db.conn.value.host, '.')
  }

  /** The instances that are deleted under a name, the second one whatever the engine is. */
  function Deleted(site: Site, name: string): set<string> {
    if site.multiAZ then {name, name + "-2"} else {name}
  }

  function OldGroups(db: OldDb): set<string> {
    {OldName(db) + GroupSuffix(db.engine, db.version)}
  }

  /** How the controller plans and names for one claim. */
  function ConfigOf(site: Site, settings: Settings, spec: HostSpec, claim: string, source: Option<Conn>,
                    sourceIsDatabase: bool, user: string, database: string, reclaim: bool): Config {
    Config(
      false, source, sourceIsDatabase, user, database, reclaim,
      (db: DbStatus) => PlanFor(settings, spec, claim, db),
      (db: DbStatus) => New(settings, spec, db).Ok? && IsUpgradeRequested(New(settings, spec, db).value, db),
      (e, s, v) => HostName(site, claim, e, s, v),
      name => Endpoint(site, name),
      a => site.master(a),
      (e, s, v) => Instances(site, claim, e, s, v),
      (e, s, v) => {ParameterGroup(site, claim, e, s, v)},
      (e, s, v) => Deleted(site, HostName(site, claim, e, s, v)),
      db => Deleted(site, OldName(db)),
      db => OldGroups(db))
  }

  function PlanFor(settings: Settings, spec: HostSpec, claim: string, db: DbStatus): Option<Plan> {
    if New(settings, spec, db).Err? || |claim| > MAX_NAME_LEN then None
    else
      var p := New(settings, spec, db).value;
      Some(Plan(p.engine, p.version, p.shape, p.minStorage, p.maxStorage))
  }

  lemma PlanIsFixed(settings: Settings, spec: HostSpec, claim: string, a: DbStatus, db: DbStatus)
    requires Carries(PlanFor(settings, spec, claim, a), db)
    ensures PlanFor(settings, spec, claim, db) == PlanFor(settings, spec, claim, a)
    ensures New(settings, spec, db).Ok? && !IsUpgradeRequested(New(settings, spec, db).value, db)
  {
    ProvisionedIsStable(settings, spec, a, db);
  }

  /** The planning of every claim is lawful. */
  lemma PlanningIsLawful(site: Site, settings: Settings, spec: HostSpec, claim: string, source: Option<Conn>,
                         sourceIsDatabase: bool, user: string, database: string, reclaim: bool)
    ensures Lawful(ConfigOf(site, settings, spec, claim, source, sourceIsDatabase, user, database, reclaim))
  {
    var c := ConfigOf(site, settings, spec, claim, source, sourceIsDatabase, user, database, reclaim);
    forall a, db | Carries(c.plan(a), db) ensures c.plan(db) == c.plan(a) && !c.upgrade(db) {
      PlanIsFixed(settings, spec, claim, a, db);
    }
  }

  lemma NameIsReadBack(site: Site, claim: string, db: OldDb)
    requires SiteOk(site, claim) && db.conn.Some?
    requires db.conn.value.host == Endpoint(site, HostName(site, claim, db.engine, db.shape, db.version)).host
    ensures OldName(db) == HostName(site, claim, db.engine, db.shape, db.version)
  {
    var name := HostName(site, claim, db.engine, db.shape, db.version);
    assert '.' !in name;
    assert db.conn.value.host == name + ['.'] + site.domain(name);
    BeforeOfJoin(name, '.', site.domain(name));
  }

  /** All server names of a claim have the same length, so no name is a proper prefix of another. */
  lemma NamesAreLevel(site: Site, claim: string, e: string, s: string, v: string, e': string, s': string, v': string)
    requires SiteOk(site, claim)
    ensures |HostName(site, claim, e, s, v)| == |HostName(site, claim, e', s', v')|
  {
    assert |site.hash(HostString(e, s, v))| == |site.hash(HostString(e', s', v'))|;
  }

  lemma SuffixedNamesDiffer(n: string, n': string, x: string, x': string)
    requires |n| == |n'| && n != n'
    ensures n + x != n' + x'
  {
    assert (n + x)[..|n|] == n && (n' + x')[..|n'|] == n';
  }

  lemma OldInstancesAreApart(site: Site, claim: string, db: OldDb, e: string, s: string, v: string)
    requires SiteOk(site, claim) && OldName(db) == HostName(site, claim, db.engine, db.shape, db.version)
    requires OldName(db) != HostName(site, claim, e, s, v)
    ensures Deleted(site, OldName(db)) !! Instances(site, claim, e, s, v)
  {
    NamesAreLevel(site, claim, db.engine, db.shape, db.version, e, s, v);
    var n, n' := OldName(db), HostName(site, claim, e, s, v);
    SuffixedNamesDiffer(n, n', "-2", "-2");
    assert |n + "-2"| != |n'| && |n' + "-2"| != |n|;
  }

  /**
   Cleanup finds exactly the names that were used for provisioning, and none of another server,
   although the names are read back from the endpoint and a hash may collide.
   */
  lemma NamingIsLawful(site: Site, settings: Settings, spec: HostSpec, claim: string, source: Option<Conn>,
                       sourceIsDatabase: bool, user: string, database: string, reclaim: bool)
    requires SiteOk(site, claim)
    ensures NamingLaws(ConfigOf(site, settings, spec, claim, source, sourceIsDatabase, user, database, reclaim))
  {
    var c := ConfigOf(site, settings, spec, claim, source, sourceIsDatabase, user, database, reclaim);
    forall db | OldNamed(c, db)
      ensures c.instances(db.engine, db.shape, db.version) <= c.oldInstances(db)
      ensures c.groups(db.engine, db.shape, db.version) == c.oldGroups(db)
    {
      NameIsReadBack(site, claim, db);
    }
    forall db, e, s, v | OldNamed(c, db) && c.nameOf(db.engine, db.shape, db.version) != c.nameOf(e, s, v)
      ensures c.oldInstances(db) !! c.instances(e, s, v)
    {
      NameIsReadBack(site, claim, db);
      OldInstancesAreApart(site, claim, db, e, s, v);
    }
    forall e, s, v, e', s', v' | c.nameOf(e, s, v) != c.nameOf(e', s', v')
      ensures c.groups(e, s, v) !! c.groups(e', s', v')
    {
      NamesAreLevel(site, claim, e, s, v, e', s', v');
      SuffixedNamesDiffer(HostName(site, claim, e, s, v), HostName(site, claim, e', s', v'),
                          GroupSuffix(e, v), GroupSuffix(e', v'));
    }
  }

  /**
   For a fixed specification, every status of every run on which the parameters can be computed leads to the
   same server, and a database that has become active in the run never asks for an upgrade.
   */
  lemma ServerIsTheSame(site: Site, settings: Settings, spec: HostSpec, claim: string, source: Option<Conn>,
                        sourceIsDatabase: bool, user: string, database: string, reclaim: bool, r: Trace, j: nat, k: nat)
    requires var c := ConfigOf(site, settings, spec, claim, source, sourceIsDatabase, user, database, reclaim);
             IsRun(c, r) && r.states[0].ses == Idle && Quiescent(c, r.states[0].w.status)
    requires j < |r.states| && k < |r.states|
    requires New(settings, spec, r.states[j].w.status.active).Ok? && |claim| <= MAX_NAME_LEN
    ensures var p, active := New(settings, spec, r.states[j].w.status.active).value, r.states[k].w.status.active;
            && New(settings, spec, active).Ok?
            && var q := New(settings, spec, active).value;
               && HostString(q.engine, q.shape, q.version) == HostString(p.engine, p.shape, p.version)
               && (active != r.states[0].w.status.active ==> !IsUpgradeRequested(q, active))
  {
    var c := ConfigOf(site, settings, spec, claim, source, sourceIsDatabase, user, database, reclaim);
    PlanningIsLawful(site, settings, spec, claim, source, sourceIsDatabase, user, database, reclaim);
    PlanIsStable(c, r, j);
    PlanIsStable(c, r, k);
  }
}
