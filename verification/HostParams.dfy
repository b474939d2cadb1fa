/**
 The parameters of the server that a claim asks for.  They depend on the status of the active
 database, which is later overwritten with the parameters themselves.
 */
module HostParams {
  import opened Options
  import opened Strings
  import opened Claim

  const POSTGRES := "postgres"
  const AURORA := "aurora-postgresql"
  const DEFAULT_SHAPE := "db.t4g.medium"
  const DEFAULT_MAJOR_VERSION := "15"

  /** The part of the specification that describes the server. */
  datatype HostSpec = HostSpec(engine: string, version: string, shape: string, minStorage: int, maxStorage: int)

  /** The configuration of the controller: a port that is no number cannot be used. */
  datatype Settings = Settings(port: Option<int>, minStorage: int, storageType: string)

  datatype Params = Params(
    engine: string, version: string, shape: string, minStorage: int, maxStorage: int, instanceClass: string,
    storageType: string, port: int,
    defaultEngine: bool, defaultShape: bool, defaultStorage: bool, defaultVersion: bool)

  function InstanceClass(shape: string): string {
    Before(shape, '!')
  }

  function MajorVersion(version: string): string {
    Before(version, '.')
  }

  function StorageType(settings: Settings, engine: string, shape: string): Result<string> {
    if engine != AURORA then Ok(settings.storageType)
    else if '!' !in shape then Ok("aurora")
    else
      var t := ToLower(Before(After(shape, '!'), '!'));
      if t == "io1" || t == "io-optimized" then Ok("aurora-iopt1")
      else if t == "standard" || t == "aurora" || t == "" then Ok("aurora")
      else Err("invalid shape")
  }

  /** The maximum storage may not be taken back, and it must exceed the minimum. */
  function CheckStorage(engine: string, minStorage: int, maxStorage: int, activeMax: int): Option<string> {
    if engine != POSTGRES then None
    else if maxStorage == 0 then if activeMax != 0 then Some("reducing maxStorageGB is not allowed") else None
    else if maxStorage < activeMax then Some("reducing maxStorageGB is not allowed")
    else if maxStorage <= minStorage then Some("maxStorageGB should be greater than minStorageGB")
    else None
  }

  function New(settings: Settings, spec: HostSpec, active: DbStatus): Result<Params> {
    if settings.port.None? then Err("invalid master port")
    else
      var defaultVersion := spec.version == "" && active.version == "";
      var version := if spec.version != "" then spec.version
                     else if active.version != "" then active.version
                     else DEFAULT_MAJOR_VERSION;
      var shape := if spec.shape == "" then DEFAULT_SHAPE else spec.shape;
      var engine := if spec.engine == "" then POSTGRES else spec.engine;
      var minStorage := if spec.minStorage == 0 then settings.minStorage else spec.minStorage;
      var storageType := StorageType(settings, engine, shape);
      if storageType.Err? then Err(storageType.error)
      else
        var problem := CheckStorage(engine, minStorage, spec.maxStorage, active.maxStorage);
        if problem.Some? then Err(problem.value)
        else Ok(Params(engine, version, shape, minStorage, spec.maxStorage, InstanceClass(shape), storageType.value,
                       settings.port.value, spec.engine == "", spec.shape == "", spec.minStorage == 0, defaultVersion))
  }

  predicate HasInstanceClassChanged(p: Params, activeClass: string) {
    !p.defaultShape && activeClass != p.instanceClass
  }

  predicate HasEngineChanged(p: Params, activeEngine: string) {
    !p.defaultEngine && activeEngine != p.engine
  }

  predicate HasVersionChanged(p: Params, activeVersion: string) {
    !p.defaultVersion && MajorVersion(activeVersion) != MajorVersion(p.version)
  }

  predicate IsUpgradeRequested(p: Params, active: DbStatus) {
    || HasEngineChanged(p, active.engine)
    || HasInstanceClassChanged(p, InstanceClass(active.shape))
    || HasVersionChanged(p, active.version)
  }

  /** The text from which a server is named. */
  function HostString(engine: string, shape: string, version: string): string {
    engine + "-" + InstanceClass(shape) + "-" + version
  }

  /** The status records the parameters of a database when it has been provisioned. */
  predicate Records(db: DbStatus, p: Params) {
    && db.engine == p.engine && db.version == p.version && db.shape == p.shape
    && (p.engine == POSTGRES ==> db.maxStorage == p.maxStorage)
  }

  /**
   The fixed point: whatever status the parameters were computed from, once a database provisioned with
   them is the active one, the computation succeeds again, names the same server, and asks for no upgrade.
   */
  lemma ProvisionedIsStable(settings: Settings, spec: HostSpec, active: DbStatus, db: DbStatus)
    requires New(settings, spec, active).Ok? && Records(db, New(settings, spec, active).value)
    ensures var p := New(settings, spec, active).value;
            && New(settings, spec, db) == Ok(p.(defaultVersion := false))
            && HostString(db.engine, db.shape, db.version) == HostString(p.engine, p.shape, p.version)
            && !IsUpgradeRequested(New(settings, spec, db).value, db)
  {
    var p := New(settings, spec, active).value;
    assert p.version != "" && db.version == p.version;
    assert CheckStorage(p.engine, p.minStorage, p.maxStorage, db.maxStorage) == None;
  }

  predicate KnownEngine(engine: string) {
    engine == POSTGRES || engine == AURORA
  }

  /** Engine, instance class and version can be read back from the text. */
  lemma HostStringIsInjective(engine: string, shape: string, version: string, engine': string, shape': string, version': string)
    requires KnownEngine(engine) && KnownEngine(engine') && '-' !in version && '-' !in version'
    requires HostString(engine, shape, version) == HostString(engine', shape', version')
    ensures engine == engine' && InstanceClass(shape) == InstanceClass(shape') && version == version'
  {
    var cls, cls' := InstanceClass(shape), InstanceClass(shape');
    var s, s' := HostString(engine, shape, version), HostString(engine', shape', version');
    assert s == engine + "-" + cls + ['-'] + version && s' == engine' + "-" + cls' + ['-'] + version';
    LastCutIsUnique(engine + "-" + cls, version, engine' + "-" + cls', version', '-');
    assert (engine + "-" + cls)[0] == engine[0] && (engine' + "-" + cls')[0] == engine'[0];
    assert engine == engine';
    assert cls == (engine + "-" + cls)[|engine| + 1..] && cls' == (engine' + "-" + cls')[|engine| + 1..];
  }

  /** Every requested upgrade asks for a server with a different text. */
  lemma UpgradeRenames(settings: Settings, spec: HostSpec, active: DbStatus)
    requires New(settings, spec, active).Ok?
    requires var p := New(settings, spec, active).value;
             && KnownEngine(p.engine) && KnownEngine(active.engine) && '-' !in p.version && '-' !in active.version
             && IsUpgradeRequested(p, active)
    ensures var p := New(settings, spec, active).value;
            HostString(p.engine, p.shape, p.version) != HostString(active.engine, active.shape, active.version)
  {
    var p := New(settings, spec, active).value;
    if HostString(p.engine, p.shape, p.version) == HostString(active.engine, active.shape, active.version) {
      HostStringIsInjective(p.engine, p.shape, p.version, active.engine, active.shape, active.version);
    }
  }

  /** With a dash in a version, an upgrade can be requested that leaves the text as it is. */
  lemma DashedVersionsCollide(settings: Settings) returns (spec: HostSpec, active: DbStatus)
    requires settings.port.Some?
    ensures New(settings, spec, active).Ok? && KnownEngine(active.engine) && '-' in active.version
    ensures var p := New(settings, spec, active).value;
            && IsUpgradeRequested(p, active)
            && HostString(p.engine, p.shape, p.version) == HostString(active.engine, active.shape, active.version)
  {
    spec := HostSpec(POSTGRES, "2", "a-1", 0, 0);
    active := DbStatus(NO_CONN, "1-2", POSTGRES, "a", 0, 0, Ready, None);
    assert Before("a-1", '!') == "a-1" && Before("a", '!') == "a";
    assert "a-1"[1] == '-' && "1-2"[1] == '-';
    var x, y := HostString(POSTGRES, "a-1", "2"), HostString(POSTGRES, "a", "1-2");
    assert x == "postgres-a-1-2" && y == "postgres-a-1-2";
  }
}
