/**
 Identifiers over whole runs: whatever sessions are cut off and resumed, even with the target taken
 for the source, the target hands out only identifiers ahead of those of the source.
 */
module SequenceRuns {
  import opened Options
  import opened Stages
  import opened Claim
  import opened Protocol
  import opened ClaimInvariants
  import opened ClaimProperties
  import opened DataInvariants
  import opened MigrationSafety
  import opened CutOver

  function Src(w: World): Addr {
    AddrOf(w.status.active.conn)
  }

  function Tgt(w: World): Addr {
    AddrOf(w.status.newDb.conn)
  }

  // ---- where the connections lead, in every run

  predicate Known(w: World, conn: Conn) {
    AddrOf(conn) == Src(w) || AddrOf(conn) == Tgt(w)
  }

  /** The application secret leads to the target. */
  predicate AppMoved(w: World) {
    w.app.Some? && AddrOf(w.app.value) == Tgt(w)
  }

  /** All connections lead to one of the two servers, and to the active one until the secret is rerouted. */
  predicate Placed(s: Sys) {
    && s.w.app.Some? && Known(s.w, s.w.app.value)
    && s.w.temp.Some? && s.w.temp.value.source.Some? && Known(s.w, s.w.temp.value.source.value)
    && (!AppMoved(s.w) ==> AddrOf(s.w.temp.value.source.value) == Src(s.w))
    && (Executes(s.ses) ==>
          && Known(s.w, s.ses.src) && AddrOf(s.ses.tgt) == Tgt(s.w)
          && (!AppMoved(s.w) ==> AddrOf(s.ses.src) == Src(s.w)))
  }

  /** A step inside a migration between two servers. */
  predicate Inside(c: Config, s: Sys, e: Event, s': Sys) {
    && Inv(c, s) && Next(c, s, e) == Some(s') && Apart(s.w.status)
    && Running(s.w.status.migration) && Running(s'.w.status.migration)
  }

  lemma SameServers(c: Config, s: Sys, e: Event, s': Sys)
    requires Inside(c, s, e, s')
    ensures Src(s'.w) == Src(s.w) && Tgt(s'.w) == Tgt(s.w) && Apart(s'.w.status)
    ensures s.w.status.migration.At? && s'.w.status.migration.At?
    ensures Position(s.w.status.migration.stage) <= Position(s'.w.status.migration.stage)
  {
    StepMoves(c, s, e, s');
    CourseStep(s.w.status, s'.w.status);
  }

  /** Neither a status write nor the end or the beginning of a session touches secrets, servers or connections. */
  lemma ControlChange(c: Config, s: Sys, e: SessionEvent, s': Sys)
    requires Inside(c, s, Control(e), s')
    ensures s'.w.app == s.w.app && s'.w.temp == s.w.temp && s'.w.servers == s.w.servers
    ensures Executes(s'.ses) ==> Executes(s.ses) && s'.ses.src == s.ses.src && s'.ses.tgt == s.ses.tgt
  {
  }

  lemma ControlKeepsPlaces(c: Config, s: Sys, e: SessionEvent, s': Sys)
    requires Inside(c, s, Control(e), s') && Placed(s)
    ensures Placed(s')
  {
    SameServers(c, s, Control(e), s');
    ControlChange(c, s, e, s');
  }

  lemma ResumeKeepsPlaces(c: Config, s: Sys, s': Sys)
    requires Inside(c, s, Migrate(Resume), s') && Placed(s)
    ensures Placed(s')
  {
  }

  /** Executing a stage changes servers and the point of the session. */
  lemma ExecChange(c: Config, s: Sys, x: Effect, s': Sys)
    requires Next(c, s, Migrate(Exec(x))) == Some(s')
    ensures s.ses.Busy? && Migrates(s.ses.mode) && s'.ses.Busy? && ExecMoves(s.ses.pc, s'.ses.pc)
    ensures s' == Sys(s.w.(servers := s'.w.servers), s.ses.(pc := s'.ses.pc)) && Executes(s.ses)
  {
    PerformMoves(c, s.w.servers, s.ses, x);
  }

  lemma ExecKeepsPlaces(c: Config, s: Sys, x: Effect, s': Sys)
    requires Next(c, s, Migrate(Exec(x))) == Some(s') && Placed(s)
    ensures Placed(s')
  {
    ExecChange(c, s, x, s');
  }

  lemma SecretsKeepPlaces(c: Config, s: Sys, e: MigrateEvent, s': Sys)
    requires Inside(c, s, Migrate(e), s') && Placed(s) && !e.Exec? && !e.Resume?
    ensures Placed(s')
  {
    if e == DropTemp {
      TempStaysWhileRunning(c, s);
    }
  }

  lemma MigrateKeepsPlaces(c: Config, s: Sys, e: MigrateEvent, s': Sys)
    requires Inside(c, s, Migrate(e), s') && Placed(s)
    ensures Placed(s')
  {
    match e
    case Resume => ResumeKeepsPlaces(c, s, s');
    case Exec(x) => ExecKeepsPlaces(c, s, x, s');
    case _ => SecretsKeepPlaces(c, s, e, s');
  }

  lemma EnvKeepsPlaces(s: Sys, e: EnvEvent, s': Sys)
    requires NextEnvironment(s, e) == Some(s') && Placed(s)
    ensures Placed(s')
  {
  }

  lemma StepKeepsPlaces(c: Config, s: Sys, e: Event, s': Sys)
    requires Inside(c, s, e, s') && Placed(s)
    ensures Placed(s')
  {
    match e
    case Env(x) => EnvKeepsPlaces(s, x, s');
    case Control(x) => ControlKeepsPlaces(c, s, x, s');
    case Provision(x) => NoProvisionWhileRunning(c, s, x);
    case Clean(x) => NoCleanupWhileRunning(c, s, x);
    case Migrate(x) => MigrateKeepsPlaces(c, s, x, s');
  }

  // ---- what happens to the sequences

  /** The same servers with the same sequences. */
  predicate SameSequences(servers: map<Addr, Server>, servers': map<Addr, Server>) {
    && servers'.Keys == servers.Keys
    && forall a :: a in servers ==> servers'[a].sequences == servers[a].sequences
  }

  lemma PerformKeepsSequences(c: Config, servers: map<Addr, Server>, ses: Session, x: Effect)
    requires ses.Busy? && c.plan(ses.mem.active).Some? && Perform(c, servers, ses, x).Some?
    requires !x.Reset? && ses.pc != Granted
    ensures var d := Perform(c, servers, ses, x).value;
            d.Write? ==> d.at in servers && d.server.sequences == servers[d.at].sequences
  {
  }

  lemma ExecKeepsSequences(c: Config, s: Sys, x: Effect, s': Sys)
    requires Next(c, s, Migrate(Exec(x))) == Some(s') && !x.Reset? && s.ses.pc != Granted
    ensures SameSequences(s.w.servers, s'.w.servers)
  {
    PerformKeepsSequences(c, s.w.servers, s.ses, x);
  }

  /** From the reset of the sequences on, no schema is restored. */
  lemma NoRestore(c: Config, s: Sys)
    requires Inv(c, s) && s.ses.Busy? && Migrates(s.ses.mode) && Running(s.w.status.migration)
    requires Position(s.w.status.migration.stage) >= Position(ResetTargetSequence)
    ensures s.ses.pc != Granted
  {
  }

  /** Setting a sequence changes that one in the target. */
  lemma SetChange(c: Config, s: Sys, name: string, s': Sys)
    requires Next(c, s, Migrate(Exec(Reset(SetValue(name))))) == Some(s') && AddrOf(s.ses.tgt) == Tgt(s.w)
    ensures s.ses.pc.Setting? && name in s.ses.pc.left && Tgt(s.w) in s.w.servers && Tgt(s.w) in s'.w.servers
    ensures s'.ses.pc == Setting(s.ses.pc.left - {name})
    ensures s'.w.servers[Tgt(s.w)].sequences
            == s.w.servers[Tgt(s.w)].sequences[name := Sequences.Sequence(s.ses.pc.left[name], true)]
    ensures s'.w.servers == s.w.servers[Tgt(s.w) := s'.w.servers[Tgt(s.w)]]
  {
  }

  lemma OtherPartsRead(c: Config, s: Sys, x: ResetStep, s': Sys)
    requires Next(c, s, Migrate(Exec(Reset(x)))) == Some(s') && !x.SetValue?
    ensures s'.w == s.w
  {
  }

  /** A step other than the restoring of a schema, a part of the reset or a draw leaves all sequences alone. */
  predicate TouchesSequences(e: Event) {
    (e.Env? && e.env.Draw?) || (e.Migrate? && e.migrate.Exec? && e.migrate.effect.Reset?)
  }

  lemma EnvKeepsSequences(s: Sys, e: EnvEvent, s': Sys)
    requires NextEnvironment(s, e) == Some(s') && !e.Draw?
    ensures SameSequences(s.w.servers, s'.w.servers)
  {
  }

  lemma MigrateKeepsSequences(c: Config, s: Sys, e: MigrateEvent, s': Sys)
    requires Inside(c, s, Migrate(e), s') && !TouchesSequences(Migrate(e))
    requires Position(s.w.status.migration.stage) >= Position(ResetTargetSequence)
    ensures SameSequences(s.w.servers, s'.w.servers)
  {
    if e.Exec? {
      NoRestore(c, s);
      ExecKeepsSequences(c, s, e.effect, s');
    } else {
      OthersLeaveServers(c, s, Migrate(e), s');
    }
  }

  lemma OthersKeepSequences(c: Config, s: Sys, e: Event, s': Sys)
    requires Inside(c, s, e, s') && !TouchesSequences(e)
    requires Position(s.w.status.migration.stage) >= Position(ResetTargetSequence)
    ensures SameSequences(s.w.servers, s'.w.servers)
  {
    match e
    case Env(x) => EnvKeepsSequences(s, x, s');
    case Control(x) => ControlChange(c, s, x, s');
    case Provision(x) => NoProvisionWhileRunning(c, s, x);
    case Clean(x) => NoCleanupWhileRunning(c, s, x);
    case Migrate(x) => MigrateKeepsSequences(c, s, x, s');
  }

  /** The sequence of the active database has handed out the value. */
  predicate Has(w: World, name: string) {
    Src(w) in w.servers && name in w.servers[Src(w)].sequences
  }

  function SourceLast(w: World, name: string): int
    requires Has(w, name)
  {
    w.servers[Src(w)].sequences[name].last
  }

  /** The sequence of the target is ahead of the bound. */
  predicate Ahead(w: World, name: string, bound: int) {
    && Tgt(w) in w.servers && name in w.servers[Tgt(w)].sequences
    && w.servers[Tgt(w)].sequences[name].last >= bound && w.servers[Tgt(w)].sequences[name].called
  }

  lemma SameSequencesKeep(w: World, w': World, name: string, bound: int)
    requires SameSequences(w.servers, w'.servers) && Src(w') == Src(w) && Tgt(w') == Tgt(w)
    ensures Has(w', name) <==> Has(w, name)
    ensures Has(w, name) ==> w'.servers[Src(w)].sequences[name] == w.servers[Src(w)].sequences[name]
    ensures Ahead(w', name, bound) <==> Ahead(w, name, bound)
  {
  }

  // ---- the reset of one sequence

  /** The sequence has been set in the target: its application uses it, or the session is about to say so. */
  predicate IsSet(s: Sys, name: string) {
    || AppMoved(s.w)
    || (s.ses.Busy? && match s.ses.pc
                       case Setting(left) => name !in left
                       case Got(n) => n == RerouteTargetSecret
                       case Moved(n) => n == RerouteTargetSecret
                       case TempSaved => true
                       case Rerouted => true
                       case _ => false)
  }

  /** What the session has read for a sequence. */
  function InHand(s: Sys): map<string, int> {
    if !s.ses.Busy? then map[]
    else
      match s.ses.pc
      case Reading(values) => values
      case Setting(left) => left
      case _ => map[]
  }

  /** The value has been handed out by the source, and whatever is set or to be set in the target is ahead of it. */
  predicate ResetInv(s: Sys, name: string, value: int) {
    && s.w.status.migration.At? && Position(s.w.status.migration.stage) >= Position(ResetTargetSequence)
    && Has(s.w, name) && SourceLast(s.w, name) >= value
    && (name in InHand(s) ==> InHand(s)[name] >= value + 5000)
    && (IsSet(s, name) ==> Ahead(s.w, name, value + 5000))
  }

  lemma ExecSets(c: Config, s: Sys, x: Effect, s': Sys, name: string)
    requires Next(c, s, Migrate(Exec(x))) == Some(s') && !x.Reset?
    ensures InHand(s') == map[] && (IsSet(s', name) ==> IsSet(s, name))
  {
    ExecChange(c, s, x, s');
    NotInReset(c, s.w.servers, s.ses, x);
  }

  lemma NotInReset(c: Config, servers: map<Addr, Server>, ses: Session, x: Effect)
    requires ses.Busy? && c.plan(ses.mem.active).Some? && Perform(c, servers, ses, x).Some? && !x.Reset?
    ensures !ses.pc.Reading? && !ses.pc.Setting?
    ensures Perform(c, servers, ses, x).value.pc != Got(RerouteTargetSecret)
  {
  }

  /** Other steps put nothing in hand, and what they find set was set before. */
  lemma OthersSet(c: Config, s: Sys, e: Event, s': Sys, name: string)
    requires Inside(c, s, e, s') && Placed(s) && !TouchesSequences(e)
    ensures InHand(s') == map[] || InHand(s') == InHand(s)
    ensures IsSet(s', name) ==> IsSet(s, name)
  {
    match e
    case Env(x) => EnvSets(s, x, s', name);
    case Control(x) => ControlSets(c, s, x, s', name);
    case Provision(x) => NoProvisionWhileRunning(c, s, x);
    case Clean(x) => NoCleanupWhileRunning(c, s, x);
    case Migrate(x) =>
      if x.Exec? {
        ExecSets(c, s, x.effect, s', name);
      } else {
        SecretsSet(c, s, x, s', name);
      }
  }

  lemma EnvSets(s: Sys, e: EnvEvent, s': Sys, name: string)
    requires NextEnvironment(s, e) == Some(s')
    ensures InHand(s') == InHand(s) && (IsSet(s', name) ==> IsSet(s, name))
  {
  }

  lemma ControlSets(c: Config, s: Sys, e: SessionEvent, s': Sys, name: string)
    requires Inside(c, s, Control(e), s')
    ensures InHand(s') == map[] || InHand(s') == InHand(s)
    ensures IsSet(s', name) ==> IsSet(s, name)
  {
    SameServers(c, s, Control(e), s');
  }

  lemma SecretsSet(c: Config, s: Sys, e: MigrateEvent, s': Sys, name: string)
    requires Inside(c, s, Migrate(e), s') && !e.Exec?
    ensures InHand(s') == map[] && (IsSet(s', name) ==> IsSet(s, name))
  {
  }

  lemma OthersKeepReset(c: Config, s: Sys, e: Event, s': Sys, name: string, value: int)
    requires Inside(c, s, e, s') && Placed(s) && !TouchesSequences(e) && ResetInv(s, name, value)
    ensures ResetInv(s', name, value)
  {
    SameServers(c, s, e, s');
    OthersKeepSequences(c, s, e, s');
    SameSequencesKeep(s.w, s'.w, name, value + 5000);
    OthersSet(c, s, e, s', name);
  }

  lemma DrawKeepsReset(s: Sys, a: Addr, drawn: string, s': Sys, name: string, value: int)
    requires NextEnvironment(s, Draw(a, drawn)) == Some(s') && ResetInv(s, name, value)
    ensures ResetInv(s', name, value)
  {
    EnvSets(s, Draw(a, drawn), s', name);
  }

  /** A value read from either server is ahead: the target is only read after it has been reset. */
  lemma ReadIsAhead(s: Sys, name: string, value: int)
    requires Placed(s) && Executes(s.ses) && ResetInv(s, name, value) && AddrOf(s.ses.src) in s.w.servers
    ensures var q := s.w.servers[AddrOf(s.ses.src)].sequences;
            name in q && (Sequences.ResetValue(q[name].last).Some? ==> Sequences.ResetValue(q[name].last).value >= value + 5000)
  {
    var q := s.w.servers[AddrOf(s.ses.src)].sequences;
    if Sequences.ResetValue(q[name].last).Some? {
      Sequences.ResetIsAhead(q[name].last);
    }
  }

  lemma ReadKeepsReset(c: Config, s: Sys, x: ResetStep, s': Sys, name: string, value: int)
    requires Next(c, s, Migrate(Exec(Reset(x)))) == Some(s') && !x.SetValue? && Placed(s) && ResetInv(s, name, value)
    ensures ResetInv(s', name, value)
  {
    OtherPartsRead(c, s, x, s');
    ExecChange(c, s, Reset(x), s');
    if AddrOf(s.ses.src) in s.w.servers {
      ReadIsAhead(s, name, value);
    }
  }

  lemma SetKeepsReset(c: Config, s: Sys, chosen: string, s': Sys, name: string, value: int)
    requires Inside(c, s, Migrate(Exec(Reset(SetValue(chosen)))), s') && Placed(s) && ResetInv(s, name, value)
    ensures ResetInv(s', name, value)
  {
    ExecChange(c, s, Reset(SetValue(chosen)), s');
    SetChange(c, s, chosen, s');
  }

  lemma StepKeepsReset(c: Config, s: Sys, e: Event, s': Sys, name: string, value: int)
    requires Inside(c, s, e, s') && Placed(s) && ResetInv(s, name, value)
    ensures ResetInv(s', name, value)
  {
    if !TouchesSequences(e) {
      OthersKeepReset(c, s, e, s', name, value);
    } else if e.Env? {
      DrawKeepsReset(s, e.env.at, e.env.name, s', name, value);
    } else if e.migrate.effect.step.SetValue? {
      SetKeepsReset(c, s, e.migrate.effect.step.name, s', name, value);
    } else {
      ReadKeepsReset(c, s, e.migrate.effect.step, s', name, value);
    }
  }

  /** A value of the sequence is read before the application secret is rerouted. */
  predicate ReadsFromSource(s: Sys, e: Event, name: string) {
    e == Migrate(Exec(Reset(ReadValue(name)))) && !AppMoved(s.w)
  }

  lemma ReadStarts(c: Config, s: Sys, e: Event, s': Sys, name: string)
    requires Inside(c, s, e, s') && Placed(s) && ReadsFromSource(s, e, name)
    ensures Has(s.w, name) && ResetInv(s', name, SourceLast(s.w, name))
  {
    ExecChange(c, s, Reset(ReadValue(name)), s');
    OtherPartsRead(c, s, ReadValue(name), s');
    Sequences.ResetIsAhead(SourceLast(s.w, name));
  }

  // ---- nothing is set that was not read

  /** The reset of the sequence has begun. */
  predicate Begun(s: Sys, name: string) {
    IsSet(s, name) || name in InHand(s)
  }

  lemma PartsBegin(c: Config, s: Sys, x: ResetStep, s': Sys, name: string)
    requires Next(c, s, Migrate(Exec(Reset(x)))) == Some(s') && Placed(s) && Has(s.w, name) && Begun(s', name)
    ensures Begun(s, name) || ReadsFromSource(s, Migrate(Exec(Reset(x))), name)
  {
    ExecChange(c, s, Reset(x), s');
  }

  /** The reset of a sequence begins with reading it from the source. */
  lemma StepBegins(c: Config, s: Sys, e: Event, s': Sys, name: string)
    requires Inside(c, s, e, s') && Placed(s) && Has(s.w, name) && Begun(s', name)
    ensures Begun(s, name) || ReadsFromSource(s, e, name)
  {
    if !TouchesSequences(e) {
      OthersSet(c, s, e, s', name);
    } else if e.Env? {
      EnvSets(s, e.env, s', name);
    } else {
      PartsBegin(c, s, e.migrate.effect.step, s', name);
    }
  }

  // ---- the sequences of the source

  lemma PerformKeepsSource(c: Config, servers: map<Addr, Server>, ses: Session, x: Effect)
    requires ses.Busy? && c.plan(ses.mem.active).Some? && Perform(c, servers, ses, x).Some?
    ensures var d := Perform(c, servers, ses, x).value;
            d.Write? ==> d.at in servers && (d.at == AddrOf(ses.tgt) || d.server.sequences == servers[d.at].sequences)
  {
  }

  /** The sequence of the source goes on by one when the application draws from it, and else stays as it is. */
  predicate OnlyDrawn(s: Sys, e: Event, s': Sys, name: string)
    requires Has(s.w, name)
  {
    && Has(s'.w, name)
    && s'.w.servers[Src(s'.w)].sequences[name]
       == if e == Env(Draw(Src(s.w), name)) then Sequences.NextVal(s.w.servers[Src(s.w)].sequences[name]).1
          else s.w.servers[Src(s.w)].sequences[name]
  }

  lemma ExecLeavesSource(c: Config, s: Sys, x: Effect, s': Sys, name: string)
    requires Next(c, s, Migrate(Exec(x))) == Some(s') && Placed(s) && Has(s.w, name) && Apart(s.w.status)
    ensures OnlyDrawn(s, Migrate(Exec(x)), s', name)
  {
    ExecChange(c, s, x, s');
    PerformKeepsSource(c, s.w.servers, s.ses, x);
  }

  lemma EnvLeavesSource(s: Sys, e: EnvEvent, s': Sys, name: string)
    requires NextEnvironment(s, e) == Some(s') && Has(s.w, name)
    ensures OnlyDrawn(s, Env(e), s', name)
  {
  }

  lemma StepLeavesSource(c: Config, s: Sys, e: Event, s': Sys, name: string)
    requires Inside(c, s, e, s') && Placed(s) && Has(s.w, name)
    ensures OnlyDrawn(s, e, s', name)
  {
    SameServers(c, s, e, s');
    if e.Env? {
      EnvLeavesSource(s, e.env, s', name);
    } else if e.Provision? {
      NoProvisionWhileRunning(c, s, e.provision);
    } else if e.Migrate? && e.migrate.Exec? {
      ExecLeavesSource(c, s, e.migrate.effect, s', name);
    } else {
      OthersLeaveServers(c, s, e, s');
    }
  }

  lemma EnvKeepsNames(s: Sys, e: EnvEvent, s': Sys, name: string)
    requires NextEnvironment(s, e) == Some(s') && Has(s'.w, name)
    ensures Has(s.w, name)
  {
  }

  lemma ExecKeepsNames(c: Config, s: Sys, x: Effect, s': Sys, name: string)
    requires Next(c, s, Migrate(Exec(x))) == Some(s') && Placed(s) && Has(s'.w, name) && Apart(s.w.status)
    ensures Has(s.w, name)
  {
    ExecChange(c, s, x, s');
    PerformKeepsSource(c, s.w.servers, s.ses, x);
  }

  lemma NamesStay(c: Config, s: Sys, e: Event, s': Sys, name: string)
    requires Inside(c, s, e, s') && Placed(s) && Has(s'.w, name)
    ensures Has(s.w, name)
  {
    SameServers(c, s, e, s');
    if e.Env? {
      EnvKeepsNames(s, e.env, s', name);
    } else if e.Provision? {
      NoProvisionWhileRunning(c, s, e.provision);
    } else if e.Migrate? && e.migrate.Exec? {
      ExecKeepsNames(c, s, e.migrate.effect, s', name);
    } else {
      OthersLeaveServers(c, s, e, s');
    }
  }

  // ---- the sequences of the target, once the application uses it

  /** The session is not past the reset of the sequences. */
  predicate Early(pc: Pc) {
    match pc
    case Run(n) => Position(n) <= Position(ResetTargetSequence)
    case Got(n) => n != Retry && Position(n) <= Position(ResetTargetSequence)
    case Moved(n) => n != Retry && Position(n) <= Position(ResetTargetSequence)
    case Reading(_) => true
    case Setting(_) => true
    case Granted => true
    case Restored => true
    case _ => false
  }

  /** A session that resets sequences of a target in use takes the target for the source. */
  predicate Matched(s: Sys) {
    && s.w.status.migration.At?
    && (AppMoved(s.w) ==> Position(s.w.status.migration.stage) >= Position(ResetTargetSequence))
    && (Executes(s.ses) && Early(s.ses.pc) && AppMoved(s.w) ==> AddrOf(s.ses.src) == Tgt(s.w))
  }

  lemma RecoversApp(w: World, m: Migration)
    requires m.At? && Replicator(m.stage).Some? && Position(m.stage) >= Position(ResetTargetSequence)
    requires Position(Replicator(m.stage).value) <= Position(ResetTargetSequence)
    ensures RecoverSource(w, m) == w.app
  {
  }

  lemma ResumeKeepsMatch(c: Config, s: Sys, s': Sys)
    requires Next(c, s, Migrate(Resume)) == Some(s') && s.ses.mem == s.w.status && Matched(s)
    ensures Matched(s')
  {
    if AppMoved(s.w) && Early(s'.ses.pc) {
      RecoversApp(s.w, s.w.status.migration);
    }
  }

  lemma ResumesPersisted(c: Config, s: Sys, s': Sys)
    requires Inside(c, s, Migrate(Resume), s')
    ensures s.ses.mem == s.w.status
  {
  }

  lemma EarlyMoves(pc: Pc, pc': Pc)
    requires ExecMoves(pc, pc') && Early(pc')
    ensures Early(pc)
  {
    if pc.Run? && HasState(pc.stage) {
      SuccessorAdvances(pc.stage);
    }
  }

  lemma ExecKeepsMatch(c: Config, s: Sys, x: Effect, s': Sys)
    requires Next(c, s, Migrate(Exec(x))) == Some(s') && Matched(s)
    ensures Matched(s')
  {
    ExecChange(c, s, x, s');
    if Early(s'.ses.pc) {
      EarlyMoves(s.ses.pc, s'.ses.pc);
    }
  }

  lemma SecretsAreLate(c: Config, s: Sys, e: MigrateEvent, s': Sys)
    requires Next(c, s, Migrate(e)) == Some(s') && !e.Exec? && !e.Resume?
    ensures s'.w.status == s.w.status && s.ses.Busy? && s'.ses.Busy? && s'.ses.src == s.ses.src
    ensures e != Take ==> !Early(s'.ses.pc)
    ensures e == Take ==> s'.w == s.w && s.ses.pc.Got? && s'.ses.pc == Moved(s.ses.pc.next) && s.ses.pc.next != Retry
    ensures e != Reroute ==> s'.w.app == s.w.app
  {
  }

  lemma SecretsKeepMatch(c: Config, s: Sys, e: MigrateEvent, s': Sys)
    requires Inside(c, s, Migrate(e), s') && Matched(s) && !e.Exec? && !e.Resume?
    ensures Matched(s')
  {
    SecretsAreLate(c, s, e, s');
    if e == Reroute {
      ReroutesAtReset(c, s, e, s');
    }
  }

  lemma ControlKeepsMatch(c: Config, s: Sys, e: SessionEvent, s': Sys)
    requires Inside(c, s, Control(e), s') && Matched(s)
    ensures Matched(s')
  {
    SameServers(c, s, Control(e), s');
    ControlChange(c, s, e, s');
    if Executes(s'.ses) && Early(s'.ses.pc) {
      ControlIsEarly(c, s, e, s');
    }
  }

  lemma ControlIsEarly(c: Config, s: Sys, e: SessionEvent, s': Sys)
    requires Inside(c, s, Control(e), s') && Executes(s'.ses) && Early(s'.ses.pc)
    ensures s.ses.Busy? && Early(s.ses.pc)
  {
  }

  lemma EnvKeepsMatch(s: Sys, e: EnvEvent, s': Sys)
    requires NextEnvironment(s, e) == Some(s') && Matched(s)
    ensures Matched(s')
  {
  }

  lemma StepKeepsMatch(c: Config, s: Sys, e: Event, s': Sys)
    requires Inside(c, s, e, s') && Matched(s)
    ensures Matched(s')
  {
    match e
    case Env(x) => EnvKeepsMatch(s, x, s');
    case Control(x) => ControlKeepsMatch(c, s, x, s');
    case Provision(x) => NoProvisionWhileRunning(c, s, x);
    case Clean(x) => NoCleanupWhileRunning(c, s, x);
    case Migrate(x) => MigrateKeepsMatch(c, s, x, s');
  }

  lemma MigrateKeepsMatch(c: Config, s: Sys, e: MigrateEvent, s': Sys)
    requires Inside(c, s, Migrate(e), s') && Matched(s)
    ensures Matched(s')
  {
    match e
    case Resume =>
      ResumesPersisted(c, s, s');
      ResumeKeepsMatch(c, s, s');
    case Exec(x) => ExecKeepsMatch(c, s, x, s');
    case _ => SecretsKeepMatch(c, s, e, s');
  }

  /** The target has the sequence. */
  predicate TargetHas(w: World, name: string) {
    Tgt(w) in w.servers && name in w.servers[Tgt(w)].sequences
  }

  function TargetLast(w: World, name: string): int
    requires TargetHas(w, name)
  {
    w.servers[Tgt(w)].sequences[name].last
  }

  /** A value in hand for a sequence in use is half a gap ahead of it, less what has been drawn from it. */
  predicate RoomInv(s: Sys, name: string, draws: nat) {
    name in InHand(s) && AppMoved(s.w) ==> TargetHas(s.w, name) && InHand(s)[name] + draws >= TargetLast(s.w, name) + 5000
  }

  predicate DrawsFromTarget(s: Sys, e: Event, name: string) {
    e == Env(Draw(Tgt(s.w), name))
  }

  lemma EnvKeepsApp(s: Sys, e: EnvEvent, s': Sys)
    requires NextEnvironment(s, e) == Some(s')
    ensures s'.w.app == s.w.app
  {
  }

  lemma MovesOnce(c: Config, s: Sys, e: Event, s': Sys)
    requires Inside(c, s, e, s') && Placed(s)
    ensures AppMoved(s.w) ==> AppMoved(s'.w)
    ensures AppMoved(s'.w) && !AppMoved(s.w) ==> InHand(s') == map[]
  {
    SameServers(c, s, e, s');
    match e
    case Env(x) => EnvKeepsApp(s, x, s');
    case Control(x) => ControlChange(c, s, x, s');
    case Provision(x) => NoProvisionWhileRunning(c, s, x);
    case Clean(x) => NoCleanupWhileRunning(c, s, x);
    case Migrate(x) => MigrateMovesOnce(c, s, x, s');
  }

  lemma MigrateMovesOnce(c: Config, s: Sys, e: MigrateEvent, s': Sys)
    requires Inside(c, s, Migrate(e), s') && Placed(s)
    ensures AppMoved(s.w) ==> AppMoved(s'.w)
    ensures AppMoved(s'.w) && !AppMoved(s.w) ==> InHand(s') == map[]
  {
    if e.Exec? {
      ExecChange(c, s, e.effect, s');
    }
  }

  lemma OthersKeepRoom(c: Config, s: Sys, e: Event, s': Sys, name: string, draws: nat)
    requires Inside(c, s, e, s') && Placed(s) && Matched(s) && RoomInv(s, name, draws) && !TouchesSequences(e)
    ensures RoomInv(s', name, draws)
  {
    MovesOnce(c, s, e, s');
    OthersSet(c, s, e, s', name);
    if AppMoved(s.w) {
      SameServers(c, s, e, s');
      OthersKeepSequences(c, s, e, s');
    }
  }

  lemma DrawKeepsRoom(s: Sys, a: Addr, drawn: string, s': Sys, name: string, draws: nat)
    requires NextEnvironment(s, Draw(a, drawn)) == Some(s') && RoomInv(s, name, draws)
    ensures RoomInv(s', name, draws + if DrawsFromTarget(s, Env(Draw(a, drawn)), name) then 1 else 0)
  {
    EnvSets(s, Draw(a, drawn), s', name);
  }

  lemma PartsKeepRoom(c: Config, s: Sys, x: ResetStep, s': Sys, name: string, draws: nat)
    requires Next(c, s, Migrate(Exec(Reset(x)))) == Some(s') && Placed(s) && Matched(s) && RoomInv(s, name, draws)
    ensures RoomInv(s', name, draws)
  {
    ExecChange(c, s, Reset(x), s');
    if x == ReadValue(name) {
      Sequences.ResetIsAhead(s.w.servers[AddrOf(s.ses.src)].sequences[name].last);
    } else if x.SetValue? {
      SetChange(c, s, x.name, s');
    }
  }

  lemma StepKeepsRoom(c: Config, s: Sys, e: Event, s': Sys, name: string, draws: nat)
    requires Inside(c, s, e, s') && Placed(s) && Matched(s) && RoomInv(s, name, draws)
    ensures RoomInv(s', name, draws + if DrawsFromTarget(s, e, name) then 1 else 0)
  {
    if !TouchesSequences(e) {
      OthersKeepRoom(c, s, e, s', name, draws);
    } else if e.Env? {
      DrawKeepsRoom(s, e.env.at, e.env.name, s', name, draws);
    } else {
      PartsKeepRoom(c, s, e.migrate.effect.step, s', name, draws);
    }
  }

  /** The application uses the target, whose sequence has come to the value. */
  predicate Floor(w: World, name: string, value: int) {
    AppMoved(w) && Ahead(w, name, value)
  }

  lemma StepKeepsFloor(c: Config, s: Sys, e: Event, s': Sys, name: string, value: int)
    requires Inside(c, s, e, s') && Placed(s) && Matched(s) && Floor(s.w, name, value)
    requires name in InHand(s) ==> InHand(s)[name] >= TargetLast(s.w, name)
    ensures Floor(s'.w, name, value)
  {
    MovesOnce(c, s, e, s');
    SameServers(c, s, e, s');
    if !TouchesSequences(e) {
      OthersKeepSequences(c, s, e, s');
      SameSequencesKeep(s.w, s'.w, name, value);
    } else if e.Env? {
      DrawKeepsFloor(s, e.env.at, e.env.name, s', name, value);
    } else {
      PartsKeepFloor(c, s, e.migrate.effect.step, s', name, value);
    }
  }

  lemma DrawKeepsFloor(s: Sys, a: Addr, drawn: string, s': Sys, name: string, value: int)
    requires NextEnvironment(s, Draw(a, drawn)) == Some(s') && Floor(s.w, name, value)
    ensures Floor(s'.w, name, value)
  {
  }

  lemma PartsKeepFloor(c: Config, s: Sys, x: ResetStep, s': Sys, name: string, value: int)
    requires Next(c, s, Migrate(Exec(Reset(x)))) == Some(s') && Placed(s) && Floor(s.w, name, value)
    requires name in InHand(s) ==> InHand(s)[name] >= TargetLast(s.w, name)
    ensures Floor(s'.w, name, value)
  {
    ExecChange(c, s, Reset(x), s');
    if x.SetValue? {
      SetChange(c, s, x.name, s');
    } else {
      OtherPartsRead(c, s, x, s');
    }
  }

  /** In a clean run a target in use is not reset. */
  lemma CleanHasNothingInHand(c: Config, s: Sys)
    requires Inv(c, s) && DataInv(c, s) && Matched(s) && Running(s.w.status.migration) && Apart(s.w.status) && AppMoved(s.w)
    ensures InHand(s) == map[]
  {
  }
}
