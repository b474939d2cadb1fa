/**
 The reconciler itself: the claim is read, changed in memory and written back step by step,
 any call may fail, and every write is an event of the protocol.
 */
module Controller {
  import opened Options
  import opened Stages
  import opened Claim
  import opened Protocol

  /** How a reconcile ends. */
  datatype Outcome = Done | RequeueNow | Requeue | Failed

  /** What the stages of a migration work with. */
  datatype Job = Job(mode: Mode, src: Conn, tgt: Conn)

  /** The run has only grown. */
  ghost predicate Extends(r: Trace, r': Trace) {
    r.states <= r'.states && r.events <= r'.events
  }

  /** The map holds the values from one position to another. */
  ghost predicate Holds(values: map<string, int>, seqs: seq<(string, int)>, from: nat, to: nat)
    requires to <= |seqs|
  {
    && (forall n :: n in values <==> exists j :: from <= j < to && seqs[j].0 == n)
    && (forall j :: from <= j < to ==> seqs[j].0 in values && values[seqs[j].0] == seqs[j].1)
  }

  lemma LeftShrinks(left: map<string, int>, seqs: seq<(string, int)>, i: nat)
    requires Sequences.Distinct(seqs) && Holds(left, seqs, i, |seqs|) && i < |seqs|
    ensures seqs[i].0 in left && left[seqs[i].0] == seqs[i].1 && Holds(left - {seqs[i].0}, seqs, i + 1, |seqs|)
  {
    var left' := left - {seqs[i].0};
    forall n ensures n in left' <==> exists j :: i + 1 <= j < |seqs| && seqs[j].0 == n {
      if n in left' {
        var j :| i <= j < |seqs| && seqs[j].0 == n;
      }
    }
  }

  lemma ReadGrows(values: map<string, int>, seqs: seq<(string, int)>, i: nat)
    requires Sequences.Distinct(seqs) && i < |seqs| && Holds(values, seqs, 0, i)
    ensures seqs[i].0 !in values && Holds(values[seqs[i].0 := seqs[i].1], seqs, 0, i + 1)
  {
    var values' := values[seqs[i].0 := seqs[i].1];
    forall n ensures n in values' <==> exists j :: 0 <= j < i + 1 && seqs[j].0 == n {
      if n in values {
        var j :| 0 <= j < i && seqs[j].0 == n;
        assert 0 <= j < i + 1;
      }
    }
  }

  lemma AllAreRead(values: map<string, int>, names: seq<string>, seqs: seq<(string, int)>,
                   source: map<string, Sequences.Sequence>)
    requires Sequences.Lists(names, source) && |seqs| == |names| && Sequences.Read(names, source, {}, seqs)
    requires Holds(values, seqs, 0, |seqs|)
    ensures values.Keys == source.Keys
  {
    forall n ensures n in values <==> n in source {
      if n in names {
        var j :| 0 <= j < |names| && names[j] == n;
        assert seqs[j].0 == n;
      }
    }
  }

  lemma NothingLeft(left: map<string, int>, seqs: seq<(string, int)>)
    requires Holds(left, seqs, |seqs|, |seqs|)
    ensures left == map[]
  {
    assert forall n :: n !in left;
  }

  /** The target takes a value for the sequence. */
  predicate Takes(servers: map<Addr, Server>, a: Addr, name: string, refused: set<string>) {
    a in servers && name in servers[a].sequences && name !in refused
  }

  /** The servers, with other sequences at one of them. */
  function WithSequences(servers: map<Addr, Server>, a: Addr, sequences: map<string, Sequences.Sequence>): map<Addr, Server>
    requires a in servers
  {
    servers[a := servers[a].(sequences := sequences)]
  }

  /** The values have been set at a server that takes them, and nothing else has changed. */
  ghost predicate HasApplied(before: map<Addr, Server>, servers: map<Addr, Server>, a: Addr, seqs: seq<(string, int)>,
                             refused: set<string>)
    requires a in before
  {
    && servers == WithSequences(before, a, Sequences.Applied(before[a].sequences, seqs))
    && servers[a].sequences.Keys == before[a].sequences.Keys
    && forall i :: 0 <= i < |seqs| ==> Takes(before, a, seqs[i].0, refused)
  }

  lemma NothingApplied(servers: map<Addr, Server>, a: Addr, seqs: seq<(string, int)>, refused: set<string>)
    requires a in servers
    ensures HasApplied(servers, servers, a, seqs[..0], refused)
  {
    assert servers == WithSequences(servers, a, Sequences.Applied(servers[a].sequences, seqs[..0]));
  }

  lemma AppliesNext(before: map<Addr, Server>, servers: map<Addr, Server>, a: Addr, seqs: seq<(string, int)>,
                    refused: set<string>, done: nat)
    requires a in before && done < |seqs| && HasApplied(before, servers, a, seqs[..done], refused)
    ensures Takes(servers, a, seqs[done].0, refused) <==> Takes(before, a, seqs[done].0, refused)
    ensures var value := Sequences.Sequence(seqs[done].1, true);
            Takes(before, a, seqs[done].0, refused) ==>
              HasApplied(before, WithSequences(servers, a, servers[a].sequences[seqs[done].0 := value]), a,
                         seqs[..done + 1], refused)
  {
    Sequences.AppliedGrows(before[a].sequences, seqs, done);
  }

  lemma Unresettable(names: seq<string>, source: map<string, Sequences.Sequence>, unreadable: set<string>,
                     target: map<string, Sequences.Sequence>, refused: set<string>)
    requires Sequences.Lists(names, source)
    requires exists i :: 0 <= i < |names| && (names[i] in unreadable || Sequences.ResetValue(source[names[i]].last).None?)
    ensures exists n :: n in source && !Sequences.Resettable(n, source, unreadable, target, refused)
  {
    var i :| 0 <= i < |names| && (names[i] in unreadable || Sequences.ResetValue(source[names[i]].last).None?);
    assert names[i] in source;
  }

  /** What a mode relies on in the status. */
  predicate Prepared(c: Config, mode: Mode, st: Status) {
    match mode
    case MigrateExistingToNewDB => NotStarted(st.migration)
    case InitiateDBUpgrade => NotStarted(st.migration)
    case MigrationRunning => Running(st.migration)
    case UpgradeRunning => Running(st.migration)
    case UseExisting => c.source.Some?
    case NotSupported => false
    case _ => true
  }

  /** The choice of a mode leaves the active database alone and guarantees what the mode relies on. */
  lemma ModeIsPrepared(c: Config, st: Status)
    ensures var (mode, mem) := GetMode(c, st);
            mem.active == st.active && (mode != NotSupported ==> Prepared(c, mode, mem))
  {
  }

  class Reconciler {
    const c: Config

    // what the API server, the cloud and the databases hold
    var deleting: bool
    var finalizer: bool
    var status: Status
    var app: Option<Conn>
    var temp: Option<Temp>
    var servers: map<Addr, Server>
    var instances: set<string>
    var groups: set<string>

    // the copy of the status in memory
    var claim: Status

    ghost var ses: Session
    ghost var trace: Trace

    ghost function Now(): Sys
      reads this
    {
      Sys(World(deleting, finalizer, status, app, temp, servers, instances, groups), ses)
    }

    /** What has been written so far is a run of the protocol. */
    ghost predicate Valid()
      reads this
    {
      IsRun(c, trace) && Last(trace) == Now() && (ses.Busy? ==> ses.mem == claim)
    }

    constructor (c: Config, deleting: bool, finalizer: bool, status: Status, app: Option<Conn>, temp: Option<Temp>,
                 servers: map<Addr, Server>, instances: set<string>, groups: set<string>)
      ensures Valid() && ses == Idle && this.c == c && |trace.events| == 0
      ensures Now().w == World(deleting, finalizer, status, app, temp, servers, instances, groups)
    {
      this.c, this.deleting, this.finalizer, this.status, this.app, this.temp := c, deleting, finalizer, status, app, temp;
      this.servers, this.instances, this.groups, this.claim := servers, instances, groups, status;
      ses := Idle;
      trace := Trace([Sys(World(deleting, finalizer, status, app, temp, servers, instances, groups), Idle)], []);
    }

    /** Records the event that the last writes amount to. */
    ghost method Record(e: Event)
      requires IsRun(c, trace) && Next(c, Last(trace), e) == Some(Now()) && (ses.Busy? ==> ses.mem == claim)
      modifies this`trace
      ensures Valid() && Extends(old(trace), trace)
      ensures trace == Grown(old(trace), e, Now())
    {
      RunGrows(c, trace, e, Now());
      trace := Grown(trace, e, Now());
    }

    /** The applications, the replication or the owner of the claim act, if they can. */
    method Environment(e: EnvEvent) returns (happened: bool)
      requires Valid()
      modifies this`deleting, this`servers, this`trace
      ensures Valid() && Extends(old(trace), trace)
      ensures happened <==> old(NextEnvironment(Now(), e)).Some?
      ensures Now() == if happened then old(NextEnvironment(Now(), e)).value else old(Now())
    {
      happened := true;
      match e {
        case MarkDeleted =>
          deleting := true;
        case AppWrite(a, role, rows) =>
          happened := a in servers && role in servers[a].writers;
          if happened {
            servers := servers[a := servers[a].(rows := rows)];
          }
        case Replicate(a, rows) =>
          happened := a in servers && servers[a].subscription == Enabled;
          if happened {
            servers := servers[a := servers[a].(rows := rows)];
          }
        case Synchronise(from, a, rows) =>
          happened := a in servers && servers[a].subscription == Enabled
                      && from in servers && servers[from].publication && Covers(rows, servers[from].rows);
          if happened {
            servers := servers[a := servers[a].(rows := rows, synced := true)];
          }
        case Draw(a, name) =>
          happened := a in servers && name in servers[a].sequences
                      && (a == AddrOf(status.active.conn) || (app.Some? && a == AddrOf(app.value)));
          if happened {
            var drawn := Sequences.NextVal(servers[a].sequences[name]).1;
            servers := servers[a := servers[a].(sequences := servers[a].sequences[name := drawn])];
          }
      }
      if happened {
        Record(Env(e));
      }
    }

    /** Writes the status back. */
    method UpdateStatus() returns (ok: bool)
      requires Valid() && ses.Busy?
      modifies this`status, this`ses, this`trace
      ensures Valid() && Extends(old(trace), trace)
      ensures ok ==> status == claim && ses == old(ses).(pc := AfterPersist(old(ses).pc))
      ensures !ok ==> status == old(status) && ses == old(ses)
    {
      ok := *;
      if ok {
        status := claim;
        ses := ses.(pc := AfterPersist(ses.pc));
        Record(Control(Persist));
      }
    }

    /** Ends a reconcile with an error: whatever is in memory is persisted, if that works. */
    method SetError() returns (r: Outcome)
      requires Valid() && ses.Busy?
      modifies this`status, this`ses, this`trace
      ensures Valid() && Extends(old(trace), trace) && ses == Idle
      ensures r == Failed && (status == claim || status == old(status))
    {
      var ok := UpdateStatus();
      ses := Idle;
      Record(Control(Abort));
      r := Failed;
    }

    /** Ends a reconcile that has nothing left to write. */
    method Finish()
      requires Valid() && ses.Busy? && (ses.pc in {Over, Handed, Dispatch} || ses.pc == Got(Retry))
      modifies this`ses, this`trace
      ensures Valid() && Extends(old(trace), trace) && ses == Idle
    {
      ses := Idle;
      Record(Control(Return));
    }

    // ---- the stages of a migration

    /** Records what a stage has done to the databases. */
    ghost method Did(x: Effect, d: Deed)
      requires IsRun(c, trace) && ses.Busy? && ses.mem == claim && Migrates(ses.mode) && c.plan(claim.active).Some?
      requires var before := Last(trace).w.servers;
               && Last(trace) == Sys(Now().w.(servers := before), ses)
               && Perform(c, before, ses, x) == Some(d)
               && servers == if d.Write? then before[d.at := d.server] else before
      modifies this`ses, this`trace
      ensures Valid() && Extends(old(trace), trace) && ses == old(ses).(pc := d.pc)
    {
      ses := ses.(pc := d.pc);
      Record(Migrate(Exec(x)));
    }

    ghost predicate AtStage(t: Job, n: Stage)
      reads this
    {
      Valid() && ses == Busy(t.mode, claim, Run(n), t.src, t.tgt) && Migrates(t.mode) && c.plan(claim.active).Some?
    }

    /** A stage has returned the next one, or it has failed somewhere. */
    ghost predicate Left(t: Job, next: Option<Stage>)
      reads this
    {
      && Valid() && ses.Busy? && ses == Busy(t.mode, claim, ses.pc, t.src, t.tgt) && c.plan(claim.active).Some?
      && (next.Some? ==> ses.pc == Got(next.value))
    }

    /** The stages that only look at the databases, or do nothing at all. */
    method PassStage(t: Job, n: Stage) returns (next: Option<Stage>)
      requires AtStage(t, n) && HasNoEffect(n)
      modifies this`ses, this`trace
      ensures Left(t, next) && Extends(old(trace), trace)
      ensures next == None || next == Some(Successor(n))
    {
      var ok := *;
      if !ok {
        return None;
      }
      Did(Pass, Read(Got(Successor(n))));
      return Some(Successor(n));
    }

    method CreatePublicationStage(t: Job) returns (next: Option<Stage>)
      requires AtStage(t, CreatePublication)
      modifies this`servers, this`ses, this`trace
      ensures Left(t, next) && Extends(old(trace), trace)
      ensures next == None || next == Some(CopySchema)
      ensures var a := SourceAdmin(c, t.mode, claim, t.src);
              next.Some? ==> a in old(servers) && servers == old(servers)[a := old(servers)[a].(publication := true)]
      ensures next.None? ==> servers == old(servers)
    {
      var a := SourceAdmin(c, t.mode, claim, t.src);
      var ok := *;
      if !ok || a !in servers {
        return None;
      }
      if !servers[a].publication {
        servers := servers[a := servers[a].(publication := true)];
      } else {
        assert servers == servers[a := servers[a].(publication := true)];
      }
      Did(CreatePub, Write(a, servers[a], Got(CopySchema)));
      return Some(CopySchema);
    }

    method GrantSuperUser(t: Job) returns (ok: bool)
      requires AtStage(t, CopySchema)
      modifies this`servers, this`ses, this`trace
      ensures Left(t, None) && Extends(old(trace), trace)
      ensures var a := PlannedAddr(c, claim.active);
              ok ==>
                && ses.pc == Granted && a in old(servers)
                && servers == old(servers)[a := old(servers)[a].(
                     superusers := old(servers)[a].superusers + {ParentRole(t.tgt.user)})]
      ensures !ok ==> servers == old(servers)
    {
      var a := PlannedAddr(c, claim.active);
      ok := *;
      ok := ok && a in servers;
      if ok {
        servers := servers[a := servers[a].(superusers := servers[a].superusers + {ParentRole(t.tgt.user)})];
        Did(Grant, Write(a, servers[a], Granted));
      }
    }

    /** Restores the schema; if that fails, because the target is populated or otherwise, the schema is dropped. */
    method RestoreSchema(t: Job) returns (ok: bool)
      requires Left(t, None) && ses.pc == Granted && Migrates(t.mode)
      modifies this`servers, this`ses, this`trace
      ensures Left(t, None) && Extends(old(trace), trace)
      ensures var sa, a := SourceAdmin(c, t.mode, claim, t.src), AddrOf(t.tgt);
              ok ==>
                && ses.pc == Restored && sa in old(servers) && a in old(servers) && !old(servers)[a].populated
                && servers == old(servers)[a := old(servers)[a].(
                     populated := true, sequences := RestoredSequences(old(servers)[sa].sequences))]
      ensures var a := AddrOf(t.tgt);
              !ok ==>
                || servers == old(servers)
                || (a in old(servers)
                    && servers == old(servers)[a := old(servers)[a].(populated := false, sequences := map[])])
    {
      var sa, a := SourceAdmin(c, t.mode, claim, t.src), AddrOf(t.tgt);
      ok := *;
      if sa !in servers || a !in servers {
        return false;
      }
      if ok && !servers[a].populated {
        servers := servers[a := servers[a].(populated := true, sequences := RestoredSequences(servers[sa].sequences))];
        Did(Restore, Write(a, servers[a], Restored));
      } else {
        ok := false;
        var dropped := *;
        if dropped {
          servers := servers[a := servers[a].(populated := false, sequences := map[])];
          Did(RestoreFails, Write(a, servers[a], Over));
        }
      }
    }

    method RevokeSuperUser(t: Job) returns (ok: bool)
      requires Left(t, None) && ses.pc == Restored && Migrates(t.mode)
      modifies this`servers, this`ses, this`trace
      ensures Left(t, if ok then Some(CreateSubscription) else None) && Extends(old(trace), trace)
      ensures var a := PlannedAddr(c, claim.active);
              ok ==>
                && a in old(servers)
                && servers == old(servers)[a := old(servers)[a].(
                     superusers := old(servers)[a].superusers - {ParentRole(t.tgt.user)})]
      ensures !ok ==> servers == old(servers)
    {
      var a := PlannedAddr(c, claim.active);
      ok := *;
      ok := ok && a in servers;
      if ok {
        servers := servers[a := servers[a].(superusers := servers[a].superusers - {ParentRole(t.tgt.user)})];
        Did(RevokeGrant, Write(a, servers[a], Got(CreateSubscription)));
      }
    }

    method CopySchemaStage(t: Job) returns (next: Option<Stage>)
      requires AtStage(t, CopySchema)
      modifies this`servers, this`ses, this`trace
      ensures Left(t, next) && Extends(old(trace), trace)
      ensures next == None || next == Some(CreateSubscription)
      ensures var a := PlannedAddr(c, claim.active);
              next.Some? ==> a in servers && ParentRole(t.tgt.user) !in servers[a].superusers
    {
      var ok := GrantSuperUser(t);
      if !ok {
        return None;
      }
      next := RestoreAndRevoke(t);
    }

    method RestoreAndRevoke(t: Job) returns (next: Option<Stage>)
      requires Left(t, None) && ses.pc == Granted && Migrates(t.mode)
      modifies this`servers, this`ses, this`trace
      ensures Left(t, next) && Extends(old(trace), trace)
      ensures next == None || next == Some(CreateSubscription)
      ensures var a := PlannedAddr(c, claim.active);
              next.Some? ==> a in servers && ParentRole(t.tgt.user) !in servers[a].superusers
    {
      var ok := RestoreSchema(t);
      if !ok {
        return None;
      }
      ok := RevokeSuperUser(t);
      return if ok then Some(CreateSubscription) else None;
    }

    method CreateSubscriptionStage(t: Job) returns (next: Option<Stage>)
      requires AtStage(t, CreateSubscription)
      modifies this`servers, this`ses, this`trace
      ensures Left(t, next) && Extends(old(trace), trace)
      ensures next == None || next == Some(EnableSubscription)
      ensures var a := PlannedAddr(c, claim.active);
              next.Some? ==> a in old(servers) && servers == old(servers)[a :=
                if old(servers)[a].subscription == Absent then old(servers)[a].(subscription := Disabled, synced := false)
                else old(servers)[a]]
      ensures next.None? ==> servers == old(servers)
    {
      var a := PlannedAddr(c, claim.active);
      var ok := *;
      if !ok || a !in servers {
        return None;
      }
      if servers[a].subscription == Absent {
        servers := servers[a := servers[a].(subscription := Disabled, synced := false)];
      } else {
        assert servers == servers[a := servers[a]];
      }
      Did(CreateSub, Write(a, servers[a], Got(EnableSubscription)));
      return Some(EnableSubscription);
    }

    method EnableSubscriptionStage(t: Job) returns (next: Option<Stage>)
      requires AtStage(t, EnableSubscription)
      modifies this`servers, this`ses, this`trace
      ensures Left(t, next) && Extends(old(trace), trace)
      ensures next == None || next == Some(CutOverReadinessCheck)
      ensures var a := PlannedAddr(c, claim.active);
              next.Some? ==> a in old(servers) && servers == old(servers)[a := old(servers)[a].(subscription := Enabled)]
      ensures next.None? ==> servers == old(servers)
    {
      var a := PlannedAddr(c, claim.active);
      var ok := *;
      if !ok || a !in servers || servers[a].subscription == Absent {
        return None;
      }
      servers := servers[a := servers[a].(subscription := Enabled)];
      Did(EnableSub, Write(a, servers[a], Got(CutOverReadinessCheck)));
      return Some(CutOverReadinessCheck);
    }

    /** The first copy is complete once every table of the target is synchronised. */
    method CutOverReadinessStage(t: Job) returns (next: Option<Stage>)
      requires AtStage(t, CutOverReadinessCheck)
      modifies this`ses, this`trace
      ensures Left(t, next) && Extends(old(trace), trace)
      ensures var a := PlannedAddr(c, claim.active);
              next.Some? ==> a in servers && next == Some(if servers[a].synced then ResetTargetSequence else Retry)
    {
      var sa, ta := SourceAdmin(c, t.mode, claim, t.src), PlannedAddr(c, claim.active);
      var ok := *;
      if !ok || sa !in servers || ta !in servers {
        return None;
      }
      next := Some(if servers[ta].synced then ResetTargetSequence else Retry);
      Did(CheckReady, Read(Got(next.value)));
    }

    /** The session is at a part of a stage. */
    ghost predicate AtPart(t: Job, pc: Pc)
      reads this
    {
      Valid() && ses == Busy(t.mode, claim, pc, t.src, t.tgt) && Migrates(t.mode) && c.plan(claim.active).Some?
    }

    /** Records that the values have been read from the source, one after the other. */
    ghost method RecordReads(t: Job, names: seq<string>, seqs: seq<(string, int)>) returns (values: map<string, int>)
      requires AtPart(t, Run(ResetTargetSequence)) && AddrOf(t.src) in servers && AddrOf(t.tgt) in servers
      requires Sequences.Lists(names, servers[AddrOf(t.src)].sequences) && |seqs| == |names|
      requires Sequences.Read(names, servers[AddrOf(t.src)].sequences, {}, seqs)
      modifies this`ses, this`trace
      ensures AtPart(t, Setting(values)) && Extends(old(trace), trace) && Holds(values, seqs, 0, |seqs|)
    {
      Did(Reset(BeginReset), Read(Reading(map[])));
      values := map[];
      var i := 0;
      while i < |seqs|
        invariant 0 <= i <= |seqs| && AtPart(t, Reading(values)) && Extends(old(trace), trace)
        invariant Holds(values, seqs, 0, i)
      {
        values := RecordRead(t, names, seqs, i, values);
        i := i + 1;
      }
      BeginSets(t, names, seqs, values);
    }

    ghost method BeginSets(t: Job, names: seq<string>, seqs: seq<(string, int)>, values: map<string, int>)
      requires AtPart(t, Reading(values)) && AddrOf(t.src) in servers && |seqs| == |names|
      requires Sequences.Lists(names, servers[AddrOf(t.src)].sequences)
      requires Sequences.Read(names, servers[AddrOf(t.src)].sequences, {}, seqs) && Holds(values, seqs, 0, |seqs|)
      modifies this`ses, this`trace
      ensures AtPart(t, Setting(values)) && Extends(old(trace), trace)
    {
      AllAreRead(values, names, seqs, servers[AddrOf(t.src)].sequences);
      Did(Reset(BeginSet), Read(Setting(values)));
    }

    ghost method RecordRead(t: Job, names: seq<string>, seqs: seq<(string, int)>, i: nat, values: map<string, int>)
      returns (values': map<string, int>)
      requires AtPart(t, Reading(values)) && AddrOf(t.src) in servers
      requires Sequences.Lists(names, servers[AddrOf(t.src)].sequences) && i < |seqs| == |names|
      requires Sequences.Read(names, servers[AddrOf(t.src)].sequences, {}, seqs)
      requires Holds(values, seqs, 0, i)
      modifies this`ses, this`trace
      ensures AtPart(t, Reading(values')) && Extends(old(trace), trace) && Holds(values', seqs, 0, i + 1)
    {
      values' := values[names[i] := seqs[i].1];
      ReadGrows(values, seqs, i);
      Did(Reset(ReadValue(names[i])), Read(Reading(values')));
    }

    /** Sets one sequence of the target; a missing one, or a value out of its bounds, is refused. */
    method SetSequence(t: Job, name: string, value: int, refused: set<string>, ghost left: map<string, int>) returns (ok: bool)
      requires AtPart(t, Setting(left)) && AddrOf(t.tgt) in servers && name in left && left[name] == value
      modifies this`servers, this`ses, this`trace
      ensures ok <==> Takes(old(servers), AddrOf(t.tgt), name, refused)
      ensures var a := AddrOf(t.tgt);
              servers == if ok then WithSequences(old(servers), a,
                                      old(servers)[a].sequences[name := Sequences.Sequence(value, true)]) else old(servers)
      ensures AtPart(t, Setting(if ok then left - {name} else left)) && Extends(old(trace), trace)
    {
      var a := AddrOf(t.tgt);
      ok := Takes(servers, a, name, refused);
      if ok {
        servers := servers[a := servers[a].(sequences := servers[a].sequences[name := Sequences.Sequence(value, true)])];
        Did(Reset(SetValue(name)), Write(a, servers[a], Setting(left - {name})));
      }
    }

    /** The first of the collected values are set in the target, and the others are left. */
    ghost predicate Applying(t: Job, before: map<Addr, Server>, seqs: seq<(string, int)>, refused: set<string>, done: nat,
                             left: map<string, int>)
      reads this
    {
      && AtPart(t, Setting(left)) && done <= |seqs| && Holds(left, seqs, done, |seqs|)
      && AddrOf(t.tgt) in before && HasApplied(before, servers, AddrOf(t.tgt), seqs[..done], refused)
    }

    method SetNext(t: Job, ghost before: map<Addr, Server>, seqs: seq<(string, int)>, refused: set<string>, done: nat,
                   ghost left: map<string, int>) returns (ok: bool)
      requires Applying(t, before, seqs, refused, done, left) && Sequences.Distinct(seqs) && done < |seqs|
      modifies this`servers, this`ses, this`trace
      ensures Extends(old(trace), trace) && (ok <==> Takes(before, AddrOf(t.tgt), seqs[done].0, refused))
      ensures ok ==> Applying(t, before, seqs, refused, done + 1, left - {seqs[done].0})
      ensures !ok ==> Applying(t, before, seqs, refused, done, left)
    {
      LeftShrinks(left, seqs, done);
      AppliesNext(before, servers, AddrOf(t.tgt), seqs, refused, done);
      ok := SetSequence(t, seqs[done].0, seqs[done].1, refused, left);
    }

    /** Sets the collected values one after the other, up to the first that the target refuses. */
    method ApplyResets(t: Job, seqs: seq<(string, int)>, refused: set<string>, ghost values: map<string, int>)
      returns (done: nat, ghost left: map<string, int>)
      requires Applying(t, servers, seqs, refused, 0, values) && Sequences.Distinct(seqs)
      modifies this`servers, this`ses, this`trace
      ensures Applying(t, old(servers), seqs, refused, done, left) && Extends(old(trace), trace)
      ensures done < |seqs| ==> !Takes(old(servers), AddrOf(t.tgt), seqs[done].0, refused)
    {
      done, left := 0, values;
      while done < |seqs|
        invariant Applying(t, old(servers), seqs, refused, done, left) && Extends(old(trace), trace)
      {
        var ok := SetNext(t, old(servers), seqs, refused, done, left);
        if !ok {
          return;
        }
        left := left - {seqs[done].0};
        done := done + 1;
      }
    }

    ghost method EndResets(t: Job, seqs: seq<(string, int)>, left: map<string, int>)
      requires AtPart(t, Setting(left)) && Holds(left, seqs, |seqs|, |seqs|)
      modifies this`ses, this`trace
      ensures Left(t, Some(RerouteTargetSecret)) && Extends(old(trace), trace)
    {
      NothingLeft(left, seqs);
      Did(Reset(EndReset), Read(Got(RerouteTargetSecret)));
    }

    /** What has been read from the source is set in the target. */
    method SetSequences(t: Job, ghost names: seq<string>, seqs: seq<(string, int)>, refused: set<string>)
      returns (next: Option<Stage>, done: nat)
      requires AtStage(t, ResetTargetSequence) && AddrOf(t.src) in servers && AddrOf(t.tgt) in servers
      requires Sequences.Lists(names, servers[AddrOf(t.src)].sequences) && |seqs| == |names|
      requires Sequences.Read(names, servers[AddrOf(t.src)].sequences, {}, seqs)
      modifies this`servers, this`ses, this`trace
      ensures Left(t, next) && Extends(old(trace), trace) && done <= |seqs|
      ensures next == if done == |seqs| then Some(RerouteTargetSecret) else None
      ensures HasApplied(old(servers), servers, AddrOf(t.tgt), seqs[..done], refused)
      ensures done < |seqs| ==> !Takes(old(servers), AddrOf(t.tgt), seqs[done].0, refused)
    {
      ghost var values := RecordReads(t, names, seqs);
      NothingApplied(servers, AddrOf(t.tgt), seqs, refused);
      ghost var left;
      done, left := ApplyResets(t, seqs, refused, values);
      if done < |seqs| {
        return None, done;
      }
      EndResets(t, seqs, left);
      next := Some(RerouteTargetSecret);
    }

    /**
     Resets every sequence of the source in the target, one after the other; the first error ends it.  It succeeds
     exactly if every value can be read and the target takes it.
     */
    method ResetSequences(t: Job, unreadable: set<string>, refused: set<string>)
      returns (next: Option<Stage>, ghost names: seq<string>, ghost seqs: seq<(string, int)>)
      requires AtStage(t, ResetTargetSequence) && AddrOf(t.src) in servers && AddrOf(t.tgt) in servers
      modifies this`servers, this`ses, this`trace
      ensures Left(t, next) && Extends(old(trace), trace)
      ensures next == None || next == Some(RerouteTargetSecret)
      ensures var source, target := old(servers)[AddrOf(t.src)].sequences, old(servers)[AddrOf(t.tgt)].sequences;
              && (next.Some? <==> forall n :: n in source ==> Sequences.Resettable(n, source, unreadable, target, refused))
              && Sequences.Lists(names, source) && Sequences.Read(names, source, unreadable, seqs)
              && servers == WithSequences(old(servers), AddrOf(t.tgt), Sequences.Applied(target, seqs))
              && (next.Some? ==> |seqs| == |names|)
    {
      ghost var source, target := servers[AddrOf(t.src)].sequences, servers[AddrOf(t.tgt)].sequences;
      var listed := Sequences.ListNames(servers[AddrOf(t.src)].sequences);
      var resets := Sequences.CollectResets(listed, servers[AddrOf(t.src)].sequences, unreadable);
      if resets.None? {
        Unresettable(listed, source, unreadable, target, refused);
        NothingApplied(servers, AddrOf(t.tgt), [], refused);
        return None, listed, [];
      }
      var done;
      next, done := SetSequences(t, listed, resets.value, refused);
      names, seqs := listed, resets.value[..done];
      assert resets.value[..|listed|] == resets.value;
      if next.None? {
        assert listed[done] in source && !Sequences.Resettable(listed[done], source, unreadable, target, refused);
      }
    }

    method ResetTargetSequenceStage(t: Job) returns (next: Option<Stage>)
      requires AtStage(t, ResetTargetSequence)
      modifies this`servers, this`ses, this`trace
      ensures Left(t, next) && Extends(old(trace), trace)
      ensures next == None || next == Some(RerouteTargetSecret)
      ensures var s, a := AddrOf(t.src), AddrOf(t.tgt);
              next.Some? ==>
                && s in old(servers) && a in old(servers) && a in servers
                && (forall n :: n in old(servers)[s].sequences ==>
                      Sequences.IsReset(n, old(servers)[s].sequences, servers[a].sequences))
    {
      var ok := *;
      if !ok || AddrOf(t.src) !in servers || AddrOf(t.tgt) !in servers {
        return None;
      }
      ghost var source, target := servers[AddrOf(t.src)].sequences, servers[AddrOf(t.tgt)].sequences;
      var unreadable: set<string>, refused: set<string> := *, *;
      ghost var names, seqs;
      next, names, seqs := ResetSequences(t, unreadable, refused);
      if next.Some? {
        forall n | n in source ensures Sequences.IsReset(n, source, servers[AddrOf(t.tgt)].sequences) {
          Sequences.ResetIsExact(names, source, unreadable, seqs, target, n);
        }
      }
    }

    method DisableSourceAccessStage(t: Job) returns (next: Option<Stage>)
      requires AtStage(t, DisableSourceAccess)
      modifies this`servers, this`ses, this`trace
      ensures Left(t, next) && Extends(old(trace), trace)
      ensures next == None || next == Some(ValidateMigrationStatus)
      ensures var a := SourceAdmin(c, t.mode, claim, t.src);
              next.Some? ==>
                && a in old(servers)
                && servers == old(servers)[a := old(servers)[a].(
                     writers := old(servers)[a].writers - {ParentRole(t.src.user)})]
      ensures next.None? ==> servers == old(servers)
    {
      var a := SourceAdmin(c, t.mode, claim, t.src);
      var ok := *;
      if !ok || a !in servers {
        return None;
      }
      servers := servers[a := servers[a].(writers := servers[a].writers - {ParentRole(t.src.user)})];
      Did(RevokeWrites, Write(a, servers[a], Got(ValidateMigrationStatus)));
      return Some(ValidateMigrationStatus);
    }

    /** Goes on only if every table of the source is reached in the target. */
    method ValidateMigrationStage(t: Job) returns (next: Option<Stage>)
      requires AtStage(t, ValidateMigrationStatus)
      modifies this`ses, this`trace
      ensures Left(t, next) && Extends(old(trace), trace)
      ensures next == None || next == Some(DisableSubscription) || next == Some(Retry)
      ensures next == Some(DisableSubscription) ==>
                && AddrOf(t.src) in servers && AddrOf(t.tgt) in servers
                && Covers(servers[AddrOf(t.tgt)].rows, servers[AddrOf(t.src)].rows)
      ensures next == Some(Retry) ==>
                && AddrOf(t.src) in servers && AddrOf(t.tgt) in servers
                && !Covers(servers[AddrOf(t.tgt)].rows, servers[AddrOf(t.src)].rows)
    {
      var unreadable: set<string> := *;
      var ok := *;
      if !ok || AddrOf(t.src) !in servers || AddrOf(t.tgt) !in servers {
        return None;
      }
      var covered := CompareCounts(servers[AddrOf(t.tgt)].rows, servers[AddrOf(t.src)].rows, unreadable);
      if covered.None? {
        return None;
      }
      next := Some(if covered.value then DisableSubscription else Retry);
      Did(Compare, Read(Got(next.value)));
    }

    method DisableSubscriptionStage(t: Job) returns (next: Option<Stage>)
      requires AtStage(t, DisableSubscription)
      modifies this`servers, this`ses, this`trace
      ensures Left(t, next) && Extends(old(trace), trace)
      ensures next == None || next == Some(DeleteSubscription)
      ensures var a := PlannedAddr(c, claim.active);
              next.Some? ==> a in old(servers) && servers == old(servers)[a := old(servers)[a].(
                subscription := if old(servers)[a].subscription == Absent then Absent else Disabled)]
      ensures next.None? ==> servers == old(servers)
    {
      var a := PlannedAddr(c, claim.active);
      var ok := *;
      if !ok || a !in servers {
        return None;
      }
      if servers[a].subscription != Absent {
        servers := servers[a := servers[a].(subscription := Disabled)];
      } else {
        assert servers == servers[a := servers[a].(subscription := Absent)];
      }
      Did(DisableSub, Write(a, servers[a], Got(DeleteSubscription)));
      return Some(DeleteSubscription);
    }

    method DeleteSubscriptionStage(t: Job) returns (next: Option<Stage>)
      requires AtStage(t, DeleteSubscription)
      modifies this`servers, this`ses, this`trace
      ensures Left(t, next) && Extends(old(trace), trace)
      ensures next == None || next == Some(DeletePublication)
      ensures var a := PlannedAddr(c, claim.active);
              next.Some? ==> a in old(servers) && servers == old(servers)[a := old(servers)[a].(subscription := Absent)]
      ensures next.None? ==> servers == old(servers)
    {
      var a := PlannedAddr(c, claim.active);
      var ok := *;
      if !ok || a !in servers {
        return None;
      }
      if servers[a].subscription != Absent {
        servers := servers[a := servers[a].(subscription := Absent)];
      } else {
        assert servers == servers[a := servers[a].(subscription := Absent)];
      }
      Did(DropSub, Write(a, servers[a], Got(DeletePublication)));
      return Some(DeletePublication);
    }

    method DeletePublicationStage(t: Job) returns (next: Option<Stage>)
      requires AtStage(t, DeletePublication)
      modifies this`servers, this`ses, this`trace
      ensures Left(t, next) && Extends(old(trace), trace)
      ensures next == None || next == Some(Completed)
      ensures var a := SourceAdmin(c, t.mode, claim, t.src);
              next.Some? ==> a in old(servers) && servers == old(servers)[a := old(servers)[a].(publication := false)]
      ensures next.None? ==> servers == old(servers)
    {
      var a := SourceAdmin(c, t.mode, claim, t.src);
      var ok := *;
      if !ok || a !in servers {
        return None;
      }
      if servers[a].publication {
        servers := servers[a := servers[a].(publication := false)];
      } else {
        assert servers == servers[a := servers[a].(publication := false)];
      }
      Did(DropPub, Write(a, servers[a], Got(Completed)));
      return Some(Completed);
    }

    method Execute(t: Job, n: Stage) returns (next: Option<Stage>)
      requires AtStage(t, n) && HasState(n)
      modifies this`servers, this`ses, this`trace
      ensures Left(t, next) && Extends(old(trace), trace)
      ensures next == None || next == Some(Successor(n)) || next == Some(Retry)
    {
      match n
      case CreatePublication => next := CreatePublicationStage(t);
      case CopySchema => next := CopySchemaStage(t);
      case CreateSubscription => next := CreateSubscriptionStage(t);
      case EnableSubscription => next := EnableSubscriptionStage(t);
      case CutOverReadinessCheck =>
        next := CutOverReadinessStage(t);
      case ResetTargetSequence =>
        next := ResetTargetSequenceStage(t);
      case DisableSourceAccess => next := DisableSourceAccessStage(t);
      case ValidateMigrationStatus => next := ValidateMigrationStage(t);
      case DisableSubscription => next := DisableSubscriptionStage(t);
      case DeleteSubscription => next := DeleteSubscriptionStage(t);
      case DeletePublication => next := DeletePublicationStage(t);
      case Initial | ValidateConnection | RerouteTargetSecret | WaitToDisableSource =>
        next := PassStage(t, n);
    }

    // ---- a migration in progress

    /** Stores the source connection before the application secret is overwritten with the target. */
    method RerouteSecrets(t: Job) returns (ok: bool)
      requires Left(t, Some(RerouteTargetSecret)) && Migrates(t.mode)
      modifies this`app, this`temp, this`ses, this`trace
      ensures Left(t, None) && Extends(old(trace), trace)
      ensures ok ==> ses.pc == Rerouted && app == Some(t.tgt) && temp.Some? && temp.value.source == Some(t.src)
    {
      ok := KeepSource(t);
      if !ok {
        return;
      }
      ok := *;
      if ok {
        app := Some(t.tgt);
        ses := ses.(pc := Rerouted);
        Record(Migrate(Reroute));
      }
    }

    method KeepSource(t: Job) returns (ok: bool)
      requires Left(t, Some(RerouteTargetSecret)) && Migrates(t.mode)
      modifies this`temp, this`ses, this`trace
      ensures Left(t, None) && Extends(old(trace), trace)
      ensures ok ==> ses.pc == TempSaved && temp.Some? && temp.value.source == Some(t.src)
    {
      ok := *;
      ok := ok && temp.Some?;
      if ok {
        temp := Some(temp.value.(source := Some(t.src)));
        ses := ses.(pc := TempSaved);
        Record(Migrate(SaveTemp));
      }
    }

    /** The next stage is written into the status in memory. */
    method TakeStage(t: Job, n: Stage)
      requires Migrates(t.mode) && claim.migration.At? && n !in {Completed, Retry}
      requires if n == RerouteTargetSecret then Left(t, None) && ses.pc == Rerouted else Left(t, Some(n))
      modifies this`claim, this`ses, this`trace
      ensures Left(t, None) && Extends(old(trace), trace) && ses.pc == Moved(n)
      ensures claim == old(claim).(migration := At(n))
    {
      claim := claim.(migration := At(n));
      ses := ses.(mem := claim, pc := Moved(n));
      Record(Migrate(if n == RerouteTargetSecret then TakeReroute else Take));
    }

    /** Switches the claim in memory to the new database. */
    method SwitchToNew(t: Job)
      requires Left(t, Some(Completed)) && Migrates(t.mode)
      modifies this`claim, this`ses, this`trace
      ensures Valid() && Extends(old(trace), trace) && ses == old(ses).(mem := claim, pc := Switched)
      ensures claim == Handover(old(claim))
    {
      claim := claim.(migration := At(Completed));
      if claim.active.state != UsingExistingDB {
        claim := claim.(oldDb := OldDb(Some(claim.active.conn), claim.active.version, claim.active.engine,
                                       claim.active.shape, PostMigrationInProgress));
      }
      claim := claim.(active := claim.newDb);
      claim := claim.(active := claim.active.(state := Ready));
      claim := claim.(newDb := NO_DB);
      ses := ses.(mem := claim, pc := Switched);
      Record(Migrate(SwitchActive));
    }

    /** Persists the switch, removes the temp secret and reports success. */
    method Complete(t: Job) returns (r: Outcome)
      requires Left(t, Some(Completed)) && Migrates(t.mode)
      modifies this`status, this`claim, this`temp, this`ses, this`trace
      ensures Valid() && Extends(old(trace), trace) && ses == Idle
      ensures status == old(status) || status == Handover(old(claim))
      ensures r == Done ==> status == Handover(old(claim))
    {
      SwitchToNew(t);
      var ok := UpdateStatus();
      if ok {
        r := Report();
      } else {
        r := SetError();
      }
    }

    method Report() returns (r: Outcome)
      requires Valid() && ses.Busy? && Migrates(ses.mode) && ses.pc == Handed && status == claim
      modifies this`status, this`temp, this`ses, this`trace
      ensures Valid() && Extends(old(trace), trace) && ses == Idle && status == claim
    {
      DropTempSecret();
      var ok := UpdateStatus();
      Finish();
      r := if ok then Done else Failed;
    }

    /** Removes the temp secret; an error is ignored. */
    method DropTempSecret()
      requires Valid() && ses.Busy? && Migrates(ses.mode) && ses.pc == Handed
      modifies this`temp, this`trace
      ensures Valid() && Extends(old(trace), trace) && (temp == None || temp == old(temp))
    {
      var ok := *;
      if ok {
        temp := None;
        Record(Migrate(DropTemp));
      }
    }

    /** The connection that is taken for the source: its secret is chosen by the number of the stage. */
    method SourceFromSecret() returns (src: Option<Conn>)
      ensures src == RecoverSource(Now().w, claim.migration)
    {
      if claim.migration.At? && Rank(claim.migration.stage) > Rank(RerouteTargetSecret) {
        if temp.None? {
          return None;
        }
        return temp.value.source;
      }
      return app;
    }

    /** Reads the secrets and makes the connections for the stages; the stage to resume is read from the status. */
    method Prepare(mode: Mode) returns (t: Option<Job>)
      requires Valid() && ses.Busy? && ses.mode == mode && ses.pc == Dispatch && Migrates(mode)
      requires c.plan(claim.active).Some? && Running(claim.migration)
      modifies this`ses, this`trace
      ensures Valid() && Extends(old(trace), trace) && ses.Busy? && ses.mode == mode
      ensures t.Some? ==>
                && claim.migration != At(Retry) && t.value.mode == mode
                && AtStage(t.value, Replicator(claim.migration.stage).value)
                && LogsIn(servers, t.value.tgt) && LogsIn(servers, t.value.src)
                && AdminLogsIn(c, servers, mode, claim, t.value.src)
    {
      if AddrOf(claim.newDb.conn) == AddrOf(claim.active.conn) || temp.None? {
        return None;
      }
      var tgt := Target(claim, temp.value.password);
      var src := SourceFromSecret();
      if !Usable(tgt) || src.None? || app.None? {
        return None;
      }
      var ok := *;
      if !ok || Replicator(claim.migration.stage).None? {
        return None;
      }
      if !AdminLogsIn(c, servers, mode, claim, src.value) || !LogsIn(servers, src.value) {
        return None;
      }
      if PlannedAddr(c, claim.active) !in servers || !LogsIn(servers, tgt) {
        return None;
      }
      ResumeWith(Job(mode, src.value, tgt));
      return Some(Job(mode, src.value, tgt));
    }

    ghost method ResumeWith(t: Job)
      requires Valid() && ses.Busy? && ses.mode == t.mode && ses.pc == Dispatch && Migrates(t.mode)
      requires Resumable(c, Now().w, t.mode, claim)
      requires Some(t.src) == RecoverSource(Now().w, claim.migration) && t.tgt == Target(claim, temp.value.password)
      modifies this`ses, this`trace
      ensures AtStage(t, Replicator(claim.migration.stage).value) && Extends(old(trace), trace)
    {
      ses := ses.(pc := Run(Replicator(claim.migration.stage).value), src := t.src, tgt := t.tgt);
      Record(Migrate(Resume));
    }

    /** Takes the next stage into the status and persists it, rerouting the secrets on the way. */
    method Advance(t: Job, n: Stage) returns (ok: bool)
      requires Left(t, Some(n)) && Migrates(t.mode) && claim == status && Running(claim.migration)
      requires HasState(n) && n != Initial
      modifies this`status, this`claim, this`app, this`temp, this`ses, this`trace
      ensures Left(t, None) && Extends(old(trace), trace)
      ensures claim == old(claim) || claim == old(claim).(migration := At(n))
      ensures status == old(status) || status == claim
      ensures ok ==> ses.pc == AfterPersist(Moved(n)) && claim == status && claim.migration == At(n)
    {
      if n == RerouteTargetSecret {
        ok := RerouteSecrets(t);
        if !ok {
          return;
        }
      }
      TakeStage(t, n);
      ok := UpdateStatus();
    }

    method ReconcileMigrationInProgress(mode: Mode) returns (r: Outcome)
      requires Valid() && ses.Busy? && ses.mode == mode && ses.pc == Dispatch && Migrates(mode)
      requires c.plan(claim.active).Some? && Running(claim.migration) && claim == status
      modifies this`status, this`claim, this`app, this`temp, this`servers, this`ses, this`trace
      ensures Valid() && Extends(old(trace), trace) && ses == Idle
      ensures status == old(status).(migration := status.migration) || status == Handover(old(status))
      ensures r == Done ==> status == Handover(old(status))
    {
      var credentials := *;
      if claim.newDb.conn.host == "" {
        r := SetError();
        return;
      }
      if !credentials {
        Finish();
        return Requeue;
      }
      r := ResumeStages(mode);
    }

    /** Resumes at the persisted stage, if the connections can be made. */
    method ResumeStages(mode: Mode) returns (r: Outcome)
      requires Valid() && ses.Busy? && ses.mode == mode && ses.pc == Dispatch && Migrates(mode)
      requires c.plan(claim.active).Some? && Running(claim.migration) && claim == status
      modifies this`status, this`claim, this`app, this`temp, this`servers, this`ses, this`trace
      ensures Valid() && Extends(old(trace), trace) && ses == Idle
      ensures status == old(status).(migration := status.migration) || status == Handover(old(status))
      ensures r == Done ==> status == Handover(old(status))
    {
      var job := Prepare(mode);
      if job.None? {
        r := SetError();
        return;
      }
      r := RunStages(job.value, Replicator(claim.migration.stage).value);
    }

    /** Persists the next stage; the wait before the source is disabled ends the session. */
    method GoOn(t: Job, n: Stage) returns (r: Option<Outcome>)
      requires Left(t, Some(n)) && Migrates(t.mode) && claim == status && Running(claim.migration)
      requires HasState(n) && n != Initial
      modifies this`status, this`claim, this`app, this`temp, this`ses, this`trace
      ensures Valid() && Extends(old(trace), trace)
      ensures status == old(status) || status == old(status).(migration := At(n))
      ensures r.Some? ==> ses == Idle && (r.value == Requeue || r.value == Failed)
      ensures r.None? ==> AtStage(t, n) && claim == status && status.migration == At(n)
    {
      var ok := Advance(t, n);
      if !ok {
        var e := SetError();
        r := Some(e);
      } else if n == WaitToDisableSource {
        Finish();
        r := Some(Requeue);
      } else {
        r := None;
      }
    }

    /** Executes one stage and persists the next; without a result, the session goes on with the next stage. */
    method RunStage(t: Job, s: Stage) returns (r: Option<Outcome>, next: Stage)
      requires AtStage(t, s) && HasState(s)
      requires claim == status && Running(claim.migration)
      modifies this`status, this`claim, this`app, this`temp, this`servers, this`ses, this`trace
      ensures Valid() && Extends(old(trace), trace)
      ensures status == old(status).(migration := status.migration) || status == Handover(old(status))
      ensures r.Some? ==> ses == Idle
      ensures r == Some(Done) ==> status == Handover(old(status))
      ensures r.None? ==>
                && AtStage(t, next) && next == Successor(s) && next != Completed
                && claim == status && status == old(status).(migration := At(next))
    {
      SuccessorAdvances(s);
      next := s;
      var result := Execute(t, s);
      if result.None? {
        var e := SetError();
        return Some(e), s;
      }
      if result.value == Completed {
        var e := Complete(t);
        return Some(e), s;
      }
      if result.value == Retry {
        Finish();
        return Some(Requeue), s;
      }
      next := result.value;
      r := GoOn(t, next);
    }

    /** Executes one stage after the other until the migration is complete, has to wait, or fails. */
    method RunStages(t: Job, first: Stage) returns (r: Outcome)
      requires AtStage(t, first) && HasState(first)
      requires claim == status && Running(claim.migration)
      modifies this`status, this`claim, this`app, this`temp, this`servers, this`ses, this`trace
      ensures Valid() && Extends(old(trace), trace) && ses == Idle
      ensures status == old(status).(migration := status.migration) || status == Handover(old(status))
      ensures r == Done ==> status == Handover(old(status))
    {
      var s := first;
      while true
        invariant AtStage(t, s) && HasState(s) && Extends(old(trace), trace)
        invariant claim == status && Running(claim.migration) && status == old(status).(migration := status.migration)
        decreases Position(Completed) - Position(s)
      {
        var result, next := RunStage(t, s);
        if result.Some? {
          return result.value;
        }
        SuccessorAdvances(s);
        s := next;
      }
    }

    // ---- provisioning

    ghost predicate Provisioning(mode: Mode, pc: Pc)
      reads this
    {
      && Valid() && ses == Busy(mode, claim, pc, NO_CONN, NO_CONN) && Provisions(mode)
      && c.plan(claim.active).Some? && (mode == UseNewDB || claim.migration == At(Initial))
    }

    /** Asks the cloud for the planned server; what is asked for need not be there yet. */
    method ManageCloudHost(mode: Mode) returns (ready: Option<bool>)
      requires Provisioning(mode, Dispatch)
      modifies this`servers, this`instances, this`groups, this`trace
      ensures Provisioning(mode, Dispatch) && Extends(old(trace), trace)
      ensures ready.Some? ==>
                && PlannedAddr(c, claim.active) in servers
                && PlannedInstances(c, claim) <= instances && PlannedGroups(c, claim) <= groups
    {
      var ok := *;
      if !ok {
        return None;
      }
      var p := c.plan(claim.active).value;
      var a := PlannedAddr(c, claim.active);
      if a !in servers {
        servers := servers[a := FRESH_SERVER];
      }
      instances := instances + c.instances(p.engine, p.shape, p.version);
      groups := groups + c.groups(p.engine, p.shape, p.version);
      Record(Provision(CreateHost));
      ready := *;
    }

    /** Records where the new database is reached and with which parameters it was created. */
    method RecordNewHost(mode: Mode, sslmode: string)
      requires Provisioning(mode, Dispatch) && PlannedAddr(c, claim.active) in servers
      modifies this`claim, this`ses, this`trace
      ensures Provisioning(mode, HostRecorded) && Extends(old(trace), trace)
      ensures claim == old(claim).(newDb := claim.newDb) && AddrOf(claim.newDb.conn) == PlannedAddr(c, claim.active)
    {
      var p := c.plan(claim.active).value;
      var a := PlannedAddr(c, claim.active);
      var db := claim.newDb;
      db := db.(conn := db.conn.(host := a.host, port := a.port, sslmode := sslmode));
      db := db.(version := p.version, engine := p.engine, shape := p.shape, minStorage := p.minStorage);
      if p.engine == "postgres" {
        db := db.(maxStorage := p.maxStorage);
      }
      claim := claim.(newDb := db);
      ses := ses.(mem := claim, pc := HostRecorded);
      Record(Provision(RecordHost(sslmode)));
    }

    /** Creates the database; a migration to a database that is already managed is given up. */
    method CreateDatabase(mode: Mode) returns (ok: bool)
      requires Provisioning(mode, HostRecorded)
      modifies this`claim, this`ses, this`trace
      ensures Valid() && Extends(old(trace), trace) && ses.Busy?
      ensures ok ==> Provisioning(mode, HostRecorded) && claim == old(claim)
    {
      ok := *;
      var managed := *;
      if ok && managed && claim.migration == At(Initial) {
        claim := claim.(migration := Unset);
        ses := ses.(mem := claim, pc := Over);
        Record(Provision(RefuseManaged));
        ok := false;
      }
    }

    /** Creates the role of the application, which may write to the database. */
    method CreateAppRole(mode: Mode) returns (ok: bool)
      requires Provisioning(mode, HostRecorded) && PlannedAddr(c, claim.active) in servers
      modifies this`servers, this`trace
      ensures Provisioning(mode, HostRecorded) && Extends(old(trace), trace)
      ensures PlannedAddr(c, claim.active) in servers
      ensures ok ==> c.user in servers[PlannedAddr(c, claim.active)].writers
    {
      var a := PlannedAddr(c, claim.active);
      ok := *;
      if ok {
        servers := servers[a := servers[a].(writers := servers[a].writers + {c.user})];
        Record(Provision(GrantWrites));
      }
    }

    method RecordAppUser(mode: Mode, user: string)
      requires Provisioning(mode, HostRecorded) && (IsAppUser(c, user) || user == claim.newDb.conn.user)
      modifies this`claim, this`ses, this`trace
      ensures Provisioning(mode, HostReady) && Extends(old(trace), trace)
      ensures claim == old(claim).(newDb := claim.newDb) && claim.newDb.conn.user == user
    {
      if claim.newDb.conn.database == "" {
        claim := claim.(newDb := claim.newDb.(conn := claim.newDb.conn.(database := c.database)));
      }
      claim := claim.(newDb := claim.newDb.(conn := claim.newDb.conn.(user := user)));
      ses := ses.(mem := claim, pc := HostReady);
      Record(Provision(RecordUser(user)));
    }

    /** Makes sure of the role of the application and, when it is due, of a user with a new password. */
    method ManageUser(mode: Mode) returns (ok: bool, password: string)
      requires Provisioning(mode, HostRecorded) && PlannedAddr(c, claim.active) in servers
      modifies this`claim, this`servers, this`ses, this`trace
      ensures Valid() && Extends(old(trace), trace) && ses.Busy?
      ensures ok ==>
                && Provisioning(mode, HostReady) && PlannedAddr(c, claim.active) in servers
                && c.user in servers[PlannedAddr(c, claim.active)].writers
                && (password != "" ==>
                      && claim.newDb.conn.user in servers[PlannedAddr(c, claim.active)].logins
                      && servers[PlannedAddr(c, claim.active)].logins[claim.newDb.conn.user] == password)
    {
      password := "";
      ok := CreateAppRole(mode);
      if !ok {
        return;
      }
      var due: bool := *;
      var user := claim.newDb.conn.user;
      if due {
        var second: bool := *;
        user, password := c.user + (if second then "_b" else "_a"), *;
        ok := SetAppPassword(mode, user, password);
      }
      if ok {
        RecordAppUser(mode, user);
      }
    }

    /** Gives a user of the new database a password. */
    method SetAppPassword(mode: Mode, user: string, password: string) returns (ok: bool)
      requires IsAppUser(c, user)
      requires Provisioning(mode, HostRecorded) && PlannedAddr(c, claim.active) in servers
      modifies this`servers, this`trace
      ensures Provisioning(mode, HostRecorded) && Extends(old(trace), trace)
      ensures var a := PlannedAddr(c, claim.active);
              servers == if ok then old(servers)[a := old(servers)[a].(logins := old(servers)[a].logins[user := password])]
                         else old(servers)
    {
      var a := PlannedAddr(c, claim.active);
      ok := *;
      if ok {
        servers := servers[a := servers[a].(logins := servers[a].logins[user := password])];
        Record(Provision(SetLogin(user, password)));
      }
    }

    /** Provisions the new database; without a result, it is ready for use and its new password is known. */
    method ReconcileNewDB(mode: Mode) returns (r: Option<Outcome>, password: string)
      requires Provisioning(mode, Dispatch)
      modifies this`status, this`claim, this`servers, this`instances, this`groups, this`ses, this`trace
      ensures Valid() && Extends(old(trace), trace)
      ensures r.Some? ==> ses == Idle && (r.value == Requeue || r.value == Failed)
      ensures r.None? ==> Provisioning(mode, HostReady)
    {
      password := "";
      r := PrepareHost(mode);
      if r.None? {
        r, password := SetUpDatabase(mode);
      }
    }

    /** Without a result, the planned server is there. */
    method PrepareHost(mode: Mode) returns (r: Option<Outcome>)
      requires Provisioning(mode, Dispatch)
      modifies this`status, this`servers, this`instances, this`groups, this`ses, this`trace
      ensures Valid() && Extends(old(trace), trace)
      ensures r.Some? ==> ses == Idle && (r.value == Requeue || r.value == Failed)
      ensures r.None? ==> Provisioning(mode, Dispatch) && PlannedAddr(c, claim.active) in servers
    {
      var ready := AskForHost(mode);
      if ready.None? {
        var e := SetError();
        r := Some(e);
      } else if !ready.value {
        Finish();
        r := Some(Requeue);
      } else {
        r := None;
      }
    }

    method AskForHost(mode: Mode) returns (ready: Option<bool>)
      requires Provisioning(mode, Dispatch)
      modifies this`status, this`servers, this`instances, this`groups, this`ses, this`trace
      ensures Provisioning(mode, Dispatch) && Extends(old(trace), trace)
      ensures ready.Some? ==> PlannedAddr(c, claim.active) in servers
    {
      var ok := UpdateStatus();
      ready := None;
      if ok {
        ready := ManageCloudHost(mode);
      }
    }

    method SetUpDatabase(mode: Mode) returns (r: Option<Outcome>, password: string)
      requires Provisioning(mode, Dispatch) && PlannedAddr(c, claim.active) in servers
      modifies this`status, this`claim, this`servers, this`ses, this`trace
      ensures Valid() && Extends(old(trace), trace)
      ensures r.Some? ==> ses == Idle && (r.value == Requeue || r.value == Failed)
      ensures r.None? ==> Provisioning(mode, HostReady)
    {
      var sslmode: string := *;
      RecordNewHost(mode, sslmode);
      password := "";
      var ok := CreateDatabase(mode);
      if ok {
        ok, password := ManageUser(mode);
      }
      if ok {
        r := None;
      } else {
        var e := SetError();
        r := Some(e);
      }
    }

    /** Creates the temp secret if it is missing. */
    method EnsureTempSecret(mode: Mode) returns (ok: bool)
      requires Provisioning(mode, HostReady) && mode != UseNewDB
      modifies this`temp, this`trace
      ensures Provisioning(mode, HostReady) && Extends(old(trace), trace)
      ensures ok ==> temp.Some? && (old(temp).Some? ==> temp == old(temp))
    {
      ok := *;
      if ok && temp.None? {
        temp := Some(Temp(None, ""));
        Record(Provision(CreateTemp));
      }
    }

    method SaveTargetPassword(mode: Mode, password: string) returns (ok: bool)
      requires Provisioning(mode, HostReady) && mode != UseNewDB
      modifies this`temp, this`trace
      ensures Provisioning(mode, HostReady) && Extends(old(trace), trace)
      ensures ok ==> temp.Some? && temp.value.password == password
    {
      ok := EnsureTempSecret(mode);
      if ok {
        temp := Some(temp.value.(password := password));
        Record(Provision(SavePassword(password)));
      }
    }

    method SaveSourceConn(mode: Mode) returns (ok: bool)
      requires Provisioning(mode, HostReady) && mode != UseNewDB
      modifies this`temp, this`ses, this`trace
      ensures Valid() && Extends(old(trace), trace) && ses.Busy?
      ensures ok ==> Provisioning(mode, SourceSaved) && temp.Some? && temp.value.source.Some? && temp.value.source == app
    {
      var src := SourceFromSecret();
      ok := EnsureTempSecret(mode);
      if !ok || src.None? {
        return false;
      }
      temp := Some(temp.value.(source := src));
      ses := ses.(pc := SourceSaved);
      Record(Provision(SaveSource));
    }

    /** Keeps the password and the source connection in the temp secret. */
    method SaveSecrets(mode: Mode, password: string) returns (ok: bool)
      requires Provisioning(mode, HostReady) && mode != UseNewDB
      modifies this`temp, this`ses, this`trace
      ensures Valid() && Extends(old(trace), trace) && ses.Busy?
      ensures ok ==> Provisioning(mode, SourceSaved) && temp.Some? && temp.value.source.Some? && temp.value.source == app
    {
      if password != "" {
        ok := SaveTargetPassword(mode, password);
        if !ok {
          return;
        }
      }
      ok := SaveSourceConn(mode);
    }

    method MarkAsInitial(mode: Mode)
      requires Valid() && ses == Busy(mode, claim, Dispatch, NO_CONN, NO_CONN) && Provisions(mode) && mode != UseNewDB
      requires c.plan(claim.active).Some? && claim.migration == Unset
      modifies this`claim, this`ses, this`trace
      ensures Valid() && Extends(old(trace), trace)
      ensures claim == old(claim).(migration := At(Initial)) && ses == Busy(mode, claim, Moved(Initial), NO_CONN, NO_CONN)
    {
      claim := claim.(migration := At(Initial));
      ses := ses.(mem := claim, pc := Moved(Initial));
      Record(Provision(MarkInitial));
    }

    /** Persists that a migration is about to start. */
    method Announce(mode: Mode) returns (ok: bool)
      requires Valid() && ses == Busy(mode, claim, Dispatch, NO_CONN, NO_CONN) && Provisions(mode) && mode != UseNewDB
      requires c.plan(claim.active).Some? && NotStarted(claim.migration)
      modifies this`status, this`claim, this`ses, this`trace
      ensures Valid() && Extends(old(trace), trace) && ses.Busy?
      ensures ok ==> Provisioning(mode, Dispatch)
    {
      ok := true;
      if claim.migration == Unset {
        MarkAsInitial(mode);
        ok := UpdateStatus();
      }
    }

    /** Provisions the target of a migration and starts the migration once the source connection is saved. */
    method ReconcileMigrateToNewDB(mode: Mode) returns (r: Outcome)
      requires Valid() && ses == Busy(mode, claim, Dispatch, NO_CONN, NO_CONN) && Provisions(mode) && mode != UseNewDB
      requires c.plan(claim.active).Some? && NotStarted(claim.migration)
      modifies this`status, this`claim, this`temp, this`servers, this`instances, this`groups, this`ses, this`trace
      ensures Valid() && Extends(old(trace), trace) && ses == Idle && r != Done
      ensures r == RequeueNow ==>
                && status.migration == At(MigrationInProgress)
                && temp.Some? && temp.value.source.Some? && temp.value.source == app
    {
      var ok := Announce(mode);
      if !ok {
        r := SetError();
        return;
      }
      var result, password := ReconcileNewDB(mode);
      if result.Some? {
        return result.value;
      }
      ok := SaveSecrets(mode, password);
      if !ok {
        r := SetError();
        return;
      }
      r := StartMigration(mode);
    }

    method MarkAsInProgress(mode: Mode)
      requires Provisioning(mode, SourceSaved) && mode != UseNewDB
      modifies this`claim, this`ses, this`trace
      ensures Valid() && Extends(old(trace), trace)
      ensures claim == old(claim).(migration := At(MigrationInProgress))
      ensures ses == Busy(mode, claim, Moved(MigrationInProgress), NO_CONN, NO_CONN)
    {
      claim := claim.(migration := At(MigrationInProgress));
      ses := ses.(mem := claim, pc := Moved(MigrationInProgress));
      Record(Provision(MarkInProgress));
    }

    method StartMigration(mode: Mode) returns (r: Outcome)
      requires Provisioning(mode, SourceSaved) && mode != UseNewDB
      modifies this`status, this`claim, this`ses, this`trace
      ensures Valid() && Extends(old(trace), trace) && ses == Idle && r != Done
      ensures r == RequeueNow ==> status.migration == At(MigrationInProgress)
    {
      MarkAsInProgress(mode);
      var ok := UpdateStatus();
      if ok {
        Finish();
        r := RequeueNow;
      } else {
        r := SetError();
      }
    }

    /** Publishes the credentials of the new database and makes it the active one. */
    method PromoteNew()
      requires Provisioning(UseNewDB, HostReady)
      modifies this`claim, this`ses, this`trace
      ensures Valid() && Extends(old(trace), trace) && ses == Busy(UseNewDB, claim, Over, NO_CONN, NO_CONN)
      ensures claim == old(claim).(active := old(claim).newDb.(state := Ready), newDb := NO_DB)
    {
      claim := claim.(active := claim.newDb);
      claim := claim.(active := claim.active.(state := Ready));
      claim := claim.(newDb := NO_DB);
      ses := ses.(mem := claim, pc := Over);
      Record(Provision(Promote));
    }

    method PublishSecret(password: string) returns (ok: bool)
      requires Provisioning(UseNewDB, HostReady)
      modifies this`app, this`trace
      ensures Provisioning(UseNewDB, HostReady) && Extends(old(trace), trace)
      ensures app == if ok then Some(claim.newDb.conn.(password := password)) else old(app)
    {
      ok := *;
      if ok {
        app := Some(claim.newDb.conn.(password := password));
        Record(Provision(Publish(password)));
      }
    }

    method ReconcileUseNewDB() returns (r: Outcome)
      requires Provisioning(UseNewDB, Dispatch)
      modifies this`status, this`claim, this`app, this`servers, this`instances, this`groups, this`ses, this`trace
      ensures Valid() && Extends(old(trace), trace) && ses == Idle
      ensures r == Done ==> status.active.state == Ready && status.newDb == NO_DB
    {
      var result, password := ReconcileNewDB(UseNewDB);
      if result.Some? {
        return result.value;
      }
      var ok := true;
      if password != "" {
        ok := PublishSecret(password);
      }
      if ok {
        r := Activate();
      } else {
        r := SetError();
      }
    }

    method Activate() returns (r: Outcome)
      requires Provisioning(UseNewDB, HostReady)
      modifies this`status, this`claim, this`ses, this`trace
      ensures Valid() && Extends(old(trace), trace) && ses == Idle
      ensures r == Done ==> status == old(claim).(active := old(claim).newDb.(state := Ready), newDb := NO_DB)
    {
      PromoteNew();
      var ok := UpdateStatus();
      Finish();
      r := if ok then Done else Failed;
    }

    // ---- using an existing database

    ghost predicate UsingExisting(pc: Pc)
      reads this
    {
      Valid() && ses == Busy(UseExisting, claim, pc, NO_CONN, NO_CONN) && c.source.Some?
    }

    /** The existing database becomes the new one, and it is the active one again if that is the same server. */
    method ChooseSource()
      requires UsingExisting(Dispatch)
      modifies this`claim, this`ses, this`trace
      ensures UsingExisting(Adopting) && Extends(old(trace), trace)
      ensures claim == old(claim).(newDb := claim.newDb)
      ensures claim.newDb.state == UsingExistingDB && claim.newDb.source == c.source
    {
      var source := c.source.value;
      if claim.active.state == UsingExistingDB && AddrOf(claim.active.conn) == AddrOf(source) {
        claim := claim.(newDb := claim.active);
      }
      claim := claim.(newDb := claim.newDb.(state := UsingExistingDB, source := Some(source)));
      ses := ses.(mem := claim, pc := Adopting);
      Record(Provision(Adopt(ChooseExisting)));
    }

    /** The master password is cached in the temp secret, which is created if it is missing. */
    method CacheMasterPassword() returns (ok: bool)
      requires UsingExisting(Adopting)
      modifies this`temp, this`trace
      ensures UsingExisting(Adopting) && Extends(old(trace), trace)
      ensures ok ==> temp.Some? && (old(temp).Some? ==> temp == old(temp))
    {
      ok := *;
      if ok && temp.None? {
        temp := Some(Temp(None, ""));
        Record(Provision(Adopt(CacheMaster)));
      }
    }

    method ReachSource()
      requires UsingExisting(Adopting)
      modifies this`claim, this`ses, this`trace
      ensures UsingExisting(HostRecorded) && Extends(old(trace), trace)
      ensures claim == old(claim).(newDb := claim.newDb) && AddrOf(claim.newDb.conn) == AddrOf(c.source.value)
      ensures claim.newDb.state == old(claim).newDb.state && claim.newDb.source == old(claim).newDb.source
    {
      var source, conn := c.source.value, claim.newDb.conn;
      conn := conn.(host := source.host, port := source.port, sslmode := source.sslmode);
      if conn.database == "" {
        conn := conn.(database := source.database);
      }
      claim := claim.(newDb := claim.newDb.(conn := conn));
      ses := ses.(mem := claim, pc := HostRecorded);
      Record(Provision(Adopt(ReachExisting)));
    }

    method CreateSourceRole() returns (ok: bool)
      requires UsingExisting(HostRecorded)
      modifies this`servers, this`trace
      ensures UsingExisting(HostRecorded) && Extends(old(trace), trace)
      ensures var a := AddrOf(c.source.value); ok ==> a in servers && c.user in servers[a].writers
    {
      var a := AddrOf(c.source.value);
      ok := *;
      ok := ok && a in servers;
      if ok {
        servers := servers[a := servers[a].(writers := servers[a].writers + {c.user})];
        Record(Provision(Adopt(GrantExisting)));
      }
    }

    method RecordSourceUser(user: string)
      requires UsingExisting(HostRecorded) && (IsAppUser(c, user) || user == claim.newDb.conn.user)
      modifies this`claim, this`ses, this`trace
      ensures UsingExisting(HostReady) && Extends(old(trace), trace)
      ensures claim == old(claim).(newDb := old(claim).newDb.(conn := old(claim).newDb.conn.(user := user)))
    {
      claim := claim.(newDb := claim.newDb.(conn := claim.newDb.conn.(user := user)));
      ses := ses.(mem := claim, pc := HostReady);
      Record(Provision(Adopt(RecordExisting(user))));
    }

    method ManageSourceUser() returns (ok: bool, password: string)
      requires UsingExisting(HostRecorded)
      modifies this`claim, this`servers, this`ses, this`trace
      ensures Valid() && Extends(old(trace), trace) && ses.Busy?
      ensures ok ==>
                && UsingExisting(HostReady)
                && claim == old(claim).(newDb := old(claim).newDb.(conn := old(claim).newDb.conn.(user := claim.newDb.conn.user)))
    {
      password := "";
      ok := CreateSourceRole();
      if !ok {
        return;
      }
      var due: bool := *;
      var user := claim.newDb.conn.user;
      if due {
        var second: bool := *;
        user, password := c.user + (if second then "_b" else "_a"), *;
        ok := SetSourcePassword(user, password);
      }
      if ok {
        RecordSourceUser(user);
      }
    }

    method SetSourcePassword(user: string, password: string) returns (ok: bool)
      requires UsingExisting(HostRecorded) && IsAppUser(c, user)
      modifies this`servers, this`trace
      ensures UsingExisting(HostRecorded) && Extends(old(trace), trace)
      ensures var a := AddrOf(c.source.value);
              && (ok ==> a in old(servers))
              && servers == if ok then old(servers)[a := old(servers)[a].(logins := old(servers)[a].logins[user := password])]
                            else old(servers)
    {
      var a := AddrOf(c.source.value);
      ok := *;
      ok := ok && a in servers;
      if ok {
        servers := servers[a := servers[a].(logins := servers[a].logins[user := password])];
        Record(Provision(Adopt(SetExistingLogin(user, password))));
      }
    }

    method PublishSource(password: string) returns (ok: bool)
      requires UsingExisting(HostReady)
      modifies this`app, this`trace
      ensures UsingExisting(HostReady) && Extends(old(trace), trace)
      ensures app == if ok then Some(claim.newDb.conn.(password := password)) else old(app)
    {
      ok := *;
      if ok {
        app := Some(claim.newDb.conn.(password := password));
        Record(Provision(Adopt(PublishExisting(password))));
      }
    }

    method PromoteSource()
      requires UsingExisting(HostReady)
      modifies this`claim, this`ses, this`trace
      ensures UsingExisting(Over) && Extends(old(trace), trace)
      ensures claim == old(claim).(active := old(claim).newDb, newDb := NO_DB)
    {
      claim := claim.(active := claim.newDb);
      claim := claim.(newDb := NO_DB);
      ses := ses.(mem := claim, pc := Over);
      Record(Provision(Adopt(PromoteExisting)));
    }

    /** The source is chosen and reached and has a user; the status is persisted on the way. */
    method AdoptSource() returns (ok: bool)
      requires UsingExisting(Dispatch)
      modifies this`status, this`claim, this`app, this`temp, this`servers, this`ses, this`trace
      ensures Valid() && Extends(old(trace), trace) && ses.Busy?
      ensures ok ==>
                && UsingExisting(HostReady) && claim == old(claim).(newDb := claim.newDb)
                && claim.newDb.state == UsingExistingDB && claim.newDb.source == c.source
                && AddrOf(claim.newDb.conn) == AddrOf(c.source.value)
    {
      ok := ConnectToSource();
      if !ok {
        return;
      }
      var password: string;
      ok, password := ManageSourceUser();
      if ok {
        ok := PersistAndPublish(password);
      }
    }

    method ConnectToSource() returns (ok: bool)
      requires UsingExisting(Dispatch)
      modifies this`claim, this`temp, this`ses, this`trace
      ensures Valid() && Extends(old(trace), trace) && ses.Busy?
      ensures ok ==>
                && UsingExisting(HostRecorded) && claim == old(claim).(newDb := claim.newDb)
                && claim.newDb.state == UsingExistingDB && claim.newDb.source == c.source
                && AddrOf(claim.newDb.conn) == AddrOf(c.source.value)
    {
      ChooseSource();
      ok := CacheMasterPassword();
      if ok {
        ReachSource();
      }
    }

    method PersistAndPublish(password: string) returns (ok: bool)
      requires UsingExisting(HostReady)
      modifies this`status, this`app, this`ses, this`trace
      ensures UsingExisting(HostReady) && Extends(old(trace), trace)
    {
      ok := UpdateStatus();
      if ok && password != "" {
        ok := PublishSource(password);
      }
    }

    /** A user that was updated recently leaves nothing to do; otherwise the existing database becomes active. */
    method ReconcileUseExistingDB() returns (r: Outcome)
      requires UsingExisting(Dispatch)
      modifies this`status, this`claim, this`app, this`temp, this`servers, this`ses, this`trace
      ensures Valid() && Extends(old(trace), trace) && ses == Idle
      ensures r == Done ==>
                && status.active.state == UsingExistingDB && status.active.source == c.source
                && AddrOf(status.active.conn) == AddrOf(c.source.value)
                && status == old(claim).(active := status.active, newDb := NO_DB)
    {
      var recent := *;
      if recent {
        Finish();
        return Requeue;
      }
      var ok := AdoptSource();
      if !ok {
        r := SetError();
        return;
      }
      ok := *;
      if ok {
        r := ActivateSource();
      } else {
        r := SetError();
      }
    }

    method ActivateSource() returns (r: Outcome)
      requires UsingExisting(HostReady)
      modifies this`status, this`claim, this`ses, this`trace
      ensures Valid() && Extends(old(trace), trace) && ses == Idle
      ensures r == Done ==> status == old(claim).(active := old(claim).newDb, newDb := NO_DB)
    {
      PromoteSource();
      var ok := UpdateStatus();
      Finish();
      r := if ok then Done else Failed;
    }

    // ---- cleanup and deletion

    ghost predicate CleaningUp()
      reads this
    {
      Valid() && ses == Busy(PostMigration, claim, Dispatch, NO_CONN, NO_CONN)
    }

    /** Deletes the old parameter groups one by one; errors are only logged. */
    method DropOldGroups()
      requires CleaningUp()
      modifies this`groups, this`trace
      ensures CleaningUp() && Extends(old(trace), trace)
      ensures groups <= old(groups) && old(groups) - groups <= c.oldGroups(claim.oldDb)
    {
      var left := c.oldGroups(claim.oldDb);
      while left != {}
        invariant CleaningUp() && Extends(old(trace), trace) && left <= c.oldGroups(claim.oldDb)
        invariant groups <= old(groups) && old(groups) - groups <= c.oldGroups(claim.oldDb)
        decreases left
      {
        var name :| name in left;
        var ok := *;
        if !ok {
          return;
        }
        groups := groups - {name};
        Record(Clean(DropOldGroup(name)));
        left := left - {name};
      }
    }

    method DropOldInstances()
      requires CleaningUp()
      modifies this`instances, this`trace
      ensures CleaningUp() && Extends(old(trace), trace)
      ensures instances <= old(instances) && old(instances) - instances <= c.oldInstances(claim.oldDb)
    {
      var left := c.oldInstances(claim.oldDb);
      while left != {}
        invariant CleaningUp() && Extends(old(trace), trace) && left <= c.oldInstances(claim.oldDb)
        invariant instances <= old(instances) && old(instances) - instances <= c.oldInstances(claim.oldDb)
        decreases left
      {
        var name :| name in left;
        var ok := *;
        if !ok {
          return;
        }
        instances := instances - {name};
        Record(Clean(DropOldInstance(name)));
        left := left - {name};
      }
    }

    method ForgetOld()
      requires CleaningUp()
      modifies this`claim, this`ses, this`trace
      ensures Valid() && Extends(old(trace), trace) && ses == Busy(PostMigration, claim, Over, NO_CONN, NO_CONN)
      ensures claim == old(claim).(oldDb := NO_OLD_DB)
    {
      claim := claim.(oldDb := NO_OLD_DB);
      ses := ses.(mem := claim, pc := Over);
      Record(Clean(ClearOld));
    }

    method CleanUpOld()
      requires CleaningUp()
      modifies this`claim, this`instances, this`groups, this`ses, this`trace
      ensures Valid() && Extends(old(trace), trace) && ses == Busy(PostMigration, claim, Over, NO_CONN, NO_CONN)
      ensures claim == old(claim).(oldDb := NO_OLD_DB)
      ensures old(instances) - instances <= c.oldInstances(old(claim).oldDb)
      ensures old(groups) - groups <= c.oldGroups(old(claim).oldDb)
    {
      DropOldGroups();
      DropOldInstances();
      ForgetOld();
    }

    /** Once the old resources are tagged, or the wait for that is over, they are deleted and forgotten. */
    method ReconcilePostMigration() returns (r: Outcome)
      requires CleaningUp() && claim == status
      modifies this`status, this`claim, this`instances, this`groups, this`ses, this`trace
      ensures Valid() && Extends(old(trace), trace) && ses == Idle
      ensures status == old(status) || status == old(status).(oldDb := NO_OLD_DB)
      ensures old(instances) - instances <= c.oldInstances(old(status).oldDb)
      ensures old(groups) - groups <= c.oldGroups(old(status).oldDb)
    {
      var delete := *;
      if delete {
        CleanUpOld();
      }
      r := EndCleanup();
    }

    method EndCleanup() returns (r: Outcome)
      requires Valid() && ses.Busy? && (ses.pc == Dispatch || ses.pc == Over)
      modifies this`status, this`ses, this`trace
      ensures Valid() && Extends(old(trace), trace) && ses == Idle && (status == claim || status == old(status))
    {
      var ok := UpdateStatus();
      if ok {
        Finish();
        r := Requeue;
      } else {
        r := SetError();
      }
    }

    method PurgeInstances() returns (ok: bool)
      requires Valid() && ses == Purging(false) && c.reclaim
      modifies this`instances, this`trace
      ensures Valid() && Extends(old(trace), trace)
      ensures ok ==> instances == old(instances) - PurgedInstances(c, status)
    {
      var left := PurgedInstances(c, status);
      while left != {}
        invariant Valid() && Extends(old(trace), trace) && left <= PurgedInstances(c, status)
        invariant instances == old(instances) - (PurgedInstances(c, status) - left)
        decreases left
      {
        var name :| name in left;
        ok := *;
        if !ok {
          return;
        }
        instances := instances - {name};
        Record(Clean(PurgeInstance(name)));
        left := left - {name};
      }
      ok := true;
    }

    method PurgeGroups() returns (ok: bool)
      requires Valid() && ses == Purging(false) && c.reclaim
      modifies this`groups, this`trace
      ensures Valid() && Extends(old(trace), trace)
      ensures ok ==> groups == old(groups) - PlannedGroups(c, status)
    {
      var left := PlannedGroups(c, status);
      while left != {}
        invariant Valid() && Extends(old(trace), trace) && left <= PlannedGroups(c, status)
        invariant groups == old(groups) - (PlannedGroups(c, status) - left)
        decreases left
      {
        var name :| name in left;
        ok := *;
        if !ok {
          return;
        }
        groups := groups - {name};
        Record(Clean(PurgeGroup(name)));
        left := left - {name};
      }
      ok := true;
    }

    /** Deletes the external resources, if the policy asks for it. */
    method DeleteExternalResources() returns (ok: bool)
      requires Valid() && ses == Purging(false)
      modifies this`instances, this`groups, this`ses, this`trace
      ensures Valid() && Extends(old(trace), trace)
      ensures ses == Purging(ok)
      ensures ok ==>
                && instances == (if c.reclaim then old(instances) - PurgedInstances(c, status) else old(instances))
                && groups == (if c.reclaim then old(groups) - PlannedGroups(c, status) else old(groups))
    {
      ok := true;
      if c.reclaim {
        ok := PurgeInstances();
        if !ok {
          return;
        }
        ok := PurgeGroups();
        if !ok {
          return;
        }
      }
      ses := Purging(true);
      Record(Clean(PurgeDone));
    }

    /** Deletes what belongs to the claim, and then lets the claim go. */
    method Purge() returns (r: Outcome)
      requires Valid() && ses == Idle && finalizer && deleting && Deletable(status.migration)
      requires c.plan(status.active).Some?
      modifies this`finalizer, this`instances, this`groups, this`ses, this`trace
      ensures Valid() && Extends(old(trace), trace) && ses == Idle
      ensures !finalizer ==>
                && instances == (if c.reclaim then old(instances) - PurgedInstances(c, status) else old(instances))
                && groups == (if c.reclaim then old(groups) - PlannedGroups(c, status) else old(groups))
    {
      OpenPurge();
      var ok := DeleteExternalResources();
      if ok {
        r := LetGo();
      } else {
        ses := Idle;
        Record(Control(Abort));
        r := Failed;
      }
    }

    ghost method OpenPurge()
      requires Valid() && ses == Idle && finalizer && deleting && Deletable(status.migration)
      requires c.plan(status.active).Some?
      modifies this`ses, this`trace
      ensures Valid() && Extends(old(trace), trace) && ses == Purging(false)
    {
      ses := Purging(false);
      Record(Control(Open));
    }

    method LetGo() returns (r: Outcome)
      requires Valid() && ses == Purging(true)
      modifies this`finalizer, this`ses, this`trace
      ensures Valid() && Extends(old(trace), trace) && ses == Idle
    {
      var ok := *;
      ses := Idle;
      if ok {
        finalizer := false;
        Record(Clean(RemoveFinalizer));
        r := Done;
      } else {
        Record(Control(Abort));
        r := Failed;
      }
    }

    // ---- the reconcile

    /** Chooses the operation mode; an upgrade that is not yet under way starts from a clean slate. */
    method ChooseMode() returns (mode: Mode)
      modifies this`claim
      ensures (mode, claim) == GetMode(c, old(claim))
    {
      if claim.oldDb.state == PostMigrationInProgress {
        if claim.oldDb.conn.None? || claim.active.state != Ready {
          return NotSupported;
        }
        return PostMigration;
      }
      if c.useExisting {
        if c.source.None? || !c.sourceIsDatabase {
          return NotSupported;
        }
        return UseExisting;
      }
      if c.source.Some? && !c.sourceIsDatabase {
        return NotSupported;
      }
      if claim.active.state == UsingExistingDB {
        if c.source.None? && claim.active.source.None? {
          return NotSupported;
        }
        if claim.migration == Unset || claim.migration == At(Initial) {
          return MigrateExistingToNewDB;
        }
        if claim.migration != At(Completed) {
          return MigrationRunning;
        }
      }
      if claim.active.state == Ready && c.upgrade(claim.active) {
        if claim.newDb.state == NoState {
          claim := claim.(newDb := claim.newDb.(state := InProgress), migration := Unset);
        }
        if claim.migration == Unset || claim.migration == At(Initial) {
          return InitiateDBUpgrade;
        }
        if claim.migration != At(Completed) {
          return UpgradeRunning;
        }
      }
      return UseNewDB;
    }

    method OpenClaim() returns (mode: Mode)
      requires Valid() && ses == Idle && finalizer && c.plan(status.active).Some?
      requires deleting ==> !Deletable(status.migration)
      modifies this`claim, this`ses, this`trace
      ensures Valid() && Extends(old(trace), trace) && (mode, claim) == GetMode(c, status)
      ensures ses == Busy(mode, claim, if mode == NotSupported then Over else Begin, NO_CONN, NO_CONN)
    {
      claim := status;
      mode := ChooseMode();
      ses := Busy(mode, claim, if mode == NotSupported then Over else Begin, NO_CONN, NO_CONN);
      Record(Control(Open));
    }

    method ExecuteClaimRequest() returns (r: Outcome)
      requires Valid() && ses == Idle && finalizer && c.plan(status.active).Some?
      requires deleting ==> !Deletable(status.migration)
      modifies this`status, this`claim, this`app, this`temp, this`servers, this`instances, this`groups, this`ses, this`trace
      ensures Valid() && Extends(old(trace), trace) && ses == Idle
    {
      var mode := OpenClaim();
      ModeIsPrepared(c, status);
      if mode == NotSupported {
        r := SetError();
        return;
      }
      var ok := UpdateStatus();
      if !ok {
        r := SetError();
        return;
      }
      r := RunMode(mode);
    }

    method RunMode(mode: Mode) returns (r: Outcome)
      requires Valid() && ses == Busy(mode, claim, Dispatch, NO_CONN, NO_CONN) && claim == status
      requires c.plan(claim.active).Some? && Prepared(c, mode, claim)
      modifies this`status, this`claim, this`app, this`temp, this`servers, this`instances, this`groups, this`ses, this`trace
      ensures Valid() && Extends(old(trace), trace) && ses == Idle
    {
      if mode == PostMigration {
        r := ReconcilePostMigration();
      } else if mode == MigrateExistingToNewDB || mode == InitiateDBUpgrade {
        r := ReconcileMigrateToNewDB(mode);
      } else if mode == UseNewDB {
        r := ReconcileUseNewDB();
      } else if mode == UseExisting {
        r := ReconcileUseExistingDB();
      } else {
        r := ReconcileMigrationInProgress(mode);
      }
    }

    /** Registers the finalizer before anything else is done. */
    method RegisterFinalizer() returns (ok: bool)
      requires Valid() && ses == Idle && !deleting
      modifies this`finalizer, this`trace
      ensures Valid() && Extends(old(trace), trace) && (ok || old(finalizer) ==> finalizer)
    {
      if finalizer {
        return true;
      }
      ok := *;
      if ok {
        finalizer := true;
        Record(Control(AddFinalizer));
      }
    }

    /**
     One reconcile, with any call failing at any point: it only ever takes steps of the protocol, and it
     lets a claim go only if that is marked and no migration is under way.  With the delete policy, exactly
     the resources of the planned server have been deleted then; the active database may be another one.
     */
    method Reconcile() returns (r: Outcome)
      requires Valid() && ses == Idle
      modifies this
      ensures Valid() && Extends(old(trace), trace) && ses == Idle
      ensures deleting == old(deleting)
      ensures old(finalizer) && !finalizer ==>
                && deleting && Deletable(old(status).migration) && status == old(status)
                && instances == (if c.reclaim then old(instances) - PurgedInstances(c, status) else old(instances))
                && groups == (if c.reclaim then old(groups) - PlannedGroups(c, status) else old(groups))
    {
      if c.plan(status.active).None? {
        return Failed;
      }
      if deleting {
        if !finalizer {
          return Done;
        }
        if Deletable(status.migration) {
          r := Purge();
        } else {
          r := ExecuteClaimRequest();
        }
        return;
      }
      var ok := RegisterFinalizer();
      if !ok {
        return Failed;
      }
      r := ExecuteClaimRequest();
    }
  }

  /** Compares the row counts table by table; a count that cannot be read is an error. */
  method CompareCounts(target: map<string, nat>, source: map<string, nat>, unreadable: set<string>)
    returns (covered: Option<bool>)
    ensures covered.None? <==> exists t :: t in source && (t !in target || t in unreadable)
    ensures covered.Some? ==> (covered.value <==> Covers(target, source))
  {
    var left := source.Keys;
    var deuce := true;
    while left != {}
      invariant left <= source.Keys
      invariant forall t :: t in source && t !in left ==> t in target && t !in unreadable
      invariant deuce <==> forall t :: t in source && t !in left ==> t in target && source[t] <= target[t]
      decreases left
    {
      var t :| t in left;
      if t !in target || t in unreadable {
        return None;
      }
      if target[t] < source[t] {
        deuce := false;
      }
      left := left - {t};
    }
    return Some(deuce);
  }
}
