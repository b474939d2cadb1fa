/** How a target in use can hand out an identifier twice: its own sequences are reset by an interrupted rerouting. */
module Repeats {
  import opened Options
  import opened Stages
  import opened Claim
  import opened Protocol
  import opened ClaimInvariants
  import opened Reachability
  import opened Resets
  import opened MistakenRun
  import opened Completion

  /** The world with one sequence at another value. */
  function With(w: World, a: Addr, name: string, q: Sequences.Sequence): World
    requires a in w.servers
  {
    WithSequences(w, a, w.servers[a].sequences[name := q])
  }

  lemma DrawsOnce(c: Config, s: Sys, w: World, ses: Session, a: Addr, name: string, q: Sequences.Sequence)
    requires a in w.servers && name in w.servers[a].sequences && InUse(w, a) && Reaches(c, s, Sys(With(w, a, name, q), ses))
    ensures Next(c, Sys(With(w, a, name, q), ses), Env(Draw(a, name)))
            == Some(Sys(With(w, a, name, Sequences.NextVal(q).1), ses))
    ensures Reaches(c, s, Sys(With(w, a, name, Sequences.NextVal(q).1), ses))
  {
    var w0, w1 := With(w, a, name, q), With(w, a, name, Sequences.NextVal(q).1);
    assert w0.servers[a].sequences[name := Sequences.NextVal(q).1] == w1.servers[a].sequences;
    assert w0.servers[a := w1.servers[a]] == w1.servers;
    Then(c, s, Sys(w0, ses), Env(Draw(a, name)), Sys(w1, ses));
  }

  /** Enough draws bring a sequence in use to any value ahead of it. */
  lemma {:induction false} DrawsUpTo(c: Config, s: Sys, w: World, ses: Session, a: Addr, name: string,
                                     q: Sequences.Sequence, value: int)
    requires a in w.servers && name in w.servers[a].sequences && InUse(w, a) && Reaches(c, s, Sys(With(w, a, name, q), ses))
    requires q.last < value || q == Sequences.Sequence(value, true)
    ensures Reaches(c, s, Sys(With(w, a, name, Sequences.Sequence(value, true)), ses))
    decreases value - q.last + if q.called then 0 else 1
  {
    if q != Sequences.Sequence(value, true) {
      DrawsOnce(c, s, w, ses, a, name, q);
      DrawsUpTo(c, s, w, ses, a, name, Sequences.NextVal(q).1, value);
    }
  }

  /** The values of the target itself are read, in a session that takes it for the source. */
  lemma ReadsTarget(c: Config, s: Sys, m: Sys, name: string) returns (values: map<string, int>)
    requires Reaches(c, s, m) && AtStages(c, m.ses) && m.ses.pc == Run(ResetTargetSequence)
    requires AddrOf(m.ses.src) == AddrOf(m.ses.tgt) && AddrOf(m.ses.tgt) in m.w.servers
    requires CanReset(m.w.servers[AddrOf(m.ses.tgt)].sequences) && name in m.w.servers[AddrOf(m.ses.tgt)].sequences
    ensures values.Keys == m.w.servers[AddrOf(m.ses.tgt)].sequences.Keys
    ensures values[name] > m.w.servers[AddrOf(m.ses.tgt)].sequences[name].last
    ensures Reaches(c, s, m.(ses := m.ses.(pc := Reading(values))))
  {
    var m1 := m.(ses := m.ses.(pc := Reading(map[])));
    Then(c, s, m, Migrate(Exec(Reset(BeginReset))), m1);
    values := ReadsAll(c, s, m1, m.w.servers[AddrOf(m.ses.tgt)].sequences.Keys);
    Sequences.ResetIsAhead(m.w.servers[AddrOf(m.ses.tgt)].sequences[name].last);
  }

  /** The value that was read is set, although the sequence has gone on. */
  lemma SetsBack(c: Config, s: Sys, w: World, ses: Session, name: string, q: Sequences.Sequence, values: map<string, int>)
    requires AtStages(c, ses) && AddrOf(ses.src) == AddrOf(ses.tgt) && AddrOf(ses.tgt) in w.servers
    requires values.Keys == w.servers[AddrOf(ses.tgt)].sequences.Keys && name in values
    requires Reaches(c, s, Sys(With(w, AddrOf(ses.tgt), name, q), ses.(pc := Reading(values))))
    ensures Reaches(c, s, Sys(With(w, AddrOf(ses.tgt), name, Sequences.Sequence(values[name], true)),
                              ses.(pc := Setting(values - {name}))))
  {
    var a := AddrOf(ses.tgt);
    var w0, w1 := With(w, a, name, q), With(w, a, name, Sequences.Sequence(values[name], true));
    Then(c, s, Sys(w0, ses.(pc := Reading(values))), Migrate(Exec(Reset(BeginSet))), Sys(w0, ses.(pc := Setting(values))));
    SetsOne(c, s, w, ses, w.servers[a].sequences[name := q], values, name);
    assert w.servers[a].sequences[name := q][name := Sequences.Sequence(values[name], true)] == w1.servers[a].sequences;
  }

  /** From one state an identifier is drawn, and from another that can be reached afterwards the same one. */
  ghost predicate DrawsTwice(c: Config, s: Sys, m: Sys, m': Sys, a: Addr, name: string) {
    && Reaches(c, s, m) && Next(c, m, Env(Draw(a, name))).Some?
    && Reaches(c, Next(c, m, Env(Draw(a, name))).value, m') && Next(c, m', Env(Draw(a, name))).Some?
    && Sequences.NextVal(m.w.servers[a].sequences[name]).0 == Sequences.NextVal(m'.w.servers[a].sequences[name]).0
  }

  lemma TargetCanRepeat(c: Config, s: Sys, m: Sys, name: string) returns (m1: Sys, m2: Sys)
    requires Reaches(c, s, m) && AtStages(c, m.ses) && m.ses.pc == Run(ResetTargetSequence)
    requires AddrOf(m.ses.src) == AddrOf(m.ses.tgt) && AddrOf(m.ses.tgt) in m.w.servers && InUse(m.w, AddrOf(m.ses.tgt))
    requires CanReset(m.w.servers[AddrOf(m.ses.tgt)].sequences) && name in m.w.servers[AddrOf(m.ses.tgt)].sequences
    ensures DrawsTwice(c, s, m1, m2, AddrOf(m.ses.tgt), name)
  {
    var a := AddrOf(m.ses.tgt);
    var q := m.w.servers[a].sequences[name];
    var values := ReadsTarget(c, s, m, name);
    var ses := m.ses.(pc := Reading(values));
    assert m.w.servers[a].sequences[name := q] == m.w.servers[a].sequences;
    assert With(m.w, a, name, q).servers == m.w.servers;
    var at := Sequences.Sequence(values[name], true);
    DrawsUpTo(c, s, m.w, ses, a, name, q, values[name]);
    m1 := Sys(With(m.w, a, name, at), ses);
    DrawsOnce(c, s, m.w, ses, a, name, at);
    var next := Sys(With(m.w, a, name, Sequences.NextVal(at).1), ses);
    Here(c, next);
    SetsBack(c, next, m.w, m.ses, name, Sequences.NextVal(at).1, values);
    m2 := Sys(With(m.w, a, name, at), m.ses.(pc := Setting(values - {name})));
    Here(c, m2);
    DrawsOnce(c, m2, m.w, m2.ses, a, name, at);
  }

  /**
   Every clean migration from an existing database that has just rerouted the application secret can hand out an
   identifier of the target twice: the reset that follows an interruption sets back a sequence that has been drawn from.
   */
  lemma RerouteCanRepeat(c: Config, m: Sys, name: string) returns (m1: Sys, m2: Sys)
    requires Lawful(c) && Good(c, m) && m.ses.Busy? && Migrates(m.ses.mode) && m.ses.pc == Rerouted
    requires m.w.status.active.state == UsingExistingDB
    requires name in m.w.servers[AddrOf(m.w.status.newDb.conn)].sequences
    ensures DrawsTwice(c, m, m1, m2, AddrOf(m.w.status.newDb.conn), name)
  {
    ReroutedIsAhead(c, m);
    AheadIsRerunnable(c, m);
    RoomIsEnough(m.w.servers[AddrOf(m.w.status.newDb.conn)].sequences, 1);
    Here(c, m);
    Then(c, m, m, Control(Abort), Sys(m.w, Idle));
    Reopens(c, m, m.w, ResetTargetSequence);
    m1, m2 := TargetCanRepeat(c, m, Sys(m.w, MistakenSession(m.w, Run(ResetTargetSequence))), name);
  }
}
