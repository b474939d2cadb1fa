/**
 The reset of the sequences can be executed to its end whenever the target has the sequences of the
 database that is read and no value overflows.
 */
module Resets {
  import opened Options
  import opened Stages
  import opened Claim
  import opened Protocol
  import opened Reachability

  /** Every sequence can be set ahead of its last value. */
  predicate CanReset(sequences: map<string, Sequences.Sequence>) {
    forall n :: n in sequences ==> Sequences.ResetValue(sequences[n].last).Some?
  }

  /** Every sequence can be reset a number of times, each time from the value that the last reset has set. */
  predicate HasRoom(sequences: map<string, Sequences.Sequence>, times: nat) {
    forall n :: n in sequences ==>
      Sequences.MIN_INT64 <= sequences[n].last && sequences[n].last + 20000 * times <= Sequences.MAX_INT64
  }

  lemma RoomIsEnough(sequences: map<string, Sequences.Sequence>, times: nat)
    requires HasRoom(sequences, times) && times > 0
    ensures CanReset(sequences)
  {
    forall n | n in sequences ensures Sequences.ResetValue(sequences[n].last).Some? {
      var x := sequences[n].last + Sequences.GAP;
      assert Sequences.RoundToGap(x) <= x + 5000 && x - 5000 <= Sequences.RoundToGap(x);
    }
  }

  /** The session is able to execute stages. */
  predicate AtStages(c: Config, ses: Session) {
    ses.Busy? && Migrates(ses.mode) && c.plan(ses.mem.active).Some?
  }

  /** The values are the reset values of sequences. */
  predicate IsReadFrom(values: map<string, int>, sequences: map<string, Sequences.Sequence>) {
    forall n :: n in values ==> n in sequences && Sequences.ResetValue(sequences[n].last) == Some(values[n])
  }

  lemma {:induction false} ReadsAll(c: Config, s: Sys, m: Sys, left: set<string>) returns (values: map<string, int>)
    requires Reaches(c, s, m) && AtStages(c, m.ses) && m.ses.pc.Reading? && AddrOf(m.ses.src) in m.w.servers
    requires var sequences := m.w.servers[AddrOf(m.ses.src)].sequences;
             CanReset(sequences) && m.ses.pc.values.Keys + left == sequences.Keys && m.ses.pc.values.Keys !! left
    requires IsReadFrom(m.ses.pc.values, m.w.servers[AddrOf(m.ses.src)].sequences)
    ensures values.Keys == m.w.servers[AddrOf(m.ses.src)].sequences.Keys
    ensures IsReadFrom(values, m.w.servers[AddrOf(m.ses.src)].sequences)
    ensures Reaches(c, s, m.(ses := m.ses.(pc := Reading(values))))
    decreases left
  {
    values := m.ses.pc.values;
    if left != {} {
      var name :| name in left;
      var value := Sequences.ResetValue(m.w.servers[AddrOf(m.ses.src)].sequences[name].last).value;
      var m1 := m.(ses := m.ses.(pc := Reading(values[name := value])));
      Then(c, s, m, Migrate(Exec(Reset(ReadValue(name)))), m1);
      values := ReadsAll(c, s, m1, left - {name});
    }
  }

  /** The world with other sequences at one server, under the same names. */
  predicate OnlySequencesDiffer(w: World, w': World, a: Addr) {
    && a in w.servers && a in w'.servers && w' == w.(servers := w.servers[a := w'.servers[a]])
    && w'.servers[a] == w.servers[a].(sequences := w'.servers[a].sequences)
    && w'.servers[a].sequences.Keys == w.servers[a].sequences.Keys
  }

  /** The world with a server that has the given sequences. */
  function WithSequences(w: World, a: Addr, sequences: map<string, Sequences.Sequence>): World
    requires a in w.servers
  {
    w.(servers := w.servers[a := w.servers[a].(sequences := sequences)])
  }

  /** The sequences with some of them set. */
  function SetTo(sequences: map<string, Sequences.Sequence>, values: map<string, int>): map<string, Sequences.Sequence> {
    map n | n in sequences :: if n in values then Sequences.Sequence(values[n], true) else sequences[n]
  }

  lemma SetsOne(c: Config, s: Sys, w: World, ses: Session, q: map<string, Sequences.Sequence>, left: map<string, int>,
                name: string)
    requires AtStages(c, ses) && AddrOf(ses.tgt) in w.servers && name in left && name in q
    requires Reaches(c, s, Sys(WithSequences(w, AddrOf(ses.tgt), q), ses.(pc := Setting(left))))
    ensures var q' := q[name := Sequences.Sequence(left[name], true)];
            Reaches(c, s, Sys(WithSequences(w, AddrOf(ses.tgt), q'), ses.(pc := Setting(left - {name}))))
  {
    var a, q' := AddrOf(ses.tgt), q[name := Sequences.Sequence(left[name], true)];
    var m := Sys(WithSequences(w, a, q), ses.(pc := Setting(left)));
    var m' := Sys(WithSequences(w, a, q'), ses.(pc := Setting(left - {name})));
    assert m.w.servers[a := m.w.servers[a].(sequences := q')] == m'.w.servers;
    Then(c, s, m, Migrate(Exec(Reset(SetValue(name)))), m');
  }

  lemma {:induction false} SetsAll(c: Config, s: Sys, w: World, ses: Session, q: map<string, Sequences.Sequence>,
                                   left: map<string, int>)
    requires AtStages(c, ses) && AddrOf(ses.tgt) in w.servers && left.Keys <= q.Keys
    requires Reaches(c, s, Sys(WithSequences(w, AddrOf(ses.tgt), q), ses.(pc := Setting(left))))
    ensures Reaches(c, s, Sys(WithSequences(w, AddrOf(ses.tgt), SetTo(q, left)), ses.(pc := Setting(map[]))))
    decreases left.Keys
  {
    if left == map[] {
      assert SetTo(q, left) == q;
    } else {
      var name :| name in left;
      var q' := q[name := Sequences.Sequence(left[name], true)];
      SetsOne(c, s, w, ses, q, left, name);
      SetsAll(c, s, w, ses, q', left - {name});
      assert SetTo(q', left - {name}) == SetTo(q, left);
    }
  }

  /** Each sequence of the source is ahead in the target, and the others of the target are as they were. */
  predicate IsResetFrom(source: map<string, Sequences.Sequence>, before: map<string, Sequences.Sequence>,
                        after: map<string, Sequences.Sequence>)
    requires CanReset(source) && after.Keys == before.Keys
  {
    forall n :: n in after ==>
      after[n] == if n in source then Sequences.Sequence(Sequences.ResetValue(source[n].last).value, true) else before[n]
  }

  lemma ResetTakesRoom(source: map<string, Sequences.Sequence>, before: map<string, Sequences.Sequence>,
                       after: map<string, Sequences.Sequence>, times: nat)
    requires CanReset(source) && after.Keys == before.Keys && IsResetFrom(source, before, after)
    requires HasRoom(source, times + 1) && HasRoom(before, times)
    ensures HasRoom(after, times)
  {
    forall n | n in after
      ensures Sequences.MIN_INT64 <= after[n].last && after[n].last + 20000 * times <= Sequences.MAX_INT64
    {
      if n in source {
        Sequences.ResetIsAhead(source[n].last);
      }
    }
  }

  /** All parts of the reset, one after the other. */
  lemma ResetsAll(c: Config, s: Sys, m: Sys) returns (m': Sys)
    requires Reaches(c, s, m) && AtStages(c, m.ses) && m.ses.pc == Run(ResetTargetSequence)
    requires AddrOf(m.ses.src) in m.w.servers && AddrOf(m.ses.tgt) in m.w.servers
    requires CanReset(m.w.servers[AddrOf(m.ses.src)].sequences)
    requires m.w.servers[AddrOf(m.ses.src)].sequences.Keys <= m.w.servers[AddrOf(m.ses.tgt)].sequences.Keys
    ensures Reaches(c, s, m') && m'.ses == m.ses.(pc := Got(RerouteTargetSecret))
    ensures OnlySequencesDiffer(m.w, m'.w, AddrOf(m.ses.tgt))
    ensures IsResetFrom(m.w.servers[AddrOf(m.ses.src)].sequences, m.w.servers[AddrOf(m.ses.tgt)].sequences,
                        m'.w.servers[AddrOf(m.ses.tgt)].sequences)
  {
    var m1 := m.(ses := m.ses.(pc := Reading(map[])));
    Then(c, s, m, Migrate(Exec(Reset(BeginReset))), m1);
    var values := ReadsAll(c, s, m1, m.w.servers[AddrOf(m.ses.src)].sequences.Keys);
    var m2 := m.(ses := m.ses.(pc := Reading(values)));
    var m3 := m.(ses := m.ses.(pc := Setting(values)));
    Then(c, s, m2, Migrate(Exec(Reset(BeginSet))), m3);
    var a := AddrOf(m.ses.tgt);
    var q := m.w.servers[a].sequences;
    assert WithSequences(m.w, a, q) == m.w;
    SetsAll(c, s, m.w, m.ses, q, values);
    var m4 := Sys(WithSequences(m.w, a, SetTo(q, values)), m.ses.(pc := Setting(map[])));
    m' := m4.(ses := m.ses.(pc := Got(RerouteTargetSecret)));
    Then(c, s, m4, Migrate(Exec(Reset(EndReset))), m');
  }
}
