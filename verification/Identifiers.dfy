/**
 The identifiers that applications draw while a migration is running, in every run, however often
 its sessions are cut off and its sequences are reset.
 */
module Identifiers {
  import opened Options
  import opened Claim
  import opened Protocol
  import opened ClaimInvariants
  import opened ClaimProperties
  import opened DataInvariants
  import opened MigrationSafety
  import opened CutOver
  import opened RerouteWindow
  import opened SequenceRuns

  /** One migration, between two servers, that starts at m and is still running at k. */
  ghost predicate MigratesBetween(c: Config, r: Trace, m: nat, k: nat) {
    IsMigrationRun(c, r) && OneMigration(r, m, k) && Apart(r.states[m].w.status)
  }

  /** What holds at a point of a run, and is kept by every step, holds later. */
  lemma {:induction false} HoldsLater(holds: nat -> bool, j: nat, k: nat)
    requires j <= k && holds(j) && forall i :: j <= i < k && holds(i) ==> holds(i + 1)
    ensures holds(k)
  {
    if j < k {
      HoldsLater(holds, j, k - 1);
    }
  }

  lemma StartIsNotExecuting(c: Config, s: Sys, s': Sys)
    requires Inv(c, s) && NextSession(c, s, Persist) == Some(s')
    requires !Running(s.w.status.migration) && Running(s'.w.status.migration)
    ensures !Executes(s'.ses)
  {
  }

  lemma StartIsPlaced(c: Config, r: Trace, m: nat)
    requires MigratesBetween(c, r, m, m)
    ensures Placed(r.states[m]) && !AppMoved(r.states[m].w) && !Executes(r.states[m].ses)
  {
    assert m > 0 && !Running(r.states[m - 1].w.status.migration);
    RunStartsInProgress(c, r, m);
    assert CleanUpTo(r, m);
    RunData(c, r, m);
    RunInv(c, r, m - 1);
    StepOf(c, r, m - 1);
    if r.events[m - 1] == Control(Persist) {
      StartIsNotExecuting(c, r.states[m - 1], r.states[m]);
    } else {
      OnlyPersistWrites(c, r.states[m - 1], r.events[m - 1], r.states[m]);
    }
  }

  lemma Cut(c: Config, r: Trace, m: nat, j: nat, k: nat)
    requires MigratesBetween(c, r, m, k) && m <= j <= k
    ensures MigratesBetween(c, r, m, j)
  {
  }

  lemma SameStatusServers(c: Config, r: Trace, m: nat, k: nat)
    requires MigratesBetween(c, r, m, k)
    ensures Apart(r.states[k].w.status)
    ensures Src(r.states[k].w) == Src(r.states[m].w) && Tgt(r.states[k].w) == Tgt(r.states[m].w)
  {
    MigrationKeepsCourse(c, r, m, k);
  }

  lemma StepOfRun(c: Config, r: Trace, k: nat)
    requires IsMigrationRun(c, r) && k < |r.events|
    ensures Inv(c, r.states[k]) && Next(c, r.states[k], r.events[k]) == Some(r.states[k + 1])
  {
    RunInv(c, r, k);
    StepOf(c, r, k);
  }

  lemma BothRunning(c: Config, r: Trace, m: nat, k: nat)
    requires MigratesBetween(c, r, m, k + 1) && m <= k
    ensures Running(r.states[k].w.status.migration) && Running(r.states[k + 1].w.status.migration)
    ensures Apart(r.states[k].w.status)
  {
    Cut(c, r, m, k, k + 1);
    SameStatusServers(c, r, m, k);
  }

  lemma StepIsInside(c: Config, r: Trace, m: nat, k: nat)
    requires MigratesBetween(c, r, m, k + 1) && m <= k
    ensures Inside(c, r.states[k], r.events[k], r.states[k + 1])
  {
    StepOfRun(c, r, k);
    BothRunning(c, r, m, k);
  }

  lemma RunStepKeepsPlaces(c: Config, r: Trace, m: nat, k: nat)
    requires MigratesBetween(c, r, m, k + 1) && m <= k && Placed(r.states[k])
    ensures Placed(r.states[k + 1])
  {
    StepIsInside(c, r, m, k);
    StepKeepsPlaces(c, r.states[k], r.events[k], r.states[k + 1]);
  }

  lemma RunPlaced(c: Config, r: Trace, m: nat, k: nat)
    requires MigratesBetween(c, r, m, k)
    ensures Placed(r.states[k])
  {
    Cut(c, r, m, m, k);
    StartIsPlaced(c, r, m);
    forall i | m <= i < k && Placed(r.states[i]) ensures Placed(r.states[i + 1]) {
      Cut(c, r, m, i + 1, k);
      RunStepKeepsPlaces(c, r, m, i);
    }
    HoldsLater((i: nat) => i <= k && Placed(r.states[i]), m, k);
  }

  lemma RunStepKeepsReset(c: Config, r: Trace, m: nat, k: nat, name: string, value: int)
    requires MigratesBetween(c, r, m, k + 1) && m <= k && ResetInv(r.states[k], name, value)
    ensures ResetInv(r.states[k + 1], name, value)
  {
    Cut(c, r, m, k, k + 1);
    RunPlaced(c, r, m, k);
    StepIsInside(c, r, m, k);
    StepKeepsReset(c, r.states[k], r.events[k], r.states[k + 1], name, value);
  }

  lemma RunReadStarts(c: Config, r: Trace, m: nat, k: nat, name: string)
    requires MigratesBetween(c, r, m, k + 1) && m <= k && ReadsFromSource(r.states[k], r.events[k], name)
    ensures Has(r.states[k].w, name) && ResetInv(r.states[k + 1], name, SourceLast(r.states[k].w, name))
  {
    Cut(c, r, m, k, k + 1);
    RunPlaced(c, r, m, k);
    StepIsInside(c, r, m, k);
    ReadStarts(c, r.states[k], r.events[k], r.states[k + 1], name);
  }

  lemma ResetStays(c: Config, r: Trace, m: nat, j: nat, k: nat, name: string, value: int)
    requires MigratesBetween(c, r, m, k) && m <= j <= k && ResetInv(r.states[j], name, value)
    ensures ResetInv(r.states[k], name, value)
  {
    forall i | j <= i < k && ResetInv(r.states[i], name, value) ensures ResetInv(r.states[i + 1], name, value) {
      Cut(c, r, m, i + 1, k);
      RunStepKeepsReset(c, r, m, i, name, value);
    }
    HoldsLater((i: nat) => i <= k && ResetInv(r.states[i], name, value), j, k);
  }

  /** From a reading on, what is set in the target is ahead of the value that was read. */
  lemma RunReset(c: Config, r: Trace, m: nat, i: nat, k: nat, name: string)
    requires MigratesBetween(c, r, m, k) && m <= i < k && ReadsFromSource(r.states[i], r.events[i], name)
    ensures Has(r.states[i].w, name) && ResetInv(r.states[k], name, SourceLast(r.states[i].w, name))
  {
    Cut(c, r, m, i + 1, k);
    RunReadStarts(c, r, m, i, name);
    ResetStays(c, r, m, i + 1, k, name, SourceLast(r.states[i].w, name));
  }

  // ---- identifiers

  /** How often the sequence is drawn from at a server. */
  function Draws(r: Trace, a: Addr, name: string, i: nat, k: nat): nat
    requires i <= k <= |r.events|
    decreases k
  {
    if i == k then 0
    else Draws(r, a, name, i, k - 1) + if r.events[k - 1] == Env(Draw(a, name)) then 1 else 0
  }

  predicate IsDraw(r: Trace, p: nat, a: Addr, name: string) {
    && p < |r.events| && p < |r.states| && r.events[p] == Env(Draw(a, name))
    && a in r.states[p].w.servers && name in r.states[p].w.servers[a].sequences
  }

  /** The identifier that is handed out. */
  function Drawn(r: Trace, p: nat, a: Addr, name: string): int
    requires IsDraw(r, p, a, name)
  {
    Sequences.NextVal(r.states[p].w.servers[a].sequences[name]).0
  }

  lemma RunStepLeavesSource(c: Config, r: Trace, m: nat, k: nat, name: string)
    requires MigratesBetween(c, r, m, k + 1) && m <= k && Has(r.states[k].w, name)
    ensures OnlyDrawn(r.states[k], r.events[k], r.states[k + 1], name)
  {
    Cut(c, r, m, k, k + 1);
    RunPlaced(c, r, m, k);
    StepIsInside(c, r, m, k);
    StepLeavesSource(c, r.states[k], r.events[k], r.states[k + 1], name);
  }

  /** The source has gone on from a value by at most the number of draws. */
  predicate GrownFrom(r: Trace, src: Addr, i: nat, k: nat, name: string, value: int)
    requires i <= k <= |r.events| && |r.states| == |r.events| + 1
  {
    Has(r.states[k].w, name) && value <= SourceLast(r.states[k].w, name) <= value + Draws(r, src, name, i, k)
  }

  lemma RunStepGrows(c: Config, r: Trace, m: nat, i: nat, k: nat, name: string, value: int)
    requires MigratesBetween(c, r, m, k + 1) && m <= i <= k && GrownFrom(r, Src(r.states[m].w), i, k, name, value)
    ensures GrownFrom(r, Src(r.states[m].w), i, k + 1, name, value)
  {
    RunStepLeavesSource(c, r, m, k, name);
    Cut(c, r, m, k, k + 1);
    SameStatusServers(c, r, m, k);
  }

  lemma SourceGrows(c: Config, r: Trace, m: nat, i: nat, k: nat, name: string)
    requires MigratesBetween(c, r, m, k) && m <= i <= k && Has(r.states[i].w, name)
    ensures GrownFrom(r, Src(r.states[m].w), i, k, name, SourceLast(r.states[i].w, name))
  {
    var src, value := Src(r.states[m].w), SourceLast(r.states[i].w, name);
    forall j | i <= j < k && GrownFrom(r, src, i, j, name, value) ensures GrownFrom(r, src, i, j + 1, name, value) {
      Cut(c, r, m, j + 1, k);
      RunStepGrows(c, r, m, i, j, name, value);
    }
    HoldsLater((j: nat) => i <= j <= k && GrownFrom(r, src, i, j, name, value), i, k);
  }

  /** What is drawn from the source by a point of the run is at most its last value then. */
  lemma SourceDrawn(c: Config, r: Trace, m: nat, p: nat, k: nat, name: string)
    requires MigratesBetween(c, r, m, k) && m <= p < k && IsDraw(r, p, Src(r.states[m].w), name)
    ensures Has(r.states[p + 1].w, name)
    ensures Drawn(r, p, Src(r.states[m].w), name) == SourceLast(r.states[p + 1].w, name)
  {
    Cut(c, r, m, p + 1, k);
    Cut(c, r, m, p, k);
    SameStatusServers(c, r, m, p);
    RunStepLeavesSource(c, r, m, p, name);
  }

  /** An identifier of the source stays within half a gap of the value that was read. */
  lemma SourceStaysBehind(c: Config, r: Trace, m: nat, i: nat, p: nat, k: nat, name: string)
    requires MigratesBetween(c, r, m, k) && m <= i < k && Has(r.states[i].w, name)
    requires m <= p < k && IsDraw(r, p, Src(r.states[m].w), name)
    requires i <= p ==> Draws(r, Src(r.states[m].w), name, i, p + 1) <= 5000
    ensures Drawn(r, p, Src(r.states[m].w), name) <= SourceLast(r.states[i].w, name) + 5000
  {
    SourceDrawn(c, r, m, p, k, name);
    if i <= p {
      Cut(c, r, m, p + 1, k);
      SourceGrows(c, r, m, i, p + 1, name);
    } else {
      Cut(c, r, m, i, k);
      SourceGrows(c, r, m, p + 1, i, name);
    }
  }

  /** An identifier is drawn from the target only after the reset. */
  lemma TargetIsAhead(c: Config, r: Trace, m: nat, i: nat, q: nat, k: nat, name: string)
    requires MigratesBetween(c, r, m, k) && m <= i < q < k && ReadsFromSource(r.states[i], r.events[i], name)
    requires IsDraw(r, q, Tgt(r.states[m].w), name)
    ensures Has(r.states[i].w, name)
    ensures Drawn(r, q, Tgt(r.states[m].w), name) > SourceLast(r.states[i].w, name) + 5000
  {
    Cut(c, r, m, q, k);
    RunReset(c, r, m, i, q, name);
    DrawsAfterReroute(c, r, m, q, k, name);
  }

  lemma DrawsAfterReroute(c: Config, r: Trace, m: nat, q: nat, k: nat, name: string)
    requires MigratesBetween(c, r, m, k) && m <= q < k && IsDraw(r, q, Tgt(r.states[m].w), name)
    ensures AppMoved(r.states[q].w) && Tgt(r.states[q].w) == Tgt(r.states[m].w)
  {
    Cut(c, r, m, q, k);
    SameStatusServers(c, r, m, q);
    StepOf(c, r, q);
  }

  // ---- every sequence of the target has been reset from the source

  ghost predicate WasRead(r: Trace, m: nat, k: nat, name: string)
    requires k <= |r.events| && |r.states| == |r.events| + 1
  {
    exists i :: m <= i < k && ReadsFromSource(r.states[i], r.events[i], name)
  }

  lemma RunStepBegins(c: Config, r: Trace, m: nat, k: nat, name: string)
    requires MigratesBetween(c, r, m, k + 1) && m <= k && Has(r.states[k + 1].w, name) && Begun(r.states[k + 1], name)
    ensures Has(r.states[k].w, name)
    ensures Begun(r.states[k], name) || ReadsFromSource(r.states[k], r.events[k], name)
  {
    Cut(c, r, m, k, k + 1);
    RunPlaced(c, r, m, k);
    StepIsInside(c, r, m, k);
    NamesStay(c, r.states[k], r.events[k], r.states[k + 1], name);
    StepBegins(c, r.states[k], r.events[k], r.states[k + 1], name);
  }

  lemma StepWasRead(c: Config, r: Trace, m: nat, k: nat, name: string)
    requires MigratesBetween(c, r, m, k + 1) && m <= k
    requires Has(r.states[k].w, name) && Begun(r.states[k], name) ==> WasRead(r, m, k, name)
    ensures Has(r.states[k + 1].w, name) && Begun(r.states[k + 1], name) ==> WasRead(r, m, k + 1, name)
  {
    if Has(r.states[k + 1].w, name) && Begun(r.states[k + 1], name) {
      RunStepBegins(c, r, m, k, name);
    }
  }

  lemma BegunWasRead(c: Config, r: Trace, m: nat, k: nat, name: string)
    requires MigratesBetween(c, r, m, k) && Has(r.states[k].w, name) && Begun(r.states[k], name)
    ensures WasRead(r, m, k, name)
  {
    Cut(c, r, m, m, k);
    StartHasNotBegun(c, r, m, name);
    var holds := (i: nat) => i <= k && (Has(r.states[i].w, name) && Begun(r.states[i], name) ==> WasRead(r, m, i, name));
    forall i | m <= i < k && holds(i) ensures holds(i + 1) {
      Cut(c, r, m, i + 1, k);
      StepWasRead(c, r, m, i, name);
    }
    HoldsLater(holds, m, k);
  }

  lemma StartHasNotBegun(c: Config, r: Trace, m: nat, name: string)
    requires MigratesBetween(c, r, m, m)
    ensures !Begun(r.states[m], name)
  {
    StartIsPlaced(c, r, m);
    RunInv(c, r, m);
  }

  /**
   For every identifier that is drawn from the target there was a reading of the sequence from the source, before the
   secret was rerouted, such that the identifier is ahead of all that are drawn from the source in the whole migration,
   except for those after more than 5000 draws since that reading.  Resets that are repeated after a crash, or that take
   the target for the source, are included.
   */
  lemma NoCollisionInRun(c: Config, r: Trace, m: nat, q: nat, k: nat, name: string) returns (i: nat)
    requires MigratesBetween(c, r, m, k) && m <= q < k && IsDraw(r, q, Tgt(r.states[m].w), name)
    requires Has(r.states[q].w, name)
    ensures m <= i < q && ReadsFromSource(r.states[i], r.events[i], name)
    ensures var src, tgt := Src(r.states[m].w), Tgt(r.states[m].w);
            forall p :: m <= p < k && IsDraw(r, p, src, name) && (i <= p ==> Draws(r, src, name, i, p + 1) <= 5000) ==>
              Drawn(r, p, src, name) < Drawn(r, q, tgt, name)
  {
    var src, tgt := Src(r.states[m].w), Tgt(r.states[m].w);
    Cut(c, r, m, q, k);
    DrawsAfterReroute(c, r, m, q, k, name);
    BegunWasRead(c, r, m, q, name);
    i :| m <= i < q && ReadsFromSource(r.states[i], r.events[i], name);
    TargetIsAhead(c, r, m, i, q, k, name);
    forall p | m <= p < k && IsDraw(r, p, src, name) && (i <= p ==> Draws(r, src, name, i, p + 1) <= 5000)
      ensures Drawn(r, p, src, name) < Drawn(r, q, tgt, name)
    {
      SourceStaysBehind(c, r, m, i, p, k, name);
    }
  }

  // ---- identifiers of the target among themselves

  lemma StartIsMatched(c: Config, r: Trace, m: nat, name: string)
    requires MigratesBetween(c, r, m, m)
    ensures Matched(r.states[m]) && RoomInv(r.states[m], name, 0)
  {
    StartIsPlaced(c, r, m);
    StartHasNotBegun(c, r, m, name);
  }

  ghost predicate HasRoomAt(r: Trace, m: nat, k: nat, name: string)
    requires m <= k <= |r.events| && |r.states| == |r.events| + 1
  {
    Matched(r.states[k]) && RoomInv(r.states[k], name, Draws(r, Tgt(r.states[m].w), name, m, k))
  }

  lemma RunStepKeepsRoom(c: Config, r: Trace, m: nat, k: nat, name: string)
    requires MigratesBetween(c, r, m, k + 1) && m <= k && HasRoomAt(r, m, k, name)
    ensures HasRoomAt(r, m, k + 1, name)
  {
    Cut(c, r, m, k, k + 1);
    RunPlaced(c, r, m, k);
    StepIsInside(c, r, m, k);
    SameStatusServers(c, r, m, k);
    StepKeepsMatch(c, r.states[k], r.events[k], r.states[k + 1]);
    StepKeepsRoom(c, r.states[k], r.events[k], r.states[k + 1], name, Draws(r, Tgt(r.states[m].w), name, m, k));
  }

  lemma RunRoom(c: Config, r: Trace, m: nat, k: nat, name: string)
    requires MigratesBetween(c, r, m, k)
    ensures HasRoomAt(r, m, k, name)
  {
    Cut(c, r, m, m, k);
    StartIsMatched(c, r, m, name);
    forall i | m <= i < k && HasRoomAt(r, m, i, name) ensures HasRoomAt(r, m, i + 1, name) {
      Cut(c, r, m, i + 1, k);
      RunStepKeepsRoom(c, r, m, i, name);
    }
    HoldsLater((i: nat) => m <= i <= k && HasRoomAt(r, m, i, name), m, k);
  }

  /** No session has read the rerouted secret for its source, or few identifiers have been drawn from the target. */
  ghost predicate Careful(r: Trace, m: nat, k: nat, name: string)
    requires m <= k <= |r.events| && |r.states| == |r.events| + 1
  {
    CleanUpTo(r, k) || Draws(r, Tgt(r.states[m].w), name, m, k) <= 5000
  }

  lemma InHandIsAhead(c: Config, r: Trace, m: nat, k: nat, name: string)
    requires MigratesBetween(c, r, m, k) && Careful(r, m, k, name) && AppMoved(r.states[k].w) && name in InHand(r.states[k])
    ensures TargetHas(r.states[k].w, name) && InHand(r.states[k])[name] >= TargetLast(r.states[k].w, name)
  {
    RunRoom(c, r, m, k, name);
    if CleanUpTo(r, k) {
      NothingInHand(c, r, m, k);
    }
  }

  lemma NothingInHand(c: Config, r: Trace, m: nat, k: nat)
    requires MigratesBetween(c, r, m, k) && CleanUpTo(r, k) && AppMoved(r.states[k].w) && Matched(r.states[k])
    ensures InHand(r.states[k]) == map[]
  {
    RunInv(c, r, k);
    RunData(c, r, k);
    SameStatusServers(c, r, m, k);
    CleanHasNothingInHand(c, r.states[k]);
  }

  lemma RunStepKeepsFloor(c: Config, r: Trace, m: nat, k: nat, name: string, value: int)
    requires MigratesBetween(c, r, m, k + 1) && m <= k && Careful(r, m, k, name) && Floor(r.states[k].w, name, value)
    ensures Floor(r.states[k + 1].w, name, value)
  {
    Cut(c, r, m, k, k + 1);
    RunPlaced(c, r, m, k);
    RunRoom(c, r, m, k, name);
    if name in InHand(r.states[k]) {
      InHandIsAhead(c, r, m, k, name);
    }
    StepIsInside(c, r, m, k);
    StepKeepsFloor(c, r.states[k], r.events[k], r.states[k + 1], name, value);
  }

  lemma {:induction false} FewerDraws(r: Trace, a: Addr, name: string, m: nat, j: nat, k: nat)
    requires m <= j <= k <= |r.events|
    ensures Draws(r, a, name, m, j) <= Draws(r, a, name, m, k)
  {
    if j < k {
      FewerDraws(r, a, name, m, j, k - 1);
    }
  }

  lemma StaysCareful(r: Trace, m: nat, j: nat, k: nat, name: string)
    requires |r.states| == |r.events| + 1 && m <= j <= k <= |r.events| && Careful(r, m, k, name)
    ensures Careful(r, m, j, name)
  {
    FewerDraws(r, Tgt(r.states[m].w), name, m, j, k);
  }

  lemma FloorStays(c: Config, r: Trace, m: nat, j: nat, k: nat, name: string, value: int)
    requires MigratesBetween(c, r, m, k) && m <= j <= k && Careful(r, m, k, name) && Floor(r.states[j].w, name, value)
    ensures Floor(r.states[k].w, name, value)
  {
    forall i | j <= i < k && Floor(r.states[i].w, name, value) ensures Floor(r.states[i + 1].w, name, value) {
      Cut(c, r, m, i + 1, k);
      StaysCareful(r, m, i, k, name);
      RunStepKeepsFloor(c, r, m, i, name, value);
    }
    HoldsLater((i: nat) => i <= k && Floor(r.states[i].w, name, value), j, k);
  }

  lemma DrawSetsFloor(c: Config, r: Trace, m: nat, q: nat, k: nat, name: string)
    requires MigratesBetween(c, r, m, k) && m <= q < k && IsDraw(r, q, Tgt(r.states[m].w), name)
    ensures Floor(r.states[q + 1].w, name, Drawn(r, q, Tgt(r.states[m].w), name))
  {
    DrawsAfterReroute(c, r, m, q, k, name);
    StepOf(c, r, q);
  }

  /**
   The identifiers drawn from the target grow strictly, if no session has read the rerouted secret for its source;
   otherwise as long as no more than 5000 have been drawn, since such a session resets a target in use.
   */
  lemma TargetIdsGrow(c: Config, r: Trace, m: nat, q: nat, q': nat, k: nat, name: string)
    requires MigratesBetween(c, r, m, k) && m <= q < q' < k && Careful(r, m, q', name)
    requires IsDraw(r, q, Tgt(r.states[m].w), name) && IsDraw(r, q', Tgt(r.states[m].w), name)
    ensures Drawn(r, q, Tgt(r.states[m].w), name) < Drawn(r, q', Tgt(r.states[m].w), name)
  {
    DrawSetsFloor(c, r, m, q, k, name);
    Cut(c, r, m, q', k);
    FloorStays(c, r, m, q + 1, q', name, Drawn(r, q, Tgt(r.states[m].w), name));
    SameStatusServers(c, r, m, q');
  }
}
