/** The properties of runs hold of what the reconciler has actually done. */
module ControllerSafety {
  import opened Claim
  import opened Protocol
  import opened ClaimInvariants
  import opened ClaimProperties
  import opened DataInvariants
  import opened MigrationSafety
  import opened CutOver
  import opened RerouteWindow
  import opened Controller

  /** The reconciler was set up for a claim at rest, with a lawful configuration. */
  ghost predicate StartedAtRest(x: Reconciler)
    reads x
  {
    && x.Valid() && Lawful(x.c) && x.trace.states[0].ses == Idle
    && Quiescent(x.c, x.trace.states[0].w.status) && SourceKnown(x.c, x.trace.states[0].w)
  }

  /** After any sequence of reconciles and environment steps the record is a run of the claim, and the invariant holds now. */
  lemma RecordIsRun(x: Reconciler)
    requires StartedAtRest(x)
    ensures IsClaimRun(x.c, x.trace) && IsMigrationRun(x.c, x.trace) && Inv(x.c, x.Now())
  {
    RunInv(x.c, x.trace, |x.trace.events|);
  }

  /**
   Whenever the reconciler has stopped a replication or switched a database, and none of its sessions was cut off in
   the window of the rerouting before, it had compared the target with the real source after revoking the writes.
   */
  lemma RecordedCutOverIsChecked(x: Reconciler, k: nat) returns (i: nat, j: nat)
    requires StartedAtRest(x) && k < |x.trace.events| && CutsOver(x.trace, k)
    requires forall n :: 0 <= n < k ==> !Interrupts(x.trace.states[n], x.trace.events[n])
    ensures var w := x.trace.states[k].w;
            && w.temp.Some? && w.temp.value.source.Some?
            && AddrOf(w.temp.value.source.value) == AddrOf(w.status.active.conn)
            && SafeCutOver(x.c, x.trace, k, w.temp.value.source.value, AddrOf(w.status.newDb.conn), i, j)
  {
    RecordIsRun(x);
    UninterruptedIsClean(x.c, x.trace, k);
    i, j := CutOverIsChecked(x.c, x.trace, k);
  }
}
