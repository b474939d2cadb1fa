/**
 What can be reached from a state by a run, and what stays the same on the way.
 */
module Reachability {
  import opened Options
  import opened Claim
  import opened Protocol

  /** A run leads from one state to the other. */
  ghost predicate Reaches(c: Config, s: Sys, s': Sys) {
    exists r: Trace :: IsRun(c, r) && r.states[0] == s && r.states[|r.events|] == s'
  }

  lemma Here(c: Config, s: Sys)
    ensures Reaches(c, s, s)
  {
    assert IsRun(c, Trace([s], []));
  }

  lemma Then(c: Config, s: Sys, m: Sys, e: Event, s': Sys)
    requires Reaches(c, s, m) && Next(c, m, e) == Some(s')
    ensures Reaches(c, s, s')
  {
    var r: Trace :| IsRun(c, r) && r.states[0] == s && r.states[|r.events|] == m;
    RunGrows(c, r, e, s');
    var r' := Grown(r, e, s');
    assert IsRun(c, r') && r'.states[0] == s && r'.states[|r'.events|] == s';
  }

  lemma {:induction false} Follow(c: Config, s: Sys, r: Trace, k: nat)
    requires IsRun(c, r) && k < |r.states| && Reaches(c, s, r.states[0])
    ensures Reaches(c, s, r.states[k])
  {
    if k > 0 {
      Follow(c, s, r, k - 1);
      StepOf(c, r, k - 1);
      Then(c, s, r.states[k - 1], r.events[k - 1], r.states[k]);
    }
  }

  lemma ReachesOn(c: Config, s: Sys, m: Sys, s': Sys)
    requires Reaches(c, s, m) && Reaches(c, m, s')
    ensures Reaches(c, s, s')
  {
    var r: Trace :| IsRun(c, r) && r.states[0] == m && r.states[|r.events|] == s';
    Follow(c, s, r, |r.events|);
  }

  /** A claim that is marked for deletion stays marked. */
  lemma {:induction false} MarkStaysInRun(c: Config, r: Trace, k: nat)
    requires IsRun(c, r) && k < |r.states| && r.states[0].w.deleting
    ensures r.states[k].w.deleting
  {
    if k > 0 {
      MarkStaysInRun(c, r, k - 1);
      StepOf(c, r, k - 1);
    }
  }

  lemma MarkStays(c: Config, s: Sys, s': Sys)
    requires Reaches(c, s, s') && s.w.deleting
    ensures s'.w.deleting
  {
    var r: Trace :| IsRun(c, r) && r.states[0] == s && r.states[|r.events|] == s';
    MarkStaysInRun(c, r, |r.events|);
  }

  /** The row counts of all servers. */
  function Rows(servers: map<Addr, Server>): map<Addr, map<string, nat>> {
    map a | a in servers :: servers[a].rows
  }

  lemma SameRows(servers: map<Addr, Server>, a: Addr, server: Server)
    requires a in servers && server.rows == servers[a].rows
    ensures Rows(servers[a := server]) == Rows(servers)
  {
  }

  lemma ResetKeepsRows(servers: map<Addr, Server>, ses: Session, x: ResetStep)
    requires ses.Busy? && PerformReset(servers, ses, x).Some?
    ensures var d := PerformReset(servers, ses, x).value;
            d.Write? ==> d.at in servers && d.server == servers[d.at].(sequences := d.server.sequences)
  {
  }

  lemma PerformKeepsServer(c: Config, servers: map<Addr, Server>, ses: Session, x: Effect)
    requires ses.Busy? && c.plan(ses.mem.active).Some? && Perform(c, servers, ses, x).Some? && !x.Reset?
    ensures var d := Perform(c, servers, ses, x).value;
            d.Write? ==>
              && d.at in servers && d.server.logins == servers[d.at].logins && d.server.rows == servers[d.at].rows
              && (x != RevokeWrites ==> d.server.writers == servers[d.at].writers)
  {
  }

  /** Executing a stage changes no rows and no logins, and makes no server. */
  lemma PerformKeepsRows(c: Config, servers: map<Addr, Server>, ses: Session, x: Effect)
    requires ses.Busy? && c.plan(ses.mem.active).Some? && Perform(c, servers, ses, x).Some?
    ensures var d := Perform(c, servers, ses, x).value;
            d.Write? ==>
              && d.at in servers && Rows(servers[d.at := d.server]) == Rows(servers)
              && d.server.logins == servers[d.at].logins && d.server.rows == servers[d.at].rows
              && (x != RevokeWrites ==> d.server.writers == servers[d.at].writers)
  {
    var d := Perform(c, servers, ses, x).value;
    if x.Reset? {
      ResetKeepsRows(servers, ses, x.step);
    } else {
      PerformKeepsServer(c, servers, ses, x);
    }
    if d.Write? {
      SameRows(servers, d.at, d.server);
    }
  }
}
