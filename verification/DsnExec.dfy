/**
 The handler that re-runs its commands whenever a data source changes: what one call does, and
 what any number of concurrent calls can see of each other through the read-write lock.
 */
module DsnExec {
  import opened Options

  datatype Source = Source(driver: string, dsn: string)

  type Sources = map<string, Source>

  /** A source keeps its driver when its connection string changes; a new source has none. */
  function Put(sources: Sources, path: string, content: string): Sources {
    sources[path := Source(if path in sources then sources[path].driver else "", content)]
  }

  type Parser = string -> Option<map<string, string>>

  /** What the templates are given for one source. */
  function Arguments(parsers: map<string, Parser>, s: Source): Option<map<string, string>> {
    if s.driver !in parsers then None
    else
      var parsed := parsers[s.driver](s.dsn);
      if parsed.None? then None else Some(parsed.value["raw_dsn" := s.dsn])
  }

  class Handler {
    const parsers: map<string, Parser>
    var sources: Sources

    constructor (parsers: map<string, Parser>, sources: Sources)
      ensures this.parsers == parsers && this.sources == sources
    {
      this.parsers, this.sources := parsers, sources;
    }

    /** Builds the arguments of the commands, source by source in any order; the first bad source ends it. */
    method BuildContext() returns (context: Option<map<string, map<string, string>>>)
      ensures context.None? <==> exists n :: n in sources && Arguments(parsers, sources[n]).None?
      ensures context.Some? ==>
                && context.value.Keys == sources.Keys
                && forall n :: n in sources ==> Arguments(parsers, sources[n]) == Some(context.value[n])
    {
      var left := sources.Keys;
      var acc: map<string, map<string, string>> := map[];
      while left != {}
        invariant left <= sources.Keys && acc.Keys == sources.Keys - left
        invariant forall n :: n in acc ==> Arguments(parsers, sources[n]) == Some(acc[n])
        decreases left
      {
        var n :| n in left;
        var o := Arguments(parsers, sources[n]);
        if o.None? {
          return None;
        }
        acc := acc[n := o.value];
        left := left - {n};
      }
      return Some(acc);
    }

    method UpdateDsn(path: string, content: string) returns (ok: bool)
      modifies this`sources
      ensures sources == Put(old(sources), path, content)
      ensures ok ==> forall n :: n in sources ==> Arguments(parsers, sources[n]).Some?
    {
      var driver := "";
      if path in sources {
        driver := sources[path].driver;
      }
      sources := sources[path := Source(driver, content)];
      var context := BuildContext();
      ok := *;
      ok := ok && context.Some?;
    }
  }

  // ---- concurrent calls

  datatype Call = UpdateCall(path: string, content: string) | ExecCall

  datatype Point =
    | Ready       // nothing has been done
    | Writing     // the write lock is held
    | Written     // the write lock is held, and the source is changed
    | Unlocked    // the write lock is given back
    | Reading     // the read lock is held, the commands are run
    | Returned

  /** A call: where it is, which write it made, what its commands have looked at, and after how many writes. */
  datatype Thread = Thread(call: Call, at: Point, wrote: nat, seen: seq<Sources>, readAt: nat)

  datatype Write = Write(author: nat, path: string, content: string)

  datatype State = State(sources: Sources, writer: Option<nat>, readers: set<nat>, threads: seq<Thread>, log: seq<Write>)

  datatype Event = Lock(id: nat) | Change(id: nat) | Unlock(id: nat) | ReadLock(id: nat) | Look(id: nat) | Return(id: nat)

  function Move(s: State, id: nat, at: Point): State
    requires id < |s.threads|
  {
    s.(threads := s.threads[id := s.threads[id].(at := at)])
  }

  function Next(s: State, e: Event): Option<State> {
    if e.id >= |s.threads| then None
    else
      var id, t := e.id, s.threads[e.id];
      match e
      case Lock(_) =>
        if t.at == Ready && t.call.UpdateCall? && s.writer.None? && s.readers == {} then
          Some(Move(s, id, Writing).(writer := Some(id)))
        else None
      case Change(_) =>
        if t.at == Writing && t.call.UpdateCall? then
          Some(s.(
            sources := Put(s.sources, t.call.path, t.call.content),
            threads := s.threads[id := t.(at := Written, wrote := |s.log| + 1)],
            log := s.log + [Write(id, t.call.path, t.call.content)]))
        else None
      case Unlock(_) =>
        if t.at == Written then Some(Move(s, id, Unlocked).(writer := None)) else None
      case ReadLock(_) =>
        if (t.at == Unlocked || (t.at == Ready && t.call.ExecCall?)) && s.writer.None? then
          Some(s.(readers := s.readers + {id}, threads := s.threads[id := t.(at := Reading, readAt := |s.log|)]))
        else None
      case Look(_) =>
        if t.at == Reading then Some(s.(threads := s.threads[id := t.(seen := t.seen + [s.sources])])) else None
      case Return(_) =>
        if t.at == Reading && t.seen != [] then Some(Move(s, id, Returned).(readers := s.readers - {id})) else None
  }

  function Initial(sources: Sources, calls: seq<Call>): State {
    State(sources, None, {}, seq(|calls|, i requires 0 <= i < |calls| => Thread(calls[i], Ready, 0, [], 0)), [])
  }

  ghost predicate IsRun(sources: Sources, calls: seq<Call>, states: seq<State>, events: seq<Event>) {
    && |states| == |events| + 1 && states[0] == Initial(sources, calls)
    && forall i :: 0 <= i < |events| ==> Next(states[i], events[i]) == Some(states[i + 1])
  }

  /** The sources after a sequence of writes. */
  function Replay(sources: Sources, log: seq<Write>): Sources {
    if log == [] then sources
    else
      var w := log[|log| - 1];
      Put(Replay(sources, log[..|log| - 1]), w.path, w.content)
  }

  // ---- the invariant

  /** The call has made its write, and reads only later. */
  predicate ThreadInv(sources: Sources, s: State, id: nat)
    requires id < |s.threads|
  {
    var t := s.threads[id];
    && (t.at == Writing || t.at == Written <==> s.writer == Some(id))
    && (t.at == Reading <==> id in s.readers)
    && (t.call.UpdateCall? && t.at !in {Ready, Writing} ==>
          0 < t.wrote <= |s.log| && s.log[t.wrote - 1] == Write(id, t.call.path, t.call.content))
    && (t.at in {Ready, Writing} ==> t.wrote == 0)
    && (t.at == Reading || t.at == Returned ==> t.wrote <= t.readAt <= |s.log|)
    && (t.at == Reading ==> t.readAt == |s.log|)
    && (t.at !in {Reading, Returned} ==> t.seen == [])
    && (t.at == Returned ==> t.seen != [])
    && (t.call.ExecCall? ==> t.at in {Ready, Reading, Returned} && t.wrote == 0)
    && (t.seen != [] ==> t.readAt <= |s.log|)
    && (forall i :: 0 <= i < |t.seen| ==> t.readAt <= |s.log| && t.seen[i] == Replay(sources, s.log[..t.readAt]))
  }

  predicate LockInv(s: State) {
    && (s.writer.Some? ==> s.readers == {} && s.writer.value < |s.threads|)
    && forall i :: 0 <= i < |s.log| ==> s.log[i].author < |s.threads| && s.threads[s.log[i].author].wrote == i + 1
  }

  predicate Inv(sources: Sources, s: State) {
    && s.sources == Replay(sources, s.log) && LockInv(s)
    && forall id :: 0 <= id < |s.threads| ==> ThreadInv(sources, s, id)
  }

  lemma ChangeKeepsThread(sources: Sources, s: State, id: nat, s': State, k: nat)
    requires Inv(sources, s) && Next(s, Change(id)) == Some(s') && k < |s.threads|
    ensures ThreadInv(sources, s', k)
  {
    assert ThreadInv(sources, s, id);
    assert ThreadInv(sources, s, k);
    if s.threads[k].readAt <= |s.log| {
      assert s'.log[..s.threads[k].readAt] == s.log[..s.threads[k].readAt];
    }
  }

  lemma ChangeKeepsLock(sources: Sources, s: State, id: nat, s': State)
    requires Inv(sources, s) && Next(s, Change(id)) == Some(s')
    ensures LockInv(s') && s'.sources == Replay(sources, s'.log)
  {
    assert ThreadInv(sources, s, id);
    assert s'.log[..|s.log|] == s.log;
  }

  lemma ChangeKeepsInv(sources: Sources, s: State, id: nat, s': State)
    requires Inv(sources, s) && Next(s, Change(id)) == Some(s')
    ensures Inv(sources, s')
  {
    ChangeKeepsLock(sources, s, id, s');
    forall k | 0 <= k < |s'.threads| ensures ThreadInv(sources, s', k) {
      ChangeKeepsThread(sources, s, id, s', k);
    }
  }

  lemma OtherKeepsInv(sources: Sources, s: State, e: Event, s': State, k: nat)
    requires Inv(sources, s) && Next(s, e) == Some(s') && !e.Change? && k < |s.threads| && k != e.id
    ensures ThreadInv(sources, s', k)
  {
    assert ThreadInv(sources, s, e.id);
    assert ThreadInv(sources, s, k);
  }

  lemma MoverKeepsInv(sources: Sources, s: State, e: Event, s': State)
    requires Inv(sources, s) && Next(s, e) == Some(s') && !e.Change?
    ensures ThreadInv(sources, s', e.id)
  {
    assert ThreadInv(sources, s, e.id);
    assert s.log[..|s.log|] == s.log;
  }

  lemma LockIsKept(sources: Sources, s: State, e: Event, s': State)
    requires Inv(sources, s) && Next(s, e) == Some(s') && !e.Change?
    ensures LockInv(s') && s'.sources == s.sources && s'.log == s.log && |s'.threads| == |s.threads|
  {
    assert ThreadInv(sources, s, e.id);
  }

  lemma StepKeepsInv(sources: Sources, s: State, e: Event, s': State)
    requires Inv(sources, s) && Next(s, e) == Some(s')
    ensures Inv(sources, s')
  {
    if e.Change? {
      ChangeKeepsInv(sources, s, e.id, s');
    } else {
      LockIsKept(sources, s, e, s');
      forall k | 0 <= k < |s'.threads| ensures ThreadInv(sources, s', k) {
        if k == e.id {
          MoverKeepsInv(sources, s, e, s');
        } else {
          OtherKeepsInv(sources, s, e, s', k);
        }
      }
    }
  }

  /** Every reachable state satisfies the invariant. */
  lemma {:induction false} RunKeepsInv(sources: Sources, calls: seq<Call>, states: seq<State>, events: seq<Event>, k: nat)
    requires IsRun(sources, calls, states, events) && k < |states|
    ensures Inv(sources, states[k])
  {
    if k > 0 {
      RunKeepsInv(sources, calls, states, events, k - 1);
      StepKeepsInv(sources, states[k - 1], events[k - 1], states[k]);
    }
  }

  // ---- what the calls see

  /** However the calls are interleaved, the commands of one call look at one unchanging map of sources. */
  lemma OneUnchangingMap(sources: Sources, calls: seq<Call>, states: seq<State>, events: seq<Event>, k: nat, id: nat)
    requires IsRun(sources, calls, states, events) && k < |states| && id < |states[k].threads|
    ensures var t := states[k].threads[id];
            forall i, j :: 0 <= i < j < |t.seen| ==> t.seen[i] == t.seen[j]
  {
    RunKeepsInv(sources, calls, states, events, k);
    assert ThreadInv(sources, states[k], id);
  }

  /** The last write to a path is what the sources hold for it. */
  lemma {:induction false} LastWriteCounts(sources: Sources, log: seq<Write>, i: nat) returns (j: nat)
    requires i < |log|
    ensures i <= j < |log| && log[j].path == log[i].path
    ensures log[i].path in Replay(sources, log) && Replay(sources, log)[log[i].path].dsn == log[j].content
  {
    var n := |log| - 1;
    if log[n].path == log[i].path {
      j := n;
    } else {
      j := LastWriteCounts(sources, log[..n], i);
    }
  }

  /** The commands of an update see the value that it wrote, or one written to the same path later. */
  lemma OwnValueOrLater(sources: Sources, calls: seq<Call>, states: seq<State>, events: seq<Event>, k: nat, id: nat, i: nat)
    returns (j: nat)
    requires IsRun(sources, calls, states, events) && k < |states| && id < |states[k].threads|
    requires states[k].threads[id].call.UpdateCall? && i < |states[k].threads[id].seen|
    ensures var s := states[k];
            var t := s.threads[id];
            && 0 < t.wrote <= |s.log| && s.log[t.wrote - 1] == Write(id, t.call.path, t.call.content)
            && t.wrote - 1 <= j < |s.log| && s.log[j].path == t.call.path
            && t.call.path in t.seen[i] && t.seen[i][t.call.path].dsn == s.log[j].content
  {
    RunKeepsInv(sources, calls, states, events, k);
    var s := states[k];
    var t := s.threads[id];
    assert ThreadInv(sources, s, id);
    j := LastWriteCounts(sources, s.log[..t.readAt], t.wrote - 1);
  }

  lemma {:induction false} ReplayKeepsDrivers(sources: Sources, log: seq<Write>, path: string)
    requires path in sources
    ensures path in Replay(sources, log) && Replay(sources, log)[path].driver == sources[path].driver
  {
    if log != [] {
      ReplayKeepsDrivers(sources, log[..|log| - 1], path);
    }
  }

  /** The driver of a source never changes. */
  lemma DriversStay(sources: Sources, calls: seq<Call>, states: seq<State>, events: seq<Event>, k: nat, path: string)
    requires IsRun(sources, calls, states, events) && k < |states| && path in sources
    ensures path in states[k].sources && states[k].sources[path].driver == sources[path].driver
  {
    RunKeepsInv(sources, calls, states, events, k);
    ReplayKeepsDrivers(sources, states[k].log, path);
  }

  /**
   No update is lost: once all calls have returned and one of them was an update, the commands of
   some call have been run with the final map, and with no other.
   */
  lemma FinalMapIsSeen(sources: Sources, calls: seq<Call>, states: seq<State>, events: seq<Event>, k: nat) returns (id: nat)
    requires IsRun(sources, calls, states, events) && k < |states| && |states[k].log| > 0
    requires forall i :: 0 <= i < |states[k].threads| ==> states[k].threads[i].at == Returned
    ensures id < |states[k].threads|
    ensures |states[k].threads[id].seen| > 0
    ensures forall i :: 0 <= i < |states[k].threads[id].seen| ==> states[k].threads[id].seen[i] == states[k].sources
  {
    RunKeepsInv(sources, calls, states, events, k);
    var s := states[k];
    id := s.log[|s.log| - 1].author;
    assert ThreadInv(sources, s, id);
    assert s.log[..|s.log|] == s.log;
  }
}
