/**
 Resetting the sequences of the target: far enough ahead of the source that both databases
 can hand out identifiers for a while without a collision.
 */
module Sequences {
  import opened Options

  /** A sequence that counts up by one: its last value, and whether that has been handed out. */
  datatype Sequence = Sequence(last: int, called: bool)

  const GAP := 10000
  const MAX_INT64: int := 0x7FFF_FFFF_FFFF_FFFF
  const MIN_INT64: int := -0x8000_0000_0000_0000

  predicate IsInt64(x: int) {
    MIN_INT64 <= x <= MAX_INT64
  }

  /** Rounds to a multiple of ten thousand, halves away from zero. */
  function RoundToGap(x: int): int {
    if x >= 0 then (x + GAP / 2) / GAP * GAP else -((-x + GAP / 2) / GAP * GAP)
  }

  /** The value that a target sequence is set to, unless the arithmetic of the database overflows. */
  function ResetValue(last: int): Option<int> {
    if IsInt64(last + GAP) && IsInt64(RoundToGap(last + GAP)) then Some(RoundToGap(last + GAP)) else None
  }

  /** A reset value is a multiple of the gap and lies half a gap to one and a half gaps ahead. */
  lemma ResetIsAhead(last: int)
    requires ResetValue(last).Some?
    ensures ResetValue(last).value % GAP == 0
    ensures last + 5000 <= ResetValue(last).value <= last + 15000
  {
    var x := last + GAP;
    var y := if x >= 0 then x + GAP / 2 else -x + GAP / 2;
    assert y == y / GAP * GAP + y % GAP;
    assert (y / GAP * GAP) % GAP == 0 && (-(y / GAP) * GAP) % GAP == 0;
    assert -(y / GAP * GAP) == -(y / GAP) * GAP;
  }

  /** The reset values of the first sequences have been read. */
  predicate Read(names: seq<string>, source: map<string, Sequence>, unreadable: set<string>, seqs: seq<(string, int)>) {
    && |seqs| <= |names|
    && forall i :: 0 <= i < |seqs| ==>
         && seqs[i].0 == names[i] && names[i] !in unreadable
         && names[i] in source && ResetValue(source[names[i]].last) == Some(seqs[i].1)
  }

  /** Every name of the source once, in any order. */
  ghost predicate Lists(names: seq<string>, source: map<string, Sequence>) {
    && (forall n :: n in names <==> n in source)
    && (forall i, j :: 0 <= i < j < |names| ==> names[i] != names[j])
  }

  /** The names come in whatever order the database returns them. */
  method ListNames(source: map<string, Sequence>) returns (names: seq<string>)
    ensures Lists(names, source)
  {
    names := [];
    var left := source.Keys;
    while left != {}
      invariant left <= source.Keys && forall n :: n in names <==> n in source && n !in left
      invariant forall i, j :: 0 <= i < j < |names| ==> names[i] != names[j]
      decreases left
    {
      var n :| n in left;
      names := names + [n];
      left := left - {n};
    }
  }

  /** Reads the sequence names of the source and the value each is to be reset to. */
  method CollectResets(names: seq<string>, source: map<string, Sequence>, unreadable: set<string>)
    returns (seqs: Option<seq<(string, int)>>)
    requires forall n :: n in names ==> n in source
    ensures seqs.None? <==> exists i :: 0 <= i < |names| && (names[i] in unreadable || ResetValue(source[names[i]].last).None?)
    ensures seqs.Some? ==> |seqs.value| == |names| && Read(names, source, unreadable, seqs.value)
  {
    var acc: seq<(string, int)> := [];
    var i := 0;
    while i < |names|
      invariant 0 <= i <= |names| && |acc| == i && Read(names, source, unreadable, acc)
    {
      var v := ResetValue(source[names[i]].last);
      if names[i] in unreadable || v.None? {
        return None;
      }
      acc := acc + [(names[i], v.value)];
      i := i + 1;
    }
    return Some(acc);
  }

  /** The target with the listed sequences reset. */
  function Applied(target: map<string, Sequence>, seqs: seq<(string, int)>): map<string, Sequence> {
    if seqs == [] then target
    else
      var n := |seqs| - 1;
      Applied(target, seqs[..n])[seqs[n].0 := Sequence(seqs[n].1, true)]
  }

  lemma AppliedGrows(target: map<string, Sequence>, seqs: seq<(string, int)>, done: nat)
    requires done < |seqs|
    ensures Applied(target, seqs[..done + 1]) == Applied(target, seqs[..done])[seqs[done].0 := Sequence(seqs[done].1, true)]
  {
    assert seqs[..done + 1][..done] == seqs[..done];
  }

  predicate Distinct(seqs: seq<(string, int)>) {
    forall i, j :: 0 <= i < j < |seqs| ==> seqs[i].0 != seqs[j].0
  }

  lemma {:induction false} AppliedAt(target: map<string, Sequence>, seqs: seq<(string, int)>, i: nat)
    requires Distinct(seqs) && i < |seqs|
    ensures seqs[i].0 in Applied(target, seqs) && Applied(target, seqs)[seqs[i].0] == Sequence(seqs[i].1, true)
  {
    var n := |seqs| - 1;
    if i < n {
      AppliedAt(target, seqs[..n], i);
      assert seqs[n].0 != seqs[..n][i].0;
    }
  }

  lemma {:induction false} AppliedElsewhere(target: map<string, Sequence>, seqs: seq<(string, int)>, name: string)
    requires forall i :: 0 <= i < |seqs| ==> seqs[i].0 != name
    ensures name in Applied(target, seqs) <==> name in target
    ensures name in target ==> Applied(target, seqs)[name] == target[name]
  {
    if seqs != [] {
      AppliedElsewhere(target, seqs[..|seqs| - 1], name);
    }
  }

  /** The source can be read and the target takes the reset value: refused are the values out of its bounds. */
  predicate Resettable(name: string, source: map<string, Sequence>, unreadable: set<string>,
                       target: map<string, Sequence>, refused: set<string>) {
    name in source && name !in unreadable && ResetValue(source[name].last).Some? && name in target && name !in refused
  }

  /** The sequence of the target has been reset for the one of the source. */
  predicate IsReset(name: string, source: map<string, Sequence>, target: map<string, Sequence>) {
    && name in source && name in target && ResetValue(source[name].last).Some?
    && target[name] == Sequence(ResetValue(source[name].last).value, true)
  }

  /** A complete reset moves exactly the sequences of the source, each to its reset value. */
  lemma ResetIsExact(names: seq<string>, source: map<string, Sequence>, unreadable: set<string>,
                     seqs: seq<(string, int)>, target: map<string, Sequence>, name: string)
    requires Lists(names, source)
    requires Read(names, source, unreadable, seqs) && |seqs| == |names|
    ensures name in source ==> IsReset(name, source, Applied(target, seqs))
    ensures name !in source && name in target ==> name in Applied(target, seqs) && Applied(target, seqs)[name] == target[name]
  {
    if name in source {
      var i :| 0 <= i < |names| && names[i] == name;
      assert Distinct(seqs);
      AppliedAt(target, seqs, i);
    } else {
      forall i | 0 <= i < |seqs| ensures seqs[i].0 != name {
        assert names[i] in source;
      }
      AppliedElsewhere(target, seqs, name);
    }
  }

  // ---- identifiers drawn from both databases

  function NextVal(s: Sequence): (int, Sequence) {
    var id := if s.called then s.last + 1 else s.last;
    (id, Sequence(id, true))
  }

  datatype Draw = FromSource | FromTarget

  /** The identifiers that are drawn from one database in an interleaving of draws from both. */
  function Ids(s: Sequence, draws: seq<Draw>, who: Draw): seq<int>
    decreases draws
  {
    if draws == [] then []
    else if draws[0] == who then [NextVal(s).0] + Ids(NextVal(s).1, draws[1..], who)
    else Ids(s, draws[1..], who)
  }

  function Count(draws: seq<Draw>, who: Draw): nat {
    if draws == [] then 0 else (if draws[0] == who then 1 else 0) + Count(draws[1..], who)
  }

  /** A database draws consecutive identifiers, whatever the other one does in between. */
  lemma {:induction false} IdsAreConsecutive(s: Sequence, draws: seq<Draw>, who: Draw)
    ensures |Ids(s, draws, who)| == Count(draws, who)
    ensures forall i :: 0 <= i < |Ids(s, draws, who)| ==> Ids(s, draws, who)[i] == NextVal(s).0 + i
    decreases draws
  {
    if draws != [] {
      IdsAreConsecutive(if draws[0] == who then NextVal(s).1 else s, draws[1..], who);
    }
  }

  /**
   After the reset, however the draws from source and target are interleaved, no identifier is drawn twice
   and every new identifier of the target is new to the source as well, while the source draws at most 5000.
   */
  lemma NoCollision(source: Sequence, draws: seq<Draw>)
    requires ResetValue(source.last).Some? && Count(draws, FromSource) <= 5000
    ensures var drawn, added := Ids(source, draws, FromSource),
                              Ids(Sequence(ResetValue(source.last).value, true), draws, FromTarget);
            && (forall i, j :: 0 <= i < j < |drawn| ==> drawn[i] != drawn[j])
            && (forall i, j :: 0 <= i < j < |added| ==> added[i] != added[j])
            && (forall i, j :: 0 <= i < |drawn| && 0 <= j < |added| ==> drawn[i] < added[j])
            && (forall j :: 0 <= j < |added| ==> source.last < added[j])
  {
    ResetIsAhead(source.last);
    IdsAreConsecutive(source, draws, FromSource);
    IdsAreConsecutive(Sequence(ResetValue(source.last).value, true), draws, FromTarget);
  }

  /** The bound on the draws of the source cannot be raised for all sequences: one more draw can collide. */
  lemma OneMoreDrawCollides(draws: seq<Draw>)
    requires Count(draws, FromSource) == 5001 && Count(draws, FromTarget) == 1
    ensures var source := Sequence(-15000, true);
            && ResetValue(source.last).Some?
            && var drawn, added := Ids(source, draws, FromSource),
                                 Ids(Sequence(ResetValue(source.last).value, true), draws, FromTarget);
               |drawn| == 5001 && |added| == 1 && drawn[5000] == added[0]
  {
    var source := Sequence(-15000, true);
    IdsAreConsecutive(source, draws, FromSource);
    IdsAreConsecutive(Sequence(ResetValue(source.last).value, true), draws, FromTarget);
  }
}
