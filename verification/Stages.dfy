/**
 The stages of a migration: their numbering, their names, and the order in which
 they are executed.  The numbering is not the execution order.
 */
module Stages {
  import opened Options

  datatype Stage =
    | Initial
    | ValidateConnection
    | CreatePublication
    | CopySchema
    | CreateSubscription
    | EnableSubscription
    | CutOverReadinessCheck
    | ResetTargetSequence
    | RerouteTargetSecret
    | WaitToDisableSource
    | DisableSourceAccess
    | MigrationInProgress
    | ValidateMigrationStatus
    | DisableSubscription
    | DeleteSubscription
    | DeletePublication
    | Completed
    | Retry

  /** The value of the enumeration constant. */
  function Rank(s: Stage): nat {
    match s
    case Initial => 0
    case ValidateConnection => 1
    case CreatePublication => 2
    case CopySchema => 3
    case CreateSubscription => 4
    case EnableSubscription => 5
    case CutOverReadinessCheck => 6
    case ResetTargetSequence => 7
    case RerouteTargetSecret => 8
    case WaitToDisableSource => 9
    case DisableSourceAccess => 10
    case MigrationInProgress => 11
    case ValidateMigrationStatus => 12
    case DisableSubscription => 13
    case DeleteSubscription => 14
    case DeletePublication => 15
    case Completed => 16
    case Retry => 17
  }

  /** The name under which a stage is persisted. */
  function Name(s: Stage): string {
    match s
    case Initial => "initial"
    case ValidateConnection => "validate_connection"
    case CreatePublication => "create_publication"
    case CopySchema => "copy_schema"
    case CreateSubscription => "create_subscription"
    case EnableSubscription => "enable_subscription"
    case CutOverReadinessCheck => "cut_over_readiness_check"
    case ResetTargetSequence => "reset_target_sequence"
    case RerouteTargetSecret => "reroute_target_secret"
    case WaitToDisableSource => "wait_to_disable_source"
    case DisableSourceAccess => "disable_source_access"
    case MigrationInProgress => "migration_in_progress"
    case ValidateMigrationStatus => "validate_migration_status"
    case DisableSubscription => "disable_subscription"
    case DeleteSubscription => "delete_subscription"
    case DeletePublication => "delete_publication"
    case Completed => "completed"
    case Retry => "retry"
  }

  const ALL_STAGES: seq<Stage> := [
    Initial, ValidateConnection, CreatePublication, CopySchema, CreateSubscription, EnableSubscription,
    CutOverReadinessCheck, ResetTargetSequence, RerouteTargetSecret, WaitToDisableSource, DisableSourceAccess,
    MigrationInProgress, ValidateMigrationStatus, DisableSubscription, DeleteSubscription, DeletePublication,
    Completed, Retry]

  /** The name table that is filled once at start-up; the empty name means the initial stage. */
  function Lookup(name: string): Option<Stage> {
    if name == "" then Some(Initial) else LookupFrom(name, ALL_STAGES)
  }

  function LookupFrom(name: string, stages: seq<Stage>): Option<Stage> {
    if stages == [] then None
    else if Name(stages[0]) == name then Some(stages[0])
    else LookupFrom(name, stages[1..])
  }

  lemma {:induction false} LookupFromHit(name: string, stages: seq<Stage>, i: nat)
    requires i < |stages| && Name(stages[i]) == name
    requires forall j :: 0 <= j < i ==> Name(stages[j]) != name
    ensures LookupFrom(name, stages) == Some(stages[i])
  {
    if i > 0 {
      LookupFromHit(name, stages[1..], i - 1);
    }
  }

  lemma {:induction false} LookupFromName(name: string, stages: seq<Stage>)
    ensures LookupFrom(name, stages).Some? ==> Name(LookupFrom(name, stages).value) == name
  {
    if stages != [] {
      LookupFromName(name, stages[1..]);
    }
  }

  lemma NamesDiffer(s: Stage, t: Stage)
    requires Name(s) == Name(t)
    ensures s == t
  {
    assert |Name(s)| == |Name(t)| && Name(s)[0] == Name(t)[0] && Name(s)[|Name(s)| - 5] == Name(t)[|Name(t)| - 5];
    assert Name(s)[|Name(s)| - 1] == Name(t)[|Name(t)| - 1];
  }

  lemma LookupOwnName(s: Stage)
    ensures Lookup(Name(s)) == Some(s)
  {
    var i := Rank(s);
    assert ALL_STAGES[i] == s;
    forall j | 0 <= j < i ensures Name(ALL_STAGES[j]) != Name(s) {
      assert Rank(ALL_STAGES[j]) == j;
      if Name(ALL_STAGES[j]) == Name(s) {
        NamesDiffer(ALL_STAGES[j], s);
      }
    }
    LookupFromHit(Name(s), ALL_STAGES, i);
  }

  /** A persisted name resolves to exactly the stage that wrote it, and no other text resolves except "". */
  lemma NameRoundTrip(s: Stage, name: string)
    ensures Lookup(Name(s)) == Some(s)
    ensures Lookup(name) == Some(s) <==> name == Name(s) || (name == "" && s == Initial)
  {
    LookupOwnName(s);
    if name != "" {
      LookupFromName(name, ALL_STAGES);
    }
  }

  /** What a stage name is resumed as: the two stages that cannot run have no replicator state. */
  function Replicator(s: Stage): Option<Stage> {
    match s
    case MigrationInProgress => Some(Initial)
    case Retry => None
    case _ => Some(s)
  }

  /** The stages that can be executed. */
  predicate HasState(s: Stage) {
    s != MigrationInProgress && s != Completed && s != Retry
  }

  /** The stage that follows when an execution succeeds without asking for a retry. */
  function Successor(s: Stage): Stage
    requires HasState(s)
  {
    match s
    case Initial => ValidateConnection
    case ValidateConnection => CreatePublication
    case CreatePublication => CopySchema
    case CopySchema => CreateSubscription
    case CreateSubscription => EnableSubscription
    case EnableSubscription => CutOverReadinessCheck
    case CutOverReadinessCheck => ResetTargetSequence
    case ResetTargetSequence => RerouteTargetSecret
    case RerouteTargetSecret => WaitToDisableSource
    case WaitToDisableSource => DisableSourceAccess
    case DisableSourceAccess => ValidateMigrationStatus
    case ValidateMigrationStatus => DisableSubscription
    case DisableSubscription => DeleteSubscription
    case DeleteSubscription => DeletePublication
    case DeletePublication => Completed
  }

  /** The place of a stage in the order of execution. */
  function Position(s: Stage): nat {
    match s
    case Initial => 0
    case MigrationInProgress => 0
    case ValidateConnection => 1
    case CreatePublication => 2
    case CopySchema => 3
    case CreateSubscription => 4
    case EnableSubscription => 5
    case CutOverReadinessCheck => 6
    case ResetTargetSequence => 7
    case RerouteTargetSecret => 8
    case WaitToDisableSource => 9
    case DisableSourceAccess => 10
    case ValidateMigrationStatus => 11
    case DisableSubscription => 12
    case DeleteSubscription => 13
    case DeletePublication => 14
    case Completed => 15
    case Retry => 15
  }

  lemma SuccessorAdvances(n: Stage)
    requires HasState(n)
    ensures Position(Successor(n)) == Position(n) + 1 && Successor(n) != Initial
    ensures if n == DeletePublication then Successor(n) == Completed else HasState(Successor(n))
  {
  }
}
