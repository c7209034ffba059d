/** What makes a contract valid (crates/agentverify-core/src/contract.rs), as the policy engine asks. */
module ContractValidation {
  import opened Common
  import Json
  import opened Predicates
  import opened Contracts

  /** A contract with what is declared of it besides its conditions. */
  datatype Declared = Declared(schemaVersion: string, actionName: string, contract: Contract)

  datatype ValidationError =
    | InvalidSchemaVersion(version: string)
    | IncompatibleSchemaVersion(expected: string, actual: string)
    | EmptyActionName
    | NoPostconditions
    | DuplicatePostconditionPath(path: string)
    | InvalidMaxAttempts
    | InvalidBackoff(initial: nat, max: nat)
    | InvalidBackoffMultiplier(multiplier: real)

  const U32_MAX: nat := 0xffff_ffff
  const CURRENT_MAJOR: nat := 1
  const CURRENT_VERSION: string := "1.0"

  /** The major version, if there are exactly two components and both are numbers of 32 bits. */
  function MajorVersion(version: string): Option<nat> {
    var parts := Json.Split(version, '.');
    if |parts| != 2 || Json.ParseUnsigned(parts[1], U32_MAX).None? then None
    else Json.ParseUnsigned(parts[0], U32_MAX)
  }

  /** The path a predicate is filed under: its own, or that of its first part. */
  function PrimaryPath(p: Predicate): string {
    match p
    case All(ps) => if ps == [] then "" else PrimaryPath(ps[0])
    case Any(ps) => if ps == [] then "" else PrimaryPath(ps[0])
    case Not(q) => PrimaryPath(q)
    case Implies(a, _) => PrimaryPath(a)
    case _ => p.path
  }

  /** The first path that was seen before; an empty path is never one. */
  function FirstDuplicate(posts: seq<Postcondition>, seen: set<string>): Option<string> {
    if posts == [] then None
    else
      var path := PrimaryPath(posts[0].condition);
      if path == "" then FirstDuplicate(posts[1..], seen)
      else if path in seen then Some(path)
      else FirstDuplicate(posts[1..], seen + {path})
  }

  function RecoveryError(recovery: Option<RecoveryConfig>): Option<ValidationError> {
    match recovery
    case None => None
    case Some(config) =>
      if config.maxAttempts == 0 then Some(InvalidMaxAttempts)
      else
        match config.backoff
        case None => None
        case Some(b) =>
          if b.max < b.initial then Some(InvalidBackoff(b.initial, b.max))
          else if b.multiplier <= 0.0 then Some(InvalidBackoffMultiplier(b.multiplier))
          else None
  }

  /** The first rule a contract breaks. */
  function Validation(d: Declared): Option<ValidationError> {
    var major := MajorVersion(d.schemaVersion);
    if major.None? then Some(InvalidSchemaVersion(d.schemaVersion))
    else if major.value != CURRENT_MAJOR then Some(IncompatibleSchemaVersion(CURRENT_VERSION, d.schemaVersion))
    else if d.actionName == "" then Some(EmptyActionName)
    else if d.contract.postconditions == [] then Some(NoPostconditions)
    else
      match FirstDuplicate(d.contract.postconditions, {})
      case Some(path) => Some(DuplicatePostconditionPath(path))
      case None => RecoveryError(d.contract.recovery)
  }

  method Validate(d: Declared) returns (error: Option<ValidationError>)
    ensures error == Validation(d)
  {
    var major := MajorVersion(d.schemaVersion);
    if major.None? {
      return Some(InvalidSchemaVersion(d.schemaVersion));
    }
    if major.value != CURRENT_MAJOR {
      return Some(IncompatibleSchemaVersion(CURRENT_VERSION, d.schemaVersion));
    }
    if d.actionName == "" {
      return Some(EmptyActionName);
    }
    var posts := d.contract.postconditions;
    if posts == [] {
      return Some(NoPostconditions);
    }
    var seen: set<string> := {};
    for i := 0 to |posts|
      invariant FirstDuplicate(posts[i..], seen) == FirstDuplicate(posts, {})
    {
      var path := PrimaryPath(posts[i].condition);
      assert posts[i..][1..] == posts[i + 1..];
      if path != "" {
        if path in seen {
          return Some(DuplicatePostconditionPath(path));
        }
        seen := seen + {path};
      }
    }
    error := RecoveryError(d.contract.recovery);
  }

  /** No two postconditions have the same path, the empty one aside, and none has one already taken. */
  ghost predicate PathsApart(posts: seq<Postcondition>, taken: set<string>) {
    && (forall i :: 0 <= i < |posts| ==> Named(posts[i]) ==> PrimaryPath(posts[i].condition) !in taken)
    && (forall i, j :: 0 <= i < j < |posts| && Named(posts[i]) ==>
          PrimaryPath(posts[i].condition) != PrimaryPath(posts[j].condition))
  }

  predicate Named(post: Postcondition) {
    PrimaryPath(post.condition) != ""
  }

  lemma PathsApartOfCons(posts: seq<Postcondition>, taken: set<string>)
    requires posts != []
    ensures var path := PrimaryPath(posts[0].condition);
            PathsApart(posts, taken) <==>
            if path == "" then PathsApart(posts[1..], taken)
            else path !in taken && PathsApart(posts[1..], taken + {path})
  {
    hide PrimaryPath;
    var rest := posts[1..];
    assert forall i :: 0 < i < |posts| ==> posts[i] == rest[i - 1];
    assert forall i :: 0 <= i < |rest| ==> rest[i] == posts[i + 1];
  }

  lemma {:induction false} NoDuplicateIff(posts: seq<Postcondition>, seen: set<string>)
    ensures FirstDuplicate(posts, seen).None? <==> PathsApart(posts, seen)
  {
    if posts != [] {
      hide PathsApart, PrimaryPath;
      PathsApartOfCons(posts, seen);
      var path := PrimaryPath(posts[0].condition);
      NoDuplicateIff(posts[1..], if path == "" then seen else seen + {path});
    }
  }

  /** What a valid contract is, rule by rule and in no order. */
  ghost predicate Valid(d: Declared) {
    && MajorVersion(d.schemaVersion) == Some(CURRENT_MAJOR) && d.actionName != "" && d.contract.postconditions != []
    && PathsApart(d.contract.postconditions, {})
    && (d.contract.recovery.Some? ==>
          var config := d.contract.recovery.value;
          && config.maxAttempts > 0
          && (config.backoff.Some? ==>
                config.backoff.value.initial <= config.backoff.value.max && config.backoff.value.multiplier > 0.0))
  }

  /** Validation finds no error exactly in a valid contract. */
  lemma ValidIff(d: Declared)
    ensures Validation(d).None? <==> Valid(d)
  {
    hide PathsApart, FirstDuplicate, MajorVersion;
    NoDuplicateIff(d.contract.postconditions, {});
  }
}
