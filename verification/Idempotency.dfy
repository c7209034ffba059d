/** The in-memory idempotency store (crates/agentverify-runtime/src/executor.rs). */
module Idempotency {
  import opened Common
  import opened Verdicts

  datatype Entry = InFlight | Completed(result: Verdict)

  type Store = map<string, Entry>

  datatype ClaimResult = Claimed | AlreadyClaimed

  /** The answer to `claim_or_check` and the store it leaves behind. */
  datatype Claim = Claim(result: ClaimResult, existing: Option<Verdict>, after: Store)

  /** Claim a vacant key, or report what an occupied one holds. */
  function ClaimOrCheck(store: Store, key: string): (c: Claim)
    ensures key in c.after
    ensures c.result.Claimed? <==> key !in store
    ensures c.result.AlreadyClaimed? ==> c.after == store
    ensures c.existing.Some? <==> key in store && store[key].Completed?
  {
    if key !in store then Claim(Claimed, None, store[key := InFlight])
    else
      match store[key]
      case InFlight => Claim(AlreadyClaimed, None, store)
      case Completed(v) => Claim(AlreadyClaimed, Some(v), store)
  }

  function Complete(store: Store, key: string, v: Verdict): Store {
    store[key := Completed(v)]
  }

  function Release(store: Store, key: string): Store {
    store - {key}
  }

  /** One mutex guards the map, so each operation is a single atomic step. */
  class IdempotencyRegistry {
    var entries: Store

    constructor ()
      ensures entries == map[]
    {
      entries := map[];
    }

    method ClaimOrCheckKey(key: string) returns (result: ClaimResult, existing: Option<Verdict>)
      modifies this
      ensures var c := ClaimOrCheck(old(entries), key);
              result == c.result && existing == c.existing && entries == c.after
    {
      if key !in entries {
        entries := entries[key := InFlight];
        return Claimed, None;
      }
      match entries[key]
      case InFlight => return AlreadyClaimed, None;
      case Completed(v) => return AlreadyClaimed, Some(v);
    }

    method CompleteKey(key: string, v: Verdict)
      modifies this
      ensures entries == Complete(old(entries), key, v)
    {
      entries := entries[key := Completed(v)];
    }

    method ReleaseKey(key: string)
      modifies this
      ensures entries == Release(old(entries), key)
    {
      entries := map k | k in entries && k != key :: entries[k];
    }
  }
}
