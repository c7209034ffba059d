# AgentVerify: a verified model

AgentVerify runs an agent's action, observes the system of record, checks the contract's
postconditions and records a verdict. This project models the parts in which that promise is decided
and proves what they guarantee. `dafny verify dfyconfig.toml` checks everything.

## What is modelled

**Verified execution.** `Executor` is one run as a machine that stops wherever the source awaits: claim,
poll, pre-observation, dispatch, observation, sleep, settling. `execute` and `execute_with_executor` are
the same machine with the dispatch simulated or real. Observers and adapters answer arbitrarily, a run
may be cancelled at any await, and each call on the store is one step. `Interleavings` puts any number of
runs on one store in any order and keeps a trace, in which a call of the adapter stands from the moment it is made;
`Runs`, `RunEffects`, `RunLogs`, `RunClaims` and `Traces` prove the invariant, and `ExecutorTheorems`, `KeyEffects` and
`StrayClaims` read the promises off it, with `TracePlaces` and `KeySchedules` as their tools, `ReplyDetails` says what
replies carry, `RetryLaws` when a run tries again, and `ExecutorOutcomes` how each answer ends one. `ExecutorLoop` is the same
code as the loop it is, with a state machine and a registry changed in place, proved to be a run of the machine
(`DrivenRuns`). `Idempotency`, `Contracts`, `Lifecycle` and `Backoff`, with `DelayValues`, are the parts it drives.

**Predicates.** `Json` and `Predicates` give evaluation without a cache, `PredicateLaws` its laws,
`PredicateEngine` the evaluator with its cache of compiled patterns. `JsonLaws` and `LeafLaws` say what paths name and
what each kind of leaf verifies, without the definitions evaluation is made of.

**Rate limits and policies.** `RateLimits`, `RateLimitLaws`, `RateLimitOpenings`, `RateLimitPairs`, `RateLimitStatus`;
`PolicyEngine` with `ContractValidation`, `PolicyLaws`, `PolicyCleanup`; `ScreeningLaws` and `ValidationLaws` say what is
turned away before it is counted, and with which error.

**Recovery.** `Breakers`; `Recovery`, `RecoveryLaws`, `RecoveryBudgets` and `RecoveryOutcomes` for strategy trees, `GuardedLaws` for
guarded executions in a row.

**MCP correlation.** `Correlator`, `CorrelatorLaws`, `CorrelatorDelivery`, `CorrelatorStream`.

**Connection URIs.** `Uris`, `UriLaws`, `UriShapes`; `Utf8` and `Utf8Laws` for their text.

## How the world is represented

- Time is a number given to each call; breaker clocks may run backwards, rate limits take calls in order of time.
- JSON objects are maps. Compiling and matching a pattern, serialising an object and converting a number
  to a float are arbitrary functions in a `Library`.
- Delays are computed in exact arithmetic with the truncating casts of the source; durations are nonnegative.
- In a recovery each call of the operation, and each clock reading, has an arbitrary answer; breakers are shared by number.
- Text of a URI is its UTF-8 bytes, one character below 256 each.

## Where the code does not do what is said of it

- The second `claim_or_check` of a polling caller discards its claim result (crates/agentverify-runtime/src/executor.rs:1006).
  The documentation says no aborted run leaves the key in flight. `StrayClaims.CanBeLeftInFlightIff` says exactly which
  callers on a key make it possible, and `ExecutorTheorems.KeysLeftInFlight` that there is no other way.
- The claim is documented to be released only when nothing could have been dispatched (crates/agentverify-runtime/src/executor.rs:243-249).
  The claim policy looks only at the last adapter error, so a run whose first call took effect and whose second is
  rejected releases its key, and another run dispatches again: `KeyEffects.ReleasedAfterEffectIffRetry` and
  `KeyEffects.TwoRunsTakeEffectIff` say exactly when. What does hold is `ExecutorTheorems.ReleasesFollowSafeAnswers`.
- The source's README (README.md:177-180) says the executor never re-dispatches without observing first. Without an observer
  it checks the postconditions on an empty document, fails, and dispatches again (`KeyEffects.RedispatchesBlindlyIff`).
- Paths that never evaluated postconditions are said to pass an empty vector of details
  (crates/agentverify-runtime/src/executor.rs:1343-1350). The vector is kept across attempts, so a retry that ends without a
  check replies with the details of an earlier attempt (`ReplyDetails.RepliesStaleIff`).
- `max_count` is described as the maximum in the window. Buckets keep to it, but an interval as long as the window can span
  two of them: it holds of all such half-open intervals exactly as `RateLimitOpenings.MaximumIsKeptIff` says, and twice the
  maximum bounds the closed ones (`RateLimits.AtMostTwicePerWindow`, `RateLimitLaws.TwicePerWindowIsAttained`).
- Different actions with the same key are separate, as the source says (`RateLimitPairs.SameKeyIsFiledApart`); with different
  keys they need not be. `RateLimitPairs.AnswersAsPairsIff` and `PolicyLaws.KeyLimitAlwaysKeptIff` say when they are.
- Half-open is described as allowing one test request; the code allows any number until a failure or enough successes
  (`Breakers.HalfOpenAdmitsAll`, `Breakers.StaysHalfOpenIff`). Breaker and timeout strategies report `Success` for whatever
  the operation answers (`RecoveryLaws.SuccessIsSuccessIff`), and a fallback strategy never calls anything.
- A response read by one request for another is lost if the reader's deadline passes before it routes it
  (`CorrelatorDelivery.HeldIsRoutedIff`; `CorrelatorDelivery.AResponseIsLost` is an example).
- `VerificationFailed` lists a successor that its being terminal refuses; the model does the same.

## Model

| member | source | states |
|---|---|---|
| ExecutorTheorems.OneHolderPerKey | crates/agentverify-runtime/src/executor.rs:180-224 | Over every schedule of any number of runs, cancellations included, no two runs are at once between winning the claim on a key and resolving it |
| ExecutorTheorems.DispatchersTakeTurns | crates/agentverify-runtime/src/executor.rs:989-1026 | If two runs call their adapters on one key, whether or not the calls were answered or cut off, the earlier run released the key before the later one claimed it |
| ExecutorTheorems.CompletedForever | crates/agentverify-runtime/src/executor.rs:181-214 | An entry that is completed stays completed with the same verdict, whatever turns follow |
| ExecutorTheorems.LateCallersGetTheStoredVerdict | crates/agentverify-runtime/src/executor.rs:989-1020 | A caller that comes to a completed key, or is still polling it, can only end by being cancelled or by returning that verdict with no attempt |
| ExecutorTheorems.ClaimsAreResolvedExactlyOnce | crates/agentverify-runtime/src/executor.rs:1028-1322 | A run that won its first claim and ended uncancelled called exactly one of complete and release, once, as its last event, on every exit |
| ExecutorTheorems.KeysLeftInFlight | crates/agentverify-runtime/src/executor.rs:1006-1020 | When all runs have ended uncancelled, a key is in flight if and only if some caller took it with the second look whose claim result is discarded |
| ExecutorTheorems.ReleasesFollowSafeAnswers | crates/agentverify-runtime/src/executor.rs:396-405 | A dispatching run releases its key only right after its latest adapter call was answered with one of the three errors that prove nothing was sent |
| ExecutorTheorems.VerifyBeforeRetry | crates/agentverify-runtime/src/executor.rs:1170-1288 | Between any two adapter calls of a run its postconditions were checked and evaluated to Failed: on an observation made in between if it has an observer, and otherwise on the empty document |
| KeyEffects.RedispatchesBlindlyIff | crates/agentverify-runtime/src/executor.rs:1170-1276 | Some interleaving has a run call its adapter again without any observation in between if and only if it has no observer and can dispatch again |
| ExecutorTheorems.PreconditionsHoldAtDispatch | crates/agentverify-runtime/src/executor.rs:1046-1110 | Each adapter call of a run with preconditions follows an observation of the same attempt on which every one of them verified |
| ExecutorTheorems.AttemptsAndSleepAreBounded | crates/agentverify-runtime/src/executor.rs:1262-1276 | Attempts never exceed the configured maximum, counted as at least one; unless cancelled a run has slept exactly the delays after its earlier attempts, at most (attempts - 1) times the cap; and cancelled in its sleep or not, at most (maximum - 1) times the cap |
| RetryLaws.FailedCheckSleepsIff | crates/agentverify-runtime/src/executor.rs:1262-1288 | On the fields of the configuration: a failed check is followed by a sleep and another attempt if and only if verify-before-retry is set and the attempts so far are below the recovery maximum (one if its strategy is no action) or the default; otherwise the run leaves with Failed |
| RetryLaws.LimitIsConfigured | crates/agentverify-runtime/src/executor.rs:451-465 | The attempt limit is the configured maximum, or one if that is zero |
| RetryLaws.AllAttemptsCanBeMade | crates/agentverify-runtime/src/executor.rs:1033-1316 | Every run that can pass its preconditions and fail its check, and verifies before it retries, has a schedule in which it makes exactly the configured number of attempts and then replies Failed with that count |
| ExecutorOutcomes.AdapterAnswerEnds | crates/agentverify-runtime/src/executor.rs:1111-1168 | After any schedule, how each answer of an adapter ends: any fault is raised, the key gone after the three faults that prove nothing was sent and completed as Unknown after the others; a transport error or ambiguous outcome is returned and stored as Unknown; all else, timeouts among it, is checked |
| ExecutorOutcomes.ObserverAnswerEnds | crates/agentverify-runtime/src/executor.rs:1170-1316 | After any schedule, how each answer of an observer ends: its error or a timeout is raised, with the key completed as Unknown by a dispatching run and gone after a simulated one; UnknownResult is returned as Unknown by a dispatching run only; an observation is checked, and error, Verified, Partial, another attempt or Failed follow exactly from its postconditions |
| ExecutorOutcomes.PreObservationEnds | crates/agentverify-runtime/src/executor.rs:1046-1110 | An attempt with preconditions goes on if and only if all of them verify on what was observed first; otherwise it is returned and stored as Failed |
| ExecutorOutcomes.AttemptBegins | crates/agentverify-runtime/src/executor.rs:1034-1110 | Where an attempt begins: without preconditions it is sent, observed or checked on the empty document; with them it is observed first, or returned as Failed without an observer |
| ExecutorTheorems.AtMostOneDispatchWithoutRetry | crates/agentverify-runtime/src/executor.rs:1270-1309 | Without verify-before-retry, or without a second attempt allowed, a run dispatches at most once, although the branch for Unknown ignores that setting |
| ExecutorTheorems.DuplicateIsNeverStored | crates/agentverify-runtime/src/executor.rs:1319-1322 | No entry of the store ever holds Duplicate |
| ExecutorTheorems.LifecycleNeverRefuses | crates/agentverify-runtime/src/executor.rs:370-384 | No run ever leaves through the error branch of advance_or_abort: every transition the executor asks for is accepted |
| ExecutorTheorems.VerifiedRepliesAreTrue | crates/agentverify-runtime/src/executor.rs:1240-1340 | A Verified reply with attempts carries the observation of that attempt and one passed detail per postcondition, in order, each true on that observation |
| ExecutorTheorems.StoredVerifiedIsTrue | crates/agentverify-runtime/src/executor.rs:1319-1322 | A stored Verified was stored by a run on that key that observed a state on which all its postconditions hold |
| ExecutorTheorems.CachedRepliesAreStored | crates/agentverify-runtime/src/executor.rs:995-1012 | A reply without attempts other than Duplicate is the verdict the store holds for the key |
| ExecutorTheorems.CachedVerifiedRepliesAreTrue | crates/agentverify-runtime/src/executor.rs:995-1012 | A Verified reply without attempts traces back to a run on the same key whose postconditions all held on what it observed |
| ExecutorTheorems.RunsTerminate | crates/agentverify-runtime/src/executor.rs:1033-1316 | Whatever the schedule, the turns that changed a run plus its remaining rank stay within seven times its attempt limit plus seven |
| KeyEffects.TwoEffectsNeedARetry | crates/agentverify-runtime/src/executor.rs:396-405 | Of two adapter calls on a key that may have taken effect (answered unsafely, unanswered or cut off), in any interleaving, the first is by a run that can dispatch again |
| KeyEffects.ARetryGivesTwoEffects | crates/agentverify-runtime/src/executor.rs:1262-1288 | Every run that can dispatch again has a schedule in which two of its calls on its key are both answered with a success |
| KeyEffects.AtMostOneEffectIffNoRetry | crates/agentverify-runtime/src/executor.rs:1111-1168 | A key sees at most one possible effect in every interleaving, cancellations included, if and only if no run on it can dispatch, fail its check and retry; single-attempt configurations satisfy this |
| KeyEffects.ReleasedAfterEffectIffRetry | crates/agentverify-runtime/src/executor.rs:1121-1131 | Some interleaving has a run release the key after a possible effect of its own if and only if some run on the key can dispatch again |
| KeyEffects.TwoRunsTakeEffectIff | crates/agentverify-runtime/src/executor.rs:1121-1131 | Some interleaving has two different runs both possibly take effect on the key if and only if one run on it can dispatch again and another can dispatch |
| KeyEffects.ARetryLetsAnotherRunIn | crates/agentverify-runtime/src/executor.rs:1121-1131 | The schedule: success, failed check, rejected second call, release, and another run's call succeeds too |
| StrayClaims.CanBeLeftInFlightIff | crates/agentverify-runtime/src/executor.rs:1005-1020 | Some interleaving has an uncancelled run end and leave the key in flight if and only if a real caller and another caller that can release meet on the key |
| StrayClaims.DiscardedClaimLeavesKeyInFlight | crates/agentverify-runtime/src/executor.rs:1005-1020 | For every such pair, a schedule: the holder releases, the poller claims the key and answers Duplicate |
| StrayClaims.EndedHolderKeepsItsKey | crates/agentverify-runtime/src/executor.rs:181-223 | A key held by a run that has ended, by a stray claim or cancelled, stays in flight whatever follows |
| StrayClaims.CutOffCallHoldsItsKey | crates/agentverify-runtime/src/executor.rs:1111-1131 | A run cancelled during an adapter call holds its key |
| StrayClaims.NoCallAfterwards | crates/agentverify-runtime/src/executor.rs:181-223 | Once a run that holds the key has ended, cut off in a call or not, nobody calls an adapter on that key again, whatever follows |
| ReplyDetails.RepliesCarryTheirLatestCheck | crates/agentverify-runtime/src/executor.rs:1028-1032 | The details of any reply after an attempt: none before a first check, otherwise exactly those of the latest check the run made, which is of the last attempt for every verdict only a check gives |
| ReplyDetails.RepliesStaleIff | crates/agentverify-runtime/src/executor.rs:1319-1341 | A run can reply with the details of an earlier attempt if and only if its preconditions can be met, its check can fail, it may retry, and it dispatches or has preconditions |
| Traces.EveryScheduleIsOk | crates/agentverify-runtime/src/executor.rs:979-1343 | The system invariant (holders, origins of verdicts, separation of dispatches, evidence, one log per run) holds after every schedule |
| Runs.MoveKeepsShape | crates/agentverify-runtime/src/executor.rs:979-1343 | Every move, whatever the store and the answers, keeps the invariant of a single run |
| Runs.AttemptLimit | crates/agentverify-runtime/src/executor.rs:451-465 | A retry is allowed only below the limit, which is at least one |
| RunEffects.MoveEffect | crates/agentverify-runtime/src/executor.rs:979-1343 | What any move may log, do to the store and lead to |
| RunLogs.MoveKeepsLog | crates/agentverify-runtime/src/executor.rs:1033-1290 | Dispatches are numbered by attempt, preceded by their pre-observations and separated by failed observations |
| RunClaims.MoveLowersRank | crates/agentverify-runtime/src/executor.rs:1033-1316 | A move changes nothing or lowers the rank of its run |
| ExecutorPhases.BeginAttemptErased | crates/agentverify-runtime/src/executor.rs:1034-1110 | The top of an attempt leads where the same code without its state machine leads: no transition is refused |
| ExecutorPhases.AfterPreObservingErased | crates/agentverify-runtime/src/executor.rs:1046-1110 | Likewise after the pre-observation |
| ExecutorPhases.AfterDispatchingErased | crates/agentverify-runtime/src/executor.rs:1111-1168 | Likewise after the adapter has answered, for every answer |
| ExecutorPhases.AfterObservingErased | crates/agentverify-runtime/src/executor.rs:1170-1316 | Likewise after the observation; a verdict is backed by exactly that observation |
| ExecutorLoop.AdvanceOrAbort | crates/agentverify-runtime/src/executor.rs:370-384 | Advances the machine in place, or leaves it and gives the error exit |
| ExecutorLoop.Verify | crates/agentverify-runtime/src/executor.rs:1215-1316 | The check of the postconditions and its branches do what the step machine does |
| ExecutorLoop.Observe | crates/agentverify-runtime/src/executor.rs:1170-1213 | The observation and its three kinds of answer do what the step machine does |
| ExecutorLoop.DispatchAction | crates/agentverify-runtime/src/executor.rs:1111-1168 | The dispatch and its answers do what the step machine does |
| ExecutorLoop.Proceed | crates/agentverify-runtime/src/executor.rs:1092-1110 | Authorizing, and dispatching or simulating it, do what the step machine does |
| ExecutorLoop.ObserveFirst | crates/agentverify-runtime/src/executor.rs:1050-1090 | The check of the preconditions on the state before the dispatch does what the step machine does |
| ExecutorLoop.Attempt | crates/agentverify-runtime/src/executor.rs:1034-1316 | One turn of the loop is one attempt of the step machine |
| ExecutorLoop.Resolve | crates/agentverify-runtime/src/executor.rs:338-351 | Leaves the store and gives the reply as the step machine does on leaving |
| ExecutorLoop.Loop | crates/agentverify-runtime/src/executor.rs:1028-1343 | The loop, with its attempts, evidence and sleeps as variables, ends with the reply, the store and the sleep of the step machine |
| ExecutorLoop.Execute | crates/agentverify-runtime/src/executor.rs:979-1343 | A whole execution, real or simulated, returns, stores and sleeps as the step machine does, whatever others do to the store between its calls on it |
| ExecutorLoop.DrivingIsPlaying | crates/agentverify-runtime/src/executor.rs:979-1343 | With nobody else on the store such a run is one of the schedules, so the theorems over all schedules hold of it |
| DrivenRuns.AttemptDrives | crates/agentverify-runtime/src/executor.rs:1034-1316 | An attempt ends asleep or leaving, one attempt later, and driving through it is driving from its end |
| DrivenRuns.FreshDrives | crates/agentverify-runtime/src/executor.rs:989-1026 | What a fresh run does with its key: attempt, or answer from the store |
| Idempotency.ClaimOrCheck | crates/agentverify-runtime/src/executor.rs:181-204 | Claims exactly a vacant key, leaves an occupied store alone, and reports exactly a completed verdict |
| Idempotency.IdempotencyRegistry.ClaimOrCheckKey | crates/agentverify-runtime/src/executor.rs:181-204 | The map after the call and both results are those of the specification |
| Idempotency.IdempotencyRegistry.CompleteKey | crates/agentverify-runtime/src/executor.rs:206-215 | The key is completed with the verdict and nothing else changes |
| Idempotency.IdempotencyRegistry.ReleaseKey | crates/agentverify-runtime/src/executor.rs:217-223 | The key is gone and nothing else changes |
| Contracts.PreconditionsAllVerify | crates/agentverify-runtime/src/executor.rs:814-838 | Validation succeeds if and only if every precondition verifies |
| Contracts.FirstUnmetIsReported | crates/agentverify-runtime/src/executor.rs:814-838 | The error is that of the first precondition that does not verify: unsatisfied, or not evaluable |
| Contracts.CheckAllPreconditions | crates/agentverify-runtime/src/executor.rs:814-838 | The loop stops at the first precondition that fails or cannot be evaluated, with that error |
| Contracts.EvaluatePostconditions | crates/agentverify-runtime/src/executor.rs:885-947 | The loop and its flags compute the specified evaluation |
| Contracts.PostconditionVerdict | crates/agentverify-runtime/src/executor.rs:885-947 | One detail per postcondition, in order and true; Verified iff none fails, Failed iff a mandatory one fails, Partial iff some fail and all of them are optional; nothing else |
| Contracts.PostconditionsAnswer | crates/agentverify-runtime/src/executor.rs:885-918 | There is an evaluation if and only if every postcondition can be evaluated |
| Contracts.FirstUnevaluableIsReported | crates/agentverify-runtime/src/executor.rs:885-918 | The error is that of the first postcondition that cannot be evaluated |
| Predicates.EvaluationIsSettled | crates/agentverify-engine/src/engine.rs:51-89 | For every tree, state and arguments the answer is Verified, Failed or a pattern error |
| LeafLaws.LeavesAnswer | crates/agentverify-engine/src/engine.rs:91-158 | A leaf other than a pattern verifies or fails and never errs |
| LeafLaws.ExistsIff | crates/agentverify-engine/src/engine.rs:91-105 | Exists verifies if and only if the path names something; NotExists is Not Exists |
| LeafLaws.EqualsIff | crates/agentverify-engine/src/engine.rs:107-135 | Equals verifies if and only if the path names the resolved value; NotEquals if and only if it names something and Equals fails |
| LeafLaws.NumbersCompare | crates/agentverify-engine/src/engine.rs:204-256 | On two numbers GreaterThan verifies if and only if both have floats and the first is larger, LessThan if and only if it is smaller |
| LeafLaws.TextsCompare | crates/agentverify-engine/src/engine.rs:204-256 | On two texts exactly one of GreaterThan, LessThan and Equals verifies, by the first character at which they part |
| LeafLaws.NothingElseCompares | crates/agentverify-engine/src/engine.rs:204-256 | On anything else both comparisons fail |
| LeafLaws.MatchesIff | crates/agentverify-engine/src/engine.rs:160-202 | A pattern is compiled, and can err, only if the path names a text; otherwise it fails |
| LeafLaws.ContainsIff | crates/agentverify-engine/src/engine.rs:137-158 | Contains verifies exactly on a text with the value as a part (any text, if the value is none), an array with the value as an element, and an object written out with the text in it |
| LeafLaws.CountIff | crates/agentverify-engine/src/engine.rs:258-290 | Count compares the number of elements, of fields or of UTF-8 bytes, zero for a missing path, by the operator named; anything else fails |
| LeafLaws.EmptyIff | crates/agentverify-engine/src/engine.rs:292-315 | IsEmpty verifies exactly on a missing path, null, and an empty array, object or text; IsNotEmpty is Not IsEmpty |
| LeafLaws.ReferencesResolve | crates/agentverify-engine/src/engine.rs:398-405 | A reference stands for what its path names in the arguments, or for itself; nothing else is resolved |
| PredicateLaws.AnswersAreTrue | crates/agentverify-engine/src/engine.rs:317-381 | An answer is the classical truth value over the leaves, which `LeafLaws` pins, however much was skipped; an error is the compile error of a pattern of the tree |
| PredicateLaws.CleanTreesAlwaysAnswer | crates/agentverify-engine/src/engine.rs:160-202 | If every pattern compiles, evaluation is exactly classical truth |
| PredicateLaws.NotIsAnInvolution | crates/agentverify-engine/src/engine.rs:347-359 | Double negation changes neither a verdict nor which error surfaces |
| PredicateLaws.ImpliesIsADisjunction | crates/agentverify-engine/src/engine.rs:361-381 | Implies(a, c) equals Any[Not a, c], including which error surfaces |
| PredicateLaws.DeMorgan | crates/agentverify-engine/src/engine.rs:317-359 | Not All equals Any of the negations, with short-circuiting and errors |
| PredicateLaws.NullArgumentsResolveNothing | crates/agentverify-engine/src/engine.rs:398-405 | Under Null arguments no reference resolves |
| PredicateLaws.SubstitutionCommutesWithEvaluation | crates/agentverify-engine/src/engine.rs:398-405 | Evaluating under arguments equals evaluating the tree with all references resolved under Null arguments |
| PredicateEngine.Engine.EvalMatches | crates/agentverify-engine/src/engine.rs:160-202 | From any valid cache the answer and the error are those without a cache; the cache stays valid and grows at most by this pattern |
| PredicateEngine.Engine.Evaluate | crates/agentverify-engine/src/engine.rs:51-89 | The same for whole trees: result and exact error are those of evaluation without a cache, and the cache grows only by patterns of the tree |
| PredicateEngine.Engine.EvalAll | crates/agentverify-engine/src/engine.rs:317-330 | The loop with its early return computes the specified conjunction |
| PredicateEngine.Engine.EvalAny | crates/agentverify-engine/src/engine.rs:332-345 | The loop with its early return computes the specified disjunction |
| PredicateEngine.Engine.EvalNot | crates/agentverify-engine/src/engine.rs:347-359 | Negation of the specified answer, errors kept |
| PredicateEngine.Engine.EvalImplies | crates/agentverify-engine/src/engine.rs:361-381 | Implication of the specified answers; the consequent matters only under a verified antecedent |
| Json.LookUp | crates/agentverify-engine/src/engine.rs:385-395 | The loop over segments finds what the recursive lookup finds |
| JsonLaws.IndexNamesItsElement | crates/agentverify-engine/src/engine.rs:385-395 | An index below 2^64, in decimal digits, names the element at that place from the front, and nothing past the end |
| JsonLaws.OnlyIndexesNameElements | crates/agentverify-engine/src/engine.rs:385-395 | A segment that is no such number names nothing in an array |
| JsonLaws.NameNamesItsField | crates/agentverify-engine/src/engine.rs:385-395 | A name without a dot names the field of that name, or nothing |
| JsonLaws.ScalarsNameNothing | crates/agentverify-engine/src/engine.rs:385-395 | Nothing is named in any other document, by any path |
| JsonLaws.EmptyObjectNamesNothing | crates/agentverify-runtime/src/executor.rs:1211-1213 | Nor in the empty document a run without an observer is checked on |
| JsonLaws.ParseDecimal | crates/agentverify-engine/src/engine.rs:385-395 | Printed numbers are read back within the limit and refused beyond it, with or without a plus sign |
| JsonLaws.ParseOthers | crates/agentverify-engine/src/engine.rs:385-395 | Leading zeros are read over; nothing, a lone plus sign and any other character are refused |
| Json.PathsCompose | crates/agentverify-engine/src/engine.rs:385-395 | Looking up p.q is looking up p and then q in what was found, for all strings |
| Json.SplitOfJoined | crates/agentverify-engine/src/engine.rs:385-395 | Splitting a joined path gives the segments of both parts |
| Json.JoinOfSplit | crates/agentverify-engine/src/engine.rs:385-395 | Joining the segments gives the path back |
| Lifecycle.Transition | crates/agentverify-core/src/state_machine.rs:122-134 | An accepted transition yields the state asked for and lowers the rank; the terminal error is given exactly in states of rank zero |
| Lifecycle.TransitionIff | crates/agentverify-core/src/state_machine.rs:93-134 | The accepted steps pair by pair; a state with any step refuses others by naming both, a state with none as terminal |
| Lifecycle.StateMachine.Advance | crates/agentverify-core/src/state_machine.rs:170-174 | A refused transition leaves the state; an accepted one lowers the rank |
| Lifecycle.AtMostEightAdvances | crates/agentverify-core/src/state_machine.rs:93-134 | Of any requests from any state at most eight are accepted |
| Lifecycle.RecoveryIsUnreachable | crates/agentverify-core/src/state_machine.rs:93-118 | No path from Proposed meets a recovery state |
| Lifecycle.CommitsOnlyThroughVerification | crates/agentverify-core/src/state_machine.rs:93-118 | A path from Proposed to Committed went through Executing, Verifying and Verified |
| Backoff.ExecutorDelayIsCappedAndMonotone | crates/agentverify-runtime/src/executor.rs:420-445 | The delay never exceeds its cap, and does not fall with the attempt when the multiplier is at least one |
| DelayValues.DefaultDelays | crates/agentverify-runtime/src/executor.rs:420-445 | Without settings attempt n waits the smaller of 100 times 2^(n - 1) and 5000 milliseconds |
| DelayValues.ExecutorDelays | crates/agentverify-runtime/src/executor.rs:420-445 | With settings and a whole multiplier m: initial times n, or initial times m^(n - 1), up to the cap |
| DelayValues.RecoveryDelays | crates/agentverify-recovery/src/lib.rs:138-161 | The recovery crate: initial, initial plus initial times m times n, or initial times m^n, up to the cap |
| Backoff.RecoveryDelayIsCappedAndMonotone | crates/agentverify-recovery/src/lib.rs:138-161 | The same of the recovery crate |
| Backoff.ExponentialDelaysAgreeIff | crates/agentverify-recovery/src/lib.rs:149-153 | Exponential: the executor at attempt n waits as long as the recovery crate at n - 1, for all attempts and caps, if and only if the initial delay times the multiplier is above minus one |
| Backoff.LinearDelaysAgreeExactlyAtOne | crates/agentverify-recovery/src/lib.rs:141-148 | Linear: they agree on all attempts and caps if and only if the multiplier is one or the initial delay zero |
| RateLimits.RateLimitTracker.CheckRateLimit | crates/agentverify-policy/src/policy.rs:284-302 | The buckets and the answer are those of the specification |
| RateLimits.RateLimitTracker.CleanupExpired | crates/agentverify-policy/src/policy.rs:310-313 | Exactly the buckets younger than two windows remain |
| RateLimits.IdempotencyRateLimitTracker.CheckRateLimit | crates/agentverify-policy/src/policy.rs:338-351 | The same under the joined key |
| RateLimits.IdempotencyRateLimitTracker.CleanupExpired | crates/agentverify-policy/src/policy.rs:355-358 | Exactly the buckets younger than two windows remain |
| RateLimits.AtMostTwicePerWindow | crates/agentverify-policy/src/policy.rs:247-266 | Over any calls and cleanups in order of time, any interval as long as the window has at most twice the maximum of allowed calls, and each bucket at most the maximum |
| RateLimitLaws.WindowBoundIff | crates/agentverify-policy/src/policy.rs:247-266 | That bound holds of every run if and only if the window is longer than nothing or the maximum is zero |
| RateLimitOpenings.LessThanTwicePerHalfOpenWindow | crates/agentverify-policy/src/policy.rs:247-266 | A half-open interval as long as the window has at most one less than twice the maximum |
| RateLimitOpenings.HalfOpenBoundIsAttained | crates/agentverify-policy/src/policy.rs:247-266 | And that is attained for every window longer than one tick |
| RateLimitOpenings.MaximumIsKeptIff | crates/agentverify-policy/src/policy.rs:247-266 | Every run keeps to the maximum itself in all half-open intervals as long as the window if and only if the window is at most one tick or the maximum at most one |
| RateLimitLaws.TwicePerWindowIsAttained | crates/agentverify-policy/src/policy.rs:247-266 | For every limit some calls attain exactly twice the maximum |
| RateLimitLaws.ZeroWindowBoundsNothing | crates/agentverify-policy/src/policy.rs:260-266 | A window of no length allows any number of calls at one instant |
| RateLimitLaws.CleanupIsInvisible | crates/agentverify-policy/src/policy.rs:310-313 | With one limit per key, a run with cleanups anywhere gives the answers of the run without them |
| RateLimitLaws.StatusIsUnchanged | crates/agentverify-policy/src/engine.rs:195-224 | And the same status at any later time |
| RateLimitStatus.StatusTells | crates/agentverify-policy/src/engine.rs:195-224 | While a window is open the status is the calls allowed since it began, what is left of the maximum, and the whole seconds left; nothing used when none is open; none if it ends between the two readings. Windows begin at a call that finds none open |
| RateLimitStatus.RemainingIsAllowed | crates/agentverify-policy/src/engine.rs:195-224 | Of any number of calls at the first reading exactly as many are allowed as the status says remain |
| RateLimitStatus.SweptIff | crates/agentverify-policy/src/policy.rs:310-313 | A cleanup drops a bucket if and only if two windows have passed since its window began |
| RateLimitStatus.FirstLimitRules | crates/agentverify-policy/src/policy.rs:284-302 | Without cleanups a bucket keeps the limit of the first call on its key |
| RateLimitStatus.LaterLimitsAreIgnored | crates/agentverify-policy/src/policy.rs:284-302 | A later call is answered as if it carried that limit |
| RateLimitPairs.SharedBuckets | crates/agentverify-policy/src/policy.rs:338-342 | Two pairs are filed under one string exactly when they are equal or one action extends the other by a colon and a prefix of its key |
| RateLimitPairs.SameKeyIsFiledApart | crates/agentverify-policy/src/policy.rs:339-341 | Different actions with the same key are always filed apart |
| RateLimitPairs.PerKeyTrackerRefinesPairs | crates/agentverify-policy/src/policy.rs:338-358 | On pairs no two of which share a string the per-key tracker answers as one keyed by the pair, and its buckets are that one's |
| RateLimitPairs.AnswersAsPairsIff | crates/agentverify-policy/src/policy.rs:338-358 | For any set of pairs: the tracker answers as one keyed by the pair on all calls over the set if and only if no two of them share a string |
| RateLimitPairs.ColonFreeActionsAreFiledApart | crates/agentverify-policy/src/policy.rs:338-342 | All pairs with a colon-free action together are such a set |
| PolicyEngine.Engine.EvaluateWithAccess | crates/agentverify-policy/src/engine.rs:73-160 | The checks in their order, the contract validated on the way, and both trackers in place, are those of the specification |
| ScreeningLaws.DeniedBeforeLimitsIff | crates/agentverify-policy/src/engine.rs:73-128 | A request is denied with a violation other than a limit exactly when that is its first failed check, spelled out on the policy: disabled, empty, blocked, fits no pattern, level below the required one, contract missing, contract invalid with its error; the trackers are then untouched |
| ScreeningLaws.RuledByLimitsIff | crates/agentverify-policy/src/engine.rs:73-160 | The limits decide if and only if name, level and required contract are in order |
| ScreeningLaws.LimitsDecide | crates/agentverify-policy/src/engine.rs:129-160 | Both trackers after a request that reached the limits and its ruling: the action counted first, its key only if that was allowed; allowed if and only if both allow it; a denial by the key tells a count of one and the limit of the key |
| ScreeningLaws.HigherLevelsAreNotDenied | crates/agentverify-policy/src/engine.rs:102-110 | A request that reached the limits is ruled on alike at any higher level, with User below Operator below Admin below System |
| ScreeningLaws.FitsIff | crates/agentverify-policy/src/policy.rs:129-141 | A pattern matches exactly the equal name, those that begin with it, those that end with it, or what a compiled expression accepts |
| PolicyEngine.Engine.CheckLimits | crates/agentverify-policy/src/engine.rs:129-157 | The action limit is counted before the key limit; the status a denial reports is read later, and that reading may panic |
| PolicyEngine.Engine.RateLimitStatus | crates/agentverify-policy/src/engine.rs:195-224 | The status of an action from two readings of the clock, zero counts once its window is over, none where the source panics |
| ContractValidation.Validate | crates/agentverify-core/src/contract.rs:340-397 | The first broken rule in the order of the source, the loop over paths included |
| ContractValidation.ValidIff | crates/agentverify-core/src/contract.rs:340-397 | There is no error if and only if the version is of major one, a name and a postcondition are there, no two postconditions share a nonempty path, and the recovery settings are sound |
| ValidationLaws.RefusedIff | crates/agentverify-core/src/contract.rs:340-397 | A contract is refused with an error, its data included, exactly when that is the first rule it breaks, each rule spelled out on the contract |
| ValidationLaws.MajorVersionIff | crates/agentverify-core/src/contract.rs:32-40 | A version has a major number if and only if it is two numbers of 32 bits around its only dot, the first of which it is |
| ValidationLaws.PrintedVersion | crates/agentverify-core/src/contract.rs:32-40 | In particular printed numbers, each refused beyond 32 bits |
| ValidationLaws.FiledUnderItsFirstLeaf | crates/agentverify-core/src/contract.rs:401-420 | A postcondition is filed under the path of the leaf its first parts lead to |
| ValidationLaws.FirstDuplicateIff | crates/agentverify-core/src/contract.rs:369-376 | The path reported is that of the first postcondition to repeat an earlier nonempty one |
| PolicyEngine.Engine.CleanUp | crates/agentverify-policy/src/engine.rs:242-251 | Both trackers lose exactly their old buckets |
| PolicyLaws.TrackersFollow | crates/agentverify-policy/src/engine.rs:129-157 | Each tracker of an engine has seen exactly its own projection of the evaluations and cleanups |
| PolicyLaws.ActionLimitIsKept | crates/agentverify-policy/src/engine.rs:129-142 | Over any evaluations and cleanups, an interval as long as its window has at most twice an action's maximum of allowed requests |
| PolicyLaws.KeyLimitIsKept | crates/agentverify-policy/src/engine.rs:145-157 | The same for each idempotency key of an action, unless another named action with another limit is filed under the same string |
| PolicyLaws.KeyLimitAlwaysKeptIff | crates/agentverify-policy/src/engine.rs:145-157 | Under every policy and use the limit of an action per key is kept for a key if and only if neither the key nor the name after its first character has a colon |
| PolicyLaws.ColonFreeNamesAreFiledAlone | crates/agentverify-policy/src/policy.rs:338-342 | Policies whose per-key limits are on colon-free names meet that condition |
| PolicyLaws.SharedFilesBreakTheLimit | crates/agentverify-policy/src/policy.rs:338-342 | For any two different actions filed under one string there is a policy under which the second is allowed on the limit of the first, though its own is zero |
| PolicyLaws.DenialsReportTheLimit | crates/agentverify-policy/src/engine.rs:130-142 | A request over its action limit is told the limit as its count, or zero if the window has ended at the first reading of the status, and the whole window; the evaluation panics exactly if the window ends between the two readings |
| PolicyCleanup.EngineCleanupIsInvisible | crates/agentverify-policy/src/engine.rs:242-251 | With and without its cleanups an engine gives the same rulings, reported counts included |
| PolicyCleanup.EngineStatusIsUnchanged | crates/agentverify-policy/src/engine.rs:195-224 | Nor does the status of an action tell |
| PolicyCleanup.ColonFreeNamesFile | crates/agentverify-policy/src/policy.rs:338-342 | Policies with colon-free names meet the condition of the two above |
| Breakers.CircuitBreaker.RecordFailureNow | crates/agentverify-recovery/src/lib.rs:589-613 | The fields after a failure, state by state |
| Breakers.CircuitBreaker.RecordSuccessNow | crates/agentverify-recovery/src/lib.rs:616-634 | The fields after a success, state by state |
| Breakers.CircuitBreaker.IsAllowed | crates/agentverify-recovery/src/lib.rs:637-655 | The permission and the move to half-open |
| Breakers.AlwaysConsistent | crates/agentverify-recovery/src/lib.rs:589-655 | After any calls and for any thresholds: closed below the failure threshold with no successes, open at it with a last failure, half-open at it and below the success threshold |
| Breakers.OpensExactlyAtTheThreshold | crates/agentverify-recovery/src/lib.rs:589-605 | A closed breaker opens exactly on the failure that completes a row of threshold failures since the last success |
| Breakers.HalfOpensExactlyAfterTheTimeout | crates/agentverify-recovery/src/lib.rs:637-655 | An open breaker becomes half-open exactly when asked at least the recovery timeout after the latest failure, those recorded while open included |
| Breakers.ClosesExactlyAtTheThreshold | crates/agentverify-recovery/src/lib.rs:616-634 | A half-open breaker closes exactly on the success that completes a threshold of successes since it became half-open, with no failure among them; a failure opens it at once |
| Breakers.StaysHalfOpenIff | crates/agentverify-recovery/src/lib.rs:589-655 | A half-open breaker stays so over further calls if and only if none is a failure and the successes fall short of the threshold |
| Breakers.HalfOpenAdmitsAll | crates/agentverify-recovery/src/lib.rs:637-655 | Until then it admits every request, however many, and asking changes nothing |
| Breakers.AnyNumberOfAsks | crates/agentverify-recovery/src/lib.rs:637-655 | In particular any number of requests in a row |
| Breakers.PermissionLasts | crates/agentverify-recovery/src/lib.rs:717-734 | The second of two checks in a row never refuses and changes nothing |
| Recovery.Session.ExecuteRetry | crates/agentverify-recovery/src/lib.rs:286-344 | The retry loop computes the specified outcome, calls and sleeps |
| Recovery.Session.ExecuteGuarded | crates/agentverify-recovery/src/lib.rs:717-734 | The breaker is asked twice, and the second refusal is unreachable |
| GuardedLaws.GuardedWhenClosed | crates/agentverify-recovery/src/lib.rs:665-687 | A closed breaker makes the call and passes its answer on; Verified and Duplicate forget its failures, any other answer, errors among them, is one more at the clock reading after the call, and the one that reaches the threshold opens it |
| GuardedLaws.GuardedWhenOpen | crates/agentverify-recovery/src/lib.rs:637-687 | An open one refuses without a call exactly until its timeout has passed since the last failure; then the call is a trial |
| GuardedLaws.GuardedWhenHalfOpen | crates/agentverify-recovery/src/lib.rs:616-687 | A half-open one makes every call; no success opens it, enough successes close it |
| GuardedLaws.StaysClosedIff | crates/agentverify-recovery/src/lib.rs:589-687 | Over any number of guarded executions a new breaker stays closed if and only if every row of answers that are no successes is below the threshold |
| GuardedLaws.FailuresOpenIt | crates/agentverify-recovery/src/lib.rs:589-687 | A threshold of such answers in a row opens a new breaker, with the last of them, and the next execution is refused without a call if and only if the timeout has not passed since then |
| GuardedLaws.SuccessesNeverOpenIt | crates/agentverify-recovery/src/lib.rs:616-687 | Any number of successes leaves it closed and calls every time |
| Recovery.Session.ExecuteTimed | crates/agentverify-recovery/src/lib.rs:766-785 | An answer that takes longer than the duration is dropped, any other passed on |
| Recovery.Session.ExecuteChain | crates/agentverify-recovery/src/lib.rs:932-947 | The loop over strategies computes the specified chain |
| Recovery.Session.Execute | crates/agentverify-recovery/src/lib.rs:207-215 | Each kind of strategy does what is specified for it |
| Recovery.Session.ExecutePlan | crates/agentverify-recovery/src/lib.rs:842-871 | Primary, gate and fallbacks in order; the primary's failure is what remains |
| RecoveryOutcomes.TimedReads | crates/agentverify-recovery/src/lib.rs:766-785 | An answer in time is passed on; a later one is abandoned and reported as a timeout of that duration |
| RecoveryOutcomes.CompositeReads | crates/agentverify-recovery/src/lib.rs:932-947 | A composite comes to its first success and runs nothing after it; with none it has run all in order and reports one attempt exceeded |
| RecoveryOutcomes.RecoveryReads | crates/agentverify-recovery/src/lib.rs:842-871 | A recovery comes to its primary success, or a refusal without a call behind a shut gate, or the first success of its fallbacks, or the failure of its primary |
| RecoveryLaws.RunTells | crates/agentverify-recovery/src/lib.rs:207-215 | For every tree: calls within the sum of the leaf budgets, no call after one that succeeded, a success is the last call's answer, after a failure no call had succeeded |
| RecoveryLaws.RecoveryTells | crates/agentverify-recovery/src/lib.rs:842-871 | The same for a whole recovery with its gate and fallbacks; it never ends as inapplicable |
| RecoveryLaws.SuccessIsSuccessIff | crates/agentverify-recovery/src/lib.rs:717-734 | Every reported success is Verified or Duplicate, for all operations and breaker states, if and only if the tree has no breaker and no timeout in it |
| RecoveryBudgets.BudgetIsAttained | crates/agentverify-recovery/src/lib.rs:842-871 | Every recovery, whatever strategies and breakers are in it, can use up its budget of calls |
| RecoveryBudgets.SleepIsBounded | crates/agentverify-recovery/src/lib.rs:286-344 | Every tree sleeps at most the sum over its retries of (attempts - 1) times the cap |
| RecoveryBudgets.RetrySleepsBetweenCalls | crates/agentverify-recovery/src/lib.rs:286-344 | A retry sleeps exactly once between any two of its calls, for the delays of its backoff in order |
| RecoveryLaws.RetryReads | crates/agentverify-recovery/src/lib.rs:286-344 | A retry read off its calls: which it makes, where it stops, and its error from the last answer and whether any verification failed |
| RecoveryLaws.RunKeepsBreakers | crates/agentverify-recovery/src/lib.rs:665-687 | Running any tree keeps the invariant of every shared breaker |
| Correlator.Client.AllocateId | crates/agentverify-mcp/src/client.rs:266-271 | The counter value, which is then one more |
| Correlator.Client.Register | crates/agentverify-mcp/src/client.rs:279-282 | The slot is in the table under the id |
| Correlator.Client.TakeSlot | crates/agentverify-mcp/src/client.rs:405-410 | The slot, if there was one, and the table without it |
| Correlator.Client.Dispatch | crates/agentverify-mcp/src/client.rs:351-384 | Where a message goes and what it does to the table, the queue of 64 and the rejected requests |
| Correlator.Client.NextNotification | crates/agentverify-mcp/src/client.rs:567-569 | The oldest queued notice, taken off the queue, or none |
| CorrelatorLaws.EveryScheduleIsOk | crates/agentverify-mcp/src/client.rs:261-384 | The invariant of ids, slots, inboxes and outcomes holds whatever the requests do and the server sends |
| CorrelatorLaws.IdsAreUnique | crates/agentverify-mcp/src/client.rs:266-271 | No two requests ever carry the same id |
| CorrelatorLaws.ResponsesAreNotCrossed | crates/agentverify-mcp/src/client.rs:351-372 | A request never returns a response with another id (section 5 of the JSON-RPC 2.0 Specification) |
| CorrelatorLaws.ChannelIsNeverFoundClosed | crates/agentverify-mcp/src/client.rs:314-326 | The branch for a closed response channel is never enabled and never an outcome |
| CorrelatorLaws.PendingIsInFlight | crates/agentverify-mcp/src/client.rs:293-295 | A pending slot belongs to the request of its id, in flight or dropped; one that returned has none |
| CorrelatorStream.NoticesAreTakenInOrder | crates/agentverify-mcp/src/client.rs:373-378 | In every schedule what was taken off the queue, then what is left in it, are the notices routed while fewer than 64 waited, in order; at most 64 wait |
| CorrelatorStream.FirstNoticesAreKept | crates/agentverify-mcp/src/client.rs:373-378 | If nobody takes any, the queue holds the first 64 notices routed |
| CorrelatorStream.ServerRequestsAreRejected | crates/agentverify-mcp/src/client.rs:379-400 | Every server request routed is rejected once, in order, and nothing else is |
| CorrelatorStream.ErrorsTellWhy | crates/agentverify-mcp/src/client.rs:303-345 | A request that fails with a timeout timed out, and one that fails with a transport error failed to send or to read |
| CorrelatorDelivery.DeliveredExactlyOnce | crates/agentverify-mcp/src/client.rs:351-372 | In every schedule the one response routed to a listening request that does not give up reaches it at that turn: nothing before, that response ever after |
| CorrelatorDelivery.GotIff | crates/agentverify-mcp/src/client.rs:303-372 | In every schedule a request that does not give up has a response in the end if and only if one to its id was routed while it listened |
| CorrelatorDelivery.GotWasRouted | crates/agentverify-mcp/src/client.rs:303-372 | In every schedule, with any number of responses to its id, the response a request has is one that was routed to it while it listened |
| CorrelatorDelivery.HeldIsRoutedIff | crates/agentverify-mcp/src/client.rs:303-345 | A message read and held is routed at a turn if and only if that turn is its reader's dispatch and neither timeout nor drop came before |
| CorrelatorDelivery.AtomicReadsDeliver | crates/agentverify-mcp/src/client.rs:303-345 | If each message is routed in the step that reads it, the one response read for a listening request reaches it |
| CorrelatorDelivery.AResponseIsLost | crates/agentverify-mcp/src/client.rs:303-345 | A schedule of two requests in which the second's response is read by the first and lost |
| UriLaws.ReadsBackIff | crates/agentverify-observe/src/postgres.rs:306-319 | A printed configuration reads back with the same user, password, host, port and database if and only if its host has no at sign and no slash and its SSL mode no at sign |
| UriLaws.DecodeOfEncoded | crates/agentverify-observe/src/postgres.rs:94-98 | A component comes back from its percent-encoding if and only if it is UTF-8 |
| UriLaws.UnescapeOfEncoded | crates/agentverify-observe/src/postgres.rs:94-98 | Replacing the escapes undoes the encoding of sections 2.1 and 2.3 of RFC 3986 |
| UriLaws.EncodedIsClean | crates/agentverify-observe/src/postgres.rs:306-319 | An encoding has only unreserved characters and percent signs |
| UriLaws.PortRoundTrip | crates/agentverify-observe/src/postgres.rs:151-160 | A port of sixteen bits comes back from its digits, which have no colon |
| UriLaws.AtSignInQuery | crates/agentverify-observe/src/postgres.rs:127-136 | An at sign in the query makes the parser refuse the password as ambiguous |
| UriLaws.HostIsCut | crates/agentverify-observe/src/postgres.rs:117-122 | An at sign or a slash in the host gives a shorter host, if the URI is accepted |
| UriLaws.AuthorityRoundTrip | crates/agentverify-observe/src/postgres.rs:139-160 | Host, port and database come back from an authority whose host has no slash |
| UriLaws.BareUriReads | crates/agentverify-observe/src/postgres.rs:127-160 | Without password and port the parser gives no password and port 5432 |
| UriShapes.PrintsAs | crates/agentverify-observe/src/postgres.rs:306-319 | The printed URI label by label, the SSL mode and the application name in its query |
| UriShapes.EncodesAs | crates/agentverify-observe/src/postgres.rs:306-319 | Letters, digits, hyphen, dot, underscore and tilde stand for themselves, any other byte for two upper-case hexadecimal digits |
| UriShapes.EscapeReads | crates/agentverify-observe/src/postgres.rs:94-98 | Two hexadecimal digits after a percent sign, each in either case, read as their byte |
| UriShapes.OthersReadAsThemselves | crates/agentverify-observe/src/postgres.rs:94-98 | Anything else stands for itself |
| Utf8Laws.ValidIff | crates/agentverify-observe/src/postgres.rs:94-98 | A decoded component is accepted if and only if it is the UTF-8 bytes of some text |
| UriShapes.SchemesRead | crates/agentverify-observe/src/postgres.rs:104-113 | Both schemes are read alike |
| UriShapes.OtherSchemesAreRefused | crates/agentverify-observe/src/postgres.rs:104-113 | Any other is refused |
| UriShapes.MissingUserinfoIff | crates/agentverify-observe/src/postgres.rs:115-122 | Userinfo is missing if and only if there is no at sign |
| UriShapes.RestReads | crates/agentverify-observe/src/postgres.rs:115-122 | Login and place are parted at the last at sign; an error of the login comes first |
| UriShapes.UserReads | crates/agentverify-observe/src/postgres.rs:124-138 | A user without a colon has no password |
| UriShapes.LoginReads | crates/agentverify-observe/src/postgres.rs:124-138 | After the first colon is the password; a second colon is refused, then an undecodable password, then an undecodable user |
| UriShapes.MissingDatabaseIff | crates/agentverify-observe/src/postgres.rs:140-144 | The database is missing if and only if there is no slash |
| UriShapes.PlaceReads | crates/agentverify-observe/src/postgres.rs:140-152 | The database is decoded from between the first slash and the next question mark, whatever follows |
| UriShapes.HostReads | crates/agentverify-observe/src/postgres.rs:154-161 | Port 5432 without a colon; else the number of 16 bits after the last colon, or an error with what stands there |

## Left out

- HTTP, Redis, Postgres query, WASM and OTLP adapters, the CLI, the server and tracing: input and output around the modelled parts.
- Stdio framing and the cancellation of a read in progress: a message is read whole or not at all.
- Receipt hashing, signing and stores: a receipt is its result, attempts, key, observation and details.
- Serde encodings and the wording of errors; errors keep their kind, and a few keep their data.
- Rounding of floating point, the internals of regular expressions, and overflow: backoff products and
  doubled windows of more than 64 bits, more than 2^64 requests. Breaker counts stay within their thresholds, so their counters cannot wrap.
- Negative durations in backoff, and the sleep of a recovery retry whose negative multiplier gives it a negative delay.
- `reset_rate_limits`, which voids the window bound on purpose, and `max_buckets`, which nothing enforces.
- Other evaluations and cleanups between the checks of a policy evaluation and its later reading of the status: an evaluation is one step.
- Races between the separate locks and counters of one breaker: each of its methods is one step. Strategy trees run with nobody else on their breakers.
- `is_applicable` and `execute_fallback_chain` of the recovery crate: they decide nothing modelled here.
- Cancellation between resolving a claim and replying: the two are one step.
- Redis as an idempotency store: only the in-memory one is modelled.
- PolicyLaws.KeyLimitIsKept: for one policy the condition is sufficient only; over all policies it is exact in `PolicyLaws.KeyLimitAlwaysKeptIff`.
- ExecutorLoop.Execute: gives others the store only between its own calls on it, since it touches it nowhere else; a run of it is one of the schedules when nobody else is there (`ExecutorLoop.DrivingIsPlaying`).
- CorrelatorDelivery.DeliveredExactlyOnce: is about one response to a request that does not give up; `CorrelatorDelivery.GotWasRouted` covers the rest.
