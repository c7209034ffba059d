/**
 * One run driven to its end: the world answers each wait of each attempt, and may do anything to the store
 * before each further call the run makes on it, when it polls again and when it settles.
 */
module DrivenRuns {
  import opened Verdicts
  import opened Idempotency
  import opened Executor
  import opened ExecutorPhases
  import opened Runs
  import opened RunClaims

  /** What the observer and the adapter answer, attempt by attempt, and what others do to the store meanwhile. */
  datatype World = World(
    before: nat -> Sighting,
    dispatch: nat -> Answer,
    after: nat -> Sighting,
    whilePolling: Store -> Store,
    whileRunning: Store -> Store)

  /** The store as a move finds it. */
  function Found(world: World, r: Run, store: Store): Store {
    if r.phase.Polling? then world.whilePolling(store)
    else if r.phase.Settling? then world.whileRunning(store)
    else store
  }

  function InputFor(world: World, r: Run): Input {
    match r.phase
    case PreObserving => ObserverReply(world.before(r.attempts))
    case Dispatching => AdapterReply(world.dispatch(r.attempts))
    case Observing => ObserverReply(world.after(r.attempts))
    case _ => Tick
  }

  /** Move until the run moves no more. */
  ghost function Drive(spec: RunSpec, world: World, r: Run, store: Store): Moved
    requires Shape(spec, r)
    decreases Rank(spec, r)
  {
    var found := Found(world, r, store);
    var m := Move(spec, r, found, InputFor(world, r));
    MoveKeepsShape(spec, r, found, InputFor(world, r));
    MoveLowersRank(spec, r, found, InputFor(world, r));
    if m.run == r then m else Drive(spec, world, m.run, m.store)
  }

  function Observed(spec: RunSpec, world: World, r: Run): Run {
    if r.phase.Observing? then Sight(spec, r, world.after(r.attempts)) else r
  }

  /** The adapter is called and answers. */
  function SentAndAnswered(spec: RunSpec, world: World, r: Run): Run {
    AfterDispatching(spec, Send(r), world.dispatch(r.attempts), Blind(spec))
  }

  function DispatchedToo(spec: RunSpec, world: World, r: Run): Run {
    Observed(spec, world, if r.phase.Sending? then SentAndAnswered(spec, world, r) else r)
  }

  /** A whole attempt, from the top of the loop until it leaves or sleeps. */
  function Attempted(spec: RunSpec, world: World, r: Run): Run {
    var begun := BeginAttempt(spec, r, Blind(spec));
    var passed := if begun.phase.PreObserving? then PreSight(spec, begun, world.before(begun.attempts)) else begun;
    DispatchedToo(spec, world, passed)
  }

  lemma DriveOn(spec: RunSpec, world: World, r: Run, store: Store)
    requires Shape(spec, r)
    requires Move(spec, r, Found(world, r, store), InputFor(world, r)).run != r
    ensures var m := Move(spec, r, Found(world, r, store), InputFor(world, r));
            Shape(spec, m.run) && Drive(spec, world, r, store) == Drive(spec, world, m.run, m.store)
  {
    MoveKeepsShape(spec, r, Found(world, r, store), InputFor(world, r));
  }

  lemma ObservedDrives(spec: RunSpec, world: World, r: Run, store: Store)
    requires Shape(spec, r) && (r.phase.Observing? || r.phase.Sleeping? || r.phase.Settling?)
    ensures var q := Observed(spec, world, r);
            && Shape(spec, q) && (q.phase.Sleeping? || q.phase.Settling?) && q.attempts == r.attempts
            && q.slept == r.slept
            && Drive(spec, world, r, store) == Drive(spec, world, q, store)
  {
    if r.phase.Observing? {
      var a := world.after(r.attempts);
      AfterObservingErased(spec, r, a, SightCheck(spec, a));
      DriveOn(spec, world, r, store);
    }
  }

  lemma SentDrives(spec: RunSpec, world: World, r: Run, store: Store)
    requires Shape(spec, r) && r.phase.Sending?
    ensures var q := SentAndAnswered(spec, world, r);
            && Shape(spec, q) && (q.phase.Observing? || q.phase.Sleeping? || q.phase.Settling?)
            && q.attempts == r.attempts && q.slept == r.slept
            && Drive(spec, world, r, store) == Drive(spec, world, q, store)
  {
    hide AfterDispatching;
    DriveOn(spec, world, r, store);
    AfterDispatchingErased(spec, Send(r), world.dispatch(r.attempts), Blind(spec));
    DriveOn(spec, world, Send(r), store);
  }

  lemma DispatchedDrives(spec: RunSpec, world: World, r: Run, store: Store)
    requires Shape(spec, r) && (r.phase.Sending? || r.phase.Observing? || r.phase.Sleeping? || r.phase.Settling?)
    ensures var q := DispatchedToo(spec, world, r);
            && Shape(spec, q) && (q.phase.Sleeping? || q.phase.Settling?) && q.attempts == r.attempts
            && q.slept == r.slept
            && Drive(spec, world, r, store) == Drive(spec, world, q, store)
  {
    if r.phase.Sending? {
      SentDrives(spec, world, r, store);
      ObservedDrives(spec, world, SentAndAnswered(spec, world, r), store);
    } else {
      ObservedDrives(spec, world, r, store);
    }
  }

  lemma PreObservedDrives(spec: RunSpec, world: World, r: Run, store: Store)
    requires Shape(spec, r) && r.phase.PreObserving?
    ensures var q := DispatchedToo(spec, world, PreSight(spec, r, world.before(r.attempts)));
            && Shape(spec, q) && (q.phase.Sleeping? || q.phase.Settling?) && q.attempts == r.attempts
            && q.slept == r.slept
            && Drive(spec, world, r, store) == Drive(spec, world, q, store)
  {
    var a := world.before(r.attempts);
    AfterPreObservingErased(spec, r, a, PreSightCheck(spec, a), Blind(spec));
    DriveOn(spec, world, r, store);
    DispatchedDrives(spec, world, PreSight(spec, r, a), store);
  }

  /** An attempt ends asleep or leaving, and driving through it is driving from its end. */
  lemma AttemptDrives(spec: RunSpec, world: World, r: Run, store: Store)
    requires r.holds == spec.key.Some?
    requires r.attempts >= 1 ==> spec.verifyBeforeRetry && Retries(spec, r.attempts)
    ensures Shape(spec, BeginAttempt(spec, r, Blind(spec)))
    ensures var q := Attempted(spec, world, r);
            && Shape(spec, q) && (q.phase.Sleeping? || q.phase.Settling?) && q.attempts == r.attempts + 1
            && q.slept == r.slept
            && Drive(spec, world, BeginAttempt(spec, r, Blind(spec)), store) == Drive(spec, world, q, store)
  {
    var begun := BeginAttempt(spec, r, Blind(spec));
    BeginAttemptShape(spec, r);
    BeginAttemptErased(spec, r, Blind(spec));
    hide BeginAttempt, AfterPreObserving, AfterDispatching, AfterObserving, Drive;
    if begun.phase.PreObserving? {
      PreObservedDrives(spec, world, begun, store);
    } else {
      DispatchedDrives(spec, world, begun, store);
    }
  }

  /** A sleeping run goes on with its next attempt. */
  lemma SleepDrives(spec: RunSpec, world: World, r: Run, store: Store)
    requires Shape(spec, r) && r.phase.Sleeping?
    ensures r.attempts >= 1 && Shape(spec, BeginAttempt(spec, Wake(spec, r), Blind(spec)))
    ensures Drive(spec, world, r, store) == Drive(spec, world, BeginAttempt(spec, Wake(spec, r), Blind(spec)), store)
    ensures r.attempts < AttemptLimit(spec) && r.holds == spec.key.Some? && spec.verifyBeforeRetry
            && Retries(spec, r.attempts)
  {
    AttemptsBounded(spec, r);
    BeginAttemptErased(spec, Wake(spec, r), Blind(spec));
    DriveOn(spec, world, r, store);
  }

  /** A leaving run resolves its claim and is done. */
  lemma LeaveDrives(spec: RunSpec, world: World, r: Run, store: Store)
    requires Shape(spec, r) && r.phase.Settling?
    ensures Drive(spec, world, r, store) == FromSettling(spec, r, r.phase.exit, world.whileRunning(store))
  {
    DriveOn(spec, world, r, store);
  }

  /** A run that has just claimed its key. */
  function ClaimedBy(key: string): Run {
    FRESH.(holds := true, log := FRESH.log + [ClaimedKey(key)])
  }

  /** What a fresh run does first: attempt, at once or with its claim, or answer without attempting. */
  lemma FreshDrives(spec: RunSpec, world: World, store: Store)
    ensures spec.key.None? ==>
              && Shape(spec, BeginAttempt(spec, FRESH, Blind(spec)))
              && Drive(spec, world, FRESH, store) == Drive(spec, world, BeginAttempt(spec, FRESH, Blind(spec)), store)
    ensures spec.key.Some? ==>
              var k := spec.key.value;
              if k !in store then
                && Shape(spec, BeginAttempt(spec, ClaimedBy(k), Blind(spec)))
                && Drive(spec, world, FRESH, store) ==
                     Drive(spec, world, BeginAttempt(spec, ClaimedBy(k), Blind(spec)), store[k := InFlight])
              else if store[k].InFlight? && spec.dispatches then
                Drive(spec, world, FRESH, store) ==
                  FromPolling(spec, FRESH.(phase := Polling), world.whilePolling(store))
              else
                Drive(spec, world, FRESH, store) ==
                Moved(Answered(spec, FRESH, if store[k].Completed? then store[k].result else Duplicate), store)
  {
    hide BeginAttempt, AfterPreObserving, AfterDispatching, AfterObserving, Drive;
    var m := FromStart(spec, FRESH, store);
    BeginAttemptErased(spec, FRESH, Blind(spec));
    if spec.key.Some? {
      BeginAttemptErased(spec, ClaimedBy(spec.key.value), Blind(spec));
    }
    DriveOn(spec, world, FRESH, store);
    if m.run.phase.Polling? {
      DriveOn(spec, world, m.run, store);
      var p := FromPolling(spec, m.run, world.whilePolling(store));
      DoneDrives(spec, world, p.run, p.store);
    } else if m.run.phase.Done? {
      DoneDrives(spec, world, m.run, store);
    }
  }

  lemma DoneDrives(spec: RunSpec, world: World, r: Run, store: Store)
    requires Shape(spec, r) && r.phase.Done?
    ensures Drive(spec, world, r, store) == Moved(r, store)
  {
  }
}
