/**
 Starting the sidecar under the lock: bounded launches, bounded health probes, bounded backoff.

 Time is in milliseconds. Every await takes an arbitrary time, a completed sleep at least what
 was asked for, and any of the stop flags may end any await.
 */
module SidecarStartup {
  import opened Domain

  const LAUNCH_ATTEMPTS: nat := 3
  const PROBE_INTERVAL: nat := 50

  type ChildId = nat

  datatype Sidecar = Sidecar(child: ChildId, endpoint: nat, bearer: nat)

  datatype Attempt =
    | NotLaunched
    | Launched(sidecar: Sidecar, probes: nat, healthy: bool, dropped: bool)

  /** What a call of `try_exited` says. */
  datatype Exit = StillRunning | HasExited | Unknown

  /** Everything the supervisor meets, by the number of the await, the exit check or the attempt. */
  datatype World = World(
    shuttingDown: bool,
    stops: nat -> Option<EngineError>, // the flag that ends the n-th await, if any
    elapsed: nat -> nat,               // how long the n-th await takes, beyond a requested sleep
    healthy: nat -> bool,              // whether a probe made by the n-th await is answered
    exits: nat -> Exit,
    prepared: nat -> bool,             // whether a port is reserved and a bearer drawn
    launches: nat -> Option<(nat, nat)>) // endpoint and bearer of a child that starts

  function Power(base: nat, exponent: nat): nat {
    if exponent == 0 then 1 else base * Power(base, exponent - 1)
  }

  /** `250 << (attempt - 1)`, at most a second. */
  function BackoffMillis(attempt: nat): nat
    requires attempt > 0
  {
    var millis := 250 * Power(2, attempt - 1);
    if millis > 1000 then 1000 else millis
  }

  /** All backoff requested before this many attempts were over. */
  function BackoffBefore(attempts: nat): nat {
    if attempts <= 1 then 0 else BackoffBefore(attempts - 1) + BackoffMillis(attempts - 1)
  }

  lemma BackoffIsBounded(attempts: nat)
    requires attempts <= LAUNCH_ATTEMPTS
    ensures BackoffBefore(attempts) <= 750
    ensures BackoffBefore(2) == 250 && BackoffBefore(3) == 750
  {
    assert Power(2, 0) == 1 && Power(2, 1) == 2 * Power(2, 0);
    assert BackoffMillis(1) == 250 && BackoffMillis(2) == 500;
    assert BackoffBefore(1) == 0 && BackoffBefore(2) == 250;
  }

  function CeilDiv(a: nat, b: nat): nat
    requires b > 0
  {
    (a + b - 1) / b
  }

  /** The most health probes one launch can get. */
  function ProbeBound(startupTimeout: nat): nat {
    CeilDiv(startupTimeout, PROBE_INTERVAL) + 1
  }

  lemma ProbesInTime(startupTimeout: nat, probes: nat)
    requires probes > 0 && (probes - 1) * PROBE_INTERVAL < startupTimeout
    ensures probes + 1 <= ProbeBound(startupTimeout)
  {
  }

  predicate IsStop(error: EngineError) {
    error in {EngineError.Cancelled, EngineError.DeadlineExceeded, ShuttingDown}
  }

  /** Every child of these attempts is gone, none passed its probe, and none was probed too often. */
  predicate AllFailed(attempts: seq<Attempt>, startupTimeout: nat) {
    forall i :: 0 <= i < |attempts| && attempts[i].Launched? ==>
      attempts[i].dropped && !attempts[i].healthy && attempts[i].probes <= ProbeBound(startupTimeout)
  }

  /** Every stop flag is one of the three stops. */
  ghost predicate Sane(world: World) {
    forall n :: world.stops(n).Some? ==> IsStop(world.stops(n).value)
  }

  ghost predicate StoppedBetween(world: World, from: nat, to: nat, error: EngineError) {
    exists n :: from <= n < to && world.stops(n) == Some(error)
  }

  class Supervisor {
    const startupTimeout: nat
    const world: World
    var now: nat
    var awaits: nat
    var checks: nat
    var running: Option<Sidecar>
    var nextChild: ChildId
    ghost var attempts: seq<Attempt>
    ghost var backoff: nat // requested so far

    constructor (startupTimeout: nat, world: World)
      ensures this.startupTimeout == startupTimeout && this.world == world
      ensures running.None? && attempts == [] && backoff == 0 && awaits == 0 && checks == 0
    {
      this.startupTimeout, this.world := startupTimeout, world;
      now, awaits, checks, nextChild, running := 0, 0, 0, 0, None;
      attempts, backoff := [], 0;
    }

    /** One `select!` over the stop flags and an operation. */
    method Await() returns (stop: Option<EngineError>)
      modifies this`now, this`awaits
      ensures awaits == old(awaits) + 1 && stop == world.stops(old(awaits))
      ensures now == old(now) + world.elapsed(old(awaits))
    {
      stop := world.stops(awaits);
      now := now + world.elapsed(awaits);
      awaits := awaits + 1;
    }

    method Sleep(millis: nat) returns (stop: Option<EngineError>)
      modifies this`now, this`awaits
      ensures awaits == old(awaits) + 1 && stop == world.stops(old(awaits))
      ensures now == old(now) + world.elapsed(old(awaits)) + if stop.None? then millis else 0
    {
      stop := Await();
      if stop.None? { now := now + millis; }
    }

    method TryExited() returns (exit: Exit)
      modifies this`checks
      ensures checks == old(checks) + 1 && exit == world.exits(old(checks))
    {
      exit := world.exits(checks);
      checks := checks + 1;
    }

    /** `wait_until_ready`: one probe after another until it answers, the child exits or time is up. */
    method WaitUntilReady(sidecar: Sidecar) returns (r: Result<(), EngineError>, ghost probes: nat)
      requires Sane(world)
      modifies this`now, this`awaits, this`checks
      ensures now >= old(now) && awaits >= old(awaits) && checks > old(checks)
      ensures probes <= ProbeBound(startupTimeout)
      ensures r.Ok? ==> probes > 0 && awaits > old(awaits) && world.stops(awaits - 1).None? && world.healthy(awaits - 1)
      ensures r.Err? && IsStop(r.error) ==> awaits > old(awaits) && world.stops(awaits - 1) == Some(r.error)
      ensures r.Err? && !IsStop(r.error) ==>
                && r.error == RuntimeUnavailable
                && (|| !world.exits(checks - 1).StillRunning?
                    || (now >= old(now) + startupTimeout && awaits > old(awaits) && !world.healthy(awaits - 1)))
    {
      probes := 0;
      var deadline := now + startupTimeout;
      ghost var start := now;
      while true
        invariant now >= start + probes * PROBE_INTERVAL
        invariant probes > 0 ==> (probes - 1) * PROBE_INTERVAL < startupTimeout
        invariant awaits == old(awaits) + 2 * probes && checks == old(checks) + probes
        decreases startupTimeout + PROBE_INTERVAL - probes * PROBE_INTERVAL
      {
        var exit := TryExited();
        if !exit.StillRunning? { return Err(RuntimeUnavailable), probes; }
        if probes > 0 { ProbesInTime(startupTimeout, probes); }
        probes := probes + 1;
        var stop := Await();
        if stop.Some? { return Err(stop.value), probes; }
        if world.healthy(awaits - 1) { return Ok(()), probes; }
        if now >= deadline { return Err(RuntimeUnavailable), probes; }
        stop := Sleep(PROBE_INTERVAL);
        if stop.Some? { return Err(stop.value), probes; }
      }
    }

    /** One turn of the launch loop; no result means that the loop goes on. */
    method Attempt(attempt: nat) returns (r: Option<Result<(), EngineError>>)
      requires attempt < LAUNCH_ATTEMPTS && running.None? && Sane(world)
      requires |attempts| == attempt && AllFailed(attempts, startupTimeout) && backoff == BackoffBefore(attempt)
      modifies this
      ensures old(attempts) <= attempts && |attempts| <= attempt + 1 && awaits >= old(awaits)
      ensures backoff <= BackoffBefore(attempt + 1)
      ensures r.None? ==> |attempts| == attempt + 1 && backoff == BackoffBefore(attempt + 1)
      ensures r.None? || r.value.Err? ==> running.None? && AllFailed(attempts, startupTimeout)
      ensures |attempts| == attempt + 1 ==> (attempts[attempt].NotLaunched? <==> world.launches(attempt).None?)
      ensures r.Some? && r.value.Ok? ==> Installed(old(attempts)) && awaits > 0 && world.healthy(awaits - 1)
      ensures r.Some? && r.value.Err? ==>
                if IsStop(r.value.error) then StoppedBetween(world, old(awaits), awaits, r.value.error)
                else r.value.error == RuntimeUnavailable && attempts == old(attempts) && !world.prepared(attempt)
    {
      if attempt > 0 {
        backoff := backoff + BackoffMillis(attempt);
        var stop := Sleep(BackoffMillis(attempt));
        if stop.Some? { return Some(Err(stop.value)); }
      }
      if !world.prepared(attempt) { return Some(Err(RuntimeUnavailable)); }
      var stop := Await();
      if stop.Some? { return Some(Err(stop.value)); }
      var launched := world.launches(attempt);
      if launched.None? {
        attempts := attempts + [NotLaunched];
        return None;
      }
      var sidecar := Sidecar(nextChild, launched.value.0, launched.value.1);
      nextChild := nextChild + 1;
      ghost var probes;
      var readiness;
      readiness, probes := WaitUntilReady(sidecar);
      if readiness.Ok? {
        attempts := attempts + [Launched(sidecar, probes, true, false)];
        running := Some(sidecar);
        return Some(Ok(()));
      }
      attempts := attempts + [Launched(sidecar, probes, false, true)]; // terminated, or dropped on the way out
      stop := Await();
      if stop.Some? { return Some(Err(stop.value)); }
      r := if IsStop(readiness.error) then Some(Err(readiness.error)) else None;
    }

    /** The last attempt's child answered its probe and is the one installed; all others are gone. */
    ghost predicate Installed(before: seq<Attempt>)
      reads this
    {
      && |attempts| == |before| + 1 && attempts[..|before|] == before
      && AllFailed(before, startupTimeout)
      && var last := attempts[|before|];
      && last.Launched? && last.healthy && !last.dropped
      && 0 < last.probes <= ProbeBound(startupTimeout)
      && running == Some(last.sidecar)
      && world.launches(|before|) == Some((last.sidecar.endpoint, last.sidecar.bearer))
    }

    /** `ensure_running`, from reading the shutdown flag to releasing the lock. */
    method EnsureRunning() returns (r: Result<(), EngineError>)
      requires attempts == [] && backoff == 0 && awaits == 0 && checks == 0 && Sane(world)
      modifies this
      ensures |attempts| <= 3 && backoff <= 750
      ensures r.Ok? ==> running.Some?
      ensures r.Ok? ==> (running == old(running) && attempts == [] && world.exits(0).StillRunning?)
                        || (|attempts| > 0 && Installed(attempts[..|attempts| - 1]))
      ensures world.shuttingDown ==> r == Err(ShuttingDown) && running == old(running) && attempts == []
      ensures !world.shuttingDown && world.stops(0).None? && old(running).Some? && world.exits(0) != HasExited ==>
                && r == (if world.exits(0).StillRunning? then Ok(()) else Err(RuntimeUnavailable))
                && running == old(running) && attempts == []
      ensures r.Err? ==> AllFailed(attempts, startupTimeout)
      ensures r.Err? ==> running.None? || (running == old(running) && attempts == [])
      ensures r.Err? && IsStop(r.error) ==>
                (world.shuttingDown && r.error == ShuttingDown) || StoppedBetween(world, 0, awaits, r.error)
      ensures r.Err? && !IsStop(r.error) ==>
                && r.error == RuntimeUnavailable
                && (|| (old(running).Some? && world.exits(0).Unknown?)
                    || |attempts| == LAUNCH_ATTEMPTS
                    || !world.prepared(|attempts|))
    {
      if world.shuttingDown { return Err(ShuttingDown); }
      var stop := Await();
      if stop.Some? { return Err(stop.value); }
      if running.Some? {
        var exit := TryExited();
        if exit.Unknown? { return Err(RuntimeUnavailable); }
        if exit.StillRunning? { return Ok(()); }
        running := None;
      }
      for attempt := 0 to LAUNCH_ATTEMPTS
        invariant running.None? && |attempts| == attempt && backoff == BackoffBefore(attempt)
        invariant AllFailed(attempts, startupTimeout)
      {
        ghost var before := attempts;
        BackoffIsBounded(attempt + 1);
        var done := Attempt(attempt);
        if done.Some? {
          if done.value.Ok? { assert attempts[..|attempts| - 1] == before; }
          return done.value;
        }
      }
      BackoffIsBounded(LAUNCH_ATTEMPTS);
      return Err(RuntimeUnavailable);
    }
  }
}
