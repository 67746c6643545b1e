/** The circuit breaker in front of an upstream provider, and the retry loop behind it. */
module Breaker {

  /** Times are in milliseconds; an `openUntil` of zero stands for a closed breaker. */
  datatype Config = Config(
    maxRetries: nat, baseBackoff: nat, maxBackoff: nat, threshold: nat, cooldown: nat,
    dryRun: bool, hasBaseUrl: bool, hasKeyEnv: bool)

  datatype Breaker = Breaker(failures: nat, openUntil: nat)

  const CLOSED := Breaker(0, 0)

  // ----- The three critical sections -----

  predicate Refuses(b: Breaker, now: nat) { b.openUntil != 0 && now < b.openUntil }

  predicate Resets(b: Breaker, now: nat) { b.openUntil != 0 && now >= b.openUntil }

  function PassGate(b: Breaker, now: nat): Breaker {
    if Resets(b, now) then CLOSED else b
  }

  predicate Trips(c: Config, b: Breaker) { b.failures + 1 >= c.threshold }

  function AfterFailure(c: Config, b: Breaker, clock: nat): Breaker {
    Breaker(b.failures + 1, if Trips(c, b) then clock + c.cooldown else b.openUntil)
  }

  // ----- Many requests at once -----

  datatype Event =
    | Admitted(at: nat, reset: bool)
    | Refused(at: nat)
    | Failed(at: nat, tripped: bool)
    | Succeeded(at: nat)

  /** `waiting` holds the clock readings of the requests that have not reached the gate yet; a
      reading can be old by then.  `running` counts the requests past the gate. */
  datatype World = World(clock: nat, breaker: Breaker, waiting: multiset<nat>, running: nat, log: seq<Event>)

  datatype Step = Tick(elapsed: nat) | Arrive | ReachGate(sampled: nat) | FinishFailed | FinishOk

  function Start(clock: nat): World {
    World(clock, CLOSED, multiset{}, 0, [])
  }

  function Apply(c: Config, w: World, step: Step): World {
    match step
    case Tick(elapsed) => w.(clock := w.clock + elapsed)
    case Arrive => w.(waiting := w.waiting + multiset{w.clock})
    case ReachGate(sampled) =>
      if sampled !in w.waiting then w
      else if Refuses(w.breaker, sampled)
      then w.(waiting := w.waiting - multiset{sampled}, log := w.log + [Refused(w.clock)])
      else w.(waiting := w.waiting - multiset{sampled},
              breaker := PassGate(w.breaker, sampled), running := w.running + 1,
              log := w.log + [Admitted(w.clock, Resets(w.breaker, sampled))])
    case FinishFailed =>
      if w.running == 0 then w
      else w.(breaker := AfterFailure(c, w.breaker, w.clock), running := w.running - 1,
              log := w.log + [Failed(w.clock, Trips(c, w.breaker))])
    case FinishOk =>
      if w.running == 0 then w
      else w.(breaker := CLOSED, running := w.running - 1, log := w.log + [Succeeded(w.clock)])
  }

  function Run(c: Config, w: World, steps: seq<Step>): World
    decreases |steps|
  {
    if steps == [] then w else Apply(c, Run(c, w, steps[..|steps| - 1]), steps[|steps| - 1])
  }

  // ----- What the log says -----

  /** Failed requests since the last success or reset. */
  function FailuresSince(log: seq<Event>): nat
    decreases |log|
  {
    if log == [] then 0
    else
      var before := FailuresSince(log[..|log| - 1]);
      match log[|log| - 1]
      case Failed(_, _) => before + 1
      case Succeeded(_) => 0
      case Admitted(_, reset) => if reset then 0 else before
      case Refused(_) => before
  }

  /** When the breaker is to close again: the cooldown after the last trip, unless a success or a
      reset came after it. */
  function OpenUntil(c: Config, log: seq<Event>): nat
    decreases |log|
  {
    if log == [] then 0
    else
      var before := OpenUntil(c, log[..|log| - 1]);
      match log[|log| - 1]
      case Failed(at, tripped) => if tripped then at + c.cooldown else before
      case Succeeded(_) => 0
      case Admitted(_, reset) => if reset then 0 else before
      case Refused(_) => before
  }

  predicate OpenExactlyFromThreshold(c: Config, b: Breaker) {
    b.openUntil != 0 <==> b.failures >= c.threshold
  }

  /** The log has a trip at `j` and no success after it. */
  predicate TripStands(log: seq<Event>, j: nat) {
    && j < |log| && log[j].Failed? && log[j].tripped
    && forall i :: j < i < |log| ==> !log[i].Succeeded?
  }

  /** While a trip stands, an open breaker stays open at least for its cooldown, and a closed one has
      outlasted it. */
  ghost predicate TripsCovered(c: Config, w: World) {
    forall j: nat :: TripStands(w.log, j) ==>
      w.log[j].at + c.cooldown <= if w.breaker.openUntil == 0 then w.clock else w.breaker.openUntil
  }

  /** Nobody is admitted during the cooldown after a trip, unless a success came in between. */
  ghost predicate CooldownsRespected(c: Config, log: seq<Event>) {
    forall j: nat, k: nat :: k < |log| && log[k].Admitted? && TripStands(log[..k], j) ==>
      log[k].at >= log[j].at + c.cooldown
  }

  ghost predicate Inv(c: Config, w: World) {
    && w.clock > 0
    && w.breaker == Breaker(FailuresSince(w.log), OpenUntil(c, w.log))
    && OpenExactlyFromThreshold(c, w.breaker)
    && (forall sampled :: sampled in w.waiting ==> sampled <= w.clock)
    && (forall j :: 0 <= j < |w.log| ==> w.log[j].at <= w.clock)
    && TripsCovered(c, w)
    && CooldownsRespected(c, w.log)
  }

  lemma Logged(c: Config, log: seq<Event>, e: Event)
    ensures var log' := log + [e];
            && FailuresSince(log') == (match e case Failed(_, _) => FailuresSince(log) + 1
                                               case Succeeded(_) => 0
                                               case Admitted(_, reset) => if reset then 0 else FailuresSince(log)
                                               case Refused(_) => FailuresSince(log))
            && OpenUntil(c, log') == (
                 match e
                 case Failed(at, tripped) => if tripped then at + c.cooldown else OpenUntil(c, log)
                                              case Succeeded(_) => 0
                                              case Admitted(_, reset) => if reset then 0 else OpenUntil(c, log)
                                              case Refused(_) => OpenUntil(c, log))
  {
    assert (log + [e])[..|log|] == log;
  }

  lemma StandingTrips(log: seq<Event>, e: Event)
    ensures forall j: nat :: TripStands(log + [e], j) && j < |log| ==> TripStands(log, j) && !e.Succeeded?
  {
    var log' := log + [e];
    forall j: nat | TripStands(log', j) && j < |log|
      ensures TripStands(log, j) && !e.Succeeded?
    {
      assert log'[j] == log[j] && log'[|log|] == e;
      assert forall i :: j < i < |log| ==> log'[i] == log[i];
    }
  }

  lemma LogKeepsCooldowns(c: Config, log: seq<Event>, e: Event)
    requires CooldownsRespected(c, log)
    requires e.Admitted? ==> forall j: nat :: TripStands(log, j) ==> e.at >= log[j].at + c.cooldown
    ensures CooldownsRespected(c, log + [e])
  {
    var log' := log + [e];
    forall j: nat, k: nat | k < |log'| && log'[k].Admitted? && TripStands(log'[..k], j)
      ensures log'[k].at >= log'[j].at + c.cooldown
    {
      assert log'[..k] == log[..k];
      assert j < k && log'[j] == log[j];
      if k == |log| {
        assert log[..k] == log;
      }
    }
  }

  lemma GateKeepsInv(c: Config, w: World, sampled: nat)
    requires Inv(c, w) && c.threshold >= 1 && sampled in w.waiting
    ensures Inv(c, Apply(c, w, ReachGate(sampled)))
  {
    hide FailuresSince, OpenUntil, TripStands;
    var w' := Apply(c, w, ReachGate(sampled));
    var e := w'.log[|w.log|];
    assert w'.log == w.log + [e];
    Logged(c, w.log, e);
    StandingTrips(w.log, e);
    NotATrip(w.log, e);
    LogKeepsCooldowns(c, w.log, e);
  }

  lemma NotATrip(log: seq<Event>, e: Event)
    ensures TripStands(log + [e], |log|) ==> e.Failed? && e.tripped
    ensures forall j: nat :: TripStands(log + [e], j) ==> j <= |log|
  {}

  lemma FailureKeepsInv(c: Config, w: World)
    requires Inv(c, w) && c.threshold >= 1 && w.running > 0
    ensures Inv(c, Apply(c, w, FinishFailed))
  {
    hide FailuresSince, OpenUntil, TripStands;
    var e := Failed(w.clock, Trips(c, w.breaker));
    Logged(c, w.log, e);
    StandingTrips(w.log, e);
    NotATrip(w.log, e);
    LogKeepsCooldowns(c, w.log, e);
  }

  lemma SuccessKeepsInv(c: Config, w: World)
    requires Inv(c, w) && c.threshold >= 1 && w.running > 0
    ensures Inv(c, Apply(c, w, FinishOk))
  {
    hide FailuresSince, OpenUntil, TripStands;
    var e := Succeeded(w.clock);
    Logged(c, w.log, e);
    StandingTrips(w.log, e);
    NotATrip(w.log, e);
    LogKeepsCooldowns(c, w.log, e);
  }

  lemma StepKeepsInv(c: Config, w: World, step: Step)
    requires Inv(c, w) && c.threshold >= 1
    ensures Inv(c, Apply(c, w, step))
  {
    match step
    case Tick(_) => {}
    case Arrive => {}
    case ReachGate(sampled) => if sampled in w.waiting { GateKeepsInv(c, w, sampled); }
    case FinishFailed => if w.running > 0 { FailureKeepsInv(c, w); }
    case FinishOk => if w.running > 0 { SuccessKeepsInv(c, w); }
  }

  /** For every interleaving of any number of requests: the breaker counts the failures since the
      last success or reset, is open exactly from the threshold on, and admits nobody during the
      cooldown after a trip unless a success came in between. */
  lemma {:induction false} BreakerIsSound(c: Config, clock: nat, steps: seq<Step>)
    requires clock > 0 && c.threshold >= 1
    ensures Inv(c, Run(c, Start(clock), steps))
    decreases |steps|
  {
    if steps == [] {
    } else {
      BreakerIsSound(c, clock, steps[..|steps| - 1]);
      StepKeepsInv(c, Run(c, Start(clock), steps[..|steps| - 1]), steps[|steps| - 1]);
    }
  }

  /** A threshold of zero is the only one for which "open from the threshold on" fails, and then it
      fails at once: a new breaker is closed. */
  lemma ThresholdMustBePositive(c: Config, clock: nat)
    requires clock > 0
    ensures (forall steps: seq<Step> :: OpenExactlyFromThreshold(c, Run(c, Start(clock), steps).breaker))
            <==> c.threshold >= 1
  {
    if c.threshold >= 1 {
      forall steps: seq<Step>
        ensures OpenExactlyFromThreshold(c, Run(c, Start(clock), steps).breaker)
      {
        BreakerIsSound(c, clock, steps);
      }
    } else {
      assert !OpenExactlyFromThreshold(c, Run(c, Start(clock), []).breaker);
    }
  }

  lemma RunUpTo(c: Config, w: World, steps: seq<Step>, k: nat)
    requires k < |steps|
    ensures Run(c, w, steps[..k + 1]) == Apply(c, Run(c, w, steps[..k]), steps[k])
  {
    assert steps[..k + 1][..k] == steps[..k];
  }

  /** A run in which the breaker trips at time 1, a request reads the clock at once and another one
      when the cooldown is over; then both reach the gate, the later reading first. */
  function OldReadingRun(cooldown: nat): seq<Step> {
    [Arrive, ReachGate(1), Arrive, FinishFailed, Tick(cooldown), Arrive, ReachGate(1 + cooldown), ReachGate(1)]
  }

  predicate TripsAtOnce(c: Config) { c.threshold == 1 && c.cooldown > 0 }

  /** The breaker has tripped, and a reading from that moment waits. */
  lemma ReadingWaits(c: Config)
    requires TripsAtOnce(c)
    ensures Run(c, Start(1), OldReadingRun(c.cooldown)[..4]) ==
              World(1, Breaker(1, 1 + c.cooldown), multiset{1}, 0, [Admitted(1, false), Failed(1, true)])
  {
    hide Run;
    var w, steps := Start(1), OldReadingRun(c.cooldown);
    RunNothing(c, w, steps);
    RunUpTo(c, w, steps, 0);
    RunUpTo(c, w, steps, 1);
    RunUpTo(c, w, steps, 2);
    RunUpTo(c, w, steps, 3);
  }

  /** It still waits when the cooldown is over, beside a new reading. */
  lemma ReadingsWait(c: Config)
    requires TripsAtOnce(c)
    ensures Run(c, Start(1), OldReadingRun(c.cooldown)[..6]) ==
              World(1 + c.cooldown, Breaker(1, 1 + c.cooldown), multiset{1, 1 + c.cooldown}, 0,
                    [Admitted(1, false), Failed(1, true)])
  {
    hide Run;
    ReadingWaits(c);
    RunUpTo(c, Start(1), OldReadingRun(c.cooldown), 4);
    RunUpTo(c, Start(1), OldReadingRun(c.cooldown), 5);
  }

  lemma RunNothing(c: Config, w: World, steps: seq<Step>)
    ensures Run(c, w, steps[..0]) == w
  {}

  /** The gate compares a clock reading taken before the lock.  Measured by that reading instead of
      the time of admission, the cooldown is not respected: in this run a request that read the clock
      when the breaker tripped gets through once another one has reset it. */
  lemma OldReadingsSlipThrough(c: Config)
    requires TripsAtOnce(c)
    ensures var w := Run(c, Start(1), OldReadingRun(c.cooldown));
            && w.log == [Admitted(1, false), Failed(1, true),
                         Admitted(1 + c.cooldown, true), Admitted(1 + c.cooldown, false)]
            && w.waiting == multiset{}
  {
    hide Run;
    var steps := OldReadingRun(c.cooldown);
    ReadingsWait(c);
    RunUpTo(c, Start(1), steps, 6);
    RunUpTo(c, Start(1), steps, 7);
    assert steps[..8] == steps;
  }

  /** Exactly when, after every run: a waiting request that read the clock before the cooldown of a
      standing trip was over is admitted if and only if the breaker has been reset by then. */
  lemma OldReadingIsAdmitted(c: Config, clock: nat, steps: seq<Step>, sampled: nat, j: nat)
    requires clock > 0 && c.threshold >= 1
    requires var w := Run(c, Start(clock), steps);
             sampled in w.waiting && TripStands(w.log, j) && sampled < w.log[j].at + c.cooldown
    ensures var w := Run(c, Start(clock), steps);
            var log := Apply(c, w, ReachGate(sampled)).log;
            |log| == |w.log| + 1 && (log[|w.log|].Admitted? <==> w.breaker.openUntil == 0)
  {
    hide Run, FailuresSince, OpenUntil, CooldownsRespected;
    BreakerIsSound(c, clock, steps);
  }

  // ----- The gate and the trips, told by the log alone -----

  /** After every run: the gate refuses a request exactly when its reading lies before the end of the
      cooldown in force, and one that gets through an open breaker resets it. */
  lemma GateFollowsTheLog(c: Config, clock: nat, steps: seq<Step>, sampled: nat)
    requires clock > 0 && c.threshold >= 1 && sampled in Run(c, Start(clock), steps).waiting
    ensures var w := Run(c, Start(clock), steps);
            var w' := Apply(c, w, ReachGate(sampled));
            var openUntil := OpenUntil(c, w.log);
            && w'.log == w.log + [if sampled < openUntil then Refused(w.clock) else Admitted(w.clock, openUntil > 0)]
            && w'.running == w.running + if sampled < openUntil then 0 else 1
  {
    hide Run, FailuresSince, OpenUntil, TripsCovered, CooldownsRespected;
    BreakerIsSound(c, clock, steps);
  }

  /** How many of the requests in the log were admitted and have not ended. */
  function Unfinished(log: seq<Event>): int
    decreases |log|
  {
    if log == [] then 0
    else
      Unfinished(log[..|log| - 1]) + match log[|log| - 1]
                                     case Admitted(_, _) => 1
                                     case Refused(_) => 0
                                     case Failed(_, _) => -1
                                     case Succeeded(_) => -1
  }

  /** Every admitted request ends at most once. */
  lemma {:induction false} RunningAreUnfinished(c: Config, clock: nat, steps: seq<Step>)
    ensures Run(c, Start(clock), steps).running == Unfinished(Run(c, Start(clock), steps).log)
    decreases |steps|
  {
    hide Refuses, Resets, PassGate, AfterFailure, Trips;
    if steps == [] {
    } else {
      RunningAreUnfinished(c, clock, steps[..|steps| - 1]);
    }
  }

  /** A failure trips the breaker, or prolongs its cooldown, exactly when with it there have been as many
      as the threshold since the last success or reset. */
  lemma FailureTripsExactly(c: Config, clock: nat, steps: seq<Step>)
    requires clock > 0 && c.threshold >= 1 && Run(c, Start(clock), steps).running > 0
    ensures var w := Run(c, Start(clock), steps);
            var w' := Apply(c, w, FinishFailed);
            && w'.log == w.log + [Failed(w.clock, FailuresSince(w.log) + 1 >= c.threshold)]
            && w'.breaker.failures == FailuresSince(w.log) + 1
            && (FailuresSince(w.log) + 1 >= c.threshold ==> w'.breaker.openUntil == w.clock + c.cooldown)
  {
    hide Run, FailuresSince, OpenUntil, TripsCovered, CooldownsRespected;
    BreakerIsSound(c, clock, steps);
  }

  // ----- One request -----

  /** What the upstream answers: a transport error, or a status with a body that is JSON or not. */
  datatype Upstream = Upstream(networkError: bool, status: int, validJson: bool)

  datatype Error =
    | DryRun | MissingBaseUrl | MissingKeyEnv | MissingApiKey | CircuitOpen
    | Network | Auth(status: int) | InvalidJson | Provider(status: int)

  datatype Result = Ok | Err(error: Error)

  predicate Succeeds(r: Upstream) { !r.networkError && 200 <= r.status < 300 && r.validJson }

  predicate Retryable(r: Upstream) {
    r.networkError || r.status == 429 || 500 <= r.status < 600
  }

  /** The outcome of the last call. */
  function Verdict(r: Upstream): Result {
    if r.networkError then Err(Network)
    else if r.status == 401 || r.status == 403 then Err(Auth(r.status))
    else if Succeeds(r) then Ok
    else if 200 <= r.status < 300 then Err(InvalidJson)
    else Err(Provider(r.status))
  }

  function Pow2(n: nat): (p: nat)
    ensures p > 0
  {
    if n == 0 then 1 else 2 * Pow2(n - 1)
  }

  function Min(a: nat, b: nat): nat { if a < b then a else b }

  function Sum(delays: seq<nat>): nat
    decreases |delays|
  {
    if delays == [] then 0 else Sum(delays[..|delays| - 1]) + delays[|delays| - 1]
  }

  /** The shift and the product stay within 64 signed bits. */
  predicate ShiftFits(base: nat, attempt: nat) {
    attempt <= 62 && base * Pow2(attempt) < 0x8000_0000_0000_0000
  }

  /** Backing off at most `n` times takes at most this long. */
  function Budget(n: nat, max: nat): nat { n * max }

  lemma BudgetGrows(n: nat, m: nat, max: nat)
    requires n <= m
    ensures Budget(n, max) <= Budget(m, max) && Budget(n + 1, max) == Budget(n, max) + max && Budget(0, max) == 0
  {}

  /** Exponential backoff, capped before and after the jitter is added. */
  function Backoff(base: nat, max: nat, attempt: nat, jitter: nat): (delay: nat)
    requires jitter <= base && ShiftFits(base, attempt)
    ensures delay == if base * Pow2(attempt) + jitter <= max then base * Pow2(attempt) + jitter else max
  {
    var total := Min(max, base * Pow2(attempt)) + jitter;
    if total > max then max else total
  }

  /** Without jitter the first delay is the base, and delays double while they stay within the maximum. */
  lemma BackoffDoubles(base: nat, max: nat, attempt: nat)
    requires ShiftFits(base, attempt + 1) && ShiftFits(base, attempt) && ShiftFits(base, 0)
    ensures Backoff(base, max, 0, 0) == if base <= max then base else max
    ensures Backoff(base, max, attempt + 1, 0) <= max
    ensures 2 * Backoff(base, max, attempt, 0) <= max ==>
              Backoff(base, max, attempt + 1, 0) == 2 * Backoff(base, max, attempt, 0)
  {
    assert base * Pow2(attempt + 1) == 2 * (base * Pow2(attempt));
  }

  /** Once they have reached the maximum, they stay there. */
  lemma BackoffSaturates(base: nat, max: nat, attempt: nat, later: nat, jitter: nat)
    requires jitter <= base && attempt <= later && base * Pow2(attempt) >= max && ShiftFits(base, later)
    ensures Backoff(base, max, later, jitter) == max
  {
    DelaysGrow(base, attempt, later);
  }

  lemma DelaysGrow(base: nat, attempt: nat, later: nat)
    requires attempt <= later
    ensures base * Pow2(attempt) <= base * Pow2(later)
  {}

  class HttpProvider {
    const config: Config
    var breaker: Breaker

    constructor (config: Config)
      ensures this.config == config && breaker == CLOSED
    {
      this.config, breaker := config, CLOSED;
    }

    method ReachGate(now: nat) returns (admitted: bool)
      modifies this
      ensures admitted == !Refuses(old(breaker), now)
      ensures breaker == if admitted then PassGate(old(breaker), now) else old(breaker)
    {
      if breaker.openUntil != 0 && now < breaker.openUntil {
        return false;
      }
      if breaker.openUntil != 0 && now >= breaker.openUntil {
        breaker := Breaker(0, 0);
      }
      admitted := true;
    }

    method RecordFailure(clock: nat)
      modifies this
      ensures breaker == AfterFailure(config, old(breaker), clock)
    {
      breaker := breaker.(failures := breaker.failures + 1);
      if breaker.failures >= config.threshold {
        breaker := breaker.(openUntil := clock + config.cooldown);
      }
    }

    method RecordSuccess()
      modifies this
      ensures breaker == CLOSED
    {
      breaker := Breaker(0, 0);
    }

    /** Looks at one answer; the request is over unless it is to be retried: after a transport error,
        when there were too many requests, or when the server failed. */
    method Judge(response: Upstream, last: bool, clock: nat) returns (over: bool, result: Result)
      modifies this
      ensures over == (last || !Retryable(response))
      ensures over ==> result == Verdict(response)
                       && breaker == if result.Ok? then CLOSED else AfterFailure(config, old(breaker), clock)
      ensures !over ==> breaker == old(breaker)
      ensures !over ==> !last && (response.networkError || response.status == 429 || 500 <= response.status <= 599)
      ensures over && !last ==> !response.networkError && response.status != 429 && !(500 <= response.status <= 599)
      ensures over ==> (result == Ok <==> !response.networkError && 200 <= response.status <= 299 && response.validJson)
      ensures over ==> (result == Err(Network) <==> response.networkError)
      ensures over && !response.networkError ==>
                (result == Err(InvalidJson) <==> 200 <= response.status <= 299 && !response.validJson)
      ensures over && !response.networkError && !(200 <= response.status <= 299) ==>
                result == Err(if response.status == 401 || response.status == 403 then Auth(response.status)
                              else Provider(response.status))
    {
      var lastError: Error;
      if response.networkError {
        lastError := Network;
      } else if response.status == 401 || response.status == 403 {
        RecordFailure(clock);
        return true, Err(Auth(response.status));
      } else if response.status >= 200 && response.status < 300 {
        if !response.validJson {
          lastError := InvalidJson;
        } else {
          RecordSuccess();
          return true, Ok;
        }
      } else {
        lastError := Provider(response.status);
      }
      var shouldRetry :=
        response.networkError || response.status == 429 || (response.status >= 500 && response.status < 600);
      if last || !shouldRetry {
        RecordFailure(clock);
        return true, Err(lastError);
      }
      return false, Err(lastError);
    }

    /** The retry loop of an admitted request, with the upstream's answers, the jitter of each retry
        and the clock at its end given.  `calls` and `delays` are the calls made and the sleeps
        between them. */
    method Retry(clock: nat, answers: nat -> Upstream, jitters: nat -> nat)
        returns (result: Result, calls: nat, delays: seq<nat>)
      requires forall n :: 0 <= n < config.maxRetries ==>
                 ShiftFits(config.baseBackoff, n) && jitters(n) <= config.baseBackoff
      modifies this
      ensures 1 <= calls <= config.maxRetries + 1 && |delays| == calls - 1
      ensures forall n :: 0 <= n < calls - 1 ==> Retryable(answers(n)) && DelayIs(config, n, jitters(n), delays[n])
      ensures Sum(delays) <= Budget(config.maxRetries, config.maxBackoff)
      ensures calls == config.maxRetries + 1 || !Retryable(answers(calls - 1))
      ensures result == Verdict(answers(calls - 1))
      ensures breaker == if result.Ok? then CLOSED else AfterFailure(config, old(breaker), clock)
    {
      hide Pow2, ShiftFits, Budget, Retryable, Verdict, AfterFailure, Backoff, DelayIs;
      var attempts := if config.maxRetries > 0 then config.maxRetries else 0;
      BudgetGrows(0, attempts, config.maxBackoff);
      delays := [];
      var attempt := 0;
      while attempt <= attempts
        invariant 0 <= attempt <= attempts && |delays| == attempt
        invariant breaker == old(breaker)
        invariant forall n :: 0 <= n < attempt ==> Retryable(answers(n)) && DelayIs(config, n, jitters(n), delays[n])
        invariant Sum(delays) <= Budget(attempt, config.maxBackoff)
        decreases attempts + 1 - attempt
      {
        BudgetGrows(attempt, attempts, config.maxBackoff);
        var response := answers(attempt);
        var over;
        over, result := Judge(response, attempt == attempts, clock);
        if over {
          return result, attempt + 1, delays;
        }
        var delay := Backoff(config.baseBackoff, config.maxBackoff, attempt, jitters(attempt));
        BackedOff(config, attempt, jitters(attempt));
        assert (delays + [delay])[..|delays|] == delays;
        delays := delays + [delay];
        attempt := attempt + 1;
      }
      assert false;
    }

    /** A whole request: local errors and an open breaker end it before any call, and leave the
        breaker alone; otherwise the retry loop updates it exactly once. */
    method PerformRequest(
        keySet: bool, now: nat, clock: nat, answers: nat -> Upstream, jitters: nat -> nat)
        returns (result: Result, calls: nat, delays: seq<nat>)
      requires forall n :: 0 <= n < config.maxRetries ==>
                 ShiftFits(config.baseBackoff, n) && jitters(n) <= config.baseBackoff
      modifies this
      ensures calls == 0 <==>
                config.dryRun || !config.hasBaseUrl || !config.hasKeyEnv || !keySet || Refuses(old(breaker), now)
      ensures calls == 0 ==>
                result == Err(if config.dryRun then DryRun else if !config.hasBaseUrl then MissingBaseUrl
                              else if !config.hasKeyEnv then MissingKeyEnv else if !keySet then MissingApiKey
                              else CircuitOpen)
                && delays == [] && breaker == old(breaker)
      ensures calls > 0 ==>
                && calls <= config.maxRetries + 1 && |delays| == calls - 1
                && (forall n :: 0 <= n < calls - 1 ==>
                      Retryable(answers(n)) && DelayIs(config, n, jitters(n), delays[n]))
                && Sum(delays) <= config.maxRetries * config.maxBackoff
                && (calls == config.maxRetries + 1 || !Retryable(answers(calls - 1)))
                && result == Verdict(answers(calls - 1))
                && breaker == if result.Ok? then CLOSED else AfterFailure(config, PassGate(old(breaker), now), clock)
    {
      if config.dryRun { return Err(DryRun), 0, []; }
      if !config.hasBaseUrl { return Err(MissingBaseUrl), 0, []; }
      if !config.hasKeyEnv { return Err(MissingKeyEnv), 0, []; }
      if !keySet { return Err(MissingApiKey), 0, []; }
      var admitted := ReachGate(now);
      if !admitted { return Err(CircuitOpen), 0, []; }
      result, calls, delays := Retry(clock, answers, jitters);
    }
  }

  /** The base doubled `n` times plus the jitter, but no more than the maximum. */
  predicate DelayIs(c: Config, n: nat, jitter: nat, delay: nat) {
    var full := c.baseBackoff * Pow2(n) + jitter;
    delay == if full <= c.maxBackoff then full else c.maxBackoff
  }

  lemma BackedOff(c: Config, n: nat, jitter: nat)
    requires jitter <= c.baseBackoff && ShiftFits(c.baseBackoff, n)
    ensures var delay := Backoff(c.baseBackoff, c.maxBackoff, n, jitter);
            DelayIs(c, n, jitter, delay) && delay <= c.maxBackoff
  {}

  // ----- When a request succeeds -----

  /** What the retry loop comes to: the first answer that is not to be retried, or the last one. */
  ghost predicate EndsAt(c: Config, answers: nat -> Upstream, calls: nat) {
    && 1 <= calls <= c.maxRetries + 1
    && (forall n: nat :: n < calls - 1 ==> Retryable(answers(n)))
    && (calls == c.maxRetries + 1 || !Retryable(answers(calls - 1)))
  }

  predicate Good(r: Upstream) { !r.networkError && 200 <= r.status <= 299 && r.validJson }

  predicate Transient(r: Upstream) { r.networkError || r.status == 429 || r.status / 100 == 5 }

  /** A request succeeds if and only if one of the answers it may wait for is good and all before it
      are transient failures. */
  lemma SucceedsExactly(c: Config, answers: nat -> Upstream, calls: nat)
    requires EndsAt(c, answers, calls)
    ensures Verdict(answers(calls - 1)).Ok? <==>
              exists n: nat :: n <= c.maxRetries && Good(answers(n)) && forall m: nat :: m < n ==> Transient(answers(m))
  {
    if Verdict(answers(calls - 1)).Ok? {
      assert Good(answers(calls - 1)) && forall m: nat :: m < calls - 1 ==> Transient(answers(m));
    }
    if n: nat :| n <= c.maxRetries && Good(answers(n)) && forall m: nat :: m < n ==> Transient(answers(m)) {
      assert !Retryable(answers(n));
      assert n < calls - 1 ==> Retryable(answers(n));
      assert calls - 1 < n ==> Transient(answers(calls - 1));
    }
  }
}
