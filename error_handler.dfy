/** `ErrorHandler` of `utils/error_handler.py`: per-(component, error type) counters, bounded
    recovery attempts, and circuit breakers for five guarded components with a timed reset.
    Times are seconds on an explicit clock; the component-specific recovery strategies are an
    oracle (their outcome is a parameter), the generic one is kept. */
module ErrorHandler {
  import opened Wrappers
  import opened Text
  import opened CircuitBreakers
  import opened KeyedCounts

  /** The settings `handle_error` reads with `config.get` defaults. */
  datatype HandlerConfig = HandlerConfig(
    errorThreshold: int, circuitBreakerThreshold: int, maxRecoveryAttempts: int,
    circuitBreakerMinutes: int)

  const DefaultHandlerConfig := HandlerConfig(3, 5, 3, 30)

  /** The components that have a circuit breaker, in the order they are registered. */
  const Guarded: seq<string> :=
    ["IBKR_API", "DATA_PROVIDER", "OPTION_SELECTOR", "TRADE_EXECUTOR", "RISK_MANAGER"]

  const CriticalErrors: set<string> :=
    {"CONNECTION_ERROR", "AUTHENTICATION_ERROR", "ORDER_EXECUTION_ERROR",
     "DATA_INTEGRITY_ERROR", "ACCOUNT_ERROR", "POSITION_ERROR", "MARKET_ACCESS_ERROR"}

  const GenericRecoveryMessage := "Generic recovery attempted but likely insufficient"

  /** The recovery strategy `attempt_recovery` dispatches to. */
  datatype Strategy = IbkrApi | DataProvider | OptionSelector | TradeExecutor | RiskManager
                    | Generic

  /** `is_critical_error`: exactly the seven listed error types. */
  function IsCriticalError(errorType: string): (r: bool)
    ensures r <==> errorType in CriticalErrors
  {
    errorType in CriticalErrors
  }

  /** The dispatch of `attempt_recovery`: one strategy per guarded component, the generic
      one for every other component. */
  function StrategyFor(component: string): (s: Strategy)
    ensures s == Generic <==> component !in Guarded
  {
    if component == "IBKR_API" then IbkrApi
    else if component == "DATA_PROVIDER" then DataProvider
    else if component == "OPTION_SELECTOR" then OptionSelector
    else if component == "TRADE_EXECUTOR" then TradeExecutor
    else if component == "RISK_MANAGER" then RiskManager
    else Generic
  }

  /** The counter key `f"{component}:{error_type}"`. */
  function ErrorKey(component: string, errorType: string): string {
    component + ":" + errorType
  }

  /** A `defaultdict(int)` read. */
  function Get(m: map<string, int>, k: string): int {
    if k in m then m[k] else 0
  }

  predicate IsTripped(breakers: map<string, Breaker>, component: string) {
    component in breakers && breakers[component].tripped
  }

  /** The breakers after `_trip_circuit_breaker`: a guarded component's breaker is tripped
      from `now` until the configured minutes later, nothing else changes. */
  function Trip(breakers: map<string, Breaker>, component: string, now: int,
                c: HandlerConfig): (r: map<string, Breaker>)
    ensures r.Keys == breakers.Keys
    ensures component in breakers ==>
              r[component].tripped && r[component].tripTime == Some(now)
              && r[component].resetTime == Some(now + c.circuitBreakerMinutes * 60)
    ensures forall k :: k in breakers && k != component ==> r[k] == breakers[k]
  {
    if component in breakers
    then breakers[component := Breaker(true, Some(now), Some(now + c.circuitBreakerMinutes * 60))]
    else breakers
  }

  /** A breaker tripped at `t` is reopened by `check_circuit_breakers` exactly from the
      configured minutes after `t` on. */
  lemma TripLastsCooldown(breakers: map<string, Breaker>, component: string, t: int,
                          c: HandlerConfig, now: int)
    requires component in breakers
    ensures Expired(Trip(breakers, component, t, c)[component], now)
            <==> now >= t + c.circuitBreakerMinutes * 60
  {
  }

  /** The step `handle_error` takes once the error is counted. */
  datatype Step = BreakerActive | TripBreaker | Recover | Exhausted

  /** The order of the checks in `handle_error`: an open breaker wins, then a critical error
      at the breaker threshold, then recovery while attempts remain. */
  function Route(tripped: bool, critical: bool, count: int, attempts: int, c: HandlerConfig)
    : (s: Step)
    ensures s == BreakerActive <==> tripped
    ensures s == TripBreaker <==> !tripped && critical && count >= c.circuitBreakerThreshold
    ensures s == Recover ==> attempts < c.maxRecoveryAttempts
    ensures s == Recover && critical ==> count < c.circuitBreakerThreshold
    ensures s == Exhausted <==>
              !tripped && !(critical && count >= c.circuitBreakerThreshold)
              && attempts >= c.maxRecoveryAttempts
  {
    if tripped then BreakerActive
    else if critical && count >= c.circuitBreakerThreshold then TripBreaker
    else if attempts < c.maxRecoveryAttempts then Recover
    else Exhausted
  }

  function ExhaustedMessage(max: int): string {
    "Max recovery attempts reached (" + IntToString(max) + ")"
  }

  /** The `(success, message)` pair `handle_error` returns for a step: only recovery by a
      component's own strategy can succeed, and then it reports what that strategy said. */
  function Reply(step: Step, component: string, outcome: (bool, string), max: int)
    : (r: (bool, string))
    ensures r.0 ==> step == Recover && StrategyFor(component) != Generic && outcome.0
    ensures step == Recover && StrategyFor(component) != Generic ==> r == outcome
    ensures step == Exhausted ==> r.1 == ExhaustedMessage(max)
  {
    match step
    case BreakerActive => (false, "Circuit breaker active")
    case TripBreaker => (false, "Circuit breaker tripped")
    case Recover =>
      if StrategyFor(component) == Generic then (false, GenericRecoveryMessage) else outcome
    case Exhausted => (false, ExhaustedMessage(max))
  }

  /** The attempts after `handle_error`: one more when recovery runs, the key present (with
      0 if new) once the attempts were read, untouched otherwise. */
  function AttemptsAfter(step: Step, attempts: map<string, int>, key: string)
    : (r: map<string, int>)
    ensures step == Recover ==> key in r && r[key] == Get(attempts, key) + 1
    ensures step == Exhausted ==> key in r && r[key] == Get(attempts, key)
    ensures step in {BreakerActive, TripBreaker} ==> r == attempts
    ensures forall k :: k in attempts && k != key ==> k in r && r[k] == attempts[k]
  {
    match step
    case Recover => attempts[key := Get(attempts, key) + 1]
    case Exhausted => attempts[key := Get(attempts, key)]
    case _ => attempts
  }

  /** How the breaker of a component reads in `get_error_summary`. */
  datatype BreakerStatus = Normal | Tripped(resetInMinutes: real)

  class Handler {
    const config: HandlerConfig
    var errorCounts: map<string, int>
    var recoveryAttempts: map<string, int>
    var lastErrors: map<string, int>
    var circuitBreakers: map<string, Breaker>

    /** The bookkeeping invariant: counted keys have a last-error time and vice versa,
        attempts are kept only for counted keys and never exceed the maximum, and exactly the
        guarded components have breakers, with a reset time while tripped. */
    ghost predicate Valid()
      reads this
    {
      CountsValid() && BreakersValid()
    }

    ghost predicate CountsValid()
      reads this`errorCounts, this`lastErrors, this`recoveryAttempts
    {
      errorCounts.Keys == lastErrors.Keys
      && recoveryAttempts.Keys <= errorCounts.Keys
      && (forall k :: k in errorCounts ==> errorCounts[k] >= 1)
      && (forall k :: k in recoveryAttempts ==>
            0 <= recoveryAttempts[k] <= MaxI(config.maxRecoveryAttempts, 0))
    }

    ghost predicate BreakersValid()
      reads this`circuitBreakers
    {
      (forall c :: c in circuitBreakers <==> c in Guarded)
      && (forall c :: c in circuitBreakers && circuitBreakers[c].tripped ==>
            circuitBreakers[c].resetTime.Some?)
    }

    /** The initial state: no errors, every guarded breaker closed. */
    constructor(config: HandlerConfig)
      ensures Valid() && this.config == config
      ensures errorCounts == map[] && recoveryAttempts == map[] && lastErrors == map[]
      ensures forall c :: c in Guarded ==> c in circuitBreakers && circuitBreakers[c] == Closed
    {
      this.config := config;
      errorCounts := map[];
      recoveryAttempts := map[];
      lastErrors := map[];
      circuitBreakers := map c | c in Guarded :: Closed;
    }

    /** `can_use_component`: unguarded components are always usable, guarded ones while their
        breaker is not tripped; nothing is reset here. */
    function CanUseComponent(component: string): (r: bool)
      reads this
      ensures component !in circuitBreakers ==> r
      ensures component in circuitBreakers ==> (r <==> !circuitBreakers[component].tripped)
    {
      component !in circuitBreakers || !circuitBreakers[component].tripped
    }

    /** `_trip_circuit_breaker`: only a guarded component's breaker trips, until `now` plus the
        configured minutes. */
    method TripCircuitBreaker(component: string, now: int)
      requires Valid()
      modifies this
      ensures Valid()
      ensures circuitBreakers == Trip(old(circuitBreakers), component, now, config)
      ensures errorCounts == old(errorCounts) && recoveryAttempts == old(recoveryAttempts)
      ensures lastErrors == old(lastErrors)
    {
      if component !in circuitBreakers {
        return;
      }
      var resetTime := now + config.circuitBreakerMinutes * 60;
      circuitBreakers := circuitBreakers[component := Breaker(true, Some(now), Some(resetTime))];
    }

    /** `attempt_recovery`: one more attempt for the key, then the strategy of the component;
        `outcome` is what a component-specific strategy reports. */
    method AttemptRecovery(component: string, errorType: string, outcome: (bool, string))
      returns (ok: bool, message: string)
      requires Valid()
      requires ErrorKey(component, errorType) in errorCounts
      requires Get(recoveryAttempts, ErrorKey(component, errorType))
               < config.maxRecoveryAttempts
      modifies this
      ensures Valid()
      ensures recoveryAttempts
              == old(recoveryAttempts)[ErrorKey(component, errorType)
                                       := Get(old(recoveryAttempts),
                                              ErrorKey(component, errorType)) + 1]
      ensures (ok, message) == Reply(Recover, component, outcome, config.maxRecoveryAttempts)
      ensures errorCounts == old(errorCounts) && lastErrors == old(lastErrors)
      ensures circuitBreakers == old(circuitBreakers)
    {
      var key := ErrorKey(component, errorType);
      recoveryAttempts := recoveryAttempts[key := Get(recoveryAttempts, key) + 1];
      if StrategyFor(component) == Generic {
        return false, GenericRecoveryMessage;
      }
      return outcome.0, outcome.1;
    }

    /** The first lines of `handle_error`: one more error under the key, seen at `now`. */
    method CountError(key: string, now: int)
      requires Valid()
      modifies this
      ensures Valid() && key in errorCounts
      ensures errorCounts == old(errorCounts)[key := Get(old(errorCounts), key) + 1]
      ensures lastErrors == old(lastErrors)[key := now]
      ensures recoveryAttempts == old(recoveryAttempts)
      ensures circuitBreakers == old(circuitBreakers)
    {
      errorCounts := errorCounts[key := Get(errorCounts, key) + 1];
      lastErrors := lastErrors[key := now];
    }

    /** `handle_error`: counts the error, then takes the step `Route` chooses from the
        breaker, the error type, the new count and the attempts so far, and answers with the
        reply of that step. */
    method HandleError(component: string, errorType: string, now: int, outcome: (bool, string))
      returns (ok: bool, message: string)
      requires Valid()
      modifies this
      ensures Valid()
      ensures var key := ErrorKey(component, errorType);
              errorCounts == old(errorCounts)[key := Get(old(errorCounts), key) + 1]
              && lastErrors == old(lastErrors)[key := now]
      ensures var key := ErrorKey(component, errorType);
              var step := Route(IsTripped(old(circuitBreakers), component),
                                IsCriticalError(errorType), Get(old(errorCounts), key) + 1,
                                Get(old(recoveryAttempts), key), config);
              (ok, message) == Reply(step, component, outcome, config.maxRecoveryAttempts)
              && circuitBreakers == (if step == TripBreaker
                                     then Trip(old(circuitBreakers), component, now, config)
                                     else old(circuitBreakers))
              && recoveryAttempts == AttemptsAfter(step, old(recoveryAttempts), key)
    {
      var key := ErrorKey(component, errorType);
      CountError(key, now);
      // The alert sent for a critical error or a count at the alert threshold is left out.
      var step := Route(IsTripped(circuitBreakers, component), IsCriticalError(errorType),
                        errorCounts[key], Get(recoveryAttempts, key), config);
      match step
      case BreakerActive =>
        ok, message := false, "Circuit breaker active";
      case TripBreaker =>
        TripCircuitBreaker(component, now);
        ok, message := false, "Circuit breaker tripped";
      case Recover =>
        ok, message := AttemptRecovery(component, errorType, outcome);
      case Exhausted =>
        // Reading the defaultdict inserts the key with 0.
        recoveryAttempts := recoveryAttempts[key := Get(recoveryAttempts, key)];
        ok, message := false, ExhaustedMessage(config.maxRecoveryAttempts);
    }

    /** `check_circuit_breakers`: closes exactly the breakers whose reset time has come and
        returns their components in registration order. */
    method CheckCircuitBreakers(now: int) returns (reset: seq<string>)
      requires Valid()
      modifies this
      ensures Valid()
      ensures reset == ExpiredIn(Guarded, old(circuitBreakers), now)
      ensures circuitBreakers.Keys == old(circuitBreakers).Keys
      ensures forall c :: c in circuitBreakers ==>
                circuitBreakers[c] == (if Expired(old(circuitBreakers)[c], now) then Closed
                                       else old(circuitBreakers)[c])
      ensures errorCounts == old(errorCounts) && recoveryAttempts == old(recoveryAttempts)
      ensures lastErrors == old(lastErrors)
    {
      GuardedOrder();
      circuitBreakers, reset := CloseExpired(Guarded, circuitBreakers, now);
    }

    /** `clear_error_counts`: forgets, with their times and attempts, exactly the keys whose
        last error is older than `now` minus the given minutes, and returns how many. */
    method ClearErrorCounts(now: int, olderThanMinutes: int) returns (cleared: int)
      requires Valid()
      modifies this
      ensures Valid()
      ensures var stale := StaleKeys(old(errorCounts), old(lastErrors), now - olderThanMinutes * 60);
              cleared == |stale|
              && errorCounts == old(errorCounts) - stale
              && lastErrors == old(lastErrors) - stale
              && recoveryAttempts == old(recoveryAttempts) - stale
      ensures circuitBreakers == old(circuitBreakers)
    {
      var threshold := now - olderThanMinutes * 60;
      errorCounts, lastErrors, recoveryAttempts, cleared :=
        ClearStale(errorCounts, lastErrors, recoveryAttempts, threshold);
    }

    /** The totals of `get_error_summary`: all errors counted and all recovery attempts. */
    method ErrorTotals() returns (totalErrors: int, totalRecoveryAttempts: int)
      requires Valid()
      ensures totalErrors == SumOver(errorCounts, errorCounts.Keys)
      ensures totalRecoveryAttempts == SumOver(recoveryAttempts, recoveryAttempts.Keys)
      ensures totalErrors >= |errorCounts|
    {
      totalErrors := SumValues(errorCounts);
      totalRecoveryAttempts := SumValues(recoveryAttempts);
      CountsAtLeastOne(errorCounts, errorCounts.Keys);
    }

    /** The breaker part of `get_error_summary`: each guarded component is normal, or tripped
        with the minutes left until its reset. */
    function BreakerStatuses(now: int): (r: map<string, BreakerStatus>)
      reads this
      requires Valid()
      ensures r.Keys == circuitBreakers.Keys
      ensures forall c :: c in r ==> (r[c].Tripped? <==> circuitBreakers[c].tripped)
    {
      map c | c in circuitBreakers ::
        if circuitBreakers[c].tripped
        then Tripped(((circuitBreakers[c].resetTime.value - now) as real) / 60.0)
        else Normal
    }
  }

  /** The registration order lists each guarded component once. */
  lemma GuardedOrder()
    ensures forall i, j :: 0 <= i < j < |Guarded| ==> Guarded[i] != Guarded[j]
  {

  }
}
