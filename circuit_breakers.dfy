/** The circuit breakers of `utils/error_handler.py`: a breaker per guarded component, and
    the pass of `check_circuit_breakers` that closes those whose reset time has come. */
module CircuitBreakers {
  import opened Wrappers

  /** One breaker: tripped or not, with its trip and reset times while tripped. */
  datatype Breaker = Breaker(tripped: bool, tripTime: Option<int>, resetTime: Option<int>)

  const Closed := Breaker(false, None, None)

  /** A breaker whose reset time has come. */
  predicate Expired(b: Breaker, now: int) {
    b.tripped && b.resetTime.Some? && now >= b.resetTime.value
  }

  /** The components of `order` whose breaker has expired, in that order. */
  function ExpiredIn<K>(order: seq<K>, breakers: map<K, Breaker>, now: int): (r: seq<K>)
    ensures forall c :: c in r ==> c in order && c in breakers && Expired(breakers[c], now)
    ensures forall c :: c in order && c in breakers && Expired(breakers[c], now) ==> c in r
  {
    if |order| == 0 then []
    else
      ExpiredIn(order[..|order| - 1], breakers, now)
      + (var c := order[|order| - 1];
         if c in breakers && Expired(breakers[c], now) then [c] else [])
  }

  /** The loop of `check_circuit_breakers` over the breakers in `order`: closes the expired
      ones and lists them. */
  method CloseExpired<K>(order: seq<K>, breakers: map<K, Breaker>, now: int)
    returns (after: map<K, Breaker>, reset: seq<K>)
    requires forall i, j :: 0 <= i < j < |order| ==> order[i] != order[j]
    requires forall c :: c in order <==> c in breakers
    ensures reset == ExpiredIn(order, breakers, now)
    ensures after.Keys == breakers.Keys
    ensures forall c :: c in after ==>
              after[c] == (if Expired(breakers[c], now) then Closed else breakers[c])
  {
    after := breakers;
    reset := [];
    var i := 0;
    while i < |order|
      invariant 0 <= i <= |order|
      invariant Closing(order[..i], breakers, now, after, reset)
    {
      after, reset := CloseOne(order, breakers, now, i, after, reset);
      i := i + 1;
    }
    assert order[..i] == order;
  }

  /** The state after the breakers of `done` have been visited: those expired are closed and
      listed in order, every other breaker is as it was. */
  ghost predicate Closing<K>(done: seq<K>, breakers: map<K, Breaker>, now: int,
                             after: map<K, Breaker>, reset: seq<K>)
  {
    after.Keys == breakers.Keys
    && (forall c :: c in after ==>
          after[c] == (if c in done && Expired(breakers[c], now) then Closed else breakers[c]))
    && reset == ExpiredIn(done, breakers, now)
  }

  /** One iteration of `check_circuit_breakers`: the `i`th breaker is closed and listed when
      its reset time has come. */
  method CloseOne<K>(order: seq<K>, breakers: map<K, Breaker>, now: int, i: int,
                     after: map<K, Breaker>, reset: seq<K>)
    returns (after': map<K, Breaker>, reset': seq<K>)
    requires 0 <= i < |order|
    requires forall i, j :: 0 <= i < j < |order| ==> order[i] != order[j]
    requires forall c :: c in order ==> c in breakers
    requires Closing(order[..i], breakers, now, after, reset)
    ensures Closing(order[..i + 1], breakers, now, after', reset')
  {
    var component := order[i];
    assert component !in order[..i];
    assert order[..i + 1] == order[..i] + [component];
    ClosingSnoc(order[..i], breakers, now, after, reset, component);
    var breaker := after[component];
    if Expired(breaker, now) {
      after', reset' := after[component := Closed], reset + [component];
    } else {
      after', reset' := after, reset;
    }
  }

  /** Visiting one more breaker `c` closes and lists it exactly when it has expired. */
  lemma ClosingSnoc<K>(done: seq<K>, breakers: map<K, Breaker>, now: int,
                       after: map<K, Breaker>, reset: seq<K>, c: K)
    requires Closing(done, breakers, now, after, reset) && c !in done && c in breakers
    ensures c in after && after[c] == breakers[c]
    ensures Expired(breakers[c], now) ==>
              Closing(done + [c], breakers, now, after[c := Closed], reset + [c])
    ensures !Expired(breakers[c], now) ==> Closing(done + [c], breakers, now, after, reset)
  {
    assert (done + [c])[..|done|] == done;
  }
}
