/** The map bookkeeping of `utils/error_handler.py`: sums over the counters and the pass of
    `clear_error_counts` that drops the keys whose last error is too old. */
module KeyedCounts {
  /** The sum of the values of `m` at `keys`. */
  ghost function SumOver<K>(m: map<K, int>, keys: set<K>): int
    requires keys <= m.Keys
    decreases keys
  {
    if keys == {} then 0
    else
      var k :| k in keys;
      m[k] + SumOver(m, keys - {k})
  }

  /** The sum does not depend on the order the keys are taken in. */
  lemma {:induction false} SumOverRemove<K>(m: map<K, int>, keys: set<K>, x: K)
    requires keys <= m.Keys && x in keys
    ensures SumOver(m, keys) == m[x] + SumOver(m, keys - {x})
    decreases keys
  {
    var y :| y in keys && SumOver(m, keys) == m[y] + SumOver(m, keys - {y});
    if y != x {
      SumOverRemove(m, keys - {y}, x);
      SumOverRemove(m, keys - {x}, y);
      assert keys - {y} - {x} == keys - {x} - {y};
    }
  }

  /** The keys whose last error lies strictly before `threshold`. */
  function StaleKeys<K>(counts: map<K, int>, lastErrors: map<K, int>, threshold: int): set<K>
  {
    set k | k in counts && k in lastErrors && lastErrors[k] < threshold
  }

  /** The loop of `clear_error_counts`: drops every stale key from the three maps. */
  method ClearStale<K>(counts: map<K, int>, lastErrors: map<K, int>, attempts: map<K, int>,
                       threshold: int)
    returns (counts': map<K, int>, lastErrors': map<K, int>, attempts': map<K, int>,
             cleared: int)
    ensures cleared == |StaleKeys(counts, lastErrors, threshold)|
    ensures counts' == counts - StaleKeys(counts, lastErrors, threshold)
    ensures lastErrors' == lastErrors - StaleKeys(counts, lastErrors, threshold)
    ensures attempts' == attempts - StaleKeys(counts, lastErrors, threshold)
  {
    counts', lastErrors', attempts' := counts, lastErrors, attempts;
    var pending := counts.Keys;
    cleared := 0;
    ClearingStart(counts, lastErrors, attempts, threshold);
    while pending != {}
      invariant Clearing(counts, lastErrors, attempts, threshold, pending,
                         counts', lastErrors', attempts', cleared)
      decreases pending
    {
      var key :| key in pending;
      counts', lastErrors', attempts', cleared :=
        ClearOne(counts, lastErrors, attempts, threshold, pending, key,
                 counts', lastErrors', attempts', cleared);
      pending := pending - {key};
    }
    ClearingDone(counts, lastErrors, attempts, threshold, counts', lastErrors', attempts', cleared);
  }

  /** The state of `clear_error_counts` while the keys in `pending` are still to be visited:
      the stale keys already visited are gone from the three maps and counted. */
  ghost predicate Clearing<K>(counts: map<K, int>, lastErrors: map<K, int>,
                              attempts: map<K, int>, threshold: int, pending: set<K>,
                              c: map<K, int>, l: map<K, int>, a: map<K, int>, cleared: int)
  {
    var removed := StaleKeys(counts, lastErrors, threshold) - pending;
    pending <= counts.Keys
    && c == counts - removed && l == lastErrors - removed && a == attempts - removed
    && cleared == |removed|
  }

  lemma ClearingStart<K>(counts: map<K, int>, lastErrors: map<K, int>, attempts: map<K, int>,
                         threshold: int)
    ensures Clearing(counts, lastErrors, attempts, threshold, counts.Keys,
                     counts, lastErrors, attempts, 0)
  {
    assert StaleKeys(counts, lastErrors, threshold) - counts.Keys == {};
  }

  lemma ClearingDone<K>(counts: map<K, int>, lastErrors: map<K, int>, attempts: map<K, int>,
                        threshold: int, c: map<K, int>, l: map<K, int>, a: map<K, int>,
                        cleared: int)
    requires Clearing(counts, lastErrors, attempts, threshold, {}, c, l, a, cleared)
    ensures cleared == |StaleKeys(counts, lastErrors, threshold)|
    ensures c == counts - StaleKeys(counts, lastErrors, threshold)
    ensures l == lastErrors - StaleKeys(counts, lastErrors, threshold)
    ensures a == attempts - StaleKeys(counts, lastErrors, threshold)
  {
    assert StaleKeys(counts, lastErrors, threshold) - {} == StaleKeys(counts, lastErrors, threshold);
  }

  /** One iteration of `clear_error_counts`: a key whose last error is older than the
      threshold leaves all three maps (the attempts only when present) and is counted. */
  method ClearOne<K>(counts: map<K, int>, lastErrors: map<K, int>, attempts: map<K, int>,
                     threshold: int, ghost pending: set<K>, key: K,
                     c: map<K, int>, l: map<K, int>, a: map<K, int>, cleared: int)
    returns (c': map<K, int>, l': map<K, int>, a': map<K, int>, cleared': int)
    requires key in pending
    requires Clearing(counts, lastErrors, attempts, threshold, pending, c, l, a, cleared)
    ensures Clearing(counts, lastErrors, attempts, threshold, pending - {key}, c', l', a', cleared')
  {
    ghost var stale := StaleKeys(counts, lastErrors, threshold);
    ghost var removed := stale - pending;
    PendingStep(stale, pending, key);
    if key in lastErrors && lastErrors[key] < threshold {
      assert key in stale;
      c', l', a' := DropKey(counts, lastErrors, attempts, removed, c, l, a, key);
      cleared' := cleared + 1;
    } else {
      c', l', a', cleared' := c, l, a, cleared;
    }
  }

  /** One deletion of `clear_error_counts`: the key leaves all three maps (the attempts only
      when present). */
  method DropKey<K>(counts: map<K, int>, lastErrors: map<K, int>, attempts: map<K, int>,
                    ghost removed: set<K>, c: map<K, int>, l: map<K, int>, a: map<K, int>,
                    key: K)
    returns (c': map<K, int>, l': map<K, int>, a': map<K, int>)
    requires key !in removed
    requires c == counts - removed && l == lastErrors - removed && a == attempts - removed
    ensures c' == counts - (removed + {key}) && l' == lastErrors - (removed + {key})
    ensures a' == attempts - (removed + {key})
  {
    RemoveOneMore(counts, removed, key);
    RemoveOneMore(lastErrors, removed, key);
    c', l' := c - {key}, l - {key};
    if key in a {
      RemoveOneMore(attempts, removed, key);
      a' := a - {key};
    } else {
      RemoveAbsent(attempts, removed, key);
      a' := a;
    }
  }

  lemma PendingStep<K>(stale: set<K>, pending: set<K>, key: K)
    requires key in pending
    ensures key in stale ==>
              stale - (pending - {key}) == (stale - pending) + {key}
              && |(stale - pending) + {key}| == |stale - pending| + 1
    ensures key !in stale ==> stale - (pending - {key}) == stale - pending
  {
  }

  lemma RemoveOneMore<K, V>(m: map<K, V>, removed: set<K>, key: K)
    ensures (m - removed) - {key} == m - (removed + {key})
  {
  }

  lemma RemoveAbsent<K, V>(m: map<K, V>, removed: set<K>, key: K)
    requires key !in m - removed && key !in removed
    ensures m - removed == m - (removed + {key})
  {
  }

  /** The sum of a map's values, by a loop over its keys. */
  method SumValues<K>(m: map<K, int>) returns (total: int)
    ensures total == SumOver(m, m.Keys)
  {
    var pending := m.Keys;
    total := 0;
    while pending != {}
      invariant pending <= m.Keys
      invariant total + SumOver(m, pending) == SumOver(m, m.Keys)
      decreases pending
    {
      var k :| k in pending;
      SumOverRemove(m, pending, k);
      total := total + m[k];
      pending := pending - {k};
    }
  }

  lemma {:induction false} CountsAtLeastOne<K>(m: map<K, int>, keys: set<K>)
    requires keys <= m.Keys && forall k :: k in keys ==> m[k] >= 1
    ensures SumOver(m, keys) >= |keys|
    decreases keys
  {
    if keys != {} {
      var k :| k in keys && SumOver(m, keys) == m[k] + SumOver(m, keys - {k});
      CountsAtLeastOne(m, keys - {k});
    }
  }
}
