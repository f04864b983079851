/** The in-memory login limiter of controllers/user.js: a fixed window of
    `DurationSeconds` per key, opened by the first consume, in which at most
    `Points` consumes succeed. Time is an explicit clock in seconds. */
module LoginLimiter {

  /** Points allowed per window (`points: 5`). */
  const Points: nat := 5

  /** Window length in seconds (`duration: 60 * 60`). */
  const DurationSeconds: nat := 3600

  /** The stored counter of one key: points consumed so far and the instant
      at which the window ends and the counter is discarded. */
  datatype Window = Window(consumed: nat, expiresAt: nat)

  type Counters = map<string, Window>

  /** The key has a counter whose window has not ended at `now`. */
  predicate Live(counters: Counters, key: string, now: nat)
  {
    key in counters && now < counters[key].expiresAt
  }

  /** Points already spent by `key` in the window current at `now`. */
  function Consumed(counters: Counters, key: string, now: nat): nat
  {
    if Live(counters, key, now) then counters[key].consumed else 0
  }

  /** `consume(key)`: spends one point, opening a fresh window when none is
      live, and reports whether the spend stayed within `Points`. A rejected
      consume still counts its point. */
  function Consume(counters: Counters, key: string, now: nat): (r: (Counters, bool))
    ensures r.0.Keys == counters.Keys + {key}
    ensures forall k :: k in counters && k != key ==> r.0[k] == counters[k]
    ensures Live(r.0, key, now)
    ensures Consumed(r.0, key, now) == Consumed(counters, key, now) + 1
    ensures r.1 <==> Consumed(counters, key, now) < Points
    ensures !Live(counters, key, now) ==> r.0[key].expiresAt == now + DurationSeconds
    ensures Live(counters, key, now) ==> r.0[key].expiresAt == counters[key].expiresAt
  {
    var w := if Live(counters, key, now)
             then counters[key].(consumed := counters[key].consumed + 1)
             else Window(1, now + DurationSeconds);
    (counters[key := w], w.consumed <= Points)
  }

  /** Points spent in a window stay spent until the window ends. */
  lemma ConsumedPersistsInWindow(counters: Counters, key: string, now: nat, later: nat)
    requires Live(counters, key, now)
    requires now <= later < counters[key].expiresAt
    ensures Consumed(counters, key, later) == Consumed(counters, key, now)
  {
  }

  /** Once the window has ended, the next consume is allowed again, whatever
      was spent before. */
  lemma ExpiredWindowAllows(counters: Counters, key: string, now: nat)
    requires key in counters && counters[key].expiresAt <= now
    ensures Consume(counters, key, now).1
    ensures Consumed(Consume(counters, key, now).0, key, now) == 1
  {
  }
}
