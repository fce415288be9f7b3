/** In-memory token buckets, one per key, refilled evenly over a window. */
module RateLimiter {

  datatype Limits = Limits(capacity: real, windowMs: real)
  datatype Bucket = Bucket(tokens: real, updatedAt: real)
  datatype Answer = Allowed | Refused(retryAfterSeconds: int)
  datatype Call = Call(key: string, now: real)

  type Buckets = map<string, Bucket>

  predicate Sensible(l: Limits) {
    l.capacity > 0.0 && l.windowMs > 0.0
  }

  function PerMs(l: Limits): (r: real)
    requires Sensible(l)
    ensures r > 0.0
  {
    l.capacity / l.windowMs
  }

  /** The tokens the clock gives a bucket over some time. */
  function Gain(l: Limits, elapsed: real): real
    requires Sensible(l)
  {
    elapsed * PerMs(l)
  }

  function Min(a: real, b: real): real {
    if a < b then a else b
  }

  function Ceil(x: real): int {
    -((-x).Floor)
  }

  /** The tokens of a key's bucket at some time; a key without one has a full bucket. */
  function Level(l: Limits, b: Buckets, key: string, now: real): real
    requires Sensible(l)
  {
    if key in b then Min(l.capacity, b[key].tokens + Gain(l, now - b[key].updatedAt)) else l.capacity
  }

  function Swept(l: Limits, b: Buckets, now: real): Buckets {
    map key | key in b && now - b[key].updatedAt < l.windowMs :: b[key]
  }

  function RetryAfter(l: Limits, tokens: real): int
    requires Sensible(l)
  {
    var wait := Ceil((1.0 - tokens) / PerMs(l) / 1000.0);
    if wait < 1 then 1 else wait
  }

  function AnswerFor(l: Limits, tokens: real): Answer
    requires Sensible(l)
  {
    if tokens >= 1.0 then Allowed else Refused(RetryAfter(l, tokens))
  }

  /** The buckets after one take, with or without a sweep. */
  function Taken(l: Limits, b: Buckets, key: string, now: real, sweeps: bool): Buckets
    requires Sensible(l)
  {
    var tokens := Level(l, b, key, now);
    var noted := b[key := Bucket(tokens, now)];
    var kept := if sweeps then Swept(l, noted, now) else noted;
    if tokens >= 1.0 then kept[key := Bucket(tokens - 1.0, now)] else kept
  }

  class Limiter {
    const limits: Limits
    var buckets: Buckets
    var takes: nat

    constructor (capacity: real, windowMs: real)
      ensures limits == Limits(capacity, windowMs) && buckets == map[] && takes == 0
    {
      limits := Limits(capacity, windowMs);
      buckets, takes := map[], 0;
    }

    method Take(key: string, now: real) returns (answer: Answer)
      requires Sensible(limits)
      modifies this
      ensures takes == old(takes) + 1
      ensures answer == AnswerFor(limits, Level(limits, old(buckets), key, now))
      ensures buckets == Taken(limits, old(buckets), key, now, takes % 1000 == 0)
    {
      var bucket := if key in buckets then buckets[key] else Bucket(limits.capacity, now);
      var tokens := Min(limits.capacity, bucket.tokens + Gain(limits, now - bucket.updatedAt));
      GainFacts(limits, 0.0, 0.0);
      buckets := buckets[key := Bucket(tokens, now)];
      takes := takes + 1;
      if takes % 1000 == 0 {
        Sweep(now);
      }
      if tokens >= 1.0 {
        buckets := buckets[key := Bucket(tokens - 1.0, now)];
        return Allowed;
      }
      answer := Refused(RetryAfter(limits, tokens));
    }

    /** Takes the full buckets away: a key without one counts as full. */
    method Sweep(now: real)
      modifies this`buckets
      ensures buckets == Swept(limits, old(buckets), now)
    {
      var keys := buckets.Keys;
      while keys != {}
        invariant keys <= old(buckets).Keys
        invariant buckets == map key | key in old(buckets)
                    && (key in keys || now - old(buckets)[key].updatedAt < limits.windowMs) :: old(buckets)[key]
        decreases keys
      {
        var key :| key in keys;
        keys := keys - {key};
        if now - buckets[key].updatedAt >= limits.windowMs {
          buckets := buckets - {key};
        }
      }
    }
  }

  // --- Every run ---------------------------------------------------------------

  /** Every bucket is between empty and full, and was last touched before now. */
  ghost predicate Valid(l: Limits, b: Buckets, now: real) {
    forall key | key in b :: 0.0 <= b[key].tokens <= l.capacity && b[key].updatedAt <= now
  }

  predicate Ordered(calls: seq<Call>, from: real) {
    calls != [] ==> from <= calls[0].now && Ordered(calls[1..], calls[0].now)
  }

  /** The answers of a run that starts with these buckets after so many takes. */
  function Answers(l: Limits, b: Buckets, takes: nat, calls: seq<Call>): (answers: seq<Answer>)
    requires Sensible(l)
    ensures |answers| == |calls|
    decreases |calls|
  {
    if calls == [] then []
    else
      [AnswerFor(l, Level(l, b, calls[0].key, calls[0].now))] +
      Answers(l, Taken(l, b, calls[0].key, calls[0].now, (takes + 1) % 1000 == 0), takes + 1, calls[1..])
  }

  /** The answers of a limiter that never sweeps. */
  function UnsweptAnswers(l: Limits, b: Buckets, calls: seq<Call>): (answers: seq<Answer>)
    requires Sensible(l)
    ensures |answers| == |calls|
    decreases |calls|
  {
    if calls == [] then []
    else
      [AnswerFor(l, Level(l, b, calls[0].key, calls[0].now))] +
      UnsweptAnswers(l, Taken(l, b, calls[0].key, calls[0].now, false), calls[1..])
  }

  function AllowedFor(key: string, calls: seq<Call>, answers: seq<Answer>): nat
    requires |calls| == |answers|
  {
    if calls == [] then 0
    else (if calls[0].key == key && answers[0] == Allowed then 1 else 0) + AllowedFor(key, calls[1..], answers[1..])
  }

  lemma GainFacts(l: Limits, a: real, b: real)
    requires Sensible(l)
    ensures Gain(l, 0.0) == 0.0
    ensures Gain(l, a + b) == Gain(l, a) + Gain(l, b)
    ensures a >= 0.0 ==> Gain(l, a) >= 0.0
    ensures Gain(l, l.windowMs) == l.capacity
  {
  }

  /** What a bucket holds at t1 is what it held at t0 and what the clock gave it since, up to full. */
  lemma Refill(l: Limits, b: Buckets, key: string, t0: real, t1: real)
    requires Sensible(l) && Valid(l, b, t0) && t0 <= t1
    ensures 0.0 <= Level(l, b, key, t0) <= l.capacity
    ensures Level(l, b, key, t1) == Min(l.capacity, Level(l, b, key, t0) + Gain(l, t1 - t0))
    ensures Gain(l, t1 - t0) >= 0.0
  {
    GainFacts(l, t1 - t0, 0.0);
    if key in b {
      GainFacts(l, t0 - b[key].updatedAt, t1 - t0);
      assert (t0 - b[key].updatedAt) + (t1 - t0) == t1 - b[key].updatedAt;
    }
  }

  /** A bucket the sweep drops is full. */
  lemma SweptIsFull(l: Limits, b: Buckets, key: string, now: real)
    requires Sensible(l) && Valid(l, b, now)
    ensures Level(l, Swept(l, b, now), key, now) == Level(l, b, key, now)
  {
    if key in b && now - b[key].updatedAt >= l.windowMs {
      GainFacts(l, now - b[key].updatedAt - l.windowMs, l.windowMs);
    }
  }

  /** A take spends one token of its own key if it is allowed, and nothing else
      changes level, swept or not. */
  lemma TakeSpends(l: Limits, b: Buckets, key: string, now: real, sweeps: bool, other: string)
    requires Sensible(l) && Valid(l, b, now)
    ensures Level(l, Taken(l, b, key, now, sweeps), other, now) ==
            Level(l, b, other, now) - (if other == key && Level(l, b, key, now) >= 1.0 then 1.0 else 0.0)
    ensures Valid(l, Taken(l, b, key, now, sweeps), now)
  {
    Refill(l, b, key, now, now);
    var noted := b[key := Bucket(Level(l, b, key, now), now)];
    GainFacts(l, 0.0, 0.0);
    assert Valid(l, noted, now);
    assert Level(l, noted, other, now) == Level(l, b, other, now);
    SweptIsFull(l, noted, other, now);
  }

  /** From any reachable buckets, what a key is allowed is bounded by its level and the time that passes. */
  lemma {:induction false} AllowedBound(l: Limits, b: Buckets, takes: nat, calls: seq<Call>, key: string)
    requires Sensible(l) && calls != [] && Ordered(calls, calls[0].now) && Valid(l, b, calls[0].now)
    ensures AllowedFor(key, calls, Answers(l, b, takes, calls)) as real <=
            Level(l, b, key, calls[0].now) + Gain(l, calls[|calls| - 1].now - calls[0].now)
    decreases |calls|
  {
    var now, rest := calls[0].now, calls[1..];
    var sweeps := (takes + 1) % 1000 == 0;
    var b' := Taken(l, b, calls[0].key, now, sweeps);
    TakeSpends(l, b, calls[0].key, now, sweeps, key);
    GainFacts(l, 0.0, 0.0);
    Refill(l, b', key, now, now);
    if rest != [] {
      var next, last := rest[0].now, rest[|rest| - 1].now;
      Refill(l, b', key, now, next);
      AllowedBound(l, b', takes + 1, rest, key);
      GainFacts(l, next - now, last - next);
      assert last - now == (next - now) + (last - next);
    }
  }

  /** The state a run has reached after i calls, and the rest of its answers from there. */
  lemma {:induction false} AfterCalls(l: Limits, b: Buckets, takes: nat, calls: seq<Call>, i: nat)
      returns (b': Buckets, takes': nat)
    requires Sensible(l) && i < |calls| && Ordered(calls, calls[0].now) && Valid(l, b, calls[0].now)
    ensures Valid(l, b', calls[i].now) && Ordered(calls[i..], calls[i].now)
    ensures Answers(l, b, takes, calls)[i..] == Answers(l, b', takes', calls[i..])
    decreases i
  {
    if i == 0 {
      b', takes' := b, takes;
      assert calls[0..] == calls;
    } else {
      var sweeps := (takes + 1) % 1000 == 0;
      var next := Taken(l, b, calls[0].key, calls[0].now, sweeps);
      TakeSpends(l, b, calls[0].key, calls[0].now, sweeps, calls[0].key);
      b', takes' := AfterCalls(l, next, takes + 1, calls[1..], i - 1);
      assert calls[1..][i - 1..] == calls[i..];
      var first := [AnswerFor(l, Level(l, b, calls[0].key, calls[0].now))];
      assert Answers(l, b, takes, calls) == first + Answers(l, next, takes + 1, calls[1..]);
      assert (first + Answers(l, next, takes + 1, calls[1..]))[i..] == Answers(l, next, takes + 1, calls[1..])[i - 1..];
    }
  }

  lemma {:induction false} AnswersOfPrefix(l: Limits, b: Buckets, takes: nat, calls: seq<Call>, n: nat)
    requires Sensible(l) && n <= |calls|
    ensures Answers(l, b, takes, calls)[..n] == Answers(l, b, takes, calls[..n])
    decreases n
  {
    if n > 0 {
      var next := Taken(l, b, calls[0].key, calls[0].now, (takes + 1) % 1000 == 0);
      AnswersOfPrefix(l, next, takes + 1, calls[1..], n - 1);
      assert calls[..n][1..] == calls[1..][..n - 1];
    }
  }

  lemma {:induction false} PrefixOrdered(calls: seq<Call>, from: real, n: nat)
    requires n <= |calls| && Ordered(calls, from)
    ensures Ordered(calls[..n], from)
    decreases n
  {
    if n > 0 {
      PrefixOrdered(calls[1..], calls[0].now, n - 1);
      assert calls[..n][1..] == calls[1..][..n - 1];
    }
  }

  lemma StretchBound(l: Limits, calls: seq<Call>, key: string, i: nat, j: nat)
    requires Sensible(l) && i <= j < |calls| && Ordered(calls, calls[0].now)
    ensures
      var answers := Answers(l, map[], 0, calls);
      AllowedFor(key, calls[i..j + 1], answers[i..j + 1]) as real <= l.capacity + Gain(l, calls[j].now - calls[i].now)
  {
    var answers := Answers(l, map[], 0, calls);
    var b, takes := AfterCalls(l, map[], 0, calls, i);
    var n := j + 1 - i;
    var stretch := calls[i..][..n];
    assert calls[i..j + 1] == stretch && answers[i..j + 1] == answers[i..][..n];
    AnswersOfPrefix(l, b, takes, calls[i..], n);
    PrefixOrdered(calls[i..], calls[i].now, n);
    AllowedBound(l, b, takes, stretch, key);
    Refill(l, b, key, calls[i].now, calls[i].now);
  }

  /** In any run, over any stretch of it from call i to call j, one key is allowed at most the capacity
      and what refills in the time between the two calls, at the rate that fills a bucket in one window. */
  lemma RateBound(l: Limits, calls: seq<Call>, key: string, i: nat, j: nat, elapsed: real, rate: real)
    requires Sensible(l) && i <= j < |calls| && Ordered(calls, calls[0].now)
    requires elapsed == calls[j].now - calls[i].now && rate * l.windowMs == l.capacity
    ensures
      var answers := Answers(l, map[], 0, calls);
      AllowedFor(key, calls[i..j + 1], answers[i..j + 1]) as real <= l.capacity + elapsed * rate
  {
    StretchBound(l, calls, key, i, j);
    GainIs(l, elapsed, rate);
  }

  lemma GainIs(l: Limits, elapsed: real, rate: real)
    requires Sensible(l) && rate * l.windowMs == l.capacity
    ensures Gain(l, elapsed) == elapsed * rate
  {
    assert PerMs(l) == rate;
  }

  // --- Sweeping ----------------------------------------------------------------

  /** The swept buckets are some of the unswept ones, and every one left out is full by now. */
  ghost predicate SweepOf(l: Limits, b: Buckets, all: Buckets, now: real) {
    && (forall key | key in b :: key in all && all[key] == b[key])
    && (forall key | key in all && key !in b :: now - all[key].updatedAt >= l.windowMs)
  }

  lemma SweptLevel(l: Limits, b: Buckets, all: Buckets, now: real, key: string)
    requires Sensible(l) && SweepOf(l, b, all, now) && Valid(l, all, now)
    ensures Level(l, b, key, now) == Level(l, all, key, now)
  {
    if key in all && key !in b {
      GainFacts(l, now - all[key].updatedAt - l.windowMs, l.windowMs);
    }
  }

  /** Sweeping never changes an answer: the limiter answers any run as one that never sweeps. */
  lemma {:induction false} SweepingIsUnseen(l: Limits, b: Buckets, all: Buckets, takes: nat,
                                            calls: seq<Call>, now: real)
    requires Sensible(l) && Ordered(calls, now) && Valid(l, all, now) && SweepOf(l, b, all, now)
    ensures Answers(l, b, takes, calls) == UnsweptAnswers(l, all, calls)
    decreases |calls|
  {
    if calls != [] {
      var key, t := calls[0].key, calls[0].now;
      SweptLevel(l, b, all, t, key);
      TakeSpends(l, all, key, t, false, key);
      var sweeps := (takes + 1) % 1000 == 0;
      SweepingIsUnseen(l, Taken(l, b, key, t, sweeps), Taken(l, all, key, t, false), takes + 1, calls[1..], t);
    }
  }

  // --- Waiting -----------------------------------------------------------------

  /** A bucket that cannot hold a whole token allows nobody anything. */
  lemma {:induction false} TooSmallAllowsNone(l: Limits, b: Buckets, takes: nat, calls: seq<Call>, key: string)
    requires Sensible(l) && l.capacity < 1.0
    ensures AllowedFor(key, calls, Answers(l, b, takes, calls)) == 0
    ensures forall i | 0 <= i < |calls| :: Answers(l, b, takes, calls)[i] != Allowed
    decreases |calls|
  {
    if calls != [] {
      TooSmallAllowsNone(l, Taken(l, b, calls[0].key, calls[0].now, (takes + 1) % 1000 == 0), takes + 1,
                         calls[1..], key);
    }
  }

  /** A key that the clock brings to a whole token by `later` is allowed then, whatever other keys take meanwhile. */
  lemma {:induction false} FilledByThen(l: Limits, b: Buckets, takes: nat, key: string, since: real, others: seq<Call>,
                                        later: real)
    requires Sensible(l) && l.capacity >= 1.0 && Valid(l, b, since) && since <= later
    requires Ordered(others, since) && forall i | 0 <= i < |others| :: others[i].key != key && others[i].now <= later
    requires Level(l, b, key, since) + Gain(l, later - since) >= 1.0
    ensures Answers(l, b, takes, others + [Call(key, later)])[|others|] == Allowed
    decreases |others|
  {
    var calls := others + [Call(key, later)];
    if others == [] {
      Refill(l, b, key, since, later);
      assert calls[0] == Call(key, later);
    } else {
      var t := others[0].now;
      var sweeps := (takes + 1) % 1000 == 0;
      TakeSpends(l, b, others[0].key, t, sweeps, key);
      Refill(l, b, key, since, t);
      GainFacts(l, t - since, later - t);
      GainFacts(l, later - t, 0.0);
      assert (t - since) + (later - t) == later - since;
      assert calls[0] == others[0] && calls[1..] == others[1..] + [Call(key, later)];
      FilledByThen(l, Taken(l, b, others[0].key, t, sweeps), takes + 1, key, t, others[1..], later);
    }
  }

  lemma CeilCovers(x: real)
    ensures x <= Ceil(x) as real
  {
  }

  lemma RetryCovers(l: Limits, tokens: real, elapsed: real)
    requires Sensible(l) && elapsed >= RetryAfter(l, tokens) as real * 1000.0
    ensures tokens + Gain(l, elapsed) >= 1.0
  {
    var p := PerMs(l);
    var wait := (1.0 - tokens) / p;
    CeilCovers(wait / 1000.0);
    assert elapsed >= wait;
    GainFacts(l, elapsed - wait, wait);
    assert Gain(l, wait) == 1.0 - tokens;
  }

  lemma CeilIsLeast(x: real)
    ensures Ceil(x) as real < x + 1.0
  {
  }

  /** A refused key is told to wait no longer than it needs to, in whole seconds, but for the least of one. */
  lemma WaitIsNeeded(l: Limits, tokens: real, rate: real)
    requires Sensible(l) && tokens < 1.0 && rate * l.windowMs == l.capacity
    ensures var told := AnswerFor(l, tokens).retryAfterSeconds;
            told == 1 || tokens + (told - 1) as real * 1000.0 * rate < 1.0
  {
    var p := PerMs(l);
    GainIs(l, 1.0, rate);
    var wait := (1.0 - tokens) / p / 1000.0;
    var told := RetryAfter(l, tokens);
    CeilIsLeast(wait);
    if told > 1 {
      SlowerThan(p, (told - 1) as real, wait, tokens);
    }
  }

  lemma SlowerThan(p: real, seconds: real, wait: real, tokens: real)
    requires p > 0.0 && wait == (1.0 - tokens) / p / 1000.0 && seconds < wait
    ensures tokens + seconds * 1000.0 * p < 1.0
  {
    assert wait * 1000.0 * p == 1.0 - tokens;
    assert (wait - seconds) * (1000.0 * p) > 0.0;
  }

  /** A refused key that waits as long as it was told, while others take what they
      like, is allowed next exactly when the capacity holds a whole token. */
  lemma WaitIsEnough(l: Limits, b: Buckets, takes: nat, key: string, now: real, others: seq<Call>, later: real)
    requires Sensible(l) && Valid(l, b, now) && Level(l, b, key, now) < 1.0
    requires later >= now + RetryAfter(l, Level(l, b, key, now)) as real * 1000.0
    requires Ordered(others, now) && forall i | 0 <= i < |others| :: others[i].key != key && others[i].now <= later
    ensures
      var answers := Answers(l, b, takes, [Call(key, now)] + others + [Call(key, later)]);
      && answers[0].Refused?
      && (answers[|others| + 1] == Allowed <==> l.capacity >= 1.0)
  {
    var calls := [Call(key, now)] + others + [Call(key, later)];
    if l.capacity < 1.0 {
      TooSmallAllowsNone(l, b, takes, calls, key);
    } else {
      var sweeps := (takes + 1) % 1000 == 0;
      TakeSpends(l, b, key, now, sweeps, key);
      RetryCovers(l, Level(l, b, key, now), later - now);
      assert calls[0] == Call(key, now) && calls[1..] == others + [Call(key, later)];
      FilledByThen(l, Taken(l, b, key, now, sweeps), takes + 1, key, now, others, later);
    }
  }
}
