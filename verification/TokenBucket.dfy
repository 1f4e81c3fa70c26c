/**
  The token bucket that paces one connection, and the table of buckets that
  paces identities over HTTP.

  Time is read off a monotonic clock and measured in seconds as a real number;
  rounding of the original's float64 is not modelled.
 */
module TokenBucket {
  import Collections

  /** A bucket at rest: `tokens` is what it held at the instant `last`. */
  datatype Bucket = Bucket(capacity: nat, perSec: real, tokens: real, last: real)

  /** What one call to take answers: the tokens left and the seconds until the next. */
  datatype Answer = Allowed(remaining: int, retryAfter: real) | Refused(retryAfter: real)

  ghost predicate Wellformed(b: Bucket) {
    && b.perSec >= 0.0
    && 0.0 <= b.tokens <= b.capacity as real
  }

  /** A bucket as it is made: full. */
  function Fresh(capacity: nat, perSec: real, now: real): Bucket {
    Bucket(capacity, perSec, capacity as real, now)
  }

  /** What refills in a number of seconds. */
  function Gain(rate: real, seconds: real): real {
    seconds * rate
  }

  /** What the bucket holds at a later instant if nobody touches it meanwhile. */
  function Level(b: Bucket, now: real): real {
    var filled := b.tokens + Gain(b.perSec, now - b.last);
    if filled > b.capacity as real then b.capacity as real else filled
  }

  /** The bucket after one take at `now`. */
  function Took(b: Bucket, now: real): Bucket {
    var level := Level(b, now);
    b.(tokens := if level < 1.0 then level else level - 1.0, last := now)
  }

  /** The answer one take at `now` gives. */
  function Reply(b: Bucket, now: real): Answer {
    var level := Level(b, now);
    if level < 1.0 then
      Refused(if b.perSec > 0.0 then (1.0 - level) / b.perSec else 0.0)
    else
      var left := level - 1.0;
      Allowed(left.Floor,
              if b.perSec > 0.0 && left < b.capacity as real
              then (1.0 - left + left.Floor as real) / b.perSec else 0.0)
  }

  /** Idle for at least `idle` and full again: a bucket that holds no decision. */
  function Spent(b: Bucket, idle: real, now: real): bool {
    now - b.last >= idle && b.tokens + Gain(b.perSec, now - b.last) >= b.capacity as real
  }

  // --- one take -------------------------------------------------------------

  lemma ProductSign(x: real, y: real)
    requires x >= 0.0 && y >= 0.0
    ensures x * y >= 0.0
  {}

  lemma ProductPositive(x: real, y: real)
    requires x > 0.0 && y > 0.0
    ensures x * y > 0.0
  {}

  /** What time brings in adds up over adjoining stretches. */
  lemma RefillAddsUp(a: real, b: real, c: real, rate: real)
    ensures Gain(rate, b - a) + Gain(rate, c - b) == Gain(rate, c - a)
  {}

  /** A real reaches a whole number exactly when its floor does. */
  lemma FloorReaches(x: real, n: int)
    ensures x.Floor >= n <==> x >= n as real
  {}

  /** Tokens never leave [0, capacity], whatever is taken and whenever. */
  lemma TookWellformed(b: Bucket, now: real)
    requires Wellformed(b) && b.last <= now
    ensures Wellformed(Took(b, now))
    ensures 0.0 <= Level(b, now) <= b.capacity as real
  {
    ProductSign(now - b.last, b.perSec);
    assert Gain(b.perSec, now - b.last) >= 0.0;
    hide Gain;
  }

  /** Filling `gap` seconds at `rate` reaches `need` exactly from need / rate seconds on. */
  lemma FillTime(gap: real, rate: real, need: real)
    requires rate > 0.0
    ensures Gain(rate, gap) >= need <==> gap >= need / rate
  {
    assert need / rate * rate == need;
    if gap >= need / rate {
      ProductSign(gap - need / rate, rate);
      assert (gap - need / rate) * rate == gap * rate - need;
    } else {
      ProductPositive(need / rate - gap, rate);
      assert (need / rate - gap) * rate == need - gap * rate;
    }
  }

  /** Where nothing refills there is no wait to give. */
  lemma NothingToWaitFor(b: Bucket, now: real)
    requires b.perSec == 0.0
    ensures Reply(b, now).retryAfter == 0.0
  {}

  /**
    The wait published with a refusal is the least time after which a take
    succeeds. It is so exactly on a bucket that refills and can hold a token;
    on any other no later take succeeds at all.
   */
  lemma RefusalWaitIsExact(b: Bucket, now: real, later: real)
    requires Wellformed(b) && b.last <= now <= later
    requires Reply(b, now).Refused?
    ensures Reply(Took(b, now), later).Allowed?
       <==> b.perSec > 0.0 && b.capacity >= 1 && later - now >= Reply(b, now).retryAfter
  {
    TookWellformed(b, now);
    if b.perSec > 0.0 {
      FillTime(later - now, b.perSec, 1.0 - Level(b, now));
    } else {
      assert Gain(b.perSec, later - now) == 0.0;
    }
    hide Gain;
  }

  /**
    The wait published with a success is the least time after which one more
    whole token than `remaining` is there to take.
   */
  lemma SuccessWaitIsExact(b: Bucket, now: real, later: real)
    requires Wellformed(b) && b.last <= now <= later
    requires Reply(b, now).Allowed?
    ensures 0 <= Reply(b, now).remaining < b.capacity
    ensures Level(Took(b, now), later).Floor > Reply(b, now).remaining
       <==> b.perSec > 0.0 && later - now >= Reply(b, now).retryAfter
  {
    TookWellformed(b, now);
    var left := Level(b, now) - 1.0;
    FloorReaches(left, b.capacity);
    FloorReaches(Level(Took(b, now), later), left.Floor + 1);
    if b.perSec > 0.0 {
      FillTime(later - now, b.perSec, 1.0 - left + left.Floor as real);
    } else {
      assert Gain(b.perSec, later - now) == 0.0;
    }
    hide Gain;
  }

  /** A take hands out no more than the bucket held plus what time brought in. */
  lemma TakePaysOrRefills(b: Bucket, now: real)
    requires Wellformed(b) && b.last <= now
    ensures (if Reply(b, now).Allowed? then 1.0 else 0.0) + Took(b, now).tokens
         <= b.tokens + Gain(b.perSec, now - b.last)
  {}

  // --- runs of takes --------------------------------------------------------

  ghost predicate Ascending(from: real, times: seq<real>) {
    && (forall i :: 0 <= i < |times| ==> from <= times[i])
    && (forall i, j :: 0 <= i < j < |times| ==> times[i] <= times[j])
  }

  /** The bucket after a run of takes at the given instants. */
  ghost function After(b: Bucket, times: seq<real>): Bucket
    decreases |times|
  {
    if times == [] then b else After(Took(b, times[0]), times[1..])
  }

  /** How many takes of a run succeed. */
  ghost function Successes(b: Bucket, times: seq<real>): nat
    decreases |times|
  {
    if times == [] then 0
    else (if Reply(b, times[0]).Allowed? then 1 else 0) + Successes(Took(b, times[0]), times[1..])
  }

  /** Every success is paid for: by what the bucket held or by what time brought in. */
  lemma {:induction false} SuccessesArePaidFor(b: Bucket, times: seq<real>)
    requires Wellformed(b) && Ascending(b.last, times)
    ensures Wellformed(After(b, times)) && After(b, times).last >= b.last
    ensures After(b, times).capacity == b.capacity && After(b, times).perSec == b.perSec
    ensures times != [] ==> After(b, times).last == times[|times| - 1]
    ensures Successes(b, times) as real + After(b, times).tokens
         <= b.tokens + Gain(b.perSec, After(b, times).last - b.last)
    decreases |times|
  {
    if times != [] {
      var b' := Took(b, times[0]);
      TookWellformed(b, times[0]);
      TakePaysOrRefills(b, times[0]);
      hide Gain;
      assert Ascending(b'.last, times[1..]);
      SuccessesArePaidFor(b', times[1..]);
      RefillAddsUp(b.last, times[0], After(b', times[1..]).last, b.perSec);
    }
  }

  lemma SuccessesOfAStretch(start: Bucket, stretch: seq<real>)
    requires Wellformed(start) && stretch != [] && Ascending(start.last, stretch)
    ensures Successes(start, stretch) as real
         <= start.capacity as real + Gain(start.perSec, stretch[|stretch| - 1] - stretch[0])
  {
    var first := Took(start, stretch[0]);
    TookWellformed(start, stretch[0]);
    assert Gain(start.perSec, 0.0) == 0.0;
    hide Gain;
    assert Ascending(first.last, stretch[1..]);
    SuccessesArePaidFor(first, stretch[1..]);
  }

  /**
    In any stretch of a run, however the run began, the successes are at most
    the capacity plus what the elapsed time refills.
   */
  lemma SuccessesInAnInterval(b: Bucket, times: seq<real>, i: nat, j: nat)
    requires Wellformed(b) && Ascending(b.last, times) && i < j <= |times|
    ensures Successes(After(b, times[..i]), times[i..j]) as real
         <= b.capacity as real + Gain(b.perSec, times[j - 1] - times[i])
  {
    hide Gain;
    SuccessesArePaidFor(b, times[..i]);
    SuccessesOfAStretch(After(b, times[..i]), times[i..j]);
  }

  /** The bucket one connection owns. */
  class RateLimiter {
    const capacity: nat
    const perSec: real
    var tokens: real
    var last: real

    ghost predicate Valid()
      reads this
    {
      Wellformed(Value())
    }

    function Value(): Bucket
      reads this
    {
      Bucket(capacity, perSec, tokens, last)
    }

    constructor (capacity: nat, perSec: real, now: real)
      requires perSec >= 0.0
      ensures Valid() && Value() == Fresh(capacity, perSec, now)
    {
      this.capacity, this.perSec := capacity, perSec;
      tokens, last := capacity as real, now;
    }

    method Take(now: real) returns (ok: bool, remaining: int, retryAfter: real)
      requires Valid() && last <= now
      modifies this`tokens, this`last
      ensures Valid() && Value() == Took(old(Value()), now)
      ensures (if ok then Allowed(remaining, retryAfter) else Refused(retryAfter)) == Reply(old(Value()), now)
      ensures ok <==> old(Level(Value(), now)) >= 1.0
      ensures !ok ==> remaining == 0
    {
      TookWellformed(Value(), now);
      hide Gain;
      tokens := tokens + Gain(perSec, now - last);
      last := now;
      if tokens > capacity as real {
        tokens := capacity as real;
      }
      if tokens < 1.0 {
        var wait := 0.0;
        if perSec > 0.0 {
          wait := (1.0 - tokens) / perSec;
        }
        return false, 0, wait;
      }
      tokens := tokens - 1.0;
      var wait := 0.0;
      if perSec > 0.0 && tokens < capacity as real {
        wait := (1.0 - tokens + tokens.Floor as real) / perSec;
      }
      return true, tokens.Floor, wait;
    }

    method IsSpent(idle: real, now: real) returns (spent: bool)
      ensures spent == Spent(Value(), idle, now)
    {
      if now - last < idle {
        return false;
      }
      return tokens + (now - last) * perSec >= capacity as real;
    }
  }

  // --- one bucket per identity ----------------------------------------------

  /** Somebody's call that has looked its bucket up and not yet taken from it. */
  datatype Held = Held(userID: int, bucket: nat)

  /**
    Every bucket ever made, by number; which one an identity has now; and the
    calls in between looking theirs up and taking from it.
   */
  datatype Limiters = Limiters(heap: seq<Bucket>, owned: map<int, nat>, calls: map<nat, Held>)

  /** Something that happens to the limiters, and when. */
  datatype Event =
    | Lookup(call: nat, userID: int, at: real)
    | TakeFrom(call: nat, at: real)
    | SweepIdle(idle: real, at: real)

  /** The bucket an identity has, made anew if there is none. */
  function LookedUp(s: Limiters, burst: nat, perSec: real, call: nat, userID: int, now: real): Limiters {
    if userID in s.owned then s.(calls := s.calls[call := Held(userID, s.owned[userID])])
    else
      Limiters(s.heap + [Fresh(burst, perSec, now)], s.owned[userID := |s.heap|],
               s.calls[call := Held(userID, |s.heap|)])
  }

  function TakenFrom(s: Limiters, call: nat, now: real): Limiters
    requires call in s.calls && s.calls[call].bucket < |s.heap|
  {
    var b := s.calls[call].bucket;
    s.(heap := s.heap[b := Took(s.heap[b], now)], calls := s.calls - {call})
  }

  /** Dropping a bucket takes it out of the table; whoever has looked it up still holds it. */
  function Swept(s: Limiters, idle: real, now: real): Limiters {
    s.(owned := map u | u in s.owned && !(s.owned[u] < |s.heap| && Spent(s.heap[s.owned[u]], idle, now)) :: s.owned[u])
  }

  /** One step and its answer, if it gives one. */
  function Step(s: Limiters, burst: nat, perSec: real, e: Event): (Limiters, seq<Answer>) {
    match e
    case Lookup(call, userID, now) => (LookedUp(s, burst, perSec, call, userID, now), [])
    case TakeFrom(call, now) =>
      if call in s.calls && s.calls[call].bucket < |s.heap| then
        (TakenFrom(s, call, now), [Reply(s.heap[s.calls[call].bucket], now)])
      else (s, [])
    case SweepIdle(idle, now) => (Swept(s, idle, now), [])
  }

  ghost predicate InOrder(from: real, events: seq<Event>) {
    && (forall i :: 0 <= i < |events| ==> from <= events[i].at)
    && (forall i, j :: 0 <= i < j < |events| ==> events[i].at <= events[j].at)
  }

  /** The answers a run of lookups, takes and sweeps gives, in order. */
  ghost function Answers(s: Limiters, burst: nat, perSec: real, events: seq<Event>): seq<Answer>
    decreases |events|
  {
    if events == [] then []
    else
      var (s', answer) := Step(s, burst, perSec, events[0]);
      answer + Answers(s', burst, perSec, events[1..])
  }

  /** The answers the same run gives when nothing is ever swept. */
  ghost function UnsweptAnswers(s: Limiters, burst: nat, perSec: real, events: seq<Event>): seq<Answer>
    decreases |events|
  {
    if events == [] then []
    else if events[0].SweepIdle? then UnsweptAnswers(s, burst, perSec, events[1..])
    else
      var (s', answer) := Step(s, burst, perSec, events[0]);
      answer + UnsweptAnswers(s', burst, perSec, events[1..])
  }

  ghost predicate LimitersFit(s: Limiters, burst: nat, perSec: real, now: real) {
    && (forall b :: 0 <= b < |s.heap| ==>
          Wellformed(s.heap[b]) && s.heap[b].last <= now && s.heap[b].capacity == burst && s.heap[b].perSec == perSec)
    && (forall u :: u in s.owned ==> s.owned[u] < |s.heap|)
    && (forall u, v :: u in s.owned && v in s.owned && u != v ==> s.owned[u] != s.owned[v])
    && (forall c :: c in s.calls ==> s.calls[c].bucket < |s.heap|)
  }

  /** Whoever has looked a bucket up holds the one its identity has. */
  ghost predicate HeldAreOwned(s: Limiters) {
    forall c :: c in s.calls ==> s.calls[c].userID in s.owned && s.owned[s.calls[c].userID] == s.calls[c].bucket
  }

  /** A sweep now drops a bucket that a call has looked up and not yet taken from. */
  ghost predicate DropsHeld(s: Limiters, idle: real, now: real) {
    exists c :: c in s.calls && s.calls[c].bucket < |s.heap| && Spent(s.heap[s.calls[c].bucket], idle, now)
  }

  /** No sweep of the run drops a bucket that is held. */
  ghost predicate Undisturbed(s: Limiters, burst: nat, perSec: real, events: seq<Event>)
    decreases |events|
  {
    events == []
    || (&& (events[0].SweepIdle? ==> !DropsHeld(s, events[0].idle, events[0].at))
        && Undisturbed(Step(s, burst, perSec, events[0]).0, burst, perSec, events[1..]))
  }

  ghost predicate SameCalls(s: Limiters, k: Limiters) {
    && (forall c :: c in s.calls <==> c in k.calls)
    && (forall c :: c in s.calls ==> s.calls[c].userID == k.calls[c].userID)
  }

  predicate Full(b: Bucket, now: real) {
    Level(b, now) == b.capacity as real
  }

  /** Two buckets no later take can tell apart. */
  predicate Alike(b: Bucket, b': Bucket, now: real) {
    b == b' || (Full(b, now) && Full(b', now))
  }

  /** What an identity has in a table swept is like what it has in one never swept, or was full and is gone. */
  predicate SameBucket(s: Limiters, k: Limiters, u: int, now: real) {
    if u in s.owned then
      u in k.owned && s.owned[u] < |s.heap| && k.owned[u] < |k.heap|
      && Alike(s.heap[s.owned[u]], k.heap[k.owned[u]], now)
    else u in k.owned ==> k.owned[u] < |k.heap| && Full(k.heap[k.owned[u]], now)
  }

  /** A table swept and the same never swept, at one moment. */
  ghost predicate SweptFrom(s: Limiters, k: Limiters, burst: nat, perSec: real, now: real) {
    && LimitersFit(s, burst, perSec, now) && LimitersFit(k, burst, perSec, now)
    && HeldAreOwned(s) && HeldAreOwned(k) && SameCalls(s, k)
    && (forall u :: SameBucket(s, k, u, now))
  }

  lemma FullStaysFull(b: Bucket, now: real, later: real)
    requires Wellformed(b) && b.last <= now <= later && Full(b, now)
    ensures Full(b, later)
  {
    ProductSign(later - now, b.perSec);
    RefillAddsUp(b.last, now, later, b.perSec);
  }

  lemma SweptFromLater(s: Limiters, k: Limiters, burst: nat, perSec: real, now: real, later: real)
    requires SweptFrom(s, k, burst, perSec, now) && now <= later
    ensures SweptFrom(s, k, burst, perSec, later)
  {
    hide Full, Wellformed;
    forall u: int
      ensures SameBucket(s, k, u, later)
    {
      assert SameBucket(s, k, u, now);
      if u in k.owned && Full(k.heap[k.owned[u]], now) { FullStaysFull(k.heap[k.owned[u]], now, later); }
      if u in s.owned && Full(s.heap[s.owned[u]], now) { FullStaysFull(s.heap[s.owned[u]], now, later); }
    }
  }

  /** A full bucket answers, and is left, exactly as a fresh one would be. */
  lemma FullIsFresh(b: Bucket, now: real)
    requires Full(b, now)
    ensures Reply(b, now) == Reply(Fresh(b.capacity, b.perSec, now), now)
    ensures Took(b, now) == Took(Fresh(b.capacity, b.perSec, now), now)
  {}

  lemma FreshIsFull(burst: nat, perSec: real, now: real)
    ensures Full(Fresh(burst, perSec, now), now)
  {
    assert Gain(perSec, 0.0) == 0.0;
  }

  lemma AlikeAnswer(b: Bucket, b': Bucket, now: real)
    requires Alike(b, b', now) && b.capacity == b'.capacity && b.perSec == b'.perSec
    ensures Reply(b, now) == Reply(b', now) && Took(b, now) == Took(b', now)
  {
    hide Reply, Took, Fresh, Full;
    if b != b' {
      FullIsFresh(b, now);
      FullIsFresh(b', now);
    }
  }

  lemma LookupFits(s: Limiters, burst: nat, perSec: real, call: nat, userID: int, now: real)
    requires perSec >= 0.0 && LimitersFit(s, burst, perSec, now)
    ensures var s' := LookedUp(s, burst, perSec, call, userID, now);
      LimitersFit(s', burst, perSec, now) && (HeldAreOwned(s) ==> HeldAreOwned(s'))
  {}

  lemma OneLookedUp(
      s: Limiters, k: Limiters, burst: nat, perSec: real, call: nat, userID: int, now: real, u: int)
    requires SameBucket(s, k, u, now) && SameBucket(s, k, userID, now)
    ensures SameBucket(LookedUp(s, burst, perSec, call, userID, now), LookedUp(k, burst, perSec, call, userID, now),
                       u, now)
  {
    FreshIsFull(burst, perSec, now);
    hide Full, Fresh;
  }

  lemma LookupCalls(s: Limiters, k: Limiters, burst: nat, perSec: real, call: nat, userID: int, now: real)
    requires SameCalls(s, k)
    ensures SameCalls(LookedUp(s, burst, perSec, call, userID, now), LookedUp(k, burst, perSec, call, userID, now))
  {
    hide Fresh;
  }

  lemma LookupKeeps(s: Limiters, k: Limiters, burst: nat, perSec: real, call: nat, userID: int, now: real)
    requires perSec >= 0.0 && SweptFrom(s, k, burst, perSec, now)
    ensures SweptFrom(LookedUp(s, burst, perSec, call, userID, now), LookedUp(k, burst, perSec, call, userID, now),
                      burst, perSec, now)
  {
    hide SameBucket, LimitersFit, HeldAreOwned, Fresh, LookedUp, SameCalls;
    LookupFits(s, burst, perSec, call, userID, now);
    LookupFits(k, burst, perSec, call, userID, now);
    LookupCalls(s, k, burst, perSec, call, userID, now);
    var s', k' := LookedUp(s, burst, perSec, call, userID, now), LookedUp(k, burst, perSec, call, userID, now);
    forall u: int
      ensures SameBucket(s', k', u, now)
    {
      OneLookedUp(s, k, burst, perSec, call, userID, now, u);
    }
  }

  lemma TakeKeeps(s: Limiters, k: Limiters, burst: nat, perSec: real, call: nat, now: real)
    requires SweptFrom(s, k, burst, perSec, now) && call in s.calls
    ensures SweptFrom(TakenFrom(s, call, now), TakenFrom(k, call, now), burst, perSec, now)
    ensures Reply(s.heap[s.calls[call].bucket], now) == Reply(k.heap[k.calls[call].bucket], now)
  {
    var b, b' := s.heap[s.calls[call].bucket], k.heap[k.calls[call].bucket];
    assert SameBucket(s, k, s.calls[call].userID, now);
    TookWellformed(b, now);
    TookWellformed(b', now);
    AlikeAnswer(b, b', now);
    hide Wellformed, Full, Level, Reply;
    var s', k' := TakenFrom(s, call, now), TakenFrom(k, call, now);
    forall u: int
      ensures SameBucket(s', k', u, now)
    {
      assert SameBucket(s, k, u, now);
    }
  }

  lemma SpentIsFull(b: Bucket, idle: real, now: real)
    requires Spent(b, idle, now)
    ensures Full(b, now)
  {}

  /** A sweep that drops nothing held drops only what was full. */
  lemma SweepKeeps(s: Limiters, k: Limiters, burst: nat, perSec: real, idle: real, now: real)
    requires SweptFrom(s, k, burst, perSec, now) && !DropsHeld(s, idle, now)
    ensures SweptFrom(Swept(s, idle, now), k, burst, perSec, now)
  {
    var s' := Swept(s, idle, now);
    forall u: int
      ensures SameBucket(s', k, u, now)
    {
      hide Full, Spent;
      assert SameBucket(s, k, u, now);
      if u in s.owned && u !in s'.owned {
        SpentIsFull(s.heap[s.owned[u]], idle, now);
        hide Level;
        FullIsFull(s.heap[s.owned[u]], k.heap[k.owned[u]], now);
      }
    }
    hide Spent, SameBucket, Wellformed;
  }

  lemma FullIsFull(b: Bucket, b': Bucket, now: real)
    requires Alike(b, b', now) && Full(b, now)
    ensures Full(b', now)
  {}

  /**
    As long as no sweep drops a bucket that somebody has looked up and not yet
    taken from, no answer of any run tells whether buckets were dropped.
   */
  lemma {:induction false} SweepingIsInvisible(
      s: Limiters, k: Limiters, burst: nat, perSec: real, events: seq<Event>, now: real)
    requires perSec >= 0.0 && InOrder(now, events) && SweptFrom(s, k, burst, perSec, now)
    requires Undisturbed(s, burst, perSec, events)
    ensures Answers(s, burst, perSec, events) == UnsweptAnswers(k, burst, perSec, events)
    decreases |events|
  {
    if events != [] {
      var t := events[0].at;
      SweptFromLater(s, k, burst, perSec, now, t);
      assert InOrder(t, events[1..]);
      hide SweptFrom, DropsHeld, Reply;
      match events[0] {
        case Lookup(call, userID, _) =>
          LookupKeeps(s, k, burst, perSec, call, userID, t);
          hide LookedUp;
          SweepingIsInvisible(LookedUp(s, burst, perSec, call, userID, t), LookedUp(k, burst, perSec, call, userID, t),
                              burst, perSec, events[1..], t);
        case TakeFrom(call, _) =>
          HeldAlike(s, k, burst, perSec, call, t);
          if call in s.calls {
            TakeKeeps(s, k, burst, perSec, call, t);
            hide TakenFrom;
            SweepingIsInvisible(TakenFrom(s, call, t), TakenFrom(k, call, t), burst, perSec, events[1..], t);
          } else {
            SweepingIsInvisible(s, k, burst, perSec, events[1..], t);
          }
        case SweepIdle(idle, _) =>
          SweepKeeps(s, k, burst, perSec, idle, t);
          hide Swept;
          SweepingIsInvisible(Swept(s, idle, t), k, burst, perSec, events[1..], t);
      }
    }
  }

  lemma HeldAlike(s: Limiters, k: Limiters, burst: nat, perSec: real, call: nat, now: real)
    requires SweptFrom(s, k, burst, perSec, now)
    ensures call in s.calls <==> call in k.calls
    ensures call in s.calls ==> s.calls[call].bucket < |s.heap| && k.calls[call].bucket < |k.heap|
  {}

  // --- when a sweep shows ---------------------------------------------------

  lemma AFullBucketShows(b: Bucket, now: real)
    requires Full(b, now) && b.capacity >= 1
    ensures Reply(Took(b, now), now) != Reply(Fresh(b.capacity, b.perSec, now), now)
  {
    assert Gain(b.perSec, 0.0) == 0.0;
    FloorReaches(b.capacity as real - 1.0, b.capacity);
    FloorReaches(b.capacity as real - 1.0, b.capacity - 1);
  }

  /** The same call takes, looks up once more, and takes again. */
  function Probe(call: nat, userID: int, at: real): seq<Event> {
    [TakeFrom(call, at), Lookup(call, userID, at), TakeFrom(call, at)]
  }

  lemma ProbeAnswers(s: Limiters, burst: nat, perSec: real, call: nat, now: real)
    requires call in s.calls && s.calls[call].bucket < |s.heap|
    requires s.calls[call].userID in s.owned ==> s.owned[s.calls[call].userID] < |s.heap|
    ensures var u, b := s.calls[call].userID, s.calls[call].bucket;
      var first := Reply(s.heap[b], now);
      var left := if u !in s.owned then Fresh(burst, perSec, now)
                  else if s.owned[u] == b then Took(s.heap[b], now) else s.heap[s.owned[u]];
      && Answers(s, burst, perSec, Probe(call, u, now)) == [first, Reply(left, now)]
      && UnsweptAnswers(s, burst, perSec, Probe(call, u, now)) == [first, Reply(left, now)]
      && Undisturbed(s, burst, perSec, Probe(call, u, now))
  {
    var u := s.calls[call].userID;
    var events := Probe(call, u, now);
    hide Reply, Fresh, Took, Spent;
    var s1 := TakenFrom(s, call, now);
    var s2 := LookedUp(s1, burst, perSec, call, u, now);
    assert events[1..] == [Lookup(call, u, now), TakeFrom(call, now)];
    assert events[1..][1..] == [TakeFrom(call, now)] && events[1..][1..][1..] == [];
    var second := [Reply(s2.heap[s2.calls[call].bucket], now)];
    assert second + [] == second && [] + second == second;
    assert Answers(s2, burst, perSec, events[1..][1..]) == second;
    assert UnsweptAnswers(s2, burst, perSec, events[1..][1..]) == second;
    assert Answers(s1, burst, perSec, events[1..]) == second;
    assert UnsweptAnswers(s1, burst, perSec, events[1..]) == second;
    assert Undisturbed(s2, burst, perSec, events[1..][1..]);
    assert Undisturbed(s1, burst, perSec, events[1..]);
  }

  lemma SweptHeldShows(s: Limiters, k: Limiters, burst: nat, perSec: real, idle: real, now: real, call: nat)
    requires SweptFrom(s, k, burst, perSec, now) && burst >= 1
    requires call in s.calls && Spent(s.heap[s.calls[call].bucket], idle, now)
    ensures var events, s' := Probe(call, s.calls[call].userID, now), Swept(s, idle, now);
      && InOrder(now, events) && Undisturbed(s', burst, perSec, events)
      && Answers(s', burst, perSec, events) != UnsweptAnswers(k, burst, perSec, events)
  {
    var u, b, s' := s.calls[call].userID, s.calls[call].bucket, Swept(s, idle, now);
    assert SameBucket(s, k, u, now);
    assert u !in s'.owned;
    ProbeAnswers(s', burst, perSec, call, now);
    ProbeAnswers(k, burst, perSec, call, now);
    var b' := k.heap[k.owned[u]];
    SpentIsFull(s.heap[b], idle, now);
    FullIsFull(s.heap[b], b', now);
    AFullBucketShows(b', now);
    hide SweptFrom, Answers, UnsweptAnswers, Undisturbed, Reply, Took, Fresh, Swept, Full, Spent;
    var events := Probe(call, u, now);
    assert Answers(s', burst, perSec, events)[1] != UnsweptAnswers(k, burst, perSec, events)[1];
  }

  /** A bucket that can hold no token refuses whoever asks. */
  lemma EmptyRefuses(b: Bucket, b': Bucket, now: real)
    requires Wellformed(b) && Wellformed(b') && b.last <= now && b'.last <= now
    requires b.capacity == 0 && b'.capacity == 0 && b.perSec == b'.perSec
    ensures Reply(b, now) == Reply(b', now)
  {
    TookWellformed(b, now);
    TookWellformed(b', now);
  }

  lemma TakeFits(s: Limiters, burst: nat, perSec: real, call: nat, now: real)
    requires LimitersFit(s, burst, perSec, now) && call in s.calls
    ensures LimitersFit(TakenFrom(s, call, now), burst, perSec, now)
  {
    TookWellformed(s.heap[s.calls[call].bucket], now);
    hide Wellformed, Level;
  }

  lemma LaterFits(s: Limiters, burst: nat, perSec: real, now: real, later: real)
    requires LimitersFit(s, burst, perSec, now) && now <= later
    ensures LimitersFit(s, burst, perSec, later)
  {
    hide Wellformed;
  }

  lemma EmptyTake(s: Limiters, k: Limiters, perSec: real, call: nat, now: real)
    requires LimitersFit(s, 0, perSec, now) && LimitersFit(k, 0, perSec, now) && SameCalls(s, k) && call in s.calls
    ensures s.calls[call].bucket < |s.heap| && k.calls[call].bucket < |k.heap|
    ensures Reply(s.heap[s.calls[call].bucket], now) == Reply(k.heap[k.calls[call].bucket], now)
  {
    EmptyRefuses(s.heap[s.calls[call].bucket], k.heap[k.calls[call].bucket], now);
    hide Reply, Wellformed;
  }

  lemma SweptFits(s: Limiters, burst: nat, perSec: real, idle: real, now: real)
    requires LimitersFit(s, burst, perSec, now)
    ensures LimitersFit(Swept(s, idle, now), burst, perSec, now)
  {
    hide Wellformed, Spent;
  }

  lemma EmptyStep(s: Limiters, k: Limiters, perSec: real, e: Event)
    requires perSec >= 0.0 && SameCalls(s, k)
    requires LimitersFit(s, 0, perSec, e.at) && LimitersFit(k, 0, perSec, e.at)
    ensures var (s', answer), (k', answer') := Step(s, 0, perSec, e), Step(k, 0, perSec, e);
      && answer == answer' && (e.SweepIdle? ==> answer == [])
      && LimitersFit(s', 0, perSec, e.at) && LimitersFit(k', 0, perSec, e.at)
      && SameCalls(s', k') && (e.SweepIdle? ==> SameCalls(s', k))
  {
    hide LimitersFit, Reply, LookedUp;
    match e
    case Lookup(call, userID, t) =>
      LookupFits(s, 0, perSec, call, userID, t);
      LookupFits(k, 0, perSec, call, userID, t);
      LookupCalls(s, k, 0, perSec, call, userID, t);
    case TakeFrom(call, t) =>
      if call in s.calls {
        EmptyTake(s, k, perSec, call, t);
        TakeFits(s, 0, perSec, call, t);
        TakeFits(k, 0, perSec, call, t);
      }
    case SweepIdle(idle, t) =>
      SweptFits(s, 0, perSec, idle, t);
      SweptFits(k, 0, perSec, idle, t);
  }

  lemma {:induction false} NoTokensNoDifference(
      s: Limiters, k: Limiters, perSec: real, events: seq<Event>, now: real)
    requires perSec >= 0.0 && InOrder(now, events)
    requires LimitersFit(s, 0, perSec, now) && LimitersFit(k, 0, perSec, now) && SameCalls(s, k)
    ensures Answers(s, 0, perSec, events) == UnsweptAnswers(k, 0, perSec, events)
    decreases |events|
  {
    if events != [] {
      var e := events[0];
      LaterFits(s, 0, perSec, now, e.at);
      LaterFits(k, 0, perSec, now, e.at);
      EmptyStep(s, k, perSec, e);
      assert InOrder(e.at, events[1..]);
      hide LimitersFit, Step, SameCalls, InOrder;
      var k' := if e.SweepIdle? then k else Step(k, 0, perSec, e).0;
      NoTokensNoDifference(Step(s, 0, perSec, e).0, k', perSec, events[1..], e.at);
    }
  }

  /**
    A sweep can be told from what is answered afterwards if and only if it drops
    a bucket that somebody has looked up and not yet taken from, and the buckets
    can hold a token at all.
   */
  lemma SweepShowsIffItDropsAHeldBucket(
      s: Limiters, k: Limiters, burst: nat, perSec: real, idle: real, now: real)
    requires perSec >= 0.0 && SweptFrom(s, k, burst, perSec, now)
    ensures (forall events :: InOrder(now, events) && Undisturbed(Swept(s, idle, now), burst, perSec, events) ==>
               Answers(Swept(s, idle, now), burst, perSec, events) == UnsweptAnswers(k, burst, perSec, events))
       <==> burst == 0 || !DropsHeld(s, idle, now)
  {
    var s' := Swept(s, idle, now);
    if burst > 0 && DropsHeld(s, idle, now) {
      var call :| call in s.calls && s.calls[call].bucket < |s.heap| && Spent(s.heap[s.calls[call].bucket], idle, now);
      SweptHeldShows(s, k, burst, perSec, idle, now, call);
    } else {
      if burst > 0 { SweepKeeps(s, k, burst, perSec, idle, now); }
      SweptFits(s, burst, perSec, idle, now);
      hide Answers, UnsweptAnswers, InOrder, DropsHeld, Spent, Wellformed, Undisturbed, LimitersFit;
      forall events | InOrder(now, events) && Undisturbed(s', burst, perSec, events)
        ensures Answers(s', burst, perSec, events) == UnsweptAnswers(k, burst, perSec, events)
      {
        if burst > 0 {
          SweepingIsInvisible(s', k, burst, perSec, events, now);
        } else {
          NoTokensNoDifference(s', k, perSec, events, now);
        }
      }
    }
  }

  /**
    A bucket of one token, and two takes allowed at one instant: a sweep comes
    between the first call's looking its bucket up and its taking from it.
   */
  lemma TwoTakesAtOnce(userID: int, perSec: real, idle: real, t: real)
    requires perSec >= 0.0 && idle >= 0.0
    ensures var events := [Lookup(0, userID, t), SweepIdle(idle, t + idle)] + Probe(0, userID, t + idle);
      var answers := Answers(Limiters([], map[], map[]), 1, perSec, events);
      var unswept := UnsweptAnswers(Limiters([], map[], map[]), 1, perSec, events);
      && |answers| == 2 && answers[0].Allowed? && answers[1].Allowed?
      && |unswept| == 2 && unswept[0].Allowed? && unswept[1].Refused?
  {
    var now, start := t + idle, Limiters([], map[], map[]);
    var probe := Probe(0, userID, now);
    var events := [Lookup(0, userID, t), SweepIdle(idle, now)] + probe;
    var s1 := LookedUp(start, 1, perSec, 0, userID, t);
    assert events[1..] == [SweepIdle(idle, now)] + probe && events[1..][1..] == probe;
    ProductSign(idle, perSec);
    assert Gain(perSec, 0.0) == 0.0;
    assert Spent(s1.heap[0], idle, now) && Full(s1.heap[0], now);
    ProbeAnswers(Swept(s1, idle, now), 1, perSec, 0, now);
    ProbeAnswers(s1, 1, perSec, 0, now);
    hide Probe, Gain;
  }

  /** What a sweep leaves, bucket by bucket. */
  lemma SweptOwned(s: Limiters, owned: map<int, nat>, idle: real, now: real)
    requires forall u :: u in s.owned ==> s.owned[u] < |s.heap|
    requires forall u :: u in owned ==> u in s.owned && owned[u] == s.owned[u]
    requires forall u :: u in s.owned ==> (u in owned <==> !Spent(s.heap[s.owned[u]], idle, now))
    ensures Swept(s, idle, now) == s.(owned := owned)
  {
    hide Spent;
    var left := Swept(s, idle, now).owned;
    forall u: int
      ensures u in owned <==> u in left
      ensures u in owned ==> owned[u] == left[u]
    {
      if u in s.owned { assert u in owned <==> !Spent(s.heap[s.owned[u]], idle, now); }
    }
    Collections.SameMap(owned, left);
  }

  ghost function Values(limiters: seq<RateLimiter>): (heap: seq<Bucket>)
    reads limiters
    ensures |heap| == |limiters| && forall b :: 0 <= b < |limiters| ==> heap[b] == limiters[b].Value()
  {
    seq(|limiters|, b requires 0 <= b < |limiters| reads limiters => limiters[b].Value())
  }

  /** Throttles per identity; the buckets are objects shared with nobody else. */
  class UserLimiters {
    const burst: nat
    const perSec: real
    var buckets: map<int, RateLimiter>

    // Every bucket ever made, in order, whose is which, and who holds one.
    ghost var made: seq<RateLimiter>
    ghost var owned: map<int, nat>
    ghost var calls: map<nat, Held>

    ghost predicate Buckets()
      reads this`made, made
    {
      && perSec >= 0.0
      && (forall b :: 0 <= b < |made| ==>
            made[b].Valid() && made[b].capacity == burst && made[b].perSec == perSec)
      && (forall b, c :: 0 <= b < c < |made| ==> made[b] != made[c])
    }

    ghost predicate Indexed()
      reads this
    {
      && (forall u :: u in buckets <==> u in owned)
      && (forall u :: u in owned ==> owned[u] < |made| && buckets[u] == made[owned[u]])
      && (forall c :: c in calls ==> calls[c].bucket < |made|)
    }

    ghost predicate Valid()
      reads this, made
    {
      Buckets() && Indexed()
    }

    ghost function View(): Limiters
      reads this, made
    {
      Limiters(Values(made), owned, calls)
    }

    constructor (burst: nat, perSec: real)
      requires perSec >= 0.0
      ensures Valid() && View() == Limiters([], map[], map[]) && this.burst == burst && this.perSec == perSec
    {
      this.burst, this.perSec, buckets := burst, perSec, map[];
      made, owned, calls := [], map[], map[];
    }

    /** A bucket more, which is its identity's. */
    method Make(userID: int, now: real) returns (limiter: RateLimiter)
      requires Valid() && userID !in buckets
      modifies this`buckets, this`made, this`owned
      ensures Buckets() && Indexed() && fresh(limiter) && made == old(made) + [limiter]
      ensures userID in owned && made[owned[userID]] == limiter
      ensures View() == Limiters(old(View()).heap + [Fresh(burst, perSec, now)],
                                 old(owned)[userID := |old(made)|], old(calls))
    {
      ghost var before := Values(made);
      limiter := new RateLimiter(burst, perSec, now);
      hide Wellformed, Values;
      made := made + [limiter];
      assert Buckets();
      Collections.SameSeq(Values(made), before + [Fresh(burst, perSec, now)]);
      hide Buckets;
      buckets := buckets[userID := limiter];
      owned := owned[userID := |made| - 1];
    }

    /** The first half of a take, under the table's lock. */
    method Lookup(ghost call: nat, userID: int, now: real) returns (limiter: RateLimiter)
      requires Valid()
      modifies this`buckets, this`made, this`owned, this`calls
      ensures Valid() && old(made) <= made && fresh(made[|old(made)|..])
      ensures View() == LookedUp(old(View()), burst, perSec, call, userID, now)
      ensures call in calls && made[calls[call].bucket] == limiter
    {
      hide Wellformed, Values, Buckets;
      if userID in buckets {
        limiter := buckets[userID];
      } else {
        limiter := Make(userID, now);
      }
      calls := calls[call := Held(userID, owned[userID])];
    }

    /** The second half, under the bucket's own lock alone. */
    method TakeFrom(ghost call: nat, limiter: RateLimiter, now: real)
      returns (ok: bool, remaining: int, retryAfter: real)
      requires Valid() && call in calls && made[calls[call].bucket] == limiter && limiter.last <= now
      modifies this`calls, limiter
      ensures Valid() && View() == TakenFrom(old(View()), call, now)
      ensures (if ok then Allowed(remaining, retryAfter) else Refused(retryAfter))
           == Reply(old(View()).heap[old(calls)[call].bucket], now)
    {
      ghost var before, b := View(), calls[call].bucket;
      hide Wellformed, Reply, Took, Level;
      ok, remaining, retryAfter := limiter.Take(now);
      calls := calls - {call};
      Collections.SameSeq(Values(made), before.heap[b := Took(before.heap[b], now)]);
    }

    method DropIfSpent(userID: int, idle: real, now: real)
      requires Indexed() && userID in buckets
      modifies this`buckets, this`owned
      ensures Indexed() && userID in old(owned) && old(owned)[userID] < |made|
      ensures owned == if Spent(Values(made)[old(owned)[userID]], idle, now) then old(owned) - {userID} else old(owned)
    {
      hide Spent;
      var spent := buckets[userID].IsSpent(idle, now);
      if spent {
        buckets := buckets - {userID};
        owned := owned - {userID};
      }
    }

    lemma Listed()
      requires Indexed()
      ensures forall u :: u in buckets <==> u in owned
      ensures forall u :: u in owned ==> owned[u] < |made|
    {}

    /** Drops every bucket that is spent, whoever may hold it. */
    method Sweep(idle: real, now: real)
      requires Valid()
      modifies this`buckets, this`owned
      ensures Valid() && View() == Swept(old(View()), idle, now)
    {
      ghost var before := View();
      Listed();
      hide Spent, Values, Buckets, Indexed;
      var rest := buckets.Keys;
      while rest != {}
        invariant Indexed() && Values(made) == before.heap
        invariant forall u :: u in rest ==> u in owned
        invariant forall u :: u in owned ==> u in before.owned && owned[u] == before.owned[u]
        invariant forall u :: u in before.owned && u !in rest ==>
          (u in owned <==> !Spent(before.heap[before.owned[u]], idle, now))
        decreases rest
      {
        var userID := Collections.Pick(rest);
        Listed();
        DropIfSpent(userID, idle, now);
        rest := rest - {userID};
      }
      SweptOwned(before, owned, idle, now);
    }
  }
}
