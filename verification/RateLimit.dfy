/**
 The request counters behind the rate limit (app/middleware/rate_limit.py): one counter for
 each identifier and minute, incremented and given its expiry by one script.
 */
module RateLimit {
  import opened Prelude

  /** Times are milliseconds. */
  type Time = nat

  datatype Key = Key(keyType: string, identifier: string, minute: nat)
  datatype Counter = Counter(count: nat, expiresAt: int)
  type Counters = map<Key, Counter>

  datatype RateLimitInfo = RateLimitInfo(
    allowed: bool,
    limit: nat,
    remaining: nat,
    resetAt: int,
    retryAfter: Option<int>)

  const MINUTE := 60_000
  const SECOND := 1_000

  /** `_get_key`: the window is the minute of the clock. */
  function KeyAt(keyType: string, identifier: string, at: Time): Key {
    Key(keyType, identifier, at / MINUTE)
  }

  /** `_get_window_reset_timestamp`, in seconds. */
  function ResetAt(at: Time, window: int): int {
    at / MINUTE * 60 + window
  }

  /** What the storage holds under the key: nothing once the expiry is reached. */
  function CountAt(counters: Counters, key: Key, now: Time): nat {
    if key in counters && now < counters[key].expiresAt then counters[key].count else 0
  }

  /** The script: increment, and set the expiry only when the count starts at 1. */
  function Incremented(counters: Counters, key: Key, now: Time, window: int): Counters {
    var count := CountAt(counters, key, now) + 1;
    counters[key := Counter(count, if count == 1 then now + window * SECOND else counters[key].expiresAt)]
  }

  class RateLimiter {
    const window: int
    var counters: Counters

    constructor (window: int)
      ensures this.window == window && counters == map[]
    {
      this.window := window;
      counters := map[];
    }

    method IncrementWithExpire(key: Key, now: Time) returns (current: nat)
      modifies `counters
      ensures counters == Incremented(old(counters), key, now, window)
      ensures current == CountAt(old(counters), key, now) + 1
    {
      var stored := CountAt(counters, key, now);
      current := stored + 1;
      var expiresAt := if current == 1 then 0 else counters[key].expiresAt;
      if current == 1 {
        expiresAt := now + window * SECOND;
      }
      counters := counters[key := Counter(current, expiresAt)];
    }

    /**
     `check_rate_limit`.  The clock is read for the key, for the reset time and for the wait, and
     the script runs in between.  A refused caller that waits as long as it is told comes back
     in a later minute.
     */
    method CheckRateLimit(identifier: string, keyType: string, limit: nat, at: Time, read: Time, ran: Time, now: Time)
      returns (info: RateLimitInfo)
      requires at <= read <= ran <= now
      modifies `counters
      ensures var key := KeyAt(keyType, identifier, at);
              var count := CountAt(old(counters), key, ran) + 1;
              && counters == Incremented(old(counters), key, ran, window)
              && info.limit == limit
              && (info.allowed <==> count <= limit)
              && (info.allowed ==> info.remaining == limit - count && info.retryAfter.None?)
              && (!info.allowed ==> info.remaining == 0 && info.retryAfter.Some? && info.retryAfter.value >= 1)
              && info.resetAt == read / 60_000 * 60 + window
              && (!info.allowed ==> info.retryAfter.value == 1 || info.retryAfter.value == info.resetAt - now / 1000)
      ensures !info.allowed && window >= 60 ==>
                (now + info.retryAfter.value * SECOND) / MINUTE > at / MINUTE
    {
      var key := KeyAt(keyType, identifier, at);
      var resetAt := ResetAt(read, window);
      var current := IncrementWithExpire(key, ran);
      var remaining := if limit - current > 0 then limit - current else 0;
      if current > limit {
        var retryAfter := resetAt - now / SECOND;
        if retryAfter < 1 {
          retryAfter := 1;
        }
        if window >= 60 {
          WaitReachesNextMinute(at, read, now, window, retryAfter);
        }
        return RateLimitInfo(false, limit, 0, resetAt, Some(retryAfter));
      }
      return RateLimitInfo(true, limit, remaining, resetAt, None);
    }
  }

  lemma WaitReachesNextMinute(at: Time, read: Time, now: Time, window: int, retryAfter: int)
    requires at <= read <= now && window >= 60 && retryAfter >= ResetAt(read, window) - now / SECOND && retryAfter >= 1
    ensures (now + retryAfter * SECOND) / MINUTE > at / MINUTE
  {
    var next := read / MINUTE + 1;
    assert now / SECOND * SECOND <= now;
    assert now + retryAfter * SECOND >= next * MINUTE;
  }

  // ------------------------------------------------------------------ traces of calls

  /** One call: the key is of time `at`, the script runs at `ran`. */
  datatype Call = Call(keyType: string, identifier: string, at: Time, ran: Time)

  function KeyOf(c: Call): Key {
    KeyAt(c.keyType, c.identifier, c.at)
  }

  /** Scripts run one after another, each at most `delay` after its key was computed. */
  ghost predicate Timely(calls: seq<Call>, delay: nat) {
    && (forall i :: 0 <= i < |calls| ==> calls[i].at <= calls[i].ran <= calls[i].at + delay)
    && forall i, j :: 0 <= i < j < |calls| ==> calls[i].ran <= calls[j].ran
  }

  function After(calls: seq<Call>, window: int): Counters {
    if calls == [] then map[]
    else
      var c := calls[|calls| - 1];
      Incremented(After(calls[..|calls| - 1], window), KeyOf(c), c.ran, window)
  }

  /** The count the last call is told. */
  function LastCount(calls: seq<Call>, window: int): nat
    requires calls != []
  {
    var c := calls[|calls| - 1];
    CountAt(After(calls[..|calls| - 1], window), KeyOf(c), c.ran) + 1
  }

  /** How many calls have the key. */
  function Made(calls: seq<Call>, key: Key): nat {
    if calls == [] then 0
    else Made(calls[..|calls| - 1], key) + if KeyOf(calls[|calls| - 1]) == key then 1 else 0
  }

  /** How many of the admitted calls satisfy the predicate. */
  function Admitted(calls: seq<Call>, window: int, limit: nat, counted: Call -> bool): nat {
    if calls == [] then 0
    else
      Admitted(calls[..|calls| - 1], window, limit, counted)
      + if counted(calls[|calls| - 1]) && LastCount(calls, window) <= limit then 1 else 0
  }

  function HasKey(key: Key): Call -> bool {
    (c: Call) => KeyOf(c) == key
  }

  function InSpan(keyType: string, identifier: string, from: Time): Call -> bool {
    (c: Call) => c.keyType == keyType && c.identifier == identifier && from <= c.at < from + MINUTE
  }

  /** Every call is told the number of calls of its minute so far. */
  ghost predicate CountsExactly(calls: seq<Call>, window: int) {
    forall n :: 0 < n <= |calls| ==> LastCount(calls[..n], window) == Made(calls[..n], KeyOf(calls[n - 1]))
  }

  /** While the window covers the minute and the delay, a counter outlives every call that uses it. */
  lemma {:induction false} CountersKept(calls: seq<Call>, window: int, delay: nat, key: Key)
    requires Timely(calls, delay) && window * SECOND >= MINUTE + delay
    ensures var counters := After(calls, window);
            if Made(calls, key) == 0 then key !in counters
            else key in counters
                 && counters[key].count == Made(calls, key)
                 && counters[key].expiresAt >= key.minute * MINUTE + window * SECOND
    ensures calls != [] ==> LastCount(calls, window) == Made(calls, KeyOf(calls[|calls| - 1]))
  {
    if calls != [] {
      var before, c := calls[..|calls| - 1], calls[|calls| - 1];
      CountersKept(before, window, delay, key);
      CountersKept(before, window, delay, KeyOf(c));
      MinuteOf(c, delay);
    }
  }

  /** A counter expires a window after the first call of its minute; later calls do not prolong it. */
  lemma {:induction false} ExpiryIsOfFirstCall(calls: seq<Call>, window: int, delay: nat, key: Key) returns (i: nat)
    requires Timely(calls, delay) && window * SECOND >= MINUTE + delay && Made(calls, key) > 0
    ensures i < |calls| && KeyOf(calls[i]) == key && forall j :: 0 <= j < i ==> KeyOf(calls[j]) != key
    ensures key in After(calls, window) && After(calls, window)[key].expiresAt == calls[i].ran + window * 1000
  {
    var before, c := calls[..|calls| - 1], calls[|calls| - 1];
    CountersKept(before, window, delay, key);
    MinuteOf(c, delay);
    if Made(before, key) == 0 {
      NoneMade(before, key);
      i := |calls| - 1;
    } else {
      i := ExpiryIsOfFirstCall(before, window, delay, key);
    }
  }

  lemma {:induction false} NoneMade(calls: seq<Call>, key: Key)
    requires Made(calls, key) == 0
    ensures forall i :: 0 <= i < |calls| ==> KeyOf(calls[i]) != key
  {
    if calls != [] {
      NoneMade(calls[..|calls| - 1], key);
    }
  }

  lemma MinuteOf(c: Call, delay: nat)
    requires c.at <= c.ran <= c.at + delay
    ensures KeyOf(c).minute * MINUTE <= c.ran < KeyOf(c).minute * MINUTE + MINUTE + delay
  {
  }

  /** The calls of one identifier and type, in order. */
  function OfCaller(calls: seq<Call>, keyType: string, identifier: string): seq<Call> {
    if calls == [] then []
    else
      var c := calls[|calls| - 1];
      OfCaller(calls[..|calls| - 1], keyType, identifier)
      + if c.keyType == keyType && c.identifier == identifier then [c] else []
  }

  lemma {:induction false} CallersAreApart(calls: seq<Call>, window: int, key: Key)
    ensures var all, own := After(calls, window), After(OfCaller(calls, key.keyType, key.identifier), window);
            (key in all <==> key in own) && (key in all ==> all[key] == own[key])
  {
    if calls != [] {
      var before, c := calls[..|calls| - 1], calls[|calls| - 1];
      CallersAreApart(before, window, key);
      var own := OfCaller(before, key.keyType, key.identifier);
      assert (own + [c])[..|own|] == own && own + [] == own;
      if c.keyType == key.keyType && c.identifier == key.identifier {
        assert OfCaller(calls, key.keyType, key.identifier) == own + [c];
      } else {
        assert OfCaller(calls, key.keyType, key.identifier) == own && KeyOf(c) != key;
      }
    }
  }

  /** What a call is told depends on no call of another identifier or type, whatever the window. */
  lemma OtherCallersDoNotCount(calls: seq<Call>, window: int)
    requires calls != []
    ensures var c := calls[|calls| - 1];
            var own := OfCaller(calls, c.keyType, c.identifier);
            own != [] && own[|own| - 1] == c && LastCount(calls, window) == LastCount(own, window)
  {
    var before, c := calls[..|calls| - 1], calls[|calls| - 1];
    CallersAreApart(before, window, KeyOf(c));
    var own := OfCaller(before, c.keyType, c.identifier);
    assert (own + [c])[..|own|] == own;
  }

  /** Two calls of one minute, the second running as late as it may: the first counter has expired. */
  function LateCall(delay: nat): seq<Call> {
    [Call("user", "u", 0, 0), Call("user", "u", MINUTE - 1, MINUTE - 1 + delay)]
  }

  lemma LateCallRestarts(window: int, delay: nat)
    requires window * SECOND < MINUTE + delay
    ensures Timely(LateCall(delay), delay) && !CountsExactly(LateCall(delay), window)
  {
    var calls := LateCall(delay);
    assert calls[..1] == [calls[0]] && calls[..2] == calls && calls[..0] == [];
    assert After(calls[..1], window) == Incremented(map[], KeyOf(calls[0]), 0, window) by {
      assert calls[..1][..0] == [];
    }
    assert LastCount(calls[..2], window) == 1;
    assert Made(calls[..1], KeyOf(calls[1])) == 1 by {
      assert calls[..1][..0] == [];
    }
    assert Made(calls[..2], KeyOf(calls[1])) == 2;
  }

  /**
     The counters are exact on every trace if and only if the configured window covers the
     minute and the time a script may run after its key was computed.
   */
  lemma ExactIffWindowCovers(window: int, delay: nat)
    ensures (forall calls :: Timely(calls, delay) ==> CountsExactly(calls, window))
       <==> window * SECOND >= MINUTE + delay
  {
    if window * SECOND >= MINUTE + delay {
      forall calls | Timely(calls, delay)
        ensures CountsExactly(calls, window)
      {
        forall n | 0 < n <= |calls|
          ensures LastCount(calls[..n], window) == Made(calls[..n], KeyOf(calls[n - 1]))
        {
          CountersKept(calls[..n], window, delay, KeyOf(calls[n - 1]));
        }
      }
    } else {
      LateCallRestarts(window, delay);
    }
  }

  /** Exactly the first `limit` calls of each minute are admitted. */
  lemma {:induction false} AdmittedPerMinute(calls: seq<Call>, window: int, delay: nat, limit: nat, key: Key)
    requires Timely(calls, delay) && window * SECOND >= MINUTE + delay
    ensures Admitted(calls, window, limit, HasKey(key)) == if Made(calls, key) < limit then Made(calls, key) else limit
  {
    if calls != [] {
      AdmittedPerMinute(calls[..|calls| - 1], window, delay, limit, key);
      CountersKept(calls, window, delay, key);
    }
  }

  /** A span of a minute meets two minutes of the clock. */
  lemma {:induction false} SpanMeetsTwoMinutes(calls: seq<Call>, window: int, limit: nat,
                                               keyType: string, identifier: string, from: Time)
    ensures var key := KeyAt(keyType, identifier, from);
            var next := key.(minute := key.minute + 1);
            Admitted(calls, window, limit, InSpan(keyType, identifier, from))
            <= Admitted(calls, window, limit, HasKey(key)) + Admitted(calls, window, limit, HasKey(next))
  {
    if calls != [] {
      SpanMeetsTwoMinutes(calls[..|calls| - 1], window, limit, keyType, identifier, from);
      var c := calls[|calls| - 1];
      if InSpan(keyType, identifier, from)(c) {
        assert c.at / MINUTE == from / MINUTE || c.at / MINUTE == from / MINUTE + 1;
      }
    }
  }

  /** No span of 60 seconds admits more than twice the limit. */
  lemma AdmittedPerSpan(calls: seq<Call>, window: int, delay: nat, limit: nat,
                        keyType: string, identifier: string, from: Time)
    requires Timely(calls, delay) && window * SECOND >= MINUTE + delay
    ensures Admitted(calls, window, limit, InSpan(keyType, identifier, from)) <= 2 * limit
  {
    var key := KeyAt(keyType, identifier, from);
    SpanMeetsTwoMinutes(calls, window, limit, keyType, identifier, from);
    AdmittedPerMinute(calls, window, delay, limit, key);
    AdmittedPerMinute(calls, window, delay, limit, key.(minute := key.minute + 1));
  }

  // ------------------------------------------------------------------ when a span keeps the limit

  function Burst(n: nat, c: Call): (calls: seq<Call>)
    ensures |calls| == n && forall i :: 0 <= i < n ==> calls[i] == c
  {
    if n == 0 then [] else Burst(n - 1, c) + [c]
  }

  lemma {:induction false} BurstIsMade(calls: seq<Call>, n: nat, c: Call, key: Key)
    ensures Made(calls + Burst(n, c), key) == Made(calls, key) + if key == KeyOf(c) then n else 0
  {
    if n == 0 {
      assert calls + Burst(n, c) == calls;
    } else {
      BurstIsMade(calls, n - 1, c, key);
      var all := calls + Burst(n, c);
      assert all[..|all| - 1] == calls + Burst(n - 1, c) && all[|all| - 1] == c;
    }
  }

  /** The first minute boundary after `from`. */
  function Boundary(from: Time): Time {
    (from / MINUTE + 1) * MINUTE
  }

  /** Calls of one identifier in the last millisecond before the boundary or the first one after. */
  ghost predicate AroundBoundary(calls: seq<Call>, keyType: string, identifier: string, from: Time) {
    forall i :: 0 <= i < |calls| ==>
      && calls[i].keyType == keyType && calls[i].identifier == identifier
      && Boundary(from) - 1 <= calls[i].at <= Boundary(from)
  }

  /** When all calls lie in the span, the span admits what its two minutes admit. */
  lemma {:induction false} SpanIsTwoMinutes(calls: seq<Call>, window: int, limit: nat,
                                            keyType: string, identifier: string, from: Time)
    requires AroundBoundary(calls, keyType, identifier, from) && from % MINUTE != 0
    ensures var key := KeyAt(keyType, identifier, from);
            var next := key.(minute := key.minute + 1);
            Admitted(calls, window, limit, InSpan(keyType, identifier, from))
            == Admitted(calls, window, limit, HasKey(key)) + Admitted(calls, window, limit, HasKey(next))
  {
    if calls != [] {
      SpanIsTwoMinutes(calls[..|calls| - 1], window, limit, keyType, identifier, from);
      var c := calls[|calls| - 1];
      assert c.at / MINUTE == if c.at < Boundary(from) then from / MINUTE else from / MINUTE + 1;
      assert from <= c.at < from + MINUTE;
    }
  }

  /**
     The limit is of the minute of the clock, not of a sliding window: a span that straddles
     two minutes can reach twice the limit.
   */
  lemma TwiceTheLimitIsReached(window: int, limit: nat, keyType: string, identifier: string, from: Time)
    requires window >= 60 && from % MINUTE != 0
    ensures exists calls :: Timely(calls, 0)
              && Admitted(calls, window, limit, InSpan(keyType, identifier, from)) == 2 * limit
  {
    var calls := TwoBursts(limit, keyType, identifier, from);
    var key := KeyAt(keyType, identifier, from);
    hide Timely, Made, Admitted, AroundBoundary;
    AdmittedPerMinute(calls, window, 0, limit, key);
    AdmittedPerMinute(calls, window, 0, limit, key.(minute := key.minute + 1));
    SpanIsTwoMinutes(calls, window, limit, keyType, identifier, from);
  }

  /** `limit` calls in the last millisecond of one minute, and as many in the first of the next. */
  lemma TwoBursts(limit: nat, keyType: string, identifier: string, from: Time) returns (calls: seq<Call>)
    ensures Timely(calls, 0) && AroundBoundary(calls, keyType, identifier, from)
    ensures var key := KeyAt(keyType, identifier, from);
            Made(calls, key) == limit && Made(calls, key.(minute := key.minute + 1)) == limit
  {
    var b, key := Boundary(from), KeyAt(keyType, identifier, from);
    var early := Call(keyType, identifier, b - 1, b - 1);
    var late := Call(keyType, identifier, b, b);
    assert KeyOf(early) == key && KeyOf(late) == key.(minute := key.minute + 1);
    calls := Burst(limit, early) + Burst(limit, late);
    hide Timely, Made, Burst, AroundBoundary;
    BurstsAreTimely(limit, early, late);
    BurstsAreAround(limit, early, late, from);
    BurstsAreMade(limit, early, late, KeyOf(early));
    BurstsAreMade(limit, early, late, KeyOf(late));
  }

  lemma BurstsAreAround(limit: nat, early: Call, late: Call, from: Time)
    requires early.keyType == late.keyType && early.identifier == late.identifier
    requires early.at == Boundary(from) - 1 && late.at == Boundary(from)
    ensures AroundBoundary(Burst(limit, early) + Burst(limit, late), early.keyType, early.identifier, from)
  {
    hide Boundary;
  }

  /** A span that is a minute of the clock admits what the minute admits. */
  lemma {:induction false} AlignedSpan(calls: seq<Call>, window: int, limit: nat,
                                       keyType: string, identifier: string, from: Time)
    requires from % MINUTE == 0
    ensures Admitted(calls, window, limit, InSpan(keyType, identifier, from))
         == Admitted(calls, window, limit, HasKey(KeyAt(keyType, identifier, from)))
  {
    if calls != [] {
      AlignedSpan(calls[..|calls| - 1], window, limit, keyType, identifier, from);
      var c := calls[|calls| - 1];
      assert from <= c.at < from + MINUTE <==> c.at / MINUTE == from / MINUTE;
    }
  }

  /**
     The documented sliding window, exactly: every trace keeps the limit within the 60 seconds
     after `from` if and only if these are a minute of the clock, or nothing is admitted at all.
   */
  lemma SpanKeepsLimitIffAligned(window: int, delay: nat, limit: nat, keyType: string, identifier: string, from: Time)
    requires window * SECOND >= MINUTE + delay
    ensures (forall calls :: Timely(calls, delay) ==>
               Admitted(calls, window, limit, InSpan(keyType, identifier, from)) <= limit)
       <==> limit == 0 || from % MINUTE == 0
  {
    var span := InSpan(keyType, identifier, from);
    if limit == 0 || from % MINUTE == 0 {
      forall calls | Timely(calls, delay)
        ensures Admitted(calls, window, limit, span) <= limit
      {
        if limit == 0 {
          AdmittedPerSpan(calls, window, delay, limit, keyType, identifier, from);
        } else {
          AlignedSpan(calls, window, limit, keyType, identifier, from);
          AdmittedPerMinute(calls, window, delay, limit, KeyAt(keyType, identifier, from));
        }
      }
    } else {
      TwiceTheLimitIsReached(window, limit, keyType, identifier, from);
      var calls :| Timely(calls, 0) && Admitted(calls, window, limit, span) == 2 * limit;
      assert Timely(calls, delay);
    }
  }

  lemma BurstsAreTimely(limit: nat, early: Call, late: Call)
    requires early.at == early.ran <= late.at == late.ran
    ensures Timely(Burst(limit, early) + Burst(limit, late), 0)
  {
  }

  lemma BurstsAreMade(limit: nat, early: Call, late: Call, key: Key)
    ensures Made(Burst(limit, early) + Burst(limit, late), key)
         == (if key == KeyOf(early) then limit else 0) + (if key == KeyOf(late) then limit else 0)
  {
    BurstIsMade([], limit, early, key);
    BurstIsMade(Burst(limit, early), limit, late, key);
    assert [] + Burst(limit, early) == Burst(limit, early);
  }
}
