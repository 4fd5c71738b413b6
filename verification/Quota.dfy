/** The per-sender relay quota: a lazily refilled token bucket and a 24 h byte window.

    Times are seconds of a monotone clock and token levels are reals, so the results below are
    about the algorithm and not about f64 rounding. A trace is the sequence of calls made on one
    quota; `After(q, tr, n)` is the quota once the first `n` calls of `tr` have returned. */
module Quota {

  const BYTES_PER_SECOND: nat := 1024 * 1024
  const BYTES_PER_DAY: nat := 1024 * 1024 * 1024
  const RATE: real := 1048576.0
  const DAY: real := 86400.0

  datatype Outcome = Accepted | QuotaExceeded | RateLimited

  datatype State = State(tokens: real, lastRefill: real, dayUsed: nat, dayWindowStart: real)

  datatype Attempt = Attempt(time: real, bytes: nat)

  /** The monotone clock's difference, which saturates at zero. */
  function Elapsed(now: real, since: real): real {
    if now > since then now - since else 0.0
  }

  function Refilled(q: State, now: real): real {
    var topped := q.tokens + Elapsed(now, q.lastRefill) * RATE;
    if topped < RATE then topped else RATE
  }

  predicate WindowOver(q: State, now: real) {
    Elapsed(now, q.dayWindowStart) >= DAY
  }

  function Consume(q: State, now: real, bytes: nat): (State, Outcome) {
    var level := Refilled(q, now);
    var used := if WindowOver(q, now) then 0 else q.dayUsed;
    var start := if WindowOver(q, now) then now else q.dayWindowStart;
    if used + bytes > BYTES_PER_DAY then (State(level, now, used, start), QuotaExceeded)
    else if bytes as real > level then (State(level, now, used, start), RateLimited)
    else (State(level - bytes as real, now, used + bytes, start), Accepted)
  }

  /** A new quota reads the clock twice, once per timestamp. */
  function Fresh(t0: real, t1: real): State {
    State(RATE, t0, 0, t1)
  }

  class PeerQuota {
    var tokens: real
    var lastRefill: real
    var dayUsed: nat
    var dayWindowStart: real

    function Value(): State
      reads this
    {
      State(tokens, lastRefill, dayUsed, dayWindowStart)
    }

    constructor (t0: real, t1: real)
      ensures Value() == Fresh(t0, t1)
    {
      tokens, lastRefill, dayUsed, dayWindowStart := BYTES_PER_SECOND as real, t0, 0, t1;
    }

    method TryConsume(now: real, bytes: nat) returns (outcome: Outcome)
      modifies this
      ensures (Value(), outcome) == Consume(old(Value()), now, bytes)
    {
      var elapsed := Elapsed(now, lastRefill);
      tokens := tokens + elapsed * BYTES_PER_SECOND as real;
      if tokens > BYTES_PER_SECOND as real { tokens := BYTES_PER_SECOND as real; }
      lastRefill := now;
      if Elapsed(now, dayWindowStart) >= DAY {
        dayUsed := 0;
        dayWindowStart := now;
      }
      if dayUsed + bytes > BYTES_PER_DAY { return QuotaExceeded; }
      if bytes as real > tokens { return RateLimited; }
      tokens := tokens - bytes as real;
      dayUsed := dayUsed + bytes;
      return Accepted;
    }
  }

  // ---------------------------------------------------------------- traces

  function After(q: State, tr: seq<Attempt>, n: nat): State
    requires n <= |tr|
  {
    if n == 0 then q else Consume(After(q, tr, n - 1), tr[n - 1].time, tr[n - 1].bytes).0
  }

  function OutcomeAt(q: State, tr: seq<Attempt>, i: nat): Outcome
    requires i < |tr|
  {
    Consume(After(q, tr, i), tr[i].time, tr[i].bytes).1
  }

  /** The bytes call `i` was charged. */
  function Charged(q: State, tr: seq<Attempt>, i: nat): nat
    requires i < |tr|
  {
    if OutcomeAt(q, tr, i).Accepted? then tr[i].bytes else 0
  }

  /** The bytes charged by calls `from`, ..., `n - 1`. */
  function ChargedFrom(q: State, tr: seq<Attempt>, from: nat, n: nat): nat
    requires n <= |tr|
  {
    if n <= from then 0 else ChargedFrom(q, tr, from, n - 1) + Charged(q, tr, n - 1)
  }

  /** The bytes charged by the first `n` calls at times in the half-open interval [a, e). */
  function ChargedIn(q: State, tr: seq<Attempt>, n: nat, a: real, e: real): nat
    requires n <= |tr|
  {
    if n == 0 then 0
    else ChargedIn(q, tr, n - 1, a, e) + if a <= tr[n - 1].time < e then Charged(q, tr, n - 1) else 0
  }

  /** Calls happen in clock order, none before the quota was made. */
  ghost predicate Chronological(q: State, tr: seq<Attempt>) {
    && (forall i :: 0 <= i < |tr| ==> q.lastRefill <= tr[i].time && q.dayWindowStart <= tr[i].time)
    && (forall i, j :: 0 <= i < j < |tr| ==> tr[i].time <= tr[j].time)
  }

  /** `now` is no earlier than the first `n` calls and the making of the quota. */
  ghost predicate NotBefore(q: State, tr: seq<Attempt>, n: nat, now: real)
    requires n <= |tr|
  {
    q.lastRefill <= now && q.dayWindowStart <= now && forall i :: 0 <= i < n ==> tr[i].time <= now
  }

  lemma AfterLastRefill(q: State, tr: seq<Attempt>, n: nat)
    requires n <= |tr|
    ensures After(q, tr, n).lastRefill == if n == 0 then q.lastRefill else tr[n - 1].time
  {
  }

  // ---------------------------------------------------------------- the token bucket

  /** The tokens available to a call made at `now`, after the first `n` calls. */
  function Level(q: State, tr: seq<Attempt>, n: nat, now: real): real
    requires n <= |tr|
  {
    Refilled(After(q, tr, n), now)
  }

  /** What one window of the trace leaves: a full bucket plus the refill since call `j`, less what
      was charged from call `j` on. */
  function WindowRoom(q: State, tr: seq<Attempt>, j: nat, n: nat, now: real): real
    requires j < |tr| && n <= |tr|
  {
    RATE + RATE * (now - tr[j].time) - ChargedFrom(q, tr, j, n) as real
  }

  lemma {:induction false} LevelWithinWindow(q: State, tr: seq<Attempt>, j: nat, n: nat, now: real)
    requires Chronological(q, tr) && j < n <= |tr| && NotBefore(q, tr, n, now)
    ensures Level(q, tr, n, now) <= WindowRoom(q, tr, j, n, now)
    decreases n
  {
    AfterLastRefill(q, tr, n);
    if j + 1 < n {
      LevelWithinWindow(q, tr, j, n - 1, tr[n - 1].time);
    } else {
      assert ChargedFrom(q, tr, j, j) == 0;
    }
  }

  lemma {:induction false} LevelIsSomeWindow(q: State, tr: seq<Attempt>, n: nat, now: real) returns (j: nat)
    requires q.tokens == RATE && Chronological(q, tr) && n <= |tr| && NotBefore(q, tr, n, now)
    ensures Level(q, tr, n, now) == RATE || (j < n && Level(q, tr, n, now) == WindowRoom(q, tr, j, n, now))
    decreases n
  {
    j := 0;
    if n > 0 && Level(q, tr, n, now) != RATE {
      AfterLastRefill(q, tr, n);
      var t := tr[n - 1].time;
      j := LevelIsSomeWindow(q, tr, n - 1, t);
      if Level(q, tr, n - 1, t) == RATE {
        j := n - 1;
        assert ChargedFrom(q, tr, j, j) == 0;
      }
    }
  }

  /** `b` more bytes at `now` fit a full bucket, and with everything charged since any earlier call the refill since. */
  ghost predicate FitsBucket(q: State, tr: seq<Attempt>, n: nat, now: real, b: nat)
    requires n <= |tr|
  {
    b as real <= RATE && forall j | 0 <= j < n :: b as real <= WindowRoom(q, tr, j, n, now)
  }

  /** The lazy refill decides exactly as if every window that starts at an earlier call were checked. */
  lemma BucketIsExact(q: State, tr: seq<Attempt>, n: nat, now: real, b: nat)
    requires q.tokens == RATE && Chronological(q, tr) && n <= |tr| && NotBefore(q, tr, n, now)
    ensures b as real <= Level(q, tr, n, now) <==> FitsBucket(q, tr, n, now, b)
  {
    if b as real <= Level(q, tr, n, now) {
      forall j | 0 <= j < n
        ensures b as real <= WindowRoom(q, tr, j, n, now)
      {
        LevelWithinWindow(q, tr, j, n, now);
      }
    } else {
      var j := LevelIsSomeWindow(q, tr, n, now);
    }
  }

  /** Over any stretch of calls the sender is charged at most a full bucket plus the refill. */
  lemma BurstBound(q: State, tr: seq<Attempt>, i: nat, n: nat)
    requires q.tokens == RATE && Chronological(q, tr) && i < n <= |tr|
    ensures ChargedFrom(q, tr, i, n) as real <= RATE + RATE * (tr[n - 1].time - tr[i].time)
    decreases n
  {
    if OutcomeAt(q, tr, n - 1).Accepted? {
      if i < n - 1 {
        LevelWithinWindow(q, tr, i, n - 1, tr[n - 1].time);
      } else {
        assert ChargedFrom(q, tr, i, i) == 0;
      }
    } else if i < n - 1 {
      BurstBound(q, tr, i, n - 1);
    } else {
      assert ChargedFrom(q, tr, i, i) == 0;
    }
  }

  /** Refilling in two steps is refilling once. */
  lemma RefillTwice(q: State, t: real, now: real)
    requires q.lastRefill <= t <= now
    ensures Refilled(q.(tokens := Refilled(q, t), lastRefill := t), now) == Refilled(q, now)
  {
  }

  /** The calls among the first `n` that were accepted. */
  function AcceptedLog(q: State, tr: seq<Attempt>, n: nat): seq<Attempt>
    requires n <= |tr|
  {
    if n == 0 then []
    else if OutcomeAt(q, tr, n - 1).Accepted? then AcceptedLog(q, tr, n - 1) + [tr[n - 1]]
    else AcceptedLog(q, tr, n - 1)
  }

  /** The level at `now` of a bucket that only ever saw the charges in `log`. */
  function LogLevel(q: State, log: seq<Attempt>, now: real): real
    decreases |log|
  {
    if log == [] then Refilled(q, now)
    else
      var last := log[|log| - 1];
      Refilled(State(LogLevel(q, log[..|log| - 1], last.time) - last.bytes as real, last.time, 0, 0.0), now)
  }

  /** What call `n - 1` leaves in the bucket. */
  lemma LevelStep(q: State, tr: seq<Attempt>, n: nat, now: real)
    requires Chronological(q, tr) && 0 < n <= |tr| && NotBefore(q, tr, n, now)
    ensures
      var last := tr[n - 1];
      Level(q, tr, n, now) ==
        if OutcomeAt(q, tr, n - 1).Accepted?
        then Refilled(State(Level(q, tr, n - 1, last.time) - last.bytes as real, last.time, 0, 0.0), now)
        else Level(q, tr, n - 1, now)
  {
    AfterLastRefill(q, tr, n - 1);
    RefillTwice(After(q, tr, n - 1), tr[n - 1].time, now);
  }

  lemma LogLevelStep(q: State, log: seq<Attempt>, last: Attempt, now: real)
    ensures LogLevel(q, log + [last], now) ==
            Refilled(State(LogLevel(q, log, last.time) - last.bytes as real, last.time, 0, 0.0), now)
  {
    assert (log + [last])[..|log|] == log;
  }

  lemma {:induction false} LevelIsLogLevel(q: State, tr: seq<Attempt>, n: nat, now: real)
    requires Chronological(q, tr) && n <= |tr| && NotBefore(q, tr, n, now)
    ensures Level(q, tr, n, now) == LogLevel(q, AcceptedLog(q, tr, n), now)
    decreases n
  {
    if n > 0 {
      LevelStep(q, tr, n, now);
      if OutcomeAt(q, tr, n - 1).Accepted? {
        LevelIsLogLevel(q, tr, n - 1, tr[n - 1].time);
        LogLevelStep(q, AcceptedLog(q, tr, n - 1), tr[n - 1], now);
      } else {
        LevelIsLogLevel(q, tr, n - 1, now);
      }
    }
  }

  /** The bucket remembers accepted calls alone: two histories that accepted the same calls leave the
      same level at every later time, however many rejected calls either of them holds. */
  lemma BucketRemembersAcceptedCalls(q: State, tr: seq<Attempt>, tr': seq<Attempt>, now: real)
    requires Chronological(q, tr) && NotBefore(q, tr, |tr|, now)
    requires Chronological(q, tr') && NotBefore(q, tr', |tr'|, now)
    requires AcceptedLog(q, tr, |tr|) == AcceptedLog(q, tr', |tr'|)
    ensures Level(q, tr, |tr|, now) == Level(q, tr', |tr'|, now)
  {
    LevelIsLogLevel(q, tr, |tr|, now);
    LevelIsLogLevel(q, tr', |tr'|, now);
  }

  // ---------------------------------------------------------------- the day window

  lemma {:induction false} WindowStartBounds(q: State, tr: seq<Attempt>, n: nat)
    requires Chronological(q, tr) && n <= |tr|
    ensures q.dayWindowStart <= After(q, tr, n).dayWindowStart
    ensures After(q, tr, n).dayWindowStart == q.dayWindowStart ||
      (n > 0 && After(q, tr, n).dayWindowStart <= tr[n - 1].time)
  {
    if n > 0 { WindowStartBounds(q, tr, n - 1); }
  }

  /** Two different window starts are at least 24 h apart. */
  lemma {:induction false} WindowStartsAreADayApart(q: State, tr: seq<Attempt>, i: nat, n: nat)
    requires Chronological(q, tr) && i <= n <= |tr|
    ensures
      var w, w' := After(q, tr, i).dayWindowStart, After(q, tr, n).dayWindowStart;
      w == w' || w + DAY <= w'
    decreases n
  {
    if i < n { WindowStartsAreADayApart(q, tr, i, n - 1); }
  }

  lemma {:induction false} NothingLater(q: State, tr: seq<Attempt>, n: nat, a: real, e: real)
    requires n <= |tr| && forall i :: 0 <= i < n ==> tr[i].time < a
    ensures ChargedIn(q, tr, n, a, e) == 0
  {
    if n > 0 { NothingLater(q, tr, n - 1, a, e); }
  }

  lemma {:induction false} DayUsedIsBounded(q: State, tr: seq<Attempt>, n: nat)
    requires q.dayUsed == 0 && n <= |tr|
    ensures After(q, tr, n).dayUsed <= BYTES_PER_DAY
  {
    if n > 0 { DayUsedIsBounded(q, tr, n - 1); }
  }

  /** `dayUsed` is exactly what was accepted since the window opened, and never exceeds 1 GiB. */
  lemma {:induction false} DayUsedIsTheWindowSum(q: State, tr: seq<Attempt>, n: nat, e: real)
    requires q.dayUsed == 0 && Chronological(q, tr) && n <= |tr|
    requires forall i :: 0 <= i < n ==> tr[i].time < e
    ensures After(q, tr, n).dayUsed == ChargedIn(q, tr, n, After(q, tr, n).dayWindowStart, e) <= BYTES_PER_DAY
  {
    DayUsedIsBounded(q, tr, n);
    if n > 0 {
      DayUsedIsTheWindowSum(q, tr, n - 1, e);
      DayStep(q, tr, n);
      var t := tr[n - 1].time;
      if WindowOver(After(q, tr, n - 1), t) {
        EarlierThanReset(q, tr, n);
        NothingLater(q, tr, n - 1, t, e);
      } else {
        WindowStartBounds(q, tr, n - 1);
      }
    }
  }

  /** A call that opens a new window is strictly later than every call charged to an older one. */
  lemma {:induction false} EarlierThanReset(q: State, tr: seq<Attempt>, n: nat)
    requires Chronological(q, tr) && 0 < n <= |tr| && WindowOver(After(q, tr, n - 1), tr[n - 1].time)
    ensures forall i :: 0 <= i < n - 1 ==> tr[i].time < tr[n - 1].time
  {
    forall i | 0 <= i < n - 1
      ensures tr[i].time < tr[n - 1].time
    {
      WindowCoversItsCalls(q, tr, i + 1);
      WindowStartsAreADayApart(q, tr, i + 1, n - 1);
    }
  }

  lemma WindowCoversItsCalls(q: State, tr: seq<Attempt>, n: nat)
    requires Chronological(q, tr) && 0 < n <= |tr|
    ensures tr[n - 1].time < After(q, tr, n).dayWindowStart + DAY
  {
    WindowStartBounds(q, tr, n - 1);
  }

  /** What one call does to the day window. */
  lemma DayStep(q: State, tr: seq<Attempt>, n: nat)
    requires 0 < n <= |tr|
    ensures
      var prev, next, t := After(q, tr, n - 1), After(q, tr, n), tr[n - 1].time;
      if WindowOver(prev, t)
      then next.dayWindowStart == t && prev.dayWindowStart + DAY <= t && next.dayUsed == Charged(q, tr, n - 1)
      else next.dayWindowStart == prev.dayWindowStart && next.dayUsed == prev.dayUsed + Charged(q, tr, n - 1)
  {
  }

  /** What was charged from `a` on, when the current window opened before a + k days. */
  lemma {:induction false} ChargedSince(q: State, tr: seq<Attempt>, n: nat, a: real, e: real, k: nat)
    requires q.dayUsed == 0 && Chronological(q, tr) && n <= |tr|
    requires forall i :: 0 <= i < n ==> tr[i].time < e
    requires After(q, tr, n).dayWindowStart < a + k as real * DAY
    ensures ChargedIn(q, tr, n, a, e) <= After(q, tr, n).dayUsed + k * BYTES_PER_DAY
    decreases n
  {
    if n > 0 {
      DayStep(q, tr, n);
      if !WindowOver(After(q, tr, n - 1), tr[n - 1].time) {
        ChargedSince(q, tr, n - 1, a, e, k);
      } else if k == 0 {
        NothingLater(q, tr, n, a, e);
      } else {
        ChargedSince(q, tr, n - 1, a, e, k - 1);
        DayUsedIsTheWindowSum(q, tr, n - 1, e);
      }
    }
  }

  lemma {:induction false} NothingEarlier(q: State, tr: seq<Attempt>, n: nat, a: real, e: real)
    requires n <= |tr| && forall i :: 0 <= i < n ==> e <= tr[i].time
    ensures ChargedIn(q, tr, n, a, e) == 0
  {
    if n > 0 { NothingEarlier(q, tr, n - 1, a, e); }
  }

  /** Any half-open interval of k days admits at most k + 1 GiB. */
  lemma {:induction false} DailyBound(q: State, tr: seq<Attempt>, n: nat, a: real, k: nat)
    requires q.dayUsed == 0 && Chronological(q, tr) && n <= |tr|
    ensures ChargedIn(q, tr, n, a, a + k as real * DAY) <= (k + 1) * BYTES_PER_DAY
    decreases n
  {
    var e := a + k as real * DAY;
    if e <= q.dayWindowStart {
      NothingEarlier(q, tr, n, a, e);
    } else if n > 0 && tr[n - 1].time < e {
      WindowStartBounds(q, tr, n);
      ChargedSince(q, tr, n, a, e, k);
      DayUsedIsTheWindowSum(q, tr, n, e);
    } else if n > 0 {
      DailyBound(q, tr, n - 1, a, k);
    }
  }

  // ---------------------------------------------------------------- tumbling against rolling

  predicate FitsDay(used: nat, b: nat) {
    used + b <= BYTES_PER_DAY
  }

  /** What the day check at `now` counts as used, and the start of the window it counts from. */
  function UsedAt(q: State, tr: seq<Attempt>, n: nat, now: real): nat
    requires n <= |tr|
  {
    if WindowOver(After(q, tr, n), now) then 0 else After(q, tr, n).dayUsed
  }

  function WindowAt(q: State, tr: seq<Attempt>, n: nat, now: real): real
    requires n <= |tr|
  {
    if WindowOver(After(q, tr, n), now) then now else After(q, tr, n).dayWindowStart
  }

  /** What counts as used is what was charged since the current window opened. */
  lemma UsedIsCharged(q: State, tr: seq<Attempt>, n: nat, now: real)
    requires q.dayUsed == 0 && Chronological(q, tr) && n <= |tr| && NotBefore(q, tr, n, now)
    ensures UsedAt(q, tr, n, now) == ChargedIn(q, tr, n, WindowAt(q, tr, n, now), now + 1.0)
  {
    DayUsedIsTheWindowSum(q, tr, n, now + 1.0);
    if WindowOver(After(q, tr, n), now) {
      forall i | 0 <= i < n ensures tr[i].time < now {
        WindowCoversItsCalls(q, tr, i + 1);
        WindowStartsAreADayApart(q, tr, i + 1, n);
      }
      NothingLater(q, tr, n, now, now + 1.0);
    }
  }

  /** The day is asked first, then the bucket. */
  function Verdict(fitsDay: bool, fitsBucket: bool): Outcome {
    if !fitsDay then QuotaExceeded else if fitsBucket then Accepted else RateLimited
  }

  /** The answer to every call of every history: what was charged since the window opened and what fits the bucket
      decide, and nothing else matters. */
  lemma AnswerIsExact(q: State, tr: seq<Attempt>, n: nat)
    requires q.tokens == RATE && q.dayUsed == 0 && Chronological(q, tr) && n < |tr|
    ensures
      var now, b := tr[n].time, tr[n].bytes;
      OutcomeAt(q, tr, n) ==
        Verdict(ChargedIn(q, tr, n, WindowAt(q, tr, n, now), now + 1.0) + b <= BYTES_PER_DAY,
          FitsBucket(q, tr, n, now, b))
  {
    AnswerFits(q, tr, n, OutcomeAt(q, tr, n), tr[n].time, tr[n].bytes, UsedAt(q, tr, n, tr[n].time));
    UsedIsCharged(q, tr, n, tr[n].time);
  }

  lemma AnswerFits(q: State, tr: seq<Attempt>, n: nat, o: Outcome, now: real, b: nat, used: nat)
    requires q.tokens == RATE && Chronological(q, tr) && n < |tr| && tr[n] == Attempt(now, b)
    requires o == OutcomeAt(q, tr, n) && used == UsedAt(q, tr, n, now)
    ensures o == Verdict(used + b <= BYTES_PER_DAY, FitsBucket(q, tr, n, now, b))
  {
    AnswerIsLevel(q, tr, n, o, now, b, used, Level(q, tr, n, now));
    BucketIsExact(q, tr, n, now, b);
  }

  lemma AnswerIsLevel(q: State, tr: seq<Attempt>, n: nat, o: Outcome, now: real, b: nat, used: nat, level: real)
    requires n < |tr| && tr[n] == Attempt(now, b) && o == OutcomeAt(q, tr, n)
    requires used == UsedAt(q, tr, n, now) && level == Level(q, tr, n, now)
    ensures o == Verdict(used + b <= BYTES_PER_DAY, b as real <= level)
  {
  }

  /** What was charged in the 24 h before `now`. */
  function Rolling(q: State, tr: seq<Attempt>, n: nat, now: real): nat
    requires n <= |tr|
  {
    if n == 0 then 0
    else Rolling(q, tr, n - 1, now) + if now - tr[n - 1].time < DAY then Charged(q, tr, n - 1) else 0
  }

  /** The part of it charged before `w`. */
  function RollingBefore(q: State, tr: seq<Attempt>, n: nat, now: real, w: real): nat
    requires n <= |tr|
  {
    if n == 0 then 0
    else
      RollingBefore(q, tr, n - 1, now, w)
      + if now - tr[n - 1].time < DAY && tr[n - 1].time < w then Charged(q, tr, n - 1) else 0
  }

  lemma {:induction false} RollingSplits(q: State, tr: seq<Attempt>, n: nat, now: real, w: real, e: real)
    requires n <= |tr| && now - w < DAY && forall i :: 0 <= i < n ==> tr[i].time < e
    ensures Rolling(q, tr, n, now) == RollingBefore(q, tr, n, now, w) + ChargedIn(q, tr, n, w, e)
  {
    if n > 0 { RollingSplits(q, tr, n - 1, now, w, e); }
  }

  lemma RollingIsUsedPlusOlder(q: State, tr: seq<Attempt>, n: nat, now: real)
    requires q.dayUsed == 0 && Chronological(q, tr) && n <= |tr| && NotBefore(q, tr, n, now)
    ensures Rolling(q, tr, n, now) == UsedAt(q, tr, n, now) + RollingBefore(q, tr, n, now, WindowAt(q, tr, n, now))
    ensures UsedAt(q, tr, n, now) <= BYTES_PER_DAY
  {
    var w, e := WindowAt(q, tr, n, now), now + 1.0;
    WindowStartBounds(q, tr, n);
    RollingSplits(q, tr, n, now, w, e);
    DayUsedIsTheWindowSum(q, tr, n, e);
    if WindowOver(After(q, tr, n), now) {
      forall i | 0 <= i < n
        ensures tr[i].time < now
      {
        WindowCoversItsCalls(q, tr, i + 1);
        WindowStartsAreADayApart(q, tr, i + 1, n);
      }
      NothingLater(q, tr, n, w, e);
    }
  }

  /** The day check is the documented rolling 24 h check exactly when nothing was charged in the last
      24 h before the current window opened. */
  lemma DayCheckIsRollingIff(q: State, tr: seq<Attempt>, n: nat, now: real)
    requires q.dayUsed == 0 && Chronological(q, tr) && n <= |tr| && NotBefore(q, tr, n, now)
    ensures
      (forall b: nat :: FitsDay(UsedAt(q, tr, n, now), b) <==> FitsDay(Rolling(q, tr, n, now), b))
      <==> RollingBefore(q, tr, n, now, WindowAt(q, tr, n, now)) == 0
  {
    RollingIsUsedPlusOlder(q, tr, n, now);
    var used := UsedAt(q, tr, n, now);
    if RollingBefore(q, tr, n, now, WindowAt(q, tr, n, now)) != 0 {
      var b: nat := BYTES_PER_DAY - used;
      assert FitsDay(used, b) && !FitsDay(Rolling(q, tr, n, now), b);
    }
  }
}
