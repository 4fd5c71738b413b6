/** What rejected calls do to a quota: nothing at all, unless they open a new day window. */
module QuotaRejections {
  import opened Quota

  predicate Rejected(q: State, x: Attempt) {
    !Consume(q, x.time, x.bytes).1.Accepted?
  }

  lemma {:induction false} AfterPrefix(q: State, a: seq<Attempt>, b: seq<Attempt>, n: nat)
    requires a <= b && n <= |a|
    ensures After(q, a, n) == After(q, b, n)
  {
    if n > 0 { AfterPrefix(q, a, b, n - 1); }
  }

  lemma AfterAppend(q: State, tr: seq<Attempt>, x: Attempt)
    ensures After(q, tr + [x], |tr| + 1) == Consume(After(q, tr, |tr|), x.time, x.bytes).0
  {
    AfterPrefix(q, tr, tr + [x], |tr|);
  }

  // ---------------------------------------------------------------- any rejected calls, anywhere

  /** The first `n` calls but those in `drop`. */
  function Kept(tr: seq<Attempt>, drop: set<nat>, n: nat): seq<Attempt>
    requires n <= |tr|
  {
    if n == 0 then [] else Kept(tr, drop, n - 1) + if n - 1 in drop then [] else [tr[n - 1]]
  }

  lemma {:induction false} KeptPrefix(tr: seq<Attempt>, drop: set<nat>, i: nat, n: nat)
    requires i <= n <= |tr|
    ensures Kept(tr, drop, i) <= Kept(tr, drop, n)
    decreases n
  {
    if i < n { KeptPrefix(tr, drop, i, n - 1); }
  }

  /** Every call in `drop` was rejected and opened no window. */
  ghost predicate Idle(q: State, tr: seq<Attempt>, drop: set<nat>) {
    forall i :: i in drop && i < |tr| ==> Rejected(After(q, tr, i), tr[i]) && !WindowOver(After(q, tr, i), tr[i].time)
  }

  /** `b` is `a`, or `a` refilled at some later time. */
  predicate Refills(a: State, b: State) {
    b == a || (a.lastRefill <= b.lastRefill && b == a.(tokens := Refilled(a, b.lastRefill), lastRefill := b.lastRefill))
  }

  lemma RefillsConsume(a: State, b: State, now: real, bytes: nat)
    requires Refills(a, b) && b.lastRefill <= now
    ensures Consume(a, now, bytes) == Consume(b, now, bytes)
  {
    if b != a { RefillTwice(a, b.lastRefill, now); }
  }

  lemma RefillsReject(a: State, b: State, x: Attempt)
    requires Refills(a, b) && b.lastRefill <= x.time && Rejected(b, x) && !WindowOver(b, x.time)
    ensures Refills(a, Consume(b, x.time, x.bytes).0)
  {
    if b != a { RefillTwice(a, b.lastRefill, x.time); }
  }

  lemma {:induction false} KeptState(q: State, tr: seq<Attempt>, drop: set<nat>, n: nat)
    requires Chronological(q, tr) && Idle(q, tr, drop) && n <= |tr|
    ensures Refills(After(q, Kept(tr, drop, n), |Kept(tr, drop, n)|), After(q, tr, n))
  {
    if n > 0 {
      KeptState(q, tr, drop, n - 1);
      AfterLastRefill(q, tr, n - 1);
      KeptStep(q, tr, drop, n);
    }
  }

  lemma KeptStep(q: State, tr: seq<Attempt>, drop: set<nat>, n: nat)
    requires Chronological(q, tr) && Idle(q, tr, drop) && 0 < n <= |tr| &&
      After(q, tr, n - 1).lastRefill <= tr[n - 1].time
    requires Refills(After(q, Kept(tr, drop, n - 1), |Kept(tr, drop, n - 1)|), After(q, tr, n - 1))
    ensures Refills(After(q, Kept(tr, drop, n), |Kept(tr, drop, n)|), After(q, tr, n))
  {
    var kept, x := Kept(tr, drop, n - 1), tr[n - 1];
    var a, b := After(q, kept, |kept|), After(q, tr, n - 1);
    if n - 1 in drop {
      assert Kept(tr, drop, n) == kept;
      RefillsReject(a, b, x);
    } else {
      RefillsConsume(a, b, x.time, x.bytes);
      AfterAppend(q, kept, x);
      assert Kept(tr, drop, n) == kept + [x];
    }
  }

  /** Rejected calls are invisible: take any of them that opened no window out of a history, or put them in, and every
      other call is answered and charged as before, and every later level is the same. */
  lemma RejectedCallsAreInvisible(q: State, tr: seq<Attempt>, drop: set<nat>, i: nat)
    requires Chronological(q, tr) && Idle(q, tr, drop) && i < |tr| && i !in drop
    ensures
      var kept, j := Kept(tr, drop, |tr|), |Kept(tr, drop, i)|;
      && j < |kept| && kept[j] == tr[i]
      && OutcomeAt(q, kept, j) == OutcomeAt(q, tr, i) && After(q, kept, j + 1) == After(q, tr, i + 1)
  {
    var kept, front := Kept(tr, drop, |tr|), Kept(tr, drop, i);
    KeptPrefix(tr, drop, i + 1, |tr|);
    assert Kept(tr, drop, i + 1) == front + [tr[i]];
    assert front <= kept && kept[|front|] == tr[i];
    AfterPrefix(q, front, kept, |front|);
    KeptState(q, tr, drop, i);
    AfterLastRefill(q, tr, i);
    RefillsConsume(After(q, front, |front|), After(q, tr, i), tr[i].time, tr[i].bytes);
  }

  lemma LevelsSurvive(q: State, tr: seq<Attempt>, drop: set<nat>, now: real)
    requires Chronological(q, tr) && Idle(q, tr, drop) && NotBefore(q, tr, |tr|, now)
    ensures var kept := Kept(tr, drop, |tr|); Level(q, kept, |kept|, now) == Level(q, tr, |tr|, now)
  {
    KeptState(q, tr, drop, |tr|);
    AfterLastRefill(q, tr, |tr|);
    var kept := Kept(tr, drop, |tr|);
    var a, b := After(q, kept, |kept|), After(q, tr, |tr|);
    if b != a { RefillTwice(a, b.lastRefill, now); }
  }

  // ---------------------------------------------------------------- one rejected call that may open a window

  function Inserted(tr: seq<Attempt>, i: nat, x: Attempt): seq<Attempt>
    requires i <= |tr|
  {
    tr[..i] + [x] + tr[i..]
  }

  /** What a rejected call `x` leaves for the next one, `y`. */
  lemma NextAgreesIff(a: State, x: Attempt, y: Attempt)
    requires a.lastRefill <= x.time <= y.time && a.dayWindowStart <= x.time && Rejected(a, x)
    ensures
      var b := Consume(a, x.time, x.bytes).0;
      && (Consume(b, y.time, y.bytes).0 == Consume(a, y.time, y.bytes).0
          <==> !WindowOver(a, x.time) || y.time == x.time || x.time + DAY <= y.time)
      && (Consume(b, y.time, y.bytes).0 == Consume(a, y.time, y.bytes).0 ==>
            Consume(b, y.time, y.bytes).1 == Consume(a, y.time, y.bytes).1)
  {
    RefillTwice(a, x.time, y.time);
  }

  lemma {:induction false} AgreesFrom(q: State, tr: seq<Attempt>, i: nat, x: Attempt, n: nat)
    requires i < n <= |tr| && After(q, Inserted(tr, i, x), i + 2) == After(q, tr, i + 1)
    ensures After(q, Inserted(tr, i, x), n + 1) == After(q, tr, n)
    decreases n
  {
    if i + 1 < n {
      AgreesFrom(q, tr, i, x, n - 1);
      assert Inserted(tr, i, x)[n] == tr[n - 1];
    }
  }

  /** From call `i` on, every state and every answer is the same with `x` put in before it as without. */
  ghost predicate LeavesTheRest(q: State, tr: seq<Attempt>, i: nat, x: Attempt)
    requires i < |tr|
  {
    forall n :: i < n <= |tr| ==> AgreesAt(q, tr, i, x, n)
  }

  predicate AgreesAt(q: State, tr: seq<Attempt>, i: nat, x: Attempt, n: nat)
    requires i < n <= |tr|
  {
    && After(q, Inserted(tr, i, x), n + 1) == After(q, tr, n)
    && OutcomeAt(q, Inserted(tr, i, x), n) == OutcomeAt(q, tr, n - 1)
  }

  lemma LaterAgrees(q: State, tr: seq<Attempt>, i: nat, x: Attempt, n: nat)
    requires i + 1 < n <= |tr| && After(q, Inserted(tr, i, x), i + 2) == After(q, tr, i + 1)
    ensures AgreesAt(q, tr, i, x, n)
  {
    AgreesFrom(q, tr, i, x, n - 1);
    assert Inserted(tr, i, x)[n] == tr[n - 1];
  }

  lemma FirstAgreesIff(q: State, tr: seq<Attempt>, i: nat, x: Attempt)
    requires i < |tr| && Chronological(q, Inserted(tr, i, x)) && Rejected(After(q, tr, i), x)
    ensures After(q, Inserted(tr, i, x), i + 2) == After(q, tr, i + 1) <==> AgreesAt(q, tr, i, x, i + 1)
    ensures AgreesAt(q, tr, i, x, i + 1) <==>
            !WindowOver(After(q, tr, i), x.time) || tr[i].time == x.time || x.time + DAY <= tr[i].time
  {
    var tr', a := Inserted(tr, i, x), After(q, tr, i);
    AfterPrefix(q, tr[..i], tr, i);
    AfterPrefix(q, tr[..i], tr', i);
    assert tr'[i] == x && tr'[i + 1] == tr[i];
    assert After(q, tr', i + 1) == Consume(a, x.time, x.bytes).0;
    WithinWindow(q, tr', i);
    NextAgreesIff(a, x, tr[i]);
  }

  /** A rejected call put into a history leaves everything after it as it was exactly when it opens no window, or the
      next call is made at the same time, or at least a day later. */
  lemma InsertedRejectionIff(q: State, tr: seq<Attempt>, i: nat, x: Attempt)
    requires i < |tr| && Chronological(q, Inserted(tr, i, x)) && Rejected(After(q, tr, i), x)
    ensures LeavesTheRest(q, tr, i, x) <==>
            !WindowOver(After(q, tr, i), x.time) || tr[i].time == x.time || x.time + DAY <= tr[i].time
  {
    FirstAgreesIff(q, tr, i, x);
    if AgreesAt(q, tr, i, x, i + 1) {
      forall n | i < n <= |tr| ensures AgreesAt(q, tr, i, x, n) {
        if i + 1 < n { LaterAgrees(q, tr, i, x, n); }
      }
    }
  }

  lemma WithinWindow(q: State, tr: seq<Attempt>, n: nat)
    requires Chronological(q, tr) && n < |tr|
    ensures After(q, tr, n).lastRefill <= tr[n].time && After(q, tr, n).dayWindowStart <= tr[n].time
  {
    AfterLastRefill(q, tr, n);
    WindowStartBounds(q, tr, n);
  }
}
