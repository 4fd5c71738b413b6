/** Two histories of frames the relay would pass on to the quota, each of at most 64 KiB. */
module QuotaExamples {
  import opened Quota
  import opened QuotaRejections
  import opened Protocol

  const FRAME: nat := RELAY_MAX_FRAME
  const EMPTY: State := Fresh(0.0, 0.0)

  ghost predicate OnlyFrames(tr: seq<Attempt>) {
    forall i :: 0 <= i < |tr| ==> tr[i].bytes <= RELAY_MAX_FRAME
  }

  /** The quota after `j` frames, sixteen a second from `t` on, in a window that opened at `w`. */
  function Steady(t: real, j: nat, w: real): State
    requires j > 0
  {
    State(RATE - 65536.0, t + (j - 1) as real / 16.0, j * 65536, w)
  }

  /** One more of them passes, up to 1 GiB in the window. */
  lemma SteadyStep(t: real, j: nat, w: real)
    requires 0 < j < 16384 && w <= t && t + j as real / 16.0 < w + DAY
    ensures Consume(Steady(t, j, w), t + j as real / 16.0, FRAME) == (Steady(t, j + 1, w), Accepted)
  {
    assert Refilled(Steady(t, j, w), t + j as real / 16.0) == RATE;
  }

  // ---------------------------------------------------------------- two days' worth at once

  /** Sixteen frames a second, from 1024 s before a window ends until 1024 s into the next. */
  function Burst(): seq<Attempt> {
    seq(32768, (i: nat) => Attempt(85376.0 + i as real / 16.0, FRAME))
  }

  function BurstState(n: nat): State {
    if n == 0 then EMPTY
    else if n <= 16384 then Steady(85376.0, n, 0.0)
    else Steady(86400.0, n - 16384, 86400.0)
  }

  lemma BurstStep(n: nat)
    requires n < 32768
    ensures Consume(BurstState(n), 85376.0 + n as real / 16.0, FRAME) == (BurstState(n + 1), Accepted)
  {
    var q, now := BurstState(n), 85376.0 + n as real / 16.0;
    if n == 0 || n == 16384 {
      assert Refilled(q, now) == RATE;
    } else if n < 16384 {
      SteadyStep(85376.0, n, 0.0);
    } else {
      SteadyStep(86400.0, n - 16384, 86400.0);
    }
  }

  lemma {:induction false} BurstStates(tr: seq<Attempt>, n: nat)
    requires tr == Burst() && n <= 32768
    ensures After(EMPTY, tr, n) == BurstState(n)
    ensures ChargedIn(EMPTY, tr, n, 85376.0, 87424.0) == n * 65536
  {
    if n > 0 {
      BurstStates(tr, n - 1);
      BurstStep(n - 1);
    }
  }

  /** The tumbling window lets a sender pass 2 GiB in 2048 s, so no rolling 1 GiB rule holds. */
  lemma TwoGiBWithinTheHour() returns (tr: seq<Attempt>)
    ensures Chronological(EMPTY, tr) && OnlyFrames(tr)
    ensures ChargedIn(EMPTY, tr, |tr|, 85376.0, 87424.0) == 2 * BYTES_PER_DAY
  {
    tr := Burst();
    BurstStates(tr, |tr|);
  }

  // ---------------------------------------------------------------- a rejected call that costs a day

  /** Sixteen frames empty the bucket just before the first window ends, 1 GiB follows from a second after it on, and
      one frame a day after that end. */
  function Call(n: nat): Attempt {
    if n < 16 then Attempt(86399.96875, FRAME)
    else if n < 16400 then Attempt(86401.0 + (n - 16) as real / 16.0, FRAME)
    else Attempt(172800.0, FRAME)
  }

  function History(): seq<Attempt> {
    seq(16401, (n: nat) => Call(n))
  }

  /** A frame that comes when the first window has just ended, and the bucket is still all but empty. */
  function Knock(): Attempt {
    Attempt(86400.0, FRAME)
  }

  function Drained(n: nat): State
    requires n <= 16
  {
    if n == 0 then EMPTY else State(RATE - n as real * 65536.0, 86399.96875, n * 65536, 0.0)
  }

  lemma {:induction false} DrainStates(tr: seq<Attempt>, n: nat)
    requires n <= 16 && |tr| >= 16 && forall i :: 0 <= i < 16 ==> tr[i] == Call(i)
    ensures After(EMPTY, tr, n) == Drained(n)
  {
    if n > 0 {
      DrainStates(tr, n - 1);
      assert Refilled(Drained(n - 1), 86399.96875) == RATE - (n - 1) as real * 65536.0;
    }
  }

  /** Calls 16 up to 16 + j of the history, made from call `at` of `tr` on. */
  lemma {:induction false} FillStates(tr: seq<Attempt>, at: nat, j: nat, w: real)
    requires 0 < j <= 16384 && |tr| >= at + 16384 && (w == 86400.0 || w == 86401.0)
    requires forall i :: at <= i < at + 16384 ==> tr[i] == Call(i - at + 16)
    requires Consume(After(EMPTY, tr, at), 86401.0, FRAME).0 == Steady(86401.0, 1, w)
    ensures After(EMPTY, tr, at + j) == Steady(86401.0, j, w)
  {
    assert tr[at + j - 1] == Call(j + 15);
    if j > 1 {
      FillStates(tr, at, j - 1, w);
      SteadyStep(86401.0, j - 1, w);
    }
  }

  lemma WithoutTheKnock(tr: seq<Attempt>, i: nat, n: nat)
    requires tr == History() && i == 16 && n == 16400
    ensures Rejected(After(EMPTY, tr, i), Knock()) && OutcomeAt(EMPTY, tr, n) == QuotaExceeded
  {
    DrainStates(tr, i);
    assert Refilled(Drained(16), 86400.0) == 32768.0;
    assert Refilled(Drained(16), 86401.0) == RATE;
    FillStates(tr, i, 16384, 86401.0);
  }

  lemma WithTheKnock(tr: seq<Attempt>, i: nat, n: nat)
    requires tr == Inserted(History(), 16, Knock()) && i == 16 && n == 16401
    ensures OutcomeAt(EMPTY, tr, n) == Accepted
  {
    DrainStates(tr, i);
    assert tr[i] == Knock();
    var q := State(32768.0, 86400.0, 0, 86400.0);
    assert Refilled(Drained(16), 86400.0) == 32768.0;
    assert After(EMPTY, tr, i + 1) == q;
    assert Refilled(q, 86401.0) == RATE;
    FillStates(tr, i + 1, 16384, 86400.0);
    assert tr[n] == Call(16400);
  }

  /** The history with the knock in it, call by call. */
  function Knocked(i: nat): Attempt {
    if i < 16 then Call(i) else if i == 16 then Knock() else Call(i - 1)
  }

  lemma KnockedCalls(tr: seq<Attempt>)
    requires tr == Inserted(History(), 16, Knock())
    ensures |tr| == 16402 && forall i :: 0 <= i < 16402 ==> tr[i] == Knocked(i)
  {
  }

  lemma KnockedInOrder(tr: seq<Attempt>)
    requires |tr| == 16402 && forall i :: 0 <= i < 16402 ==> tr[i] == Knocked(i)
    ensures Chronological(EMPTY, tr) && OnlyFrames(tr)
  {
    forall i, j | 0 <= i < j < |tr| ensures tr[i].time <= tr[j].time {
      assert Knocked(i).time <= Knocked(j).time;
    }
    forall i | 0 <= i < |tr| ensures 0.0 <= tr[i].time && tr[i].bytes == FRAME {
      assert 0.0 <= Knocked(i).time && Knocked(i).bytes == FRAME;
    }
  }

  /** Not so for a rejected call `x` that opens a window: put into this history it turns the answer to a later call. */
  lemma RejectedCallCanMatterADayLater() returns (tr: seq<Attempt>, i: nat, x: Attempt, n: nat)
    ensures i < n < |tr| && Chronological(EMPTY, Inserted(tr, i, x)) && OnlyFrames(Inserted(tr, i, x))
    ensures Rejected(After(EMPTY, tr, i), x)
    ensures OutcomeAt(EMPTY, tr, n) == QuotaExceeded && OutcomeAt(EMPTY, Inserted(tr, i, x), n + 1) == Accepted
  {
    tr, i, x, n := History(), 16, Knock(), 16400;
    var tr' := Inserted(tr, i, x);
    KnockedCalls(tr');
    KnockedInOrder(tr');
    WithoutTheKnock(tr, i, n);
    WithTheKnock(tr', i, n + 1);
  }
}
