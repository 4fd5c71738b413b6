/** One sender's account over a whole run, whatever sessions and connections it used: its quota is never dropped, so
    the quota laws bound what it gets through. */
module SenderLedger {
  import opened Common
  import R = Relay
  import Q = Quota

  /** What there is of a sender at one moment: its quota once it has one, the bytes put on channels for it, and the
      clock. */
  datatype Page = Page(quota: Option<Q.State>, sent: nat, clock: real)

  /** A frame of the sender that reaches its quota, and whether the other party can be reached. */
  datatype Try = Try(clock: R.Readings, size: nat, reached: bool)

  function Held(p: Page, t: Try): Q.State {
    if p.quota.Some? then p.quota.value else Q.Fresh(t.clock.made, t.clock.begun)
  }

  function Outcome(p: Page, t: Try): Q.Outcome {
    Q.Consume(Held(p, t), t.clock.now, t.size).1
  }

  ghost predicate Turns(p: Page, t: Option<Try>, p': Page) {
    match t
    case None => p'.quota == p.quota && p'.sent == p.sent && p.clock <= p'.clock
    case Some(x) =>
      && p.clock <= x.clock.made <= x.clock.begun <= x.clock.now == p'.clock
      && p'.quota == Some(Q.Consume(Held(p, x), x.clock.now, x.size).0)
      && p'.sent == p.sent + if Outcome(p, x).Accepted? && x.reached then x.size else 0
  }

  ghost predicate IsAccount(ps: seq<Page>, ts: seq<Option<Try>>) {
    && |ps| == |ts| + 1 && ps[0].quota == None && ps[0].sent == 0
    && forall i :: 0 <= i < |ts| ==> Turns(ps[i], ts[i], ps[i + 1])
  }

  /** The calls on the quota made by the first `n` turns. */
  function Attempts(ts: seq<Option<Try>>, n: nat): seq<Q.Attempt>
    requires n <= |ts|
  {
    if n == 0 then []
    else
      Attempts(ts, n - 1)
      + match ts[n - 1] case None => [] case Some(x) => [Q.Attempt(x.clock.now, x.size)]
  }

  /** The quota as the sender's first frame made it. */
  function Start(ts: seq<Option<Try>>): Q.State {
    if ts == [] then Q.Fresh(0.0, 0.0)
    else if ts[0].Some? then Q.Fresh(ts[0].value.clock.made, ts[0].value.clock.begun)
    else Start(ts[1..])
  }

  lemma {:induction false} AttemptsPrefix(ts: seq<Option<Try>>, i: nat, n: nat)
    requires i <= n <= |ts|
    ensures Attempts(ts, i) <= Attempts(ts, n)
    decreases n
  {
    if i < n { AttemptsPrefix(ts, i, n - 1); }
  }

  lemma {:induction false} StartIsFirst(ts: seq<Option<Try>>, n: nat)
    requires n < |ts| && Attempts(ts, n) == [] && ts[n].Some?
    ensures Start(ts) == Q.Fresh(ts[n].value.clock.made, ts[n].value.clock.begun)
  {
    NothingBefore(ts, n);
    StartSkips(ts, n);
    assert ts[n..][0] == ts[n];
  }

  lemma {:induction false} NothingBefore(ts: seq<Option<Try>>, n: nat)
    requires n <= |ts| && Attempts(ts, n) == []
    ensures forall i :: 0 <= i < n ==> ts[i].None?
  {
    if n > 0 {
      AttemptsPrefix(ts, n - 1, n);
      NothingBefore(ts, n - 1);
    }
  }

  lemma {:induction false} StartSkips(ts: seq<Option<Try>>, n: nat)
    requires n < |ts| && forall i :: 0 <= i < n ==> ts[i].None?
    ensures Start(ts) == Start(ts[n..])
  {
    if n == 0 {
      assert ts[0..] == ts;
    } else {
      StartSkips(ts[1..], n - 1);
      assert ts[1..][n - 1..] == ts[n..];
    }
  }

  /** The account after `n` turns, told by the quota's own history. */
  ghost predicate Replays(ps: seq<Page>, ts: seq<Option<Try>>, n: nat)
    requires n <= |ts| && |ps| == |ts| + 1
  {
    var tr, c := Attempts(ts, |ts|), |Attempts(ts, n)|;
    && c <= |tr|
    && ps[n].quota == if c == 0 then None else Some(Q.After(Start(ts), tr, c))
  }

  /** The call that turn `n` makes, and the quota it is made on. */
  lemma TurnIsCall(ps: seq<Page>, ts: seq<Option<Try>>, n: nat)
    requires IsAccount(ps, ts) && n < |ts| && Replays(ps, ts, n) && ts[n].Some?
    ensures
      var tr, c := Attempts(ts, |ts|), |Attempts(ts, n)|;
      && c < |tr| && |Attempts(ts, n + 1)| == c + 1 && tr[c] == Q.Attempt(ts[n].value.clock.now, ts[n].value.size)
      && Held(ps[n], ts[n].value) == Q.After(Start(ts), tr, c)
      && Outcome(ps[n], ts[n].value) == Q.OutcomeAt(Start(ts), tr, c)
  {
    var c := |Attempts(ts, n)|;
    AttemptsPrefix(ts, n + 1, |ts|);
    assert Attempts(ts, n + 1)[c] == Q.Attempt(ts[n].value.clock.now, ts[n].value.size);
    if c == 0 { StartIsFirst(ts, n); }
  }

  /** The quota of a sender is what its calls, across all its sessions and connections, make of it. */
  lemma {:induction false} QuotaReplays(ps: seq<Page>, ts: seq<Option<Try>>, n: nat)
    requires IsAccount(ps, ts) && n <= |ts|
    ensures Replays(ps, ts, n)
  {
    AttemptsPrefix(ts, n, |ts|);
    if n > 0 {
      QuotaReplays(ps, ts, n - 1);
      assert Turns(ps[n - 1], ts[n - 1], ps[n]);
      if ts[n - 1].Some? { TurnIsCall(ps, ts, n - 1); }
    }
  }

  /** Turn `n` took the sender this many bytes, and these of them were lost. */
  function Charged(ps: seq<Page>, ts: seq<Option<Try>>, i: nat): nat
    requires i < |ts| && |ps| == |ts| + 1
  {
    if ts[i].Some? && Outcome(ps[i], ts[i].value).Accepted? then ts[i].value.size else 0
  }

  function Spent(ps: seq<Page>, ts: seq<Option<Try>>, n: nat): nat
    requires n <= |ts| && |ps| == |ts| + 1
  {
    if n == 0 then 0 else Spent(ps, ts, n - 1) + Charged(ps, ts, n - 1)
  }

  function Lost(ps: seq<Page>, ts: seq<Option<Try>>, n: nat): nat
    requires n <= |ts| && |ps| == |ts| + 1
  {
    if n == 0 then 0
    else Lost(ps, ts, n - 1) + if ts[n - 1].Some? && !ts[n - 1].value.reached then Charged(ps, ts, n - 1) else 0
  }

  /** Every byte charged is on a channel or was lost on the way. */
  lemma {:induction false} Conserved(ps: seq<Page>, ts: seq<Option<Try>>, n: nat)
    requires IsAccount(ps, ts) && n <= |ts|
    ensures Spent(ps, ts, n) == ps[n].sent + Lost(ps, ts, n)
  {
    if n > 0 {
      Conserved(ps, ts, n - 1);
      assert Turns(ps[n - 1], ts[n - 1], ps[n]);
    }
  }

  lemma ChargedIsCall(ps: seq<Page>, ts: seq<Option<Try>>, n: nat)
    requires IsAccount(ps, ts) && n < |ts|
    ensures
      var tr, c, c' := Attempts(ts, |ts|), |Attempts(ts, n)|, |Attempts(ts, n + 1)|;
      if ts[n].Some? then c' == c + 1 <= |tr| && Charged(ps, ts, n) == Q.Charged(Start(ts), tr, c)
      else c' == c && Charged(ps, ts, n) == 0
  {
    QuotaReplays(ps, ts, n);
    if ts[n].Some? { TurnIsCall(ps, ts, n); }
  }

  /** What the turns from `i` on were charged is what the quota says it charged. */
  lemma {:induction false} SpentIsCharged(ps: seq<Page>, ts: seq<Option<Try>>, i: nat, n: nat)
    requires IsAccount(ps, ts) && i <= n <= |ts|
    ensures |Attempts(ts, i)| <= |Attempts(ts, n)| <= |Attempts(ts, |ts|)|
    ensures Spent(ps, ts, n) - Spent(ps, ts, i) ==
            Q.ChargedFrom(Start(ts), Attempts(ts, |ts|), |Attempts(ts, i)|, |Attempts(ts, n)|)
    decreases n
  {
    if i < n {
      SpentIsCharged(ps, ts, i, n - 1);
      ChargedIsCall(ps, ts, n - 1);
    } else {
      AttemptsPrefix(ts, n, |ts|);
    }
  }

  lemma {:induction false} ClockGrows(ps: seq<Page>, ts: seq<Option<Try>>, i: nat, n: nat)
    requires IsAccount(ps, ts) && i <= n <= |ts|
    ensures ps[i].clock <= ps[n].clock
    decreases n
  {
    if i < n {
      ClockGrows(ps, ts, i, n - 1);
      assert Turns(ps[n - 1], ts[n - 1], ps[n]);
    }
  }

  /** The turn that made call `c`. */
  lemma {:induction false} CallHasTurn(ts: seq<Option<Try>>, n: nat, c: nat) returns (i: nat)
    requires n <= |ts| && c < |Attempts(ts, n)|
    ensures i < n && |Attempts(ts, i)| == c && ts[i].Some? &&
      Attempts(ts, n)[c] == Q.Attempt(ts[i].value.clock.now, ts[i].value.size)
  {
    if c < |Attempts(ts, n - 1)| {
      i := CallHasTurn(ts, n - 1, c);
    } else {
      i := n - 1;
    }
  }

  /** Turns are in the order of their calls. */
  lemma TurnBetween(ts: seq<Option<Try>>, i: nat, k: nat, n: nat)
    requires i <= |ts| && k < |ts| && n <= |ts| && ts[k].Some?
    requires |Attempts(ts, i)| <= |Attempts(ts, k)| < |Attempts(ts, n)|
    ensures i <= k < n
  {
    if k < i {
      MoreCalls(ts, k, i);
    } else if n <= k {
      AttemptsPrefix(ts, n, k);
    }
  }

  lemma {:induction false} MoreCalls(ts: seq<Option<Try>>, i: nat, n: nat)
    requires i < n <= |ts| && ts[i].Some?
    ensures |Attempts(ts, i)| < |Attempts(ts, n)|
    decreases n
  {
    if i < n - 1 { MoreCalls(ts, i, n - 1); }
  }

  /** The turn of a call, and the clocks around it. */
  lemma CallTime(ps: seq<Page>, ts: seq<Option<Try>>, c: nat) returns (i: nat)
    requires IsAccount(ps, ts) && c < |Attempts(ts, |ts|)|
    ensures i < |ts| && ts[i].Some? && |Attempts(ts, i)| == c
    ensures
      var r := ts[i].value.clock;
      ps[i].clock <= r.made <= r.begun <= Attempts(ts, |ts|)[c].time == ps[i + 1].clock
  {
    i := CallHasTurn(ts, |ts|, c);
    assert Turns(ps[i], ts[i], ps[i + 1]);
  }

  lemma CallsOrdered(ps: seq<Page>, ts: seq<Option<Try>>, c: nat, d: nat)
    requires IsAccount(ps, ts) && c < d < |Attempts(ts, |ts|)|
    ensures Attempts(ts, |ts|)[c].time <= Attempts(ts, |ts|)[d].time
  {
    var i := CallTime(ps, ts, c);
    var k := CallTime(ps, ts, d);
    TurnBetween(ts, 0, i, k);
    ClockGrows(ps, ts, i + 1, k);
  }

  /** Calls come in clock order, none before the quota was made. */
  lemma CallsInOrder(ps: seq<Page>, ts: seq<Option<Try>>)
    requires IsAccount(ps, ts)
    ensures Q.Chronological(Start(ts), Attempts(ts, |ts|))
  {
    var tr := Attempts(ts, |ts|);
    if tr != [] {
      var f := CallTime(ps, ts, 0);
      StartIsFirst(ts, f);
      forall c | 0 <= c < |tr| ensures tr[0].time <= tr[c].time {
        if c > 0 { CallsOrdered(ps, ts, 0, c); }
      }
    }
    forall c, d | 0 <= c < d < |tr| ensures tr[c].time <= tr[d].time {
      CallsOrdered(ps, ts, c, d);
    }
  }

  lemma BurstBetween(q: Q.State, tr: seq<Q.Attempt>, b: nat, c: nat, t: real, t': real)
    requires q.tokens == Q.RATE && Q.Chronological(q, tr) && b < c <= |tr| && t <= tr[b].time && tr[c - 1].time <= t'
    ensures Q.ChargedFrom(q, tr, b, c) as real <= Q.RATE + Q.RATE * (t' - t)
  {
    Q.BurstBound(q, tr, b, c);
  }

  lemma {:induction false} StartIsFull(ts: seq<Option<Try>>)
    ensures Start(ts).tokens == Q.RATE && Start(ts).dayUsed == 0
  {
    if ts != [] && ts[0].None? { StartIsFull(ts[1..]); }
  }

  /** The calls of the turns from `i` up to `n` fall between the clocks at `i` and at `n`. */
  lemma CallsWithin(ps: seq<Page>, ts: seq<Option<Try>>, i: nat, n: nat, c: nat)
    requires IsAccount(ps, ts) && i <= n <= |ts| && |Attempts(ts, i)| <= c < |Attempts(ts, n)| <= |Attempts(ts, |ts|)|
    ensures ps[i].clock <= Attempts(ts, |ts|)[c].time <= ps[n].clock
  {
    var k := CallTime(ps, ts, c);
    TurnBetween(ts, i, k, n);
    ClockGrows(ps, ts, i, k);
    ClockGrows(ps, ts, k + 1, n);
  }

  lemma {:induction false} ChargedWithin(q: Q.State, tr: seq<Q.Attempt>, b: nat, c: nat, a: real, e: real)
    requires b <= c <= |tr| && forall i :: b <= i < c ==> a <= tr[i].time < e
    ensures Q.ChargedFrom(q, tr, b, c) <= Q.ChargedIn(q, tr, c, a, e)
    decreases c
  {
    if b < c { ChargedWithin(q, tr, b, c - 1, a, e); }
  }

  lemma DaysBetween(q: Q.State, tr: seq<Q.Attempt>, b: nat, c: nat, t: real, t': real, k: nat)
    requires q.dayUsed == 0 && Q.Chronological(q, tr) && b < c <= |tr| && t' < t + k as real * Q.DAY
    requires forall x :: b <= x < c ==> t <= tr[x].time <= t'
    ensures Q.ChargedFrom(q, tr, b, c) <= (k + 1) * Q.BYTES_PER_DAY
  {
    assert tr[b].time <= t';
    ChargedWithin(q, tr, b, c, t, t + k as real * Q.DAY);
    Q.DailyBound(q, tr, c, t, k);
  }

  /** What happened between turns `i` and `n`, as calls `b`, ..., `c - 1` of a history of the quota. */
  lemma Between(ps: seq<Page>, ts: seq<Option<Try>>, i: nat, n: nat)
      returns (q: Q.State, tr: seq<Q.Attempt>, b: nat, c: nat)
    requires IsAccount(ps, ts) && i <= n <= |ts|
    ensures q.tokens == Q.RATE && q.dayUsed == 0 && Q.Chronological(q, tr) && b <= c <= |tr|
    ensures Spent(ps, ts, n) - Spent(ps, ts, i) == Q.ChargedFrom(q, tr, b, c)
    ensures forall x :: b <= x < c ==> ps[i].clock <= tr[x].time <= ps[n].clock
    ensures ps[i].clock <= ps[n].clock
  {
    q, tr, b, c := Start(ts), Attempts(ts, |ts|), |Attempts(ts, i)|, |Attempts(ts, n)|;
    SpentIsCharged(ps, ts, i, n);
    ClockGrows(ps, ts, i, n);
    CallsInOrder(ps, ts);
    StartIsFull(ts);
    forall x | b <= x < c ensures ps[i].clock <= tr[x].time <= ps[n].clock {
      CallsWithin(ps, ts, i, n, x);
    }
  }

  /** Between any two moments of a run a sender is charged at most a full bucket plus the refill in between. */
  lemma BurstOverRun(ps: seq<Page>, ts: seq<Option<Try>>, i: nat, n: nat)
    requires IsAccount(ps, ts) && i <= n <= |ts|
    ensures (Spent(ps, ts, n) - Spent(ps, ts, i)) as real <= Q.RATE + Q.RATE * (ps[n].clock - ps[i].clock)
  {
    var q, tr, b, c := Between(ps, ts, i, n);
    if b < c { BurstBetween(q, tr, b, c, ps[i].clock, ps[n].clock); }
  }

  /** Between any two moments of a run less than `k` days apart a sender is charged at most k + 1 GiB. */
  lemma DaysOverRun(ps: seq<Page>, ts: seq<Option<Try>>, i: nat, n: nat, k: nat)
    requires IsAccount(ps, ts) && i <= n <= |ts| && ps[n].clock < ps[i].clock + k as real * Q.DAY
    ensures Spent(ps, ts, n) - Spent(ps, ts, i) <= (k + 1) * Q.BYTES_PER_DAY
  {
    var q, tr, b, c := Between(ps, ts, i, n);
    if b < c {
      DaysBetween(q, tr, b, c, ps[i].clock, ps[n].clock, k);
    }
  }

  /** The quota's answer to the frame of turn `n`, told by everything the sender was charged before: it is call `c` of
      a history that starts with a full bucket. */
  lemma OutcomeIsExact(ps: seq<Page>, ts: seq<Option<Try>>, n: nat) returns (q: Q.State, tr: seq<Q.Attempt>, c: nat)
    requires IsAccount(ps, ts) && n < |ts| && ts[n].Some?
    ensures q == Start(ts) && tr == Attempts(ts, |ts|) && c == |Attempts(ts, n)| < |tr|
    ensures tr[c] == Q.Attempt(ts[n].value.clock.now, ts[n].value.size)
    ensures Outcome(ps[n], ts[n].value) == ExactAnswer(q, tr, c)
  {
    q, tr, c := Start(ts), Attempts(ts, |ts|), |Attempts(ts, n)|;
    QuotaReplays(ps, ts, n);
    TurnIsCall(ps, ts, n);
    CallsInOrder(ps, ts);
    StartIsFull(ts);
    AnswerOf(q, tr, c);
  }

  /** The day is asked first, then the bucket. */
  ghost function ExactAnswer(q: Q.State, tr: seq<Q.Attempt>, c: nat): Q.Outcome
    requires c < |tr|
  {
    var now, size := tr[c].time, tr[c].bytes;
    var used := Q.ChargedIn(q, tr, c, Q.WindowAt(q, tr, c, now), now + 1.0);
    Q.Verdict(used + size <= Q.BYTES_PER_DAY, Q.FitsBucket(q, tr, c, now, size))
  }

  lemma AnswerOf(q: Q.State, tr: seq<Q.Attempt>, c: nat)
    requires q.tokens == Q.RATE && q.dayUsed == 0 && Q.Chronological(q, tr) && c < |tr|
    ensures Q.OutcomeAt(q, tr, c) == ExactAnswer(q, tr, c)
  {
    Q.AnswerIsExact(q, tr, c);
  }
}
