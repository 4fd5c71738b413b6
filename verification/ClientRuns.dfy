/** The client over whole runs: every request is answered for itself, once. */
module ClientRuns {
  import opened Common
  import opened Client

  ghost predicate Leads(s: State, e: Event, s': State) {
    Enabled(s, e) && s' == Step(s, e)
  }

  ghost predicate IsRun(ss: seq<State>, es: seq<Event>) {
    && |ss| == |es| + 1 && ss[0] == INITIAL
    && forall i :: 0 <= i < |es| ==> Leads(ss[i], es[i], ss[i + 1])
  }

  lemma {:induction false} RunKeepsInv(ss: seq<State>, es: seq<Event>, n: nat)
    requires IsRun(ss, es) && n < |ss|
    ensures Inv(ss[n])
  {
    if n > 0 {
      RunKeepsInv(ss, es, n - 1);
      assert Leads(ss[n - 1], es[n - 1], ss[n]);
      StepKeepsInv(ss[n - 1], es[n - 1]);
    }
  }

  // ---------------------------------------------------------------- one event and one request

  /** Not minted, waiting for its signature, pending, over. */
  function Phase(s: State, id: string): nat {
    if id in s.signing then 1 else if id in s.pending then 2 else if id in s.settled then 3 else 0
  }

  /** The events that end a pending request: its own response, its own timer, the socket's close. */
  predicate EndsRequest(s: State, e: Event, id: string)
    requires id in s.pending
  {
    e.SocketCloses? || (e.Receive? && e.msg.Some? && e.msg.value.id == id) ||
      (e.Fire? && e.timer == s.pending[id].timer)
  }

  lemma PendingStep(s: State, e: Event, id: string)
    requires Inv(s) && Enabled(s, e) && id in s.pending
    ensures id in Step(s, e).pending <==> !EndsRequest(s, e, id)
    ensures id in Step(s, e).pending ==> Step(s, e).pending[id] == s.pending[id]
    ensures EndsRequest(s, e, id) ==> s.pending[id].timer !in Step(s, e).armed && id in Step(s, e).settled
  {
    NoEmptyId(s);
    if e.Call? { MintedIsNew(s, e.ms); }
  }

  lemma PhaseGrows(s: State, e: Event, id: string)
    requires Inv(s) && Enabled(s, e)
    ensures Phase(s, id) <= Phase(Step(s, e), id)
    ensures Phase(s, id) == 0 < Phase(Step(s, e), id) ==> e.Call? && id == Minted(s, e.ms)
  {
    if e.Call? { MintedIsNew(s, e.ms); }
    if id in s.pending { PendingStep(s, e, id); }
  }

  /** What can settle the promise of request `id` with outcome `o`: only something that is about `id` itself. */
  predicate Explains(s: State, e: Event, id: string, o: Outcome) {
    match o
    case Answered(m) => e == Receive(Some(m)) && m.id == id && id in s.pending && m.tag == s.pending[id].expected
    case Refused(m) =>
      e == Receive(Some(m)) && m.id == id && id in s.pending && m.tag == Refusal != s.pending[id].expected
    case Mistyped(m) =>
      e == Receive(Some(m)) && m.id == id && id in s.pending && m.tag != Refusal && m.tag != s.pending[id].expected
    case TimedOut => e.Fire? && id in s.pending && e.timer == s.pending[id].timer
    case SocketClosed => e.SocketCloses? && id in s.pending
    case NotOpen => e.Call? && !s.isOpen && id == Minted(s, e.ms)
    case SignFailed => e.Signed? && e.id == id && id in s.signing && !e.ok
    case SendThrew => e.Signed? && e.id == id && id in s.signing && e.ok && !e.sendOk
  }

  /** The event settles request `id` with just the outcome it explains, and only if it is not settled yet. */
  ghost predicate SettlesRight(s: State, e: Event, id: string)
    requires Enabled(s, e)
  {
    var settled := Step(s, e).settled;
    if id in s.settled then id in settled && settled[id] == s.settled[id]
    else forall o :: id in settled && settled[id] == o <==> Explains(s, e, id, o)
  }

  lemma CallSettles(s: State, e: Event, id: string)
    requires Inv(s) && Enabled(s, e) && e.Call?
    ensures SettlesRight(s, e, id)
  {
    MintedIsNew(s, e.ms);
  }

  lemma SignedSettles(s: State, e: Event, id: string)
    requires Inv(s) && Enabled(s, e) && e.Signed?
    ensures SettlesRight(s, e, id)
  {
  }

  lemma ReceiveSettles(s: State, e: Event, id: string)
    requires Inv(s) && Enabled(s, e) && e.Receive?
    ensures SettlesRight(s, e, id)
  {
    NoEmptyId(s);
  }

  lemma EndSettles(s: State, e: Event, id: string)
    requires Inv(s) && Enabled(s, e) && (e.Fire? || e.SocketCloses? || e.Socket?)
    ensures SettlesRight(s, e, id)
  {
  }

  lemma SettledStep(s: State, e: Event, id: string)
    requires Inv(s) && Enabled(s, e)
    ensures SettlesRight(s, e, id)
  {
    match e
    case Call(_, _) => CallSettles(s, e, id);
    case Signed(_, _, _) => SignedSettles(s, e, id);
    case Receive(_) => ReceiveSettles(s, e, id);
    case _ => EndSettles(s, e, id);
  }

  // ---------------------------------------------------------------- over whole runs

  lemma {:induction false} CountGrows(ss: seq<State>, es: seq<Event>, i: nat, n: nat)
    requires IsRun(ss, es) && i <= n < |ss|
    ensures ss[i].count <= ss[n].count
    decreases n
  {
    if i < n {
      CountGrows(ss, es, i, n - 1);
      assert Leads(ss[n - 1], es[n - 1], ss[n]);
    }
  }

  /** Minted request ids never repeat, whatever the clock does. */
  lemma IdsNeverRepeat(ss: seq<State>, es: seq<Event>, i: nat, j: nat)
    requires IsRun(ss, es) && i < j < |es| && es[i].Call? && es[j].Call?
    ensures Minted(ss[i], es[i].ms) != Minted(ss[j], es[j].ms)
  {
    assert Leads(ss[i], es[i], ss[i + 1]);
    CountGrows(ss, es, i + 1, j);
    if Minted(ss[i], es[i].ms) == Minted(ss[j], es[j].ms) {
      RequestIdInjective(es[i].ms, ss[i].count + 1, es[j].ms, ss[j].count + 1);
    }
  }

  /** In every run the ids of pending requests are exactly those captured by armed timers, one timer each. */
  lemma PendingAreArmed(ss: seq<State>, es: seq<Event>, n: nat)
    requires IsRun(ss, es) && n < |ss|
    ensures ss[n].pending.Keys == ss[n].armed.Values && |ss[n].pending| == |ss[n].armed|
  {
    RunKeepsInv(ss, es, n);
    assert ss[n].pending.Keys == ss[n].armed.Values;
    SameSize(ss[n], ss[n].armed.Keys, ss[n].pending.Keys);
    assert |ss[n].armed.Keys| == |ss[n].armed| && |ss[n].pending.Keys| == |ss[n].pending|;
  }

  lemma {:induction false} SameSize(s: State, ts: set<Timer>, ids: set<string>)
    requires Timed(s) && ts <= s.armed.Keys && ids <= s.pending.Keys
    requires forall t :: t in s.armed ==> (t in ts <==> s.armed[t] in ids)
    ensures |ts| == |ids|
    decreases |ids|
  {
    if ids == {} {
      if t :| t in ts { assert s.armed[t] in ids; }
      assert ts == {};
    } else {
      var id :| id in ids;
      SameSize(s, ts - {s.pending[id].timer}, ids - {id});
    }
  }

  lemma {:induction false} PhaseGrowsOver(ss: seq<State>, es: seq<Event>, i: nat, n: nat, id: string)
    requires IsRun(ss, es) && i <= n < |ss|
    ensures Phase(ss[i], id) <= Phase(ss[n], id)
    decreases n
  {
    if i < n {
      PhaseGrowsOver(ss, es, i, n - 1, id);
      RunKeepsInv(ss, es, n - 1);
      assert Leads(ss[n - 1], es[n - 1], ss[n]);
      PhaseGrows(ss[n - 1], es[n - 1], id);
    }
  }

  ghost predicate LeavesAt(ss: seq<State>, i: nat, id: string) {
    i + 1 < |ss| && id in ss[i].pending && id !in ss[i + 1].pending
  }

  /** In every run a request leaves the table at most once, by its own response, its own timer or a close, and its
      promise is settled then. */
  lemma LeavesOnce(ss: seq<State>, es: seq<Event>, i: nat, j: nat, id: string)
    requires IsRun(ss, es) && LeavesAt(ss, i, id) && LeavesAt(ss, j, id)
    ensures i == j && EndsRequest(ss[i], es[i], id) && id in ss[i + 1].settled
  {
    LeavingStep(ss, es, i, id);
    LeavingStep(ss, es, j, id);
    if i < j {
      PhaseGrowsOver(ss, es, i + 1, j, id);
    } else if j < i {
      PhaseGrowsOver(ss, es, j + 1, i, id);
    }
  }

  lemma LeavingStep(ss: seq<State>, es: seq<Event>, i: nat, id: string)
    requires IsRun(ss, es) && LeavesAt(ss, i, id)
    ensures EndsRequest(ss[i], es[i], id) && id in ss[i + 1].settled
    ensures Phase(ss[i], id) == 2 && Phase(ss[i + 1], id) == 3
  {
    RunKeepsInv(ss, es, i);
    RunKeepsInv(ss, es, i + 1);
    assert Leads(ss[i], es[i], ss[i + 1]);
    PendingStep(ss[i], es[i], id);
  }

  ghost predicate SettledBy(ss: seq<State>, es: seq<Event>, n: nat, id: string, o: Outcome)
    requires n <= |es| <= |ss|
  {
    exists i :: 0 <= i < n && id !in ss[i].settled && Explains(ss[i], es[i], id, o)
  }

  /** In every run a promise is settled with an outcome exactly when some event about that very request, while it was
      still open, was of the kind the outcome names. */
  lemma {:induction false} SettledForItself(ss: seq<State>, es: seq<Event>, n: nat, id: string, o: Outcome)
    requires IsRun(ss, es) && n < |ss|
    ensures id in ss[n].settled && ss[n].settled[id] == o <==> SettledBy(ss, es, n, id, o)
  {
    if n > 0 {
      SettledForItself(ss, es, n - 1, id, o);
      RunKeepsInv(ss, es, n - 1);
      assert Leads(ss[n - 1], es[n - 1], ss[n]);
      SettledStep(ss[n - 1], es[n - 1], id);
      SettledByLater(ss, es, n, id, o);
      if id in ss[n - 1].settled { SettledAlready(ss, es, n, id, o); }
    }
  }

  lemma SettledByLater(ss: seq<State>, es: seq<Event>, n: nat, id: string, o: Outcome)
    requires 0 < n <= |es| <= |ss|
    ensures SettledBy(ss, es, n, id, o) <==>
      SettledBy(ss, es, n - 1, id, o) || (id !in ss[n - 1].settled && Explains(ss[n - 1], es[n - 1], id, o))
  {
    if i :| 0 <= i < n && id !in ss[i].settled && Explains(ss[i], es[i], id, o) {
      assert i == n - 1 || SettledBy(ss, es, n - 1, id, o);
    }
    if i :| 0 <= i < n - 1 && id !in ss[i].settled && Explains(ss[i], es[i], id, o) {
      assert SettledBy(ss, es, n, id, o);
    }
  }

  lemma SettledAlready(ss: seq<State>, es: seq<Event>, n: nat, id: string, o: Outcome)
    requires IsRun(ss, es) && 0 < n < |ss| && id in ss[n - 1].settled
    ensures id in ss[n].settled && ss[n].settled[id] == ss[n - 1].settled[id]
  {
    SettledStays(ss, es, n - 1, n, id);
  }

  /** In every run no call is forgotten: until its promise settles it waits for its signature or is pending with its
      own timer armed. */
  lemma NoCallIsForgotten(ss: seq<State>, es: seq<Event>, i: nat, n: nat)
    requires IsRun(ss, es) && i < n < |ss| && es[i].Call?
    ensures
      var id := Minted(ss[i], es[i].ms);
      id in ss[n].settled || id in ss[n].signing
      || (id in ss[n].pending && ss[n].pending[id].timer in ss[n].armed && ss[n].armed[ss[n].pending[id].timer] == id)
  {
    var id := Minted(ss[i], es[i].ms);
    assert Leads(ss[i], es[i], ss[i + 1]);
    PhaseGrowsOver(ss, es, i + 1, n, id);
    RunKeepsInv(ss, es, n);
  }

  /** And a promise once settled stays as it is. */
  lemma {:induction false} SettledStays(ss: seq<State>, es: seq<Event>, i: nat, n: nat, id: string)
    requires IsRun(ss, es) && i <= n < |ss| && id in ss[i].settled
    ensures id in ss[n].settled && ss[n].settled[id] == ss[i].settled[id]
    decreases n
  {
    if i < n {
      SettledStays(ss, es, i, n - 1, id);
      RunKeepsInv(ss, es, n - 1);
      assert Leads(ss[n - 1], es[n - 1], ss[n]);
      SettledStep(ss[n - 1], es[n - 1], id);
    }
  }
}
