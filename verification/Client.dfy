/** Request correlation in the TypeScript client: ids, the table of pending requests and their timers. */
module Client {
  import opened Common
  import JsonText

  // ---------------------------------------------------------------- request ids

  function DigitChar(d: nat): char
    requires d < 36
  {
    if d < 10 then '0' + d as char else 'a' + (d - 10) as char
  }

  function Base36(n: nat): string {
    if n < 36 then [DigitChar(n)] else Base36(n / 36) + [DigitChar(n % 36)]
  }

  /** `req-<milliseconds in base 36>-<count>`. */
  function RequestId(ms: nat, n: nat): string {
    "req-" + Base36(ms) + "-" + JsonText.Digits(n)
  }

  lemma RequestIdExample()
    ensures RequestId(35, 7) == "req-z-7"
  {
  }

  lemma DigitCharInjective(d: nat, d': nat)
    requires d < 36 && d' < 36 && DigitChar(d) == DigitChar(d')
    ensures d == d'
  {
  }

  lemma {:induction false} Base36HasNoDash(n: nat)
    ensures Base36(n) != "" && '-' !in Base36(n)
  {
    if n >= 36 { Base36HasNoDash(n / 36); }
  }

  lemma {:induction false} Base36Injective(n: nat, n': nat)
    requires Base36(n) == Base36(n')
    ensures n == n'
  {
    var s, s' := Base36(n), Base36(n');
    if n < 36 || n' < 36 {
      Base36HasNoDash(n / 36);
      Base36HasNoDash(n' / 36);
      assert n < 36 && n' < 36;
      DigitCharInjective(n, n');
    } else {
      assert s[..|s| - 1] == Base36(n / 36) && s'[..|s'| - 1] == Base36(n' / 36);
      assert s[|s| - 1] == DigitChar(n % 36) && s'[|s'| - 1] == DigitChar(n' % 36);
      Base36Injective(n / 36, n' / 36);
      DigitCharInjective(n % 36, n' % 36);
    }
  }

  /** Text splits at its first dash in one way only. */
  lemma SplitAtDash(a: string, b: string, a': string, b': string)
    requires '-' !in a && '-' !in a' && a + "-" + b == a' + "-" + b'
    ensures a == a' && b == b'
  {
    var s := a + "-" + b;
    assert s[|a|] == '-' && s[|a'|] == '-';
    assert a == s[..|a|] && a' == s[..|a'|];
    assert b == s[|a| + 1..] && b' == s[|a'| + 1..];
  }

  /** Ids with different counts differ, whatever the clock says. */
  lemma RequestIdInjective(ms: nat, n: nat, ms': nat, n': nat)
    requires RequestId(ms, n) == RequestId(ms', n')
    ensures ms == ms' && n == n'
  {
    var a, b, a', b' := Base36(ms), JsonText.Digits(n), Base36(ms'), JsonText.Digits(n');
    Base36HasNoDash(ms);
    Base36HasNoDash(ms');
    assert a + "-" + b == RequestId(ms, n)[4..] && a' + "-" + b' == RequestId(ms', n')[4..];
    SplitAtDash(a, b, a', b');
    Base36Injective(ms, ms');
    JsonText.DigitsValueOfDigits(n);
    JsonText.DigitsValueOfDigits(n');
  }

  // ---------------------------------------------------------------- the table of pending requests

  datatype Tag = Registered | PeerInfo | SubscribeAck | Established | TeamAnnounced | TeamMembers | Refusal | Other

  /** A parsed server message; `id` is its request id, empty when it has none. */
  datatype Message = Message(id: string, tag: Tag, body: string)

  /** How the promise of a call ends. */
  datatype Outcome =
    | Answered(msg: Message) | Refused(msg: Message) | Mistyped(msg: Message)
    | TimedOut | SocketClosed | NotOpen | SignFailed | SendThrew

  type Timer = nat

  datatype Entry = Entry(expected: Tag, timer: Timer)

  /** `signing` holds the calls that wait for their signature, `armed` the timers neither fired nor cleared with the id
      their callback captured, `settled` the promises already resolved or rejected. */
  datatype State = State(isOpen: bool, count: nat, signing: map<string, Tag>, pending: map<string, Entry>,
                         armed: map<Timer, string>, nextTimer: Timer, settled: map<string, Outcome>)

  datatype Event =
    | Socket(isOpen: bool)                    // the socket opens, or is closed or replaced by the caller
    | Call(ms: nat, expected: Tag)
    | Signed(id: string, ok: bool, sendOk: bool)
    | Receive(msg: Option<Message>)           // None when the text does not parse
    | Fire(timer: Timer)
    | SocketCloses

  /** A promise settles once; later attempts do nothing. */
  function Settle(settled: map<string, Outcome>, id: string, o: Outcome): map<string, Outcome> {
    if id in settled then settled else settled[id := o]
  }

  function Judge(expected: Tag, msg: Message): Outcome {
    if msg.tag == expected then Answered(msg) else if msg.tag == Refusal then Refused(msg) else Mistyped(msg)
  }

  function Minted(s: State, ms: nat): string {
    RequestId(ms, s.count + 1)
  }

  function Place(s: State, ms: nat, expected: Tag): State {
    var id := Minted(s, ms);
    if s.isOpen then s.(count := s.count + 1, signing := s.signing[id := expected])
    else s.(count := s.count + 1, settled := Settle(s.settled, id, NotOpen))
  }

  /** The entry and its timer are set before the send, and stay when the send throws. */
  function Track(s: State, id: string, ok: bool, sendOk: bool): State
    requires id in s.signing
  {
    var s1 := s.(signing := s.signing - {id});
    if !ok then s1.(settled := Settle(s.settled, id, SignFailed))
    else
      s1.(pending := s.pending[id := Entry(s.signing[id], s.nextTimer)], armed := s.armed[s.nextTimer := id],
          nextTimer := s.nextTimer + 1, settled := if sendOk then s.settled else Settle(s.settled, id, SendThrew))
  }

  function Route(s: State, msg: Message): State {
    if msg.id == "" || msg.id !in s.pending then s
    else
      var entry := s.pending[msg.id];
      s.(pending := s.pending - {msg.id}, armed := s.armed - {entry.timer},
         settled := Settle(s.settled, msg.id, Judge(entry.expected, msg)))
  }

  function Expire(s: State, t: Timer): State
    requires t in s.armed
  {
    var id := s.armed[t];
    s.(pending := s.pending - {id}, armed := s.armed - {t}, settled := Settle(s.settled, id, TimedOut))
  }

  function Abandon(s: State): State {
    s.(pending := map[], armed := s.armed - Timers(s.pending, s.pending.Keys),
      settled := Rejected(s.settled, s.pending.Keys))
  }

  function Timers(pending: map<string, Entry>, ids: set<string>): set<Timer> {
    set id | id in ids && id in pending :: pending[id].timer
  }

  function Rejected(settled: map<string, Outcome>, ids: set<string>): map<string, Outcome> {
    map id | id in settled.Keys + ids :: if id in settled then settled[id] else SocketClosed
  }

  predicate Enabled(s: State, e: Event) {
    (e.Signed? ==> e.id in s.signing) && (e.Fire? ==> e.timer in s.armed)
  }

  function Step(s: State, e: Event): State
    requires Enabled(s, e)
  {
    match e
    case Socket(isOpen) => s.(isOpen := isOpen)
    case Call(ms, expected) => Place(s, ms, expected)
    case Signed(id, ok, sendOk) => Track(s, id, ok, sendOk)
    case Receive(msg) => if msg.None? then s else Route(s, msg.value)
    case Fire(t) => Expire(s, t)
    case SocketCloses => Abandon(s)
  }

  const INITIAL: State := State(false, 0, map[], map[], map[], 0, map[])

  // ---------------------------------------------------------------- what every event keeps

  ghost predicate IsMinted(id: string, count: nat) {
    exists ms, n :: 0 < n <= count && id == RequestId(ms, n)
  }

  predicate Known(s: State, id: string) {
    id in s.signing || id in s.pending || id in s.settled
  }

  /** Pending ids are exactly those with an armed timer, one each. */
  ghost predicate Timed(s: State) {
    && (forall id :: id in s.pending ==> s.pending[id].timer in s.armed && s.armed[s.pending[id].timer] == id)
    && (forall t :: t in s.armed ==> t < s.nextTimer && s.armed[t] in s.pending && s.pending[s.armed[t]].timer == t)
  }

  /** A call waits for its signature, or is pending, or is settled; only a throwing send makes it both of the last. */
  ghost predicate Staged(s: State) {
    && (forall id :: id in s.signing ==> id !in s.pending && id !in s.settled)
    && (forall id :: id in s.pending && id in s.settled ==> s.settled[id] == SendThrew)
  }

  ghost predicate Inv(s: State) {
    Timed(s) && Staged(s) && forall id :: Known(s, id) ==> IsMinted(id, s.count)
  }

  lemma MintedIsNew(s: State, ms: nat)
    requires Inv(s)
    ensures !Known(s, Minted(s, ms)) && IsMinted(Minted(s, ms), s.count + 1)
  {
    var id := Minted(s, ms);
    if Known(s, id) {
      var ms', n :| 0 < n <= s.count && id == RequestId(ms', n);
      RequestIdInjective(ms, s.count + 1, ms', n);
    }
    assert 0 < s.count + 1 <= s.count + 1 && id == RequestId(ms, s.count + 1);
  }

  lemma MintedStays(count: nat)
    ensures forall id :: IsMinted(id, count) ==> IsMinted(id, count + 1)
  {
  }

  lemma PlaceKeeps(s: State, ms: nat, expected: Tag)
    requires Inv(s)
    ensures Inv(Place(s, ms, expected))
  {
    MintedIsNew(s, ms);
    MintedStays(s.count);
    forall id | Known(Place(s, ms, expected), id) ensures IsMinted(id, s.count + 1) {
      assert id == Minted(s, ms) || Known(s, id);
    }
  }

  lemma TrackKeeps(s: State, id: string, ok: bool, sendOk: bool)
    requires Inv(s) && id in s.signing
    ensures Inv(Track(s, id, ok, sendOk))
  {
    forall x | Known(Track(s, id, ok, sendOk), x) ensures Known(s, x) {
    }
  }

  lemma RouteKeeps(s: State, msg: Message)
    requires Inv(s)
    ensures Inv(Route(s, msg))
  {
    forall x | Known(Route(s, msg), x) ensures Known(s, x) {
    }
  }

  lemma ExpireKeeps(s: State, t: Timer)
    requires Inv(s) && t in s.armed
    ensures Inv(Expire(s, t))
  {
    forall x | Known(Expire(s, t), x) ensures Known(s, x) {
    }
  }

  lemma AbandonKeeps(s: State)
    requires Inv(s)
    ensures Inv(Abandon(s)) && Abandon(s).armed == map[]
  {
    forall x | Known(Abandon(s), x) ensures Known(s, x) {
    }
  }

  /** Every event keeps the invariant. */
  lemma StepKeepsInv(s: State, e: Event)
    requires Inv(s) && Enabled(s, e)
    ensures Inv(Step(s, e))
  {
    match e
    case Socket(isOpen) => assert forall id :: Known(s.(isOpen := isOpen), id) <==> Known(s, id);
    case Call(ms, expected) => PlaceKeeps(s, ms, expected);
    case Signed(id, ok, sendOk) => TrackKeeps(s, id, ok, sendOk);
    case Receive(msg) => if msg.Some? { RouteKeeps(s, msg.value); }
    case Fire(t) => ExpireKeeps(s, t);
    case SocketCloses => AbandonKeeps(s);
  }

  // ---------------------------------------------------------------- the class

  class BrokerClient {
    var isOpen: bool
    var nextRequestId: nat
    var signing: map<string, Tag>
    var pending: map<string, Entry>
    var armed: map<Timer, string>
    var nextTimer: Timer
    var settled: map<string, Outcome>

    function View(): State
      reads this
    {
      State(isOpen, nextRequestId, signing, pending, armed, nextTimer, settled)
    }

    constructor ()
      ensures View() == INITIAL && Inv(View())
    {
      isOpen, nextRequestId, signing, pending, armed, nextTimer, settled := false, 0, map[], map[], map[], 0, map[];
    }

    method MintRequestId(ms: nat) returns (id: string)
      modifies this`nextRequestId
      ensures id == Minted(old(View()), ms) && View() == old(View()).(count := old(nextRequestId) + 1)
    {
      nextRequestId := nextRequestId + 1;
      id := RequestId(ms, nextRequestId);
    }

    /** Up to the first await: the id is minted, and the call fails at once on a socket that is not open. */
    method SendAndAwait(ms: nat, expected: Tag) returns (id: string)
      requires Inv(View())
      modifies this
      ensures Inv(View()) && View() == Step(old(View()), Call(ms, expected))
      ensures !Known(old(View()), id) && Known(View(), id)
    {
      StepKeepsInv(View(), Call(ms, expected));
      MintedIsNew(View(), ms);
      id := MintRequestId(ms);
      if !isOpen {
        settled := Settle(settled, id, NotOpen);
      } else {
        signing := signing[id := expected];
      }
    }

    /** After the await: arm the timer, enter the request, send. */
    method AfterSigning(id: string, ok: bool, sendOk: bool)
      requires Inv(View()) && id in signing
      modifies this
      ensures View() == Step(old(View()), Signed(id, ok, sendOk))
      ensures Inv(View())
    {
      TrackKeeps(View(), id, ok, sendOk);
      var expected := signing[id];
      signing := signing - {id};
      if !ok {
        settled := Settle(settled, id, SignFailed);
      } else {
        var timer := nextTimer;
        armed, nextTimer := armed[timer := id], nextTimer + 1;
        pending := pending[id := Entry(expected, timer)];
        if !sendOk { settled := Settle(settled, id, SendThrew); }
      }
    }

    /** True when the message was the response to a pending request. */
    method HandleIncoming(msg: Option<Message>) returns (routed: bool)
      requires Inv(View())
      modifies this
      ensures Inv(View()) && View() == Step(old(View()), Receive(msg))
      ensures routed <==> msg.Some? && msg.value.id in old(pending)
    {
      StepKeepsInv(View(), Receive(msg));
      NoEmptyId(View());
      if msg.None? { return false; }
      var id := msg.value.id;
      if id != "" {
        if id in pending {
          var entry := pending[id];
          pending := pending - {id};
          armed := armed - {entry.timer};
          settled := Settle(settled, id, Judge(entry.expected, msg.value));
          return true;
        }
      }
      return false;
    }

    method TimerFires(timer: Timer)
      requires Inv(View()) && timer in armed
      modifies this
      ensures Inv(View()) && View() == Step(old(View()), Fire(timer))
    {
      StepKeepsInv(View(), Fire(timer));
      var id := armed[timer];
      armed := armed - {timer};
      pending := pending - {id};
      settled := Settle(settled, id, TimedOut);
    }

    /** Clear every pending request's timer and reject its promise. */
    method RejectPending()
      modifies this`armed, this`settled
      ensures armed == old(armed) - Timers(pending, pending.Keys) && settled == Rejected(old(settled), pending.Keys)
    {
      var todo := pending.Keys;
      ghost var done: set<string> := {};
      assert settled == Rejected(settled, {}) && Timers(pending, {}) == {};
      while todo != {}
        invariant todo + done == pending.Keys && todo !! done
        invariant armed == old(armed) - Timers(pending, done) && settled == Rejected(old(settled), done)
        decreases todo
      {
        var id :| id in todo;
        todo := todo - {id};
        assert Timers(pending, done + {id}) == Timers(pending, done) + {pending[id].timer};
        armed := armed - {pending[id].timer};
        settled := Settle(settled, id, SocketClosed);
        assert settled == Rejected(old(settled), done + {id});
        done := done + {id};
      }
      assert done == pending.Keys;
    }

    method OnClose()
      requires Inv(View())
      modifies this
      ensures Inv(View()) && View() == Step(old(View()), SocketCloses) && armed == map[] && pending == map[]
    {
      StepKeepsInv(View(), SocketCloses);
      AbandonKeeps(View());
      RejectPending();
      pending := map[];
    }
  }

  /** No request has the empty id. */
  lemma NoEmptyId(s: State)
    requires Inv(s)
    ensures !Known(s, "")
  {
  }
}
