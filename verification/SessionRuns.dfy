/** The life of relay sessions, told from the session table and the acts that bear on it alone. */
module SessionRuns {
  import opened Outbox
  import R = Relay

  /** What an event means for sessions: `who` asks for a new one, `who` agrees to one, a connection of `who` is cleaned
      up, or nothing. */
  datatype Act =
    | Asks(id: SessionId, who: string, peer: string)
    | Agrees(id: SessionId, who: string)
    | Leaves(who: string)
    | Rests

  datatype Snap = Snap(sessions: R.Sessions, issued: set<SessionId>)

  predicate Ends(act: Act, session: R.Session) {
    act.Leaves? && session.Names(act.who)
  }

  /** The session stays: same parties, and active from pending only by its responder's consent. */
  predicate Continues(t: Snap, act: Act, t': Snap, id: SessionId) {
    && id in t.sessions && id in t'.sessions
    && SameParties(t.sessions[id], t'.sessions[id])
    && (t'.sessions[id].state == t.sessions[id].state
        || (t.sessions[id].state == R.Pending && act == Agrees(id, t.sessions[id].responder)))
    && !Ends(act, t.sessions[id])
  }

  predicate SameParties(x: R.Session, y: R.Session) {
    x.initiator == y.initiator && x.responder == y.responder
  }

  /** The session is new, pending, under an id never used before. */
  predicate Begins(t: Snap, act: Act, t': Snap, id: SessionId) {
    && id !in t.issued && id in t'.issued && id in t'.sessions && t'.sessions[id].state == R.Pending
    && act == Asks(id, t'.sessions[id].initiator, t'.sessions[id].responder)
  }

  ghost predicate Moves(t: Snap, act: Act, t': Snap) {
    && t.issued <= t'.issued
    && (forall id :: id in t'.sessions ==> Continues(t, act, t', id) || Begins(t, act, t', id))
    && (forall id :: id in t.sessions && id !in t'.sessions ==> Ends(act, t.sessions[id]))
  }

  ghost predicate IsLife(ts: seq<Snap>, acts: seq<Act>) {
    && |ts| == |acts| + 1 && ts[0].sessions == map[]
    && forall i :: 0 <= i < |acts| ==> Moves(ts[i], acts[i], ts[i + 1])
  }

  lemma {:induction false} Issued(ts: seq<Snap>, acts: seq<Act>, n: nat)
    requires IsLife(ts, acts) && n < |ts|
    ensures forall id :: id in ts[n].sessions ==> id in ts[n].issued
  {
    if n > 0 {
      Issued(ts, acts, n - 1);
      assert Moves(ts[n - 1], acts[n - 1], ts[n]);
    }
  }

  lemma {:induction false} IssuedGrows(ts: seq<Snap>, acts: seq<Act>, i: nat, n: nat)
    requires IsLife(ts, acts) && i <= n < |ts|
    ensures ts[i].issued <= ts[n].issued
    decreases n
  {
    if i < n {
      IssuedGrows(ts, acts, i, n - 1);
      assert Moves(ts[n - 1], acts[n - 1], ts[n]);
    }
  }

  lemma {:induction false} StaysGone(ts: seq<Snap>, acts: seq<Act>, i: nat, n: nat, id: SessionId)
    requires IsLife(ts, acts) && i <= n < |ts| && id in ts[i].issued && id !in ts[i].sessions
    ensures id !in ts[n].sessions
    decreases n
  {
    if i < n {
      StaysGone(ts, acts, i, n - 1, id);
      IssuedGrows(ts, acts, i, n - 1);
      assert Moves(ts[n - 1], acts[n - 1], ts[n]);
    }
  }

  /** One of the first `n` acts, from act `i` on, cleans up a connection of `x` or of `y`. */
  ghost predicate LeftBetween(acts: seq<Act>, i: nat, n: nat, x: string, y: string) {
    exists k :: i <= k < n && k < |acts| && (acts[k] == Leaves(x) || acts[k] == Leaves(y))
  }

  lemma LeftLater(acts: seq<Act>, i: nat, n: nat, x: string, y: string)
    requires i <= n < |acts|
    ensures LeftBetween(acts, i, n + 1, x, y) <==>
            LeftBetween(acts, i, n, x, y) || acts[n] == Leaves(x) || acts[n] == Leaves(y)
  {
  }

  /** A session is there until the first cleanup of a connection of either party, and not longer. Its parties never
      change and once active it stays active. */
  lemma {:induction false} Lasts(ts: seq<Snap>, acts: seq<Act>, i: nat, n: nat, id: SessionId)
    requires IsLife(ts, acts) && i <= n < |ts| && id in ts[i].sessions
    ensures id in ts[n].sessions <==>
      !LeftBetween(acts, i, n, ts[i].sessions[id].initiator, ts[i].sessions[id].responder)
    ensures id in ts[n].sessions ==> SameParties(ts[i].sessions[id], ts[n].sessions[id])
    ensures id in ts[n].sessions && ts[i].sessions[id].state == R.Active ==> ts[n].sessions[id].state == R.Active
    decreases n
  {
    if i < n {
      Lasts(ts, acts, i, n - 1, id);
      Issued(ts, acts, i);
      IssuedGrows(ts, acts, i, n - 1);
      LeftLater(acts, i, n - 1, ts[i].sessions[id].initiator, ts[i].sessions[id].responder);
      assert Moves(ts[n - 1], acts[n - 1], ts[n]);
    }
  }

  /** How a session got to where it is after `n` acts: act `r` asked for it, if it is active act `a` after that agreed
      to it, and no connection of either party was cleaned up since it was asked for. */
  ghost predicate History(acts: seq<Act>, r: nat, a: nat, n: nat, id: SessionId, session: R.Session)
    requires n <= |acts|
  {
    && r < n && acts[r] == Asks(id, session.initiator, session.responder)
    && !LeftBetween(acts, r, n, session.initiator, session.responder)
    && (session.state == R.Active ==> r < a < n && acts[a] == Agrees(id, session.responder))
  }

  lemma {:induction false} SessionHistory(ts: seq<Snap>, acts: seq<Act>, n: nat, id: SessionId) returns (r: nat, a: nat)
    requires IsLife(ts, acts) && n < |ts| && id in ts[n].sessions
    ensures History(acts, r, a, n, id, ts[n].sessions[id])
  {
    var t, act, t' := ts[n - 1], acts[n - 1], ts[n];
    assert Moves(t, act, t');
    var x, y := t'.sessions[id].initiator, t'.sessions[id].responder;
    if Continues(t, act, t', id) {
      r, a := SessionHistory(ts, acts, n - 1, id);
      LeftLater(acts, r, n - 1, x, y);
      if t.sessions[id].state == R.Pending { a := n - 1; }
    } else {
      r, a := n - 1, n - 1;
      LeftLater(acts, r, n - 1, x, y);
      assert !LeftBetween(acts, r, n - 1, x, y);
    }
  }

  ghost predicate Promotes(ts: seq<Snap>, i: nat, id: SessionId) {
    && i + 1 < |ts| && id in ts[i].sessions && ts[i].sessions[id].state == R.Pending
    && id in ts[i + 1].sessions && ts[i + 1].sessions[id].state == R.Active
  }

  /** Only the responder's consent promotes a session, and never twice. */
  lemma {:induction false} OnePromotion(ts: seq<Snap>, acts: seq<Act>, i: nat, n: nat, id: SessionId)
    requires IsLife(ts, acts) && Promotes(ts, i, id) && Promotes(ts, n, id)
    ensures i == n && acts[i] == Agrees(id, ts[i].sessions[id].responder)
  {
    if i < n { Lasts(ts, acts, i + 1, n, id); }
    if n < i { Lasts(ts, acts, n + 1, i, id); }
    Issued(ts, acts, i);
    assert Moves(ts[i], acts[i], ts[i + 1]);
  }
}
