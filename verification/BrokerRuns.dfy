/** Whole runs: where the messages that speak for a peer come from, the life of relay sessions, and the books. */
module BrokerRuns {
  import opened Common
  import opened Outbox
  import opened Broker
  import opened BrokerInv
  import opened BrokerPresence
  import opened BrokerTrace
  import opened BrokerRelay
  import opened BrokerLedger
  import opened SessionRuns
  import opened SenderLedger

  // ---------------------------------------------------------------- channels and connections

  ghost predicate Growing(nets: seq<Net>) {
    |nets| > 0 && nets[0].boxes == [] && forall i :: 0 < i < |nets| ==> Grew(nets[i - 1], nets[i])
  }

  /** Everything on a channel was put there, at its place, by some event. */
  lemma {:induction false} PutSomewhere(nets: seq<Net>, n: nat, c: ConnId, j: nat) returns (i: nat)
    requires Growing(nets) && n < |nets| && c < |nets[n].boxes| && j < |nets[n].boxes[c]|
    ensures i < n && Puts(nets[i], nets[i + 1], c, j, nets[n].boxes[c][j])
  {
    assert Grew(nets[n - 1], nets[n]);
    if NewFrom(nets[n - 1], c) <= j {
      i := n - 1;
    } else {
      assert nets[n - 1].boxes[c] <= nets[n].boxes[c];
      i := PutSomewhere(nets, n - 1, c, j);
    }
  }

  lemma {:induction false} StaysPut(nets: seq<Net>, i: nat, n: nat, c: ConnId, j: nat)
    requires Growing(nets) && i <= n < |nets| && j < NewFrom(nets[i], c)
    ensures j < NewFrom(nets[n], c)
    decreases n
  {
    if i < n {
      StaysPut(nets, i, n - 1, c, j);
      assert Grew(nets[n - 1], nets[n]);
    }
  }

  /** And by one event only. */
  lemma PutOnce(nets: seq<Net>, i: nat, k: nat, c: ConnId, j: nat, m: ServerMessage, x: ServerMessage)
    requires Growing(nets) && i < k && k + 1 < |nets| && Puts(nets[i], nets[i + 1], c, j, m)
    ensures !Puts(nets[k], nets[k + 1], c, j, x)
  {
    StaysPut(nets, i + 1, k, c, j);
  }

  /** The connection the event opens, and its key. */
  function Joins(env: Env, s: State, e: Event): map<ConnId, string> {
    if e.Open? && Registering(env, e).Some? then map[|s.net.boxes| := Registering(env, e).value.pubkey] else map[]
  }

  ghost predicate Joining(conns: seq<map<ConnId, string>>, joins: seq<map<ConnId, string>>) {
    && |conns| == |joins| + 1 && conns[0] == map[]
    && forall i :: 0 <= i < |joins| ==> JoinStep(conns[i], joins[i], conns[i + 1])
  }

  predicate JoinStep(conns: map<ConnId, string>, join: map<ConnId, string>, conns': map<ConnId, string>) {
    forall c :: c in conns' ==> (c in conns && conns[c] == conns'[c]) || (c in join && join[c] == conns'[c])
  }

  lemma {:induction false} JoinedBy(conns: seq<map<ConnId, string>>, joins: seq<map<ConnId, string>>, n: nat, c: ConnId)
      returns (o: nat)
    requires Joining(conns, joins) && n < |conns| && c in conns[n]
    ensures o < n && c in joins[o] && joins[o][c] == conns[n][c]
  {
    assert JoinStep(conns[n - 1], joins[n - 1], conns[n]);
    if c in conns[n - 1] && conns[n - 1][c] == conns[n][c] {
      o := JoinedBy(conns, joins, n - 1, c);
    } else {
      o := n - 1;
    }
  }

  // ---------------------------------------------------------------- what a run looks like from each side

  function Nets(ss: seq<State>): seq<Net> {
    seq(|ss|, i requires 0 <= i < |ss| => ss[i].net)
  }

  function Conns(ss: seq<State>): seq<map<ConnId, string>> {
    seq(|ss|, i requires 0 <= i < |ss| => ss[i].conns)
  }

  function AllJoins(env: Env, ss: seq<State>, es: seq<Event>): seq<map<ConnId, string>>
    requires |ss| == |es| + 1
  {
    seq(|es|, i requires 0 <= i < |es| => Joins(env, ss[i], es[i]))
  }

  function Snaps(ss: seq<State>): seq<Snap> {
    seq(|ss|, i requires 0 <= i < |ss| => SnapOf(ss[i]))
  }

  function Acts(env: Env, ss: seq<State>, es: seq<Event>): seq<Act>
    requires |ss| == |es| + 1
  {
    seq(|es|, i requires 0 <= i < |es| => ActOf(env, ss[i], es[i]))
  }

  function Pages(env: Env, ss: seq<State>, k: string): seq<Page> {
    seq(|ss|, i requires 0 <= i < |ss| => PageOf(env, ss[i], k))
  }

  function Tries(env: Env, ss: seq<State>, es: seq<Event>, k: string): seq<Option<Try>>
    requires |ss| == |es| + 1
  {
    seq(|es|, i requires 0 <= i < |es| => TryOf(env, ss[i], es[i], k))
  }

  lemma StepGrows(env: Env, s: State, e: Event, s': State)
    requires Leads(env, s, e, s')
    ensures Grew(s.net, s'.net)
  {
    StepCause(env, s, e, 0, Pong(0));
  }

  lemma RunGrows(env: Env, ss: seq<State>, es: seq<Event>)
    requires IsRun(env, ss, es) && StartsEmpty(ss[0])
    ensures Growing(Nets(ss))
  {
    forall i | 0 < i < |ss| ensures Grew(ss[i - 1].net, ss[i].net) {
      assert Leads(env, ss[i - 1], es[i - 1], ss[i]);
      StepGrows(env, ss[i - 1], es[i - 1], ss[i]);
    }
  }

  lemma StepJoins(env: Env, s: State, e: Event, s': State)
    requires Leads(env, s, e, s')
    ensures JoinStep(s.conns, Joins(env, s, e), s'.conns)
  {
    forall c | c in s'.conns
      ensures (c in s.conns && s.conns[c] == s'.conns[c]) ||
        (c in Joins(env, s, e) && Joins(env, s, e)[c] == s'.conns[c])
    {
      StepConns(env, s, e, c);
    }
  }

  lemma RunJoins(env: Env, ss: seq<State>, es: seq<Event>)
    requires IsRun(env, ss, es) && StartsEmpty(ss[0])
    ensures Joining(Conns(ss), AllJoins(env, ss, es))
  {
    forall i | 0 <= i < |es| ensures JoinStep(ss[i].conns, Joins(env, ss[i], es[i]), ss[i + 1].conns) {
      assert Leads(env, ss[i], es[i], ss[i + 1]);
      StepJoins(env, ss[i], es[i], ss[i + 1]);
    }
  }

  lemma StepMoves(env: Env, s: State, e: Event, s': State)
    requires Leads(env, s, e, s') && Inv(s)
    ensures Moves(SnapOf(s), ActOf(env, s, e), SnapOf(s'))
  {
    SessionStep(env, s, e);
  }

  lemma RunIsLife(env: Env, ss: seq<State>, es: seq<Event>)
    requires IsRun(env, ss, es) && StartsEmpty(ss[0])
    ensures IsLife(Snaps(ss), Acts(env, ss, es))
  {
    forall i | 0 <= i < |es| ensures Moves(SnapOf(ss[i]), ActOf(env, ss[i], es[i]), SnapOf(ss[i + 1])) {
      RunKeepsInv(env, ss, es, i);
      assert Leads(env, ss[i], es[i], ss[i + 1]);
      StepMoves(env, ss[i], es[i], ss[i + 1]);
    }
  }

  lemma RunIsAccount(env: Env, ss: seq<State>, es: seq<Event>, k: string)
    requires IsRun(env, ss, es) && StartsEmpty(ss[0])
    ensures IsAccount(Pages(env, ss, k), Tries(env, ss, es, k))
  {
    forall i | 0 <= i < |es|
      ensures Turns(PageOf(env, ss[i], k), TryOf(env, ss[i], es[i], k), PageOf(env, ss[i + 1], k))
    {
      assert Leads(env, ss[i], es[i], ss[i + 1]);
      StepTurns(env, ss[i], es[i], ss[i + 1], k);
    }
  }
}
