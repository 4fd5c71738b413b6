/** Presence subscriptions: two indexes, subscriber to targets and target to subscribers. */
module Presence {
  import opened Outbox
  import opened Registry

  type Subs = map<string, set<string>>

  function At(m: Subs, k: string): set<string> {
    if k in m then m[k] else {}
  }

  function ToSet(ts: seq<string>): set<string> {
    set t | t in ts
  }

  /** Who watches `t`, read off the subscriptions alone. */
  function Watching(subs: Subs, t: string): set<string> {
    set s | s in subs && t in subs[s]
  }

  /** The inverse index: no target without a watcher. */
  function Invert(subs: Subs): Subs {
    map t | t in (set s, t | s in subs && t in subs[s] :: t) :: Watching(subs, t)
  }

  /** What the calls mean for the subscriptions. */
  function Subscribed(subs: Subs, s: string, ts: seq<string>): Subs {
    subs[s := At(subs, s) + ToSet(ts)]
  }

  function Unsubscribed(subs: Subs, s: string, ts: seq<string>): Subs {
    if s in subs then subs[s := subs[s] - ToSet(ts)] else subs
  }

  function Cleared(subs: Subs, s: string): Subs {
    subs - {s}
  }

  /** A subscription adds its targets for its subscriber, and nothing else; the other two take away. */
  lemma SubscriptionMeans(subs: Subs, s: string, ts: seq<string>, k: string, t: string)
    ensures t in At(Subscribed(subs, s, ts), k) <==> t in At(subs, k) || (k == s && t in ts)
    ensures t in At(Unsubscribed(subs, s, ts), k) <==> t in At(subs, k) && !(k == s && t in ts)
    ensures t in At(Cleared(subs, s), k) <==> t in At(subs, k) && k != s
  {
  }

  lemma SubscribedPrefix(subs: Subs, s: string, ts: seq<string>, i: nat)
    requires i < |ts|
    ensures
      var before := Subscribed(subs, s, ts[..i]);
      Subscribed(subs, s, ts[..i + 1]) == before[s := before[s] + {ts[i]}]
  {
    assert ts[..i + 1] == ts[..i] + [ts[i]];
    assert At(subs, s) + ToSet(ts[..i + 1]) == At(subs, s) + ToSet(ts[..i]) + {ts[i]};
  }

  lemma UnsubscribedPrefix(subs: Subs, s: string, ts: seq<string>, i: nat)
    requires i < |ts| && s in subs
    ensures
      var before := Unsubscribed(subs, s, ts[..i]);
      Unsubscribed(subs, s, ts[..i + 1]) == before[s := before[s] - {ts[i]}]
  {
    assert ts[..i + 1] == ts[..i] + [ts[i]];
    assert subs[s] - ToSet(ts[..i + 1]) == subs[s] - ToSet(ts[..i]) - {ts[i]};
  }

  lemma NoTargets(subs: Subs, s: string)
    ensures Subscribed(subs, s, []) == subs[s := At(subs, s)]
    ensures Unsubscribed(subs, s, []) == subs
  {
    assert ToSet([]) == {};
    assert At(subs, s) + ToSet([]) == At(subs, s);
    assert s in subs ==> subs[s] - ToSet([]) == subs[s] && subs[s := subs[s]] == subs;
  }

  /** The channels of the registered peers that watch `t`. */
  function Recipients(subs: Subs, peers: map<string, Peer>, t: string): set<ConnId> {
    set s | s in peers && t in At(subs, s) :: peers[s].tx
  }

  /** Each registered peer has its own channel. */
  ghost predicate OwnChannels(peers: map<string, Peer>) {
    forall k, k' :: k in peers && k' in peers && peers[k].tx == peers[k'].tx ==> k == k'
  }

  lemma InvertMember(subs: Subs, t: string)
    ensures At(Invert(subs), t) == Watching(subs, t)
    ensures t in Invert(subs) <==> Watching(subs, t) != {}
  {
    if t in Invert(subs) {
      var s :| s in subs && t in subs[s];
      assert s in Watching(subs, t);
    }
    if Watching(subs, t) != {} {
      var s :| s in Watching(subs, t);
    }
  }

  /** Two inverses with the same watchers are the same index. */
  lemma InvertIs(w: Subs, subs: Subs)
    requires forall t :: At(w, t) == Watching(subs, t)
    requires forall t :: t in w ==> w[t] != {}
    ensures w == Invert(subs)
  {
    forall t
      ensures t in w <==> t in Invert(subs)
      ensures t in w ==> w[t] == Invert(subs)[t]
    {
      InvertMember(subs, t);
      assert At(w, t) == Watching(subs, t);
    }
  }

  lemma WatchStep(subs: Subs, s: string, t: string)
    requires s in subs
    ensures Invert(subs[s := subs[s] + {t}]) == Invert(subs)[t := At(Invert(subs), t) + {s}]
  {
    var w := Invert(subs)[t := At(Invert(subs), t) + {s}];
    var subs' := subs[s := subs[s] + {t}];
    forall t'
      ensures At(w, t') == Watching(subs', t')
      ensures t' in w ==> w[t'] != {}
    {
      InvertMember(subs, t');
      InvertMember(subs, t);
    }
    InvertIs(w, subs');
  }

  /** Take one watcher away, dropping the entry when it was the last. */
  function Unwatch(w: Subs, s: string, t: string): Subs {
    if t !in w then w else if w[t] - {s} == {} then w - {t} else w[t := w[t] - {s}]
  }

  lemma UnwatchStep(subs: Subs, s: string, t: string)
    requires s in subs
    ensures Invert(subs[s := subs[s] - {t}]) == Unwatch(Invert(subs), s, t)
  {
    var w := Unwatch(Invert(subs), s, t);
    var subs' := subs[s := subs[s] - {t}];
    forall t'
      ensures At(w, t') == Watching(subs', t')
      ensures t' in w ==> w[t'] != {}
    {
      InvertMember(subs, t');
      InvertMember(subs, t);
    }
    InvertIs(w, subs');
  }

  lemma InvertIgnoresEmpty(subs: Subs, s: string)
    ensures Invert(subs[s := {}]) == Invert(subs - {s})
    ensures s !in subs ==> Invert(subs[s := {}]) == Invert(subs)
  {
    var w := Invert(subs[s := {}]);
    forall t
      ensures At(w, t) == Watching(subs - {s}, t)
      ensures t in w ==> w[t] != {}
    {
      InvertMember(subs[s := {}], t);
      assert Watching(subs[s := {}], t) == Watching(subs - {s}, t);
    }
    InvertIs(w, subs - {s});
    assert s !in subs ==> subs - {s} == subs;
  }

  class PresenceManager {
    var subscriptions: Subs
    var watchers: Subs

    /** s is in watchers[t] exactly when t is in subscriptions[s], and no watcher set is empty. */
    ghost predicate Valid()
      reads this
    {
      watchers == Invert(subscriptions)
    }

    constructor ()
      ensures Valid() && subscriptions == map[]
    {
      subscriptions, watchers := map[], map[];
    }

    method Subscribe(subscriber: string, targets: seq<string>)
      requires Valid()
      modifies this
      ensures Valid() && subscriptions == Subscribed(old(subscriptions), subscriber, targets)
    {
      InvertIgnoresEmpty(subscriptions, subscriber);
      if subscriber !in subscriptions { subscriptions := subscriptions[subscriber := {}]; }
      NoTargets(old(subscriptions), subscriber);
      assert targets[..0] == [] &&
        subscriptions == old(subscriptions)[subscriber := At(old(subscriptions), subscriber)];
      for i := 0 to |targets|
        invariant subscriptions == Subscribed(old(subscriptions), subscriber, targets[..i])
        invariant watchers == Invert(subscriptions)
      {
        var t := targets[i];
        WatchStep(subscriptions, subscriber, t);
        SubscribedPrefix(old(subscriptions), subscriber, targets, i);
        subscriptions := subscriptions[subscriber := subscriptions[subscriber] + {t}];
        watchers := watchers[t := At(watchers, t) + {subscriber}];
      }
      assert targets[..|targets|] == targets;
    }

    method Unsubscribe(subscriber: string, targets: seq<string>)
      requires Valid()
      modifies this
      ensures Valid() && subscriptions == Unsubscribed(old(subscriptions), subscriber, targets)
    {
      if subscriber in subscriptions {
        NoTargets(old(subscriptions), subscriber);
        assert targets[..0] == [];
        for i := 0 to |targets|
          invariant subscriptions == Unsubscribed(old(subscriptions), subscriber, targets[..i])
          invariant watchers == Invert(subscriptions)
        {
          var t := targets[i];
          UnwatchStep(subscriptions, subscriber, t);
          UnsubscribedPrefix(old(subscriptions), subscriber, targets, i);
          subscriptions := subscriptions[subscriber := subscriptions[subscriber] - {t}];
          if t in watchers {
            watchers := watchers[t := watchers[t] - {subscriber}];
            if watchers[t] == {} { watchers := watchers - {t}; }
          }
        }
        assert targets[..|targets|] == targets;
      }
    }

    method ClearSubscriber(subscriber: string)
      requires Valid()
      modifies this
      ensures Valid() && subscriptions == Cleared(old(subscriptions), subscriber)
    {
      if subscriber !in subscriptions { return; }
      var targets := subscriptions[subscriber];
      assert subscriptions[subscriber := targets] == subscriptions;
      subscriptions := subscriptions - {subscriber};
      while targets != {}
        invariant subscriptions == Cleared(old(subscriptions), subscriber)
        invariant watchers == Invert(old(subscriptions)[subscriber := targets])
        decreases targets
      {
        var t :| t in targets;
        ghost var now := old(subscriptions)[subscriber := targets];
        UnwatchStep(now, subscriber, t);
        assert now[subscriber := targets - {t}] == old(subscriptions)[subscriber := targets - {t}];
        targets := targets - {t};
        if t in watchers {
          watchers := watchers[t := watchers[t] - {subscriber}];
          if watchers[t] == {} { watchers := watchers - {t}; }
        }
      }
      InvertIgnoresEmpty(old(subscriptions), subscriber);
    }

    /** One copy to every registered watcher, whatever order the watcher set is walked in. */
    method Broadcast(registry: PeerRegistry, out: Outboxes, pubkey: string, online: bool)
      requires Valid() && OwnChannels(registry.byPubkey)
      modifies out
      ensures out.net ==
        old(out.net).Fan(Recipients(subscriptions, registry.byPubkey, pubkey), PresenceUpdate(pubkey, online))
    {
      var payload := PresenceUpdate(pubkey, online);
      InvertMember(subscriptions, pubkey);
      ghost var peers := registry.byPubkey;
      ghost var sent: set<string> := {};
      var todo := At(watchers, pubkey);
      assert old(out.net) == old(out.net).Fan({}, payload) by {
        assert old(out.net).boxes == old(out.net).Fan({}, payload).boxes;
      }
      assert Channels(peers, {}) == {};
      while todo != {}
        invariant sent + todo == Watching(subscriptions, pubkey) && sent !! todo
        invariant out.net == old(out.net).Fan(Channels(peers, sent), payload)
        decreases todo
      {
        var w :| w in todo;
        todo := todo - {w};
        var peer := registry.Get(w);
        if peer.Some? {
          assert peer.value.tx !in Channels(peers, sent);
          FanGrows(old(out.net), Channels(peers, sent), peer.value.tx, payload);
          var _ := out.TrySend(peer.value.tx, payload);
        }
        assert Channels(peers, sent + {w}) == Channels(peers, sent) + Channels(peers, {w});
        sent := sent + {w};
      }
      assert Channels(peers, sent) == Recipients(subscriptions, peers, pubkey);
    }

    method WatchersOf(pubkey: string) returns (ws: set<string>)
      requires Valid()
      ensures ws == Watching(subscriptions, pubkey)
    {
      InvertMember(subscriptions, pubkey);
      ws := At(watchers, pubkey);
    }
  }

  ghost function Channels(peers: map<string, Peer>, ks: set<string>): set<ConnId> {
    set k | k in ks && k in peers :: peers[k].tx
  }
}
