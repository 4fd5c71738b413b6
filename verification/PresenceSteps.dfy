/** The presence indexes under concurrent calls. A step is what happens between two releases of a map guard:
    `subscribe` and `unsubscribe` keep the guard of the subscriber's entry for their whole loop, `clear` takes
    the entry out at once, and an emptied watcher entry is removed only after its guard was let go. */
module PresenceSteps {
  import opened Presence

  datatype Task =
    | Adding(s: string, todo: seq<string>)
    | Linking(s: string, t: string, todo: seq<string>)
    | Removing(s: string, todo: seq<string>)
    | Unlinking(s: string, t: string, todo: seq<string>)
    | Dropping(s: string, t: string, todo: seq<string>)
    | Clearing(s: string, left: set<string>)
    | ClearDropping(s: string, t: string, left: set<string>)

  datatype World = World(subs: Subs, watchers: Subs, tasks: map<nat, Task>)

  datatype Action =
    | StartSubscribe(id: nat, s: string, ts: seq<string>)
    | StartUnsubscribe(id: nat, s: string, ts: seq<string>)
    | StartClear(id: nat, s: string)
    | Advance(id: nat, pick: string)

  predicate HoldsGuard(k: Task) {
    !k.Clearing? && !k.ClearDropping?
  }

  ghost predicate Guarded(w: World, s: string) {
    exists id :: id in w.tasks && HoldsGuard(w.tasks[id]) && w.tasks[id].s == s
  }

  ghost predicate Enabled(w: World, a: Action) {
    match a
    case Advance(id, pick) =>
      id in w.tasks && (w.tasks[id].Clearing? && w.tasks[id].left != {} ==> pick in w.tasks[id].left)
    case _ => a.id !in w.tasks && !Guarded(w, a.s)
  }

  function Goto(w: World, id: nat, k: Task): World {
    w.(tasks := w.tasks[id := k])
  }

  function Done(w: World, id: nat): World {
    w.(tasks := w.tasks - {id})
  }

  /** Take `s` off `t`; when that empties the entry, its removal is left for a later step. */
  function Unlink(w: World, s: string, t: string): World {
    if t in w.watchers then w.(watchers := w.watchers[t := w.watchers[t] - {s}]) else w
  }

  predicate Emptied(w: World, s: string, t: string) {
    t in w.watchers && w.watchers[t] - {s} == {}
  }

  function Next(w: World, a: Action): World
    requires a.Advance? ==> a.id in w.tasks
  {
    match a
    case StartSubscribe(id, s, ts) => Goto(w.(subs := w.subs[s := At(w.subs, s)]), id, Adding(s, ts))
    case StartUnsubscribe(id, s, ts) => if s in w.subs then Goto(w, id, Removing(s, ts)) else w
    case StartClear(id, s) => if s in w.subs then Goto(w.(subs := w.subs - {s}), id, Clearing(s, w.subs[s])) else w
    case Advance(id, pick) =>
      match w.tasks[id]
      case Adding(s, todo) =>
        if todo == [] then Done(w, id)
        else Goto(w.(subs := w.subs[s := At(w.subs, s) + {todo[0]}]), id, Linking(s, todo[0], todo[1..]))
      case Linking(s, t, todo) =>
        Goto(w.(watchers := w.watchers[t := At(w.watchers, t) + {s}]), id, Adding(s, todo))
      case Removing(s, todo) =>
        if todo == [] then Done(w, id)
        else Goto(w.(subs := w.subs[s := At(w.subs, s) - {todo[0]}]), id, Unlinking(s, todo[0], todo[1..]))
      case Unlinking(s, t, todo) =>
        Goto(Unlink(w, s, t), id, if Emptied(w, s, t) then Dropping(s, t, todo) else Removing(s, todo))
      case Dropping(s, t, todo) => Goto(w.(watchers := w.watchers - {t}), id, Removing(s, todo))
      case Clearing(s, left) =>
        if left == {} then Done(w, id)
        else
          Goto(Unlink(w, s, pick), id,
               if Emptied(w, s, pick) then ClearDropping(s, pick, left - {pick}) else Clearing(s, left - {pick}))
      case ClearDropping(s, t, left) => Goto(w.(watchers := w.watchers - {t}), id, Clearing(s, left))
  }

  // ---------------------------------------------------------------- no ghost watchers

  /** A removal of the pair that has left the subscriptions but not yet the watchers. */
  predicate Takes(k: Task, t: string, s: string) {
    match k
    case Unlinking(s', t', _) => s' == s && t' == t
    case Clearing(s', left) => s' == s && t in left
    case ClearDropping(s', _, left) => s' == s && t in left
    case _ => false
  }

  ghost predicate InFlight(w: World, t: string, s: string) {
    exists id :: id in w.tasks && Takes(w.tasks[id], t, s)
  }

  ghost predicate NoGhosts(w: World) {
    forall t, s :: s in At(w.watchers, t) ==> t in At(w.subs, s) || InFlight(w, t, s)
  }

  /** What a task holding the guard of its subscriber knows of that subscriber's entry. */
  predicate KnowsEntry(w: World, k: Task) {
    && (HoldsGuard(k) ==> k.s in w.subs)
    && (k.Linking? ==> k.t in At(w.subs, k.s))
    && (k.Unlinking? ==> k.t !in At(w.subs, k.s))
  }

  predicate Apart(k: Task, k': Task) {
    HoldsGuard(k) && HoldsGuard(k') ==> k.s != k'.s
  }

  ghost predicate Inv(w: World) {
    && (forall i, j :: i in w.tasks && j in w.tasks && i != j ==> Apart(w.tasks[i], w.tasks[j]))
    && (forall i :: i in w.tasks ==> KnowsEntry(w, w.tasks[i]))
    && NoGhosts(w)
  }

  /** A step of one task leaves the others as they were. */
  lemma OthersStay(w: World, a: Action, i: nat)
    requires Enabled(w, a) && i != a.id
    ensures i in w.tasks <==> i in Next(w, a).tasks
    ensures i in w.tasks ==> Next(w, a).tasks[i] == w.tasks[i]
  {
  }

  /** The acting task keeps its subscriber, and holds a guard after the step only if it did before or just took it. */
  lemma ActorStays(w: World, a: Action)
    requires Enabled(w, a) && a.id in Next(w, a).tasks
    ensures a.Advance? ==> Next(w, a).tasks[a.id].s == w.tasks[a.id].s
    ensures a.Advance? ==> (HoldsGuard(Next(w, a).tasks[a.id]) <==> HoldsGuard(w.tasks[a.id]))
    ensures !a.Advance? ==> Next(w, a).tasks[a.id].s == a.s && !Guarded(w, a.s)
  {
  }

  lemma ApartKept(w: World, a: Action, i: nat, j: nat)
    requires Inv(w) && Enabled(w, a) && i in Next(w, a).tasks && j in Next(w, a).tasks && i != j
    ensures Apart(Next(w, a).tasks[i], Next(w, a).tasks[j])
  {
    if i != a.id { OthersStay(w, a, i); } else { ActorStays(w, a); }
    if j != a.id { OthersStay(w, a, j); } else { ActorStays(w, a); }
  }

  /** Only the holder of a guard, or a call that finds it free, changes an entry. */
  lemma EntryStays(w: World, a: Action, i: nat)
    requires Inv(w) && Enabled(w, a) && i in w.tasks && i != a.id && HoldsGuard(w.tasks[i])
    ensures var s := w.tasks[i].s; (s in w.subs <==> s in Next(w, a).subs) && At(w.subs, s) == At(Next(w, a).subs, s)
  {
    if a.Advance? { assert Apart(w.tasks[i], w.tasks[a.id]); }
  }

  lemma KnowsEntryKept(w: World, a: Action, i: nat)
    requires Inv(w) && Enabled(w, a) && i in Next(w, a).tasks
    ensures KnowsEntry(Next(w, a), Next(w, a).tasks[i])
  {
    if i != a.id {
      OthersStay(w, a, i);
      if HoldsGuard(w.tasks[i]) { EntryStays(w, a, i); }
    } else if a.Advance? {
      assert KnowsEntry(w, w.tasks[i]);
    }
  }

  lemma InFlightKept(w: World, a: Action, t: string, s: string)
    requires Enabled(w, a) && InFlight(w, t, s) && s in At(Next(w, a).watchers, t)
    ensures InFlight(Next(w, a), t, s)
  {
    var id :| id in w.tasks && Takes(w.tasks[id], t, s);
    if id != a.id { OthersStay(w, a, id); }
    assert id in Next(w, a).tasks && Takes(Next(w, a).tasks[id], t, s);
  }

  lemma NoGhostsKept(w: World, a: Action, t: string, s: string)
    requires Inv(w) && Enabled(w, a) && s in At(Next(w, a).watchers, t)
    ensures t in At(Next(w, a).subs, s) || InFlight(Next(w, a), t, s)
  {
    var w' := Next(w, a);
    if InFlight(w, t, s) {
      InFlightKept(w, a, t, s);
    } else if s !in At(w.watchers, t) {
      assert w.tasks[a.id].Linking? && KnowsEntry(w, w.tasks[a.id]);
    } else if t !in At(w'.subs, s) {
      assert a.id in w'.tasks && Takes(w'.tasks[a.id], t, s);
    }
  }

  lemma StepKeepsInv(w: World, a: Action)
    requires Inv(w) && Enabled(w, a)
    ensures Inv(Next(w, a))
  {
    var w' := Next(w, a);
    forall i, j | i in w'.tasks && j in w'.tasks && i != j ensures Apart(w'.tasks[i], w'.tasks[j]) {
      ApartKept(w, a, i, j);
    }
    forall i | i in w'.tasks ensures KnowsEntry(w', w'.tasks[i]) { KnowsEntryKept(w, a, i); }
    forall t, s | s in At(w'.watchers, t)
      ensures t in At(w'.subs, s) || InFlight(w', t, s)
    {
      NoGhostsKept(w, a, t, s);
    }
  }

  // ---------------------------------------------------------------- runs

  const EMPTY: World := World(map[], map[], map[])

  ghost predicate ValidRun(w: World, run: seq<Action>)
    decreases |run|
  {
    run == [] || (Enabled(w, run[0]) && ValidRun(Next(w, run[0]), run[1..]))
  }

  ghost function Final(w: World, run: seq<Action>): World
    requires ValidRun(w, run)
    decreases |run|
  {
    if run == [] then w else Final(Next(w, run[0]), run[1..])
  }

  lemma {:induction false} RunKeepsInv(w: World, run: seq<Action>)
    requires Inv(w) && ValidRun(w, run)
    ensures Inv(Final(w, run))
    decreases |run|
  {
    if run != [] {
      StepKeepsInv(w, run[0]);
      RunKeepsInv(Next(w, run[0]), run[1..]);
    }
  }

  /** Whatever the interleaving, a recorded watcher is subscribed or is being removed; once no call is under
      way every recorded watcher is subscribed. */
  lemma NoGhostWatchers(run: seq<Action>)
    requires ValidRun(EMPTY, run)
    ensures NoGhosts(Final(EMPTY, run))
    ensures Final(EMPTY, run).tasks == map[] ==>
      forall t, s :: s in At(Final(EMPTY, run).watchers, t) ==> t in At(Final(EMPTY, run).subs, s)
  {
    RunKeepsInv(EMPTY, run);
  }

  // ---------------------------------------------------------------- the other inclusion

  ghost predicate BeingLinked(w: World, s: string, t: string) {
    exists id :: id in w.tasks && w.tasks[id].Linking? && w.tasks[id].s == s && w.tasks[id].t == t
  }

  /** Every subscription is recorded at its target, or is about to be. */
  ghost predicate Linked(w: World) {
    forall s, t :: t in At(w.subs, s) ==> s in At(w.watchers, t) || BeingLinked(w, s, t)
  }

  /** A live subscription of `s` to `t` that only the watcher entry still records. */
  ghost predicate Settled(w: World, s: string, t: string) {
    t in At(w.subs, s) && !BeingLinked(w, s, t)
  }

  /** The step throws away a watcher it should have kept: the removal of an entry that was refilled in the gap,
      or a clear that reaches a target its subscriber has subscribed to again. */
  ghost predicate Loses(w: World, a: Action) {
    a.Advance? && a.id in w.tasks &&
    match w.tasks[a.id]
    case Dropping(_, t, _) => exists s :: s in At(w.watchers, t) && Settled(w, s, t)
    case ClearDropping(_, t, _) => exists s :: s in At(w.watchers, t) && Settled(w, s, t)
    case Clearing(s, left) => left != {} && Settled(w, s, a.pick)
    case _ => false
  }

  lemma BeingLinkedKept(w: World, a: Action, s: string, t: string)
    requires Inv(w) && Enabled(w, a) && BeingLinked(w, s, t)
    ensures BeingLinked(Next(w, a), s, t) || s in At(Next(w, a).watchers, t)
  {
    var id :| id in w.tasks && w.tasks[id].Linking? && w.tasks[id].s == s && w.tasks[id].t == t;
    if a.id != id {
      assert id in Next(w, a).tasks && Next(w, a).tasks[id] == w.tasks[id];
    }
  }

  lemma LinkedKept(w: World, a: Action, s: string, t: string)
    requires Inv(w) && Linked(w) && Enabled(w, a) && !Loses(w, a) && t in At(Next(w, a).subs, s)
    ensures s in At(Next(w, a).watchers, t) || BeingLinked(Next(w, a), s, t)
  {
    var w' := Next(w, a);
    if t in At(w.subs, s) {
      if BeingLinked(w, s, t) { BeingLinkedKept(w, a, s, t); }
    } else {
      assert a.id in w'.tasks && w'.tasks[a.id].Linking?;
    }
  }

  lemma LossIsReal(w: World, a: Action)
    requires Inv(w) && Linked(w) && Enabled(w, a) && Loses(w, a)
    ensures !Linked(Next(w, a))
  {
    var w' := Next(w, a);
    var k := w.tasks[a.id];
    var s, t := k.s, if k.Clearing? then a.pick else k.t;
    if k.Dropping? || k.ClearDropping? {
      s :| s in At(w.watchers, t) && Settled(w, s, t);
    }
    assert s !in At(w'.watchers, t) && t in At(w'.subs, s);
  }

  /** A step keeps every subscription recorded exactly when it is not one of those losing steps. */
  lemma StepKeepsLinkedIff(w: World, a: Action)
    requires Inv(w) && Linked(w) && Enabled(w, a)
    ensures Linked(Next(w, a)) <==> !Loses(w, a)
  {
    if Loses(w, a) {
      LossIsReal(w, a);
    } else {
      forall s, t | t in At(Next(w, a).subs, s)
        ensures s in At(Next(w, a).watchers, t) || BeingLinked(Next(w, a), s, t)
      {
        LinkedKept(w, a, s, t);
      }
    }
  }

  lemma {:induction false} Joined(w: World, run: seq<Action>, more: seq<Action>)
    requires ValidRun(w, run) && ValidRun(Final(w, run), more)
    ensures ValidRun(w, run + more) && Final(w, run + more) == Final(Final(w, run), more)
    decreases |run|
  {
    if run == [] {
      assert run + more == more;
    } else {
      Joined(Next(w, run[0]), run[1..], more);
      assert (run + more)[1..] == run[1..] + more;
    }
  }

  lemma TwoSteps(w: World, a: Action, b: Action)
    requires Enabled(w, a) && Enabled(Next(w, a), b)
    ensures ValidRun(w, [a, b]) && Final(w, [a, b]) == Next(Next(w, a), b)
  {
    assert [a, b][1..] == [b] && [b][1..] == [];
    assert ValidRun(Next(w, a), [b]) && Final(Next(w, a), [b]) == Next(Next(w, a), b);
  }

  /** One subscription to one target with nobody in between. */
  lemma SubscribeAlone(w: World, id: nat, s: string, t: string) returns (run: seq<Action>)
    requires id !in w.tasks && !Guarded(w, s)
    ensures ValidRun(w, run)
    ensures Final(w, run) ==
      w.(subs := w.subs[s := At(w.subs, s) + {t}], watchers := w.watchers[t := At(w.watchers, t) + {s}])
  {
    var go := Advance(id, t);
    var w1 := Next(w, StartSubscribe(id, s, [t]));
    var w2 := Next(w1, go);
    TwoSteps(w, StartSubscribe(id, s, [t]), go);
    var w3 := Next(w2, go);
    assert w2.tasks[id] == Linking(s, t, []);
    TwoSteps(w2, go, go);
    run := [StartSubscribe(id, s, [t]), go] + [go, go];
    Joined(w, [StartSubscribe(id, s, [t]), go], [go, go]);
    var end := Next(w3, go);
    assert end.tasks == w.tasks && end.subs == w.subs[s := At(w.subs, s) + {t}];
  }

  /** A lone subscriber is cleared, up to the gap before the emptied entry is removed. */
  lemma UpToTheGap(a: string, t: string) returns (run: seq<Action>)
    ensures ValidRun(EMPTY, run)
    ensures Final(EMPTY, run) == World(map[], map[t := {}], map[1 := ClearDropping(a, t, {})])
  {
    var leave, go := StartClear(1, a), Advance(1, t);
    run := SubscribeAlone(EMPTY, 1, a, t);
    var w := World(map[a := {t}], map[t := {a}], map[]);
    assert Final(EMPTY, run) == w by { assert {} + {a} == {a} && {} + {t} == {t}; }
    TwoSteps(w, leave, go);
    Joined(EMPTY, run, [leave, go]);
    run := run + [leave, go];
    assert {a} - {a} == {} && {t} - {t} == {};
  }

  /** The race the gap allows, for any two subscribers: `a` is cleared and its entry at `t` emptied, `b` subscribes to
      `t`, and then the late removal takes the entry with `b` in it. `b` stays subscribed and unrecorded. In the gap a
      clear holds no guard at all. */
  lemma LostWatcher(a: string, b: string, t: string) returns (run: seq<Action>)
    requires a != b
    ensures ValidRun(EMPTY, run)
    ensures
      var w := Final(EMPTY, run);
      w.tasks == map[] && t in At(w.subs, b) && b !in At(w.watchers, t)
  {
    var go := Advance(1, t);
    run := UpToTheGap(a, t);
    var refill := SubscribeAlone(Final(EMPTY, run), 2, b, t);
    Joined(EMPTY, run, refill);
    run := run + refill;
    TwoSteps(Final(EMPTY, run), go, go);
    Joined(EMPTY, run, [go, go]);
    run := run + [go, go];
  }
}
