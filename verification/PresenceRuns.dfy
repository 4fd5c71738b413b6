/** When concurrent presence calls leave the two indexes exactly inverse. */
module PresenceRuns {
  import opened Presence
  import opened PresenceSteps

  // ---------------------------------------------------------------- no empty entry is left behind

  ghost predicate BeingDropped(w: World, t: string) {
    exists id :: id in w.tasks && (w.tasks[id].Dropping? || w.tasks[id].ClearDropping?) && w.tasks[id].t == t
  }

  /** Every empty watcher entry has a task about to remove it. */
  ghost predicate Swept(w: World) {
    forall t :: t in w.watchers && w.watchers[t] == {} ==> BeingDropped(w, t)
  }

  lemma StepKeepsSwept(w: World, a: Action)
    requires Swept(w) && Enabled(w, a)
    ensures Swept(Next(w, a))
  {
    var w' := Next(w, a);
    forall t | t in w'.watchers && w'.watchers[t] == {} ensures BeingDropped(w', t) {
      if t in w.watchers && w.watchers[t] == {} {
        var id :| id in w.tasks && (w.tasks[id].Dropping? || w.tasks[id].ClearDropping?) && w.tasks[id].t == t;
        if id != a.id {
          OthersStay(w, a, id);
          assert id in w'.tasks && w'.tasks[id] == w.tasks[id];
        }
      } else {
        assert a.id in w'.tasks && (w'.tasks[a.id].Dropping? || w'.tasks[a.id].ClearDropping?) && w'.tasks[a.id].t == t;
      }
    }
  }

  lemma {:induction false} RunKeepsSwept(w: World, run: seq<Action>)
    requires Swept(w) && ValidRun(w, run)
    ensures Swept(Final(w, run))
    decreases |run|
  {
    if run != [] {
      StepKeepsSwept(w, run[0]);
      RunKeepsSwept(Next(w, run[0]), run[1..]);
    }
  }

  /** Whatever the interleaving, once no call is under way no target has an empty watcher set. */
  lemma NoEmptyEntries(run: seq<Action>)
    requires ValidRun(EMPTY, run) && Final(EMPTY, run).tasks == map[]
    ensures forall t :: t in Final(EMPTY, run).watchers ==> Final(EMPTY, run).watchers[t] != {}
  {
    RunKeepsSwept(EMPTY, run);
  }

  // ---------------------------------------------------------------- runs without a losing step

  /** No step of the run throws away a watcher it should have kept. */
  ghost predicate Harmless(w: World, run: seq<Action>)
    requires ValidRun(w, run)
    decreases |run|
  {
    run == [] || (!Loses(w, run[0]) && Harmless(Next(w, run[0]), run[1..]))
  }

  lemma {:induction false} HarmlessKeepsLinked(w: World, run: seq<Action>)
    requires Inv(w) && Linked(w) && ValidRun(w, run) && Harmless(w, run)
    ensures Linked(Final(w, run))
    decreases |run|
  {
    if run != [] {
      StepKeepsInv(w, run[0]);
      StepKeepsLinkedIff(w, run[0]);
      HarmlessKeepsLinked(Next(w, run[0]), run[1..]);
    }
  }

  /** A run without a losing step leaves, once no call is under way, the exact inverse: no watcher is missing, none is
      left over, and no entry is empty. */
  lemma HarmlessRunsEndInverse(run: seq<Action>)
    requires ValidRun(EMPTY, run) && Harmless(EMPTY, run) && Final(EMPTY, run).tasks == map[]
    ensures Final(EMPTY, run).watchers == Invert(Final(EMPTY, run).subs)
  {
    var w := Final(EMPTY, run);
    HarmlessKeepsLinked(EMPTY, run);
    NoGhostWatchers(run);
    NoEmptyEntries(run);
    QuietIsInverse(w);
  }

  lemma QuietIsInverse(w: World)
    requires Linked(w) && w.tasks == map[] && forall t :: t in w.watchers ==> w.watchers[t] != {}
    requires forall t, s :: s in At(w.watchers, t) ==> t in At(w.subs, s)
    ensures w.watchers == Invert(w.subs)
  {
    forall t ensures At(w.watchers, t) == Watching(w.subs, t) {
      forall s ensures s in At(w.watchers, t) <==> s in Watching(w.subs, t) {
        assert t in At(w.subs, s) ==> s in At(w.watchers, t) || BeingLinked(w, s, t);
      }
    }
    InvertIs(w.watchers, w.subs);
  }

  // ---------------------------------------------------------------- exactly what is missing

  /** A subscription that no watcher entry records and no task is about to. */
  ghost predicate Missing(w: World, s: string, t: string) {
    Settled(w, s, t) && s !in At(w.watchers, t)
  }

  /** The step takes the watcher of `s` at `t` away although `s` stays subscribed. */
  ghost predicate Throws(w: World, a: Action, s: string, t: string) {
    && a.Advance? && a.id in w.tasks && Settled(w, s, t) && s in At(w.watchers, t)
    && match w.tasks[a.id]
       case Dropping(_, t', _) => t' == t
       case ClearDropping(_, t', _) => t' == t
       case Clearing(s', left) => left != {} && s' == s && a.pick == t
       case _ => false
  }

  /** What a run has thrown away and neither subscribed to again nor unsubscribed since. */
  ghost predicate Lost(w: World, run: seq<Action>, s: string, t: string)
    requires ValidRun(w, run)
    decreases |run|
  {
    && run != []
    && Settled(Final(w, run), s, t)
    && (LostBefore(w, run, s, t) || Throws(Final(w, run[..|run| - 1]), run[|run| - 1], s, t))
  }

  ghost predicate LostBefore(w: World, run: seq<Action>, s: string, t: string)
    requires ValidRun(w, run) && run != []
    ensures ValidRun(w, run[..|run| - 1])
    decreases |run|, 0
  {
    FrontIsRun(w, run);
    Lost(w, run[..|run| - 1], s, t)
  }

  lemma {:induction false} FrontIsRun(w: World, run: seq<Action>)
    requires ValidRun(w, run) && run != []
    ensures ValidRun(w, run[..|run| - 1])
    ensures
      var before, last := Final(w, run[..|run| - 1]), run[|run| - 1];
      Enabled(before, last) && Final(w, run) == Next(before, last)
    decreases |run|
  {
    if |run| > 1 {
      FrontIsRun(Next(w, run[0]), run[1..]);
      assert run[..|run| - 1][1..] == run[1..][..|run| - 2];
      assert run[1..][|run| - 2] == run[|run| - 1];
    }
  }

  lemma MissingStep(w: World, a: Action, s: string, t: string)
    requires Inv(w) && Enabled(w, a)
    ensures Missing(Next(w, a), s, t) <==> Settled(Next(w, a), s, t) && (Missing(w, s, t) || Throws(w, a, s, t))
  {
    var w' := Next(w, a);
    if BeingLinked(w, s, t) { BeingLinkedKept(w, a, s, t); }
    if a.Advance? { assert KnowsEntry(w, w.tasks[a.id]); }
    if t in At(w'.subs, s) && t !in At(w.subs, s) {
      assert a.id in w'.tasks && w'.tasks[a.id].Linking?;
    }
    if s in At(w'.watchers, t) && s !in At(w.watchers, t) {
      assert a.id in w.tasks && w.tasks[a.id].Linking?;
    }
  }

  /** In every interleaved run the missing watchers are exactly the lost ones. */
  lemma {:induction false} MissingAreLost(run: seq<Action>, s: string, t: string)
    requires ValidRun(EMPTY, run)
    ensures Missing(Final(EMPTY, run), s, t) <==> Lost(EMPTY, run, s, t)
    decreases |run|
  {
    if run != [] {
      FrontIsRun(EMPTY, run);
      var front := run[..|run| - 1];
      MissingAreLost(front, s, t);
      RunKeepsInv(EMPTY, front);
      MissingStep(Final(EMPTY, front), run[|run| - 1], s, t);
    }
  }

  ghost predicate NothingLost(run: seq<Action>)
    requires ValidRun(EMPTY, run)
  {
    forall s, t :: !Lost(EMPTY, run, s, t)
  }

  /** So once no call is under way the indexes are exactly inverse if and only if nothing is lost. */
  lemma InverseIff(run: seq<Action>)
    requires ValidRun(EMPTY, run) && Final(EMPTY, run).tasks == map[]
    ensures Final(EMPTY, run).watchers == Invert(Final(EMPTY, run).subs) <==> NothingLost(run)
  {
    var w := Final(EMPTY, run);
    forall s, t ensures Missing(w, s, t) <==> Lost(EMPTY, run, s, t) { MissingAreLost(run, s, t); }
    NoGhostWatchers(run);
    NoEmptyEntries(run);
    if NothingLost(run) {
      forall s, t | t in At(w.subs, s) ensures s in At(w.watchers, t) { assert !Missing(w, s, t); }
      QuietIsInverse(w);
    } else {
      var s, t :| Lost(EMPTY, run, s, t);
      InvertMember(w.subs, t);
      assert Missing(w, s, t);
      assert s in At(Invert(w.subs), t) && s !in At(w.watchers, t);
      assert w.watchers != Invert(w.subs);
    }
  }

  // ---------------------------------------------------------------- calls that keep apart

  /** A call under way: whether it takes subscriptions away, and the targets it is about. */
  datatype Call = Call(removes: bool, targets: set<string>)

  /** The call a start action makes. A clear is about everything its subscriber watches. */
  function CallOf(w: World, a: Action): Call
    requires !a.Advance?
  {
    match a
    case StartSubscribe(_, _, ts) => Call(false, ToSet(ts))
    case StartUnsubscribe(_, _, ts) => Call(true, ToSet(ts))
    case StartClear(_, s) => Call(true, At(w.subs, s))
  }

  /** The calls under way after the action. */
  function CallsAfter(w: World, calls: map<nat, Call>, a: Action): map<nat, Call>
    requires a.Advance? ==> a.id in w.tasks
  {
    if a.id !in Next(w, a).tasks then calls - {a.id} else if a.Advance? then calls else calls[a.id := CallOf(w, a)]
  }

  predicate Disjoint(c: Call, d: Call) {
    c.removes || d.removes ==> c.targets !! d.targets
  }

  /** No call that takes subscriptions away is under way together with another call about one of its targets. */
  ghost predicate Orderly(w: World, calls: map<nat, Call>, run: seq<Action>)
    requires ValidRun(w, run)
    decreases |run|
  {
    run == []
    || (&& (run[0].Advance? || forall j :: j in calls ==> Disjoint(CallOf(w, run[0]), calls[j]))
        && Orderly(Next(w, run[0]), CallsAfter(w, calls, run[0]), run[1..]))
  }

  /** The targets a task has still to deal with. */
  function Reach(k: Task): set<string> {
    match k
    case Adding(_, todo) => ToSet(todo)
    case Linking(_, t, todo) => {t} + ToSet(todo)
    case Removing(_, todo) => ToSet(todo)
    case Unlinking(_, t, todo) => {t} + ToSet(todo)
    case Dropping(_, t, todo) => {t} + ToSet(todo)
    case Clearing(_, left) => left
    case ClearDropping(_, t, left) => {t} + left
  }

  predicate Within(k: Task, c: Call) {
    Reach(k) <= c.targets && (c.removes <==> !k.Adding? && !k.Linking?)
  }

  /** Nobody came between: the emptied entry is still empty, and what is being cleared was not asked for again. */
  predicate Undisturbed(w: World, k: Task) {
    && (k.Dropping? || k.ClearDropping? ==> At(w.watchers, k.t) == {})
    && (k.Clearing? || k.ClearDropping? ==> k.left !! At(w.subs, k.s))
  }

  ghost predicate Apartness(w: World, calls: map<nat, Call>) {
    && w.tasks.Keys == calls.Keys
    && (forall i :: i in calls ==> Within(w.tasks[i], calls[i]) && Undisturbed(w, w.tasks[i]))
    && (forall i, j :: i in calls && j in calls && i != j ==> Disjoint(calls[i], calls[j]))
  }

  lemma ApartMeansHarmless(w: World, calls: map<nat, Call>, a: Action)
    requires Apartness(w, calls) && Enabled(w, a)
    ensures !Loses(w, a)
  {
    if a.Advance? { assert Undisturbed(w, w.tasks[a.id]); }
  }

  lemma ToSetSplit(ts: seq<string>)
    ensures ts != [] ==> ToSet(ts) == {ts[0]} + ToSet(ts[1..])
  {
  }

  /** The acting task stays within its call. */
  lemma ActorWithin(w: World, a: Action, c: Call)
    requires Enabled(w, a) && a.id in Next(w, a).tasks
    requires if a.Advance? then Within(w.tasks[a.id], c) else c == CallOf(w, a)
    ensures Within(Next(w, a).tasks[a.id], c)
  {
    if a.Advance? {
      var k := w.tasks[a.id];
      if k.Adding? || k.Removing? { ToSetSplit(k.todo); }
    }
  }

  lemma ActorUndisturbed(w: World, a: Action)
    requires Enabled(w, a) && a.id in Next(w, a).tasks && (a.Advance? ==> Undisturbed(w, w.tasks[a.id]))
    ensures Undisturbed(Next(w, a), Next(w, a).tasks[a.id])
  {
  }

  /** An empty entry is filled, and a subscription taken up, only by a call that is about the target. */
  lemma OnlyCallsAboutIt(w: World, a: Action, c: Call, s: string, t: string)
    requires Enabled(w, a) && (a.Advance? ==> Within(w.tasks[a.id], c)) &&
      (a.Advance? && !c.removes ==> t !in c.targets)
    ensures At(w.watchers, t) == {} ==> At(Next(w, a).watchers, t) == {}
    ensures t !in At(w.subs, s) ==> t !in At(Next(w, a).subs, s)
  {
    if a.Advance? {
      var k := w.tasks[a.id];
      if k.Adding? { ToSetSplit(k.todo); }
    }
  }

  lemma OthersUndisturbed(w: World, calls: map<nat, Call>, a: Action, i: nat)
    requires Apartness(w, calls) && Enabled(w, a) && i in w.tasks && i != a.id
    ensures Undisturbed(Next(w, a), w.tasks[i])
  {
    var k := w.tasks[i];
    assert Within(k, calls[i]) && Undisturbed(w, k);
    var c := if a.Advance? then calls[a.id] else Call(true, {});
    if a.Advance? { assert Within(w.tasks[a.id], c) && Disjoint(calls[i], c); }
    if calls[i].removes {
      forall t | t in Reach(k)
        ensures At(w.watchers, t) == {} ==> At(Next(w, a).watchers, t) == {}
        ensures t !in At(w.subs, k.s) ==> t !in At(Next(w, a).subs, k.s)
      {
        OnlyCallsAboutIt(w, a, c, k.s, t);
      }
    }
  }

  lemma StepKeepsApart(w: World, calls: map<nat, Call>, a: Action)
    requires Apartness(w, calls) && Enabled(w, a)
    requires a.Advance? || forall j :: j in calls ==> Disjoint(CallOf(w, a), calls[j])
    ensures Apartness(Next(w, a), CallsAfter(w, calls, a))
  {
    var w', calls' := Next(w, a), CallsAfter(w, calls, a);
    forall i | i in calls' ensures i in w'.tasks && Within(w'.tasks[i], calls'[i]) && Undisturbed(w', w'.tasks[i]) {
      if i == a.id {
        if a.Advance? { assert Within(w.tasks[i], calls[i]) && Undisturbed(w, w.tasks[i]); }
        ActorWithin(w, a, calls'[i]);
        ActorUndisturbed(w, a);
      } else {
        OthersStay(w, a, i);
        OthersUndisturbed(w, calls, a, i);
      }
    }
    forall i | i in w'.tasks ensures i in calls' {
      if i != a.id { OthersStay(w, a, i); }
    }
  }

  lemma {:induction false} OrderlyIsHarmless(w: World, calls: map<nat, Call>, run: seq<Action>)
    requires Apartness(w, calls) && ValidRun(w, run) && Orderly(w, calls, run)
    ensures Harmless(w, run)
    decreases |run|
  {
    if run != [] {
      ApartMeansHarmless(w, calls, run[0]);
      StepKeepsApart(w, calls, run[0]);
      OrderlyIsHarmless(Next(w, run[0]), CallsAfter(w, calls, run[0]), run[1..]);
    }
  }

  /** So calls that keep apart, however they interleave, leave the indexes exactly inverse. */
  lemma OrderlyRunsEndInverse(run: seq<Action>)
    requires ValidRun(EMPTY, run) && Orderly(EMPTY, map[], run) && Final(EMPTY, run).tasks == map[]
    ensures Final(EMPTY, run).watchers == Invert(Final(EMPTY, run).subs)
  {
    OrderlyIsHarmless(EMPTY, map[], run);
    HarmlessRunsEndInverse(run);
  }
}
