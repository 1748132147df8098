/** What holds in every state a session can reach, whatever order its handlers' steps come in. */
module FirewallInvariants {
  import opened Basics
  import opened FirewallSession

  // ---------------------------------------------------------------- numbers

  lemma NoRepeatsConcat<T(!new)>(a: seq<T>, b: seq<T>)
    requires NoRepeats(a) && NoRepeats(b) && forall x | x in b :: x !in a
    ensures NoRepeats(a + b)
  {
    forall i, j | 0 <= i < j < |a + b| ensures (a + b)[i] != (a + b)[j] {
      if i < |a| <= j {
        assert (a + b)[j] in b && (a + b)[i] in a;
      }
    }
  }

  lemma {:induction false} NumbersAre(base: nat, rulings: seq<Ruling>, which: set<Ruling>)
    ensures forall u :: u in Numbers(base, rulings, which) <==>
      base <= u < base + |rulings| && rulings[u - base] in which
    ensures NoRepeats(Numbers(base, rulings, which))
  {
    if rulings != [] {
      var front := rulings[..|rulings| - 1];
      NumbersAre(base, front, which);
      var last := if rulings[|rulings| - 1] in which then [base + |rulings| - 1] else [];
      forall u ensures u in Numbers(base, rulings, which) <==>
        base <= u < base + |rulings| && rulings[u - base] in which
      {
        assert u in Numbers(base, rulings, which) <==> u in Numbers(base, front, which) || u in last;
      }
      NoRepeatsConcat(Numbers(base, front, which), last);
    }
  }

  lemma {:induction false} OwedAre(base: nat, items: seq<Item>, rulings: seq<Ruling>, withId: bool)
    requires |rulings| <= |items|
    ensures forall u :: u in Owed(base, items, rulings, withId) <==>
      base <= u < base + |rulings| && rulings[u - base].Forward?
      && items[u - base].Item? && items[u - base].message.id.Some? == withId
    ensures NoRepeats(Owed(base, items, rulings, withId))
  {
    if rulings != [] {
      var n := |rulings| - 1;
      var front := rulings[..n];
      OwedAre(base, items, front, withId);
      var owes := rulings[n].Forward? && items[n].Item? && items[n].message.id.Some? == withId;
      var last := if owes then [base + n] else [];
      forall u ensures u in Owed(base, items, rulings, withId) <==>
        base <= u < base + |rulings| && rulings[u - base].Forward?
        && items[u - base].Item? && items[u - base].message.id.Some? == withId
      {
        assert u in Owed(base, items, rulings, withId) <==> u in Owed(base, items, front, withId) || u in last;
      }
      NoRepeatsConcat(Owed(base, items, front, withId), last);
    }
  }

  // ---------------------------------------------------------------- the invariant

  ghost predicate InTask(task: Task, u: nat) {
    task.base <= u < task.base + |task.items|
  }

  ghost predicate UnderWay(w: World, u: nat) {
    exists t :: t in w.tasks && InTask(w.tasks[t], u)
  }

  /** The one place a client message is in. */
  ghost predicate Done(w: World, u: nat) {
    u in w.written || u in w.answered || u in w.silent || u in w.thrown
  }

  /** A ruling that fits its item. */
  ghost predicate Fits(item: Item, ruling: Ruling) {
    match ruling
    case Forward => item.Item?
    case Refuse => IsCall(item) && item.message.id.Some?
    case Silence => IsCall(item) && item.message.id.None?
    case Invalid => item.Junk?
  }

  /** A call's ruling is its verdict's. */
  ghost predicate FollowsVerdict(verdicts: map<nat, bool>, u: nat, item: Item, ruling: Ruling) {
    IsCall(item) ==> u in verdicts && verdicts[u] == ruling.Forward?
  }

  ghost predicate TaskOk(setup: Setup, w: World, t: nat, task: Task) {
    && t < w.nextTask
    && task.base + |task.items| <= w.nextUid
    && |task.rulings| <= |task.items|
    && (forall u: nat | InTask(task, u) && u < CurrentUid(task) ::
         Fits(ItemAt(task, u), RulingAt(task, u))
         && FollowsVerdict(w.verdicts, u, ItemAt(task, u), RulingAt(task, u)))
    && (forall u: nat | InTask(task, u) && ItemAt(task, u).Item? ::
         u in w.messages && w.messages[u] == ItemAt(task, u).message)
    && (forall u: nat | InTask(task, u) && ItemAt(task, u).Junk? :: u !in w.messages)
  }

  ghost function ItemAt(task: Task, u: nat): Item
    requires InTask(task, u)
  {
    task.items[u - task.base]
  }

  ghost function RulingAt(task: Task, u: nat): Ruling
    requires InTask(task, u) && u < CurrentUid(task)
  {
    task.rulings[u - task.base]
  }

  /** A handler under way waits at a call, whose verdict is given exactly once it is ruled. */
  ghost predicate AtCall(setup: Setup, w: World, task: Task) {
    && |task.rulings| < |task.items|
    && IsCall(task.items[|task.rulings|])
    && (task.stage.Ruled? <==> CurrentUid(task) in w.verdicts)
    && (task.stage.Ruled? ==> w.verdicts[CurrentUid(task)] == task.stage.allow)
    && (task.stage.Asking? ==> setup.filter(Current(task).call.name))
    && (forall u: nat | InTask(task, u) && u > CurrentUid(task) :: u !in w.verdicts)
  }

  ghost predicate TasksOk(setup: Setup, w: World) {
    && (forall t | t in w.tasks :: TaskOk(setup, w, t, w.tasks[t]) && AtCall(setup, w, w.tasks[t]))
    && (forall t, t', u: nat | t in w.tasks && t' in w.tasks && InTask(w.tasks[t], u) && InTask(w.tasks[t'], u) ::
      t == t')
  }

  ghost predicate PlacesOk(w: World) {
    && NoRepeats(w.written) && NoRepeats(w.answered)
    && (forall u | u in w.written :: u !in w.answered && u !in w.silent && u !in w.thrown)
    && (forall u | u in w.answered :: u !in w.silent && u !in w.thrown)
    && (forall u | u in w.silent :: u !in w.thrown)
    && (forall u: nat :: u < w.nextUid <==> Done(w, u) || UnderWay(w, u))
    && (forall u: nat | Done(w, u) :: !UnderWay(w, u))
  }

  /** What is known of a message from the place it ended in. */
  ghost predicate EndsOk(w: World) {
    && (forall u | u in w.written ::
         u in w.messages && (w.messages[u].verb.ToolsCall? ==> u in w.verdicts && w.verdicts[u]))
    && (forall u | u in w.answered && u in w.messages :: w.messages[u].id.Some?)
    && (forall u | u in w.silent :: u in w.messages && w.messages[u].id.None?)
    && (forall u | u in w.messages :: u < w.nextUid)
  }

  ghost predicate VerdictsOk(setup: Setup, w: World) {
    forall u | u in w.verdicts ::
      && u in w.messages && w.messages[u].verb.ToolsCall?
      && (w.verdicts[u] ==> setup.filter(w.messages[u].call.name))
  }

  ghost predicate Inv(setup: Setup, s: State) {
    TasksOk(setup, s.world) && PlacesOk(s.world) && EndsOk(s.world) && VerdictsOk(setup, s.world)
  }

  // ---------------------------------------------------------------- steps keep it

  lemma StartInv(setup: Setup)
    ensures Inv(setup, Start())
  {
  }

  /** A handler being worked on: its task fits, nothing else under way overlaps it, and all of
      its items are still where nothing has happened to them. */
  ghost predicate Working(setup: Setup, w: World, t: nat, task: Task) {
    Held(setup, w, t, task) && Unruled(w, task)
  }

  /** The same, whether or not the call the handler is at has its verdict. */
  ghost predicate Held(setup: Setup, w: World, t: nat, task: Task) {
    && TaskOk(setup, w, t, task)
    && OthersOk(setup, w, t, task)
    && PlacesBut(w, t, task)
    && EndsOk(w) && VerdictsOk(setup, w)
  }

  ghost predicate OthersOk(setup: Setup, w: World, t: nat, task: Task) {
    && (forall t' | t' in w.tasks && t' != t :: TaskOk(setup, w, t', w.tasks[t']) && AtCall(setup, w, w.tasks[t']))
    && (forall t', t'', u: nat | t' in w.tasks && t'' in w.tasks && t' != t && t'' != t
         && InTask(w.tasks[t'], u) && InTask(w.tasks[t''], u) :: t' == t'')
    && (forall t', u: nat | t' in w.tasks && t' != t && InTask(task, u) :: !InTask(w.tasks[t'], u))
  }

  ghost predicate PlacesBut(w: World, t: nat, task: Task) {
    && NoRepeats(w.written) && NoRepeats(w.answered)
    && (forall u | u in w.written :: u !in w.answered && u !in w.silent && u !in w.thrown)
    && (forall u | u in w.answered :: u !in w.silent && u !in w.thrown)
    && (forall u | u in w.silent :: u !in w.thrown)
    && (forall u: nat :: u < w.nextUid <==> Done(w, u) || InTask(task, u) || UnderWayBut(w, t, u))
    && (forall u: nat | Done(w, u) :: !InTask(task, u) && !UnderWayBut(w, t, u))
  }

  ghost predicate Unruled(w: World, task: Task) {
    forall u: nat | InTask(task, u) && u >= CurrentUid(task) :: u !in w.verdicts
  }

  ghost predicate UnderWayBut(w: World, t: nat, u: nat) {
    exists t' :: t' in w.tasks && t' != t && InTask(w.tasks[t'], u)
  }

  /** Where finishing a line puts each of its items. */
  ghost predicate IsWritten(task: Task, accepts: bool, u: nat)
    requires |task.rulings| == |task.items|
  {
    accepts && InTask(task, u) && task.rulings[u - task.base].Forward?
  }

  ghost predicate IsAnswered(task: Task, accepts: bool, u: nat)
    requires |task.rulings| == |task.items|
  {
    && InTask(task, u)
    && match task.rulings[u - task.base]
       case Forward => !accepts && task.items[u - task.base].Item? && task.items[u - task.base].message.id.Some?
       case Refuse => true
       case Invalid => true
       case Silence => false
  }

  ghost predicate IsSilent(task: Task, accepts: bool, u: nat)
    requires |task.rulings| == |task.items|
  {
    && InTask(task, u)
    && match task.rulings[u - task.base]
       case Forward => !accepts && task.items[u - task.base].Item? && task.items[u - task.base].message.id.None?
       case Silence => true
       case _ => false
  }

  lemma NowPlaces(task: Task, accepts: bool)
    requires |task.rulings| == |task.items|
    ensures NoRepeats(NowWritten(task, accepts)) && NoRepeats(NowAnswered(task, accepts))
    ensures forall u :: u in NowWritten(task, accepts) <==> IsWritten(task, accepts, u)
    ensures forall u :: u in NowAnswered(task, accepts) <==> IsAnswered(task, accepts, u)
    ensures forall u :: u in NowSilent(task, accepts) <==> IsSilent(task, accepts, u)
  {
    hide Numbers;
    hide Owed;
    NumbersAre(task.base, task.rulings, {Forward});
    NumbersAre(task.base, task.rulings, {Refuse, Invalid});
    NumbersAre(task.base, task.rulings, {Silence});
    OwedAre(task.base, task.items, task.rulings, true);
    OwedAre(task.base, task.items, task.rulings, false);
    NoRepeatsConcat(
      if accepts then [] else Owed(task.base, task.items, task.rulings, true),
      Numbers(task.base, task.rulings, {Refuse, Invalid}));
  }

  lemma FinishPlaces(s: State, t: nat, task: Task, accepts: bool)
    requires |task.rulings| == |task.items|
    requires NoRepeats(s.world.written) && NoRepeats(s.world.answered)
    requires forall u: nat | InTask(task, u) :: u !in s.world.written && u !in s.world.answered
    ensures var w, w' := s.world, Finish(s, t, task, accepts).world;
      && NoRepeats(w'.written) && NoRepeats(w'.answered)
      && (forall u :: u in w'.written <==> u in w.written || IsWritten(task, accepts, u))
      && (forall u :: u in w'.answered <==> u in w.answered || IsAnswered(task, accepts, u))
      && (forall u :: u in w'.silent <==> u in w.silent || IsSilent(task, accepts, u))
  {
    hide NowWritten;
    hide NowAnswered;
    hide NowSilent;
    NowPlaces(task, accepts);
    NoRepeatsConcat(s.world.written, NowWritten(task, accepts));
    NoRepeatsConcat(s.world.answered, NowAnswered(task, accepts));
  }

  lemma FinishKeeps(setup: Setup, s: State, t: nat, task: Task, accepts: bool)
    requires Working(setup, s.world, t, task) && |task.rulings| == |task.items|
    ensures Inv(setup, Finish(s, t, task, accepts))
  {
    FinishTasks(setup, s, t, task, accepts);
    FinishKeepsPlaces(setup, s, t, task, accepts);
    FinishEnds(setup, s, t, task, accepts);
  }

  lemma NotDoneYet(setup: Setup, w: World, t: nat, task: Task)
    requires Working(setup, w, t, task)
    ensures forall u: nat | InTask(task, u) :: !Done(w, u)
  {
  }

  lemma FinishTasks(setup: Setup, s: State, t: nat, task: Task, accepts: bool)
    requires Working(setup, s.world, t, task) && |task.rulings| == |task.items|
    ensures TasksOk(setup, Finish(s, t, task, accepts).world)
  {
    hide NowWritten;
    hide NowAnswered;
    hide NowSilent;
    hide InTask;
    hide PlacesOk;
    hide EndsOk;
    hide VerdictsOk;
    hide Done;
    hide UnderWayBut;
  }

  lemma RemovedUnderWay(w: World, t: nat, w': World)
    requires w'.tasks == w.tasks - {t}
    ensures forall u: nat :: UnderWay(w', u) <==> UnderWayBut(w, t, u)
  {
    hide InTask;
    forall u: nat ensures UnderWay(w', u) <==> UnderWayBut(w, t, u) {
      if UnderWay(w', u) {
        var x :| x in w'.tasks && InTask(w'.tasks[x], u);
        assert x in w.tasks && x != t && InTask(w.tasks[x], u);
      }
      if UnderWayBut(w, t, u) {
        var x :| x in w.tasks && x != t && InTask(w.tasks[x], u);
        assert x in w'.tasks && InTask(w'.tasks[x], u);
      }
    }
  }

  lemma FinishKeepsPlaces(setup: Setup, s: State, t: nat, task: Task, accepts: bool)
    requires Working(setup, s.world, t, task) && |task.rulings| == |task.items|
    ensures PlacesOk(Finish(s, t, task, accepts).world)
  {
    hide NowWritten;
    hide NowAnswered;
    hide NowSilent;
    hide FollowsVerdict;
    hide AtCall;
    hide EndsOk;
    hide VerdictsOk;
    var w, w' := s.world, Finish(s, t, task, accepts).world;
    NotDoneYet(setup, w, t, task);
    FinishPlaces(s, t, task, accepts);
    RemovedUnderWay(w, t, w');
    forall u: nat | InTask(task, u)
      ensures IsWritten(task, accepts, u) || IsAnswered(task, accepts, u) || IsSilent(task, accepts, u)
    {
      assert Fits(ItemAt(task, u), RulingAt(task, u));
    }
  }

  lemma FinishEnds(setup: Setup, s: State, t: nat, task: Task, accepts: bool)
    requires Working(setup, s.world, t, task) && |task.rulings| == |task.items|
    ensures EndsOk(Finish(s, t, task, accepts).world) && VerdictsOk(setup, Finish(s, t, task, accepts).world)
  {
    hide NowWritten;
    hide NowAnswered;
    hide NowSilent;
    hide AtCall;
    hide UnderWayBut;
    var w := s.world;
    NotDoneYet(setup, w, t, task);
    FinishPlaces(s, t, task, accepts);
    forall u: nat | InTask(task, u)
      ensures Fits(ItemAt(task, u), RulingAt(task, u))
        && FollowsVerdict(w.verdicts, u, ItemAt(task, u), RulingAt(task, u))
    {
      assert u < CurrentUid(task);
    }
  }

  /** A handler back at a call takes its place among those under way. */
  lemma PutKeeps(setup: Setup, s: State, t: nat, task: Task)
    requires Held(setup, s.world, t, task) && AtCall(setup, s.world, task)
    ensures Inv(setup, s.(world := s.world.(tasks := s.world.tasks[t := task])))
  {
    var w := s.world;
    var w' := w.(tasks := w.tasks[t := task]);
    PutTasks(setup, w, t, task);
    PutUnderWay(w, t, task);
    assert EndsOk(w') && VerdictsOk(setup, w');
    forall u: nat ensures Done(w', u) <==> Done(w, u) {
    }
  }

  lemma PutTasks(setup: Setup, w: World, t: nat, task: Task)
    requires Held(setup, w, t, task) && AtCall(setup, w, task)
    ensures TasksOk(setup, w.(tasks := w.tasks[t := task]))
  {
    hide InTask;
    hide Done;
    hide UnderWayBut;
    hide EndsOk;
    hide VerdictsOk;
    hide FollowsVerdict;
    hide Fits;
  }

  lemma PutUnderWay(w: World, t: nat, task: Task)
    ensures forall u: nat ::
      UnderWay(w.(tasks := w.tasks[t := task]), u) <==> InTask(task, u) || UnderWayBut(w, t, u)
  {
    hide InTask;
    var w' := w.(tasks := w.tasks[t := task]);
    forall u: nat ensures UnderWay(w', u) <==> InTask(task, u) || UnderWayBut(w, t, u) {
      if UnderWay(w', u) {
        var x :| x in w'.tasks && InTask(w'.tasks[x], u);
        assert x == t || (x in w.tasks && InTask(w.tasks[x], u));
      }
      if InTask(task, u) {
        assert t in w'.tasks && InTask(w'.tasks[t], u);
      }
      if UnderWayBut(w, t, u) {
        var x :| x in w.tasks && x != t && InTask(w.tasks[x], u);
        assert x in w'.tasks && InTask(w'.tasks[x], u);
      }
    }
  }

  /** Ruling on what needs no verdict leaves a handler fit to finish or to wait. */
  lemma AheadFits(setup: Setup, w: World, t: nat, task: Task)
    requires |task.rulings| <= |task.items| && Working(setup, w, t, task)
    ensures var ahead := task.(rulings := RuleAhead(task.items, task.rulings), stage := AwaitsRules);
      && Working(setup, w, t, ahead)
      && (|ahead.rulings| < |ahead.items| ==> AtCall(setup, w, ahead))
  {
    var rulings := RuleAhead(task.items, task.rulings);
    var ahead := task.(rulings := rulings, stage := AwaitsRules);
    AheadTask(setup, w, t, task);
    assert forall u: nat :: InTask(ahead, u) <==> InTask(task, u);
    if |rulings| < |task.items| {
      assert InTask(ahead, CurrentUid(ahead));
    }
  }

  lemma AheadTask(setup: Setup, w: World, t: nat, task: Task)
    requires |task.rulings| <= |task.items| && TaskOk(setup, w, t, task)
    ensures TaskOk(setup, w, t, task.(rulings := RuleAhead(task.items, task.rulings), stage := AwaitsRules))
  {
    var rulings := RuleAhead(task.items, task.rulings);
    var ahead := task.(rulings := rulings, stage := AwaitsRules);
    forall u: nat | InTask(ahead, u) && u < CurrentUid(ahead)
      ensures Fits(ItemAt(ahead, u), RulingAt(ahead, u))
        && FollowsVerdict(w.verdicts, u, ItemAt(ahead, u), RulingAt(ahead, u))
    {
      assert InTask(task, u) && ItemAt(task, u) == ItemAt(ahead, u);
      if u < CurrentUid(task) {
        assert RulingAt(ahead, u) == RulingAt(task, u);
      }
    }
    forall u: nat | InTask(ahead, u) ensures InTask(task, u) && ItemAt(ahead, u) == ItemAt(task, u) {
    }
  }

  lemma ContinueKeeps(setup: Setup, s: State, t: nat, task: Task, accepts: bool)
    requires |task.rulings| <= |task.items| && Working(setup, s.world, t, task)
    ensures Inv(setup, Continue(s, t, task, accepts))
  {
    hide Working;
    hide AtCall;
    hide Inv;
    hide Finish;
    var rulings := RuleAhead(task.items, task.rulings);
    var next := s.(listIds := s.listIds + ListIdsIn(task.items, |task.rulings|, |rulings|));
    var ahead := task.(rulings := rulings, stage := AwaitsRules);
    AheadFits(setup, s.world, t, task);
    if |rulings| == |task.items| {
      FinishKeeps(setup, next, t, ahead, accepts);
    } else {
      PutKeeps(setup, next, t, ahead);
    }
  }

  /** The part of the world the invariant speaks of. */
  ghost predicate SameCore(w: World, w': World) {
    && w'.nextUid == w.nextUid && w'.nextTask == w.nextTask && w'.tasks == w.tasks
    && w'.messages == w.messages && w'.verdicts == w.verdicts && w'.written == w.written
    && w'.answered == w.answered && w'.silent == w.silent && w'.thrown == w.thrown
  }

  lemma SameCoreKeeps(setup: Setup, s: State, s': State)
    requires Inv(setup, s) && SameCore(s.world, s'.world)
    ensures Inv(setup, s')
  {
    SameTasks(setup, s.world, s'.world);
    SamePlaces(s.world, s'.world);
  }

  lemma SameTasks(setup: Setup, w: World, w': World)
    requires TasksOk(setup, w) && SameCore(w, w')
    ensures TasksOk(setup, w')
  {
    hide InTask;
    hide Fits;
    hide FollowsVerdict;
    forall t | t in w'.tasks ensures TaskOk(setup, w', t, w'.tasks[t]) && AtCall(setup, w', w'.tasks[t]) {
      assert TaskOk(setup, w, t, w.tasks[t]) && AtCall(setup, w, w.tasks[t]);
    }
  }

  lemma SamePlaces(w: World, w': World)
    requires PlacesOk(w) && SameCore(w, w')
    ensures PlacesOk(w')
  {
    hide InTask;
    hide NoRepeats;
    forall u: nat ensures (Done(w', u) <==> Done(w, u)) && (UnderWay(w', u) <==> UnderWay(w, u)) {
    }
  }

  /** In an invariant state each handler under way may be worked on. */
  lemma TakeUp(setup: Setup, s: State, t: nat)
    requires Inv(setup, s) && t in s.world.tasks
    ensures TaskOk(setup, s.world, t, s.world.tasks[t]) && AtCall(setup, s.world, s.world.tasks[t])
    ensures forall u: nat | InTask(s.world.tasks[t], u) :: !Done(s.world, u) && !UnderWayBut(s.world, t, u)
    ensures forall u: nat :: UnderWay(s.world, u) <==> InTask(s.world.tasks[t], u) || UnderWayBut(s.world, t, u)
    ensures forall t', u: nat | t' in s.world.tasks && t' != t && InTask(s.world.tasks[t], u) ::
      !InTask(s.world.tasks[t'], u)
  {
    hide EndsOk;
    hide VerdictsOk;
    hide TaskOk;
    hide AtCall;
    hide InTask;
    var w := s.world;
    forall u: nat ensures UnderWay(w, u) <==> InTask(w.tasks[t], u) || UnderWayBut(w, t, u) {
      if UnderWay(w, u) && !InTask(w.tasks[t], u) {
        var x :| x in w.tasks && InTask(w.tasks[x], u);
        assert x in w.tasks && x != t && InTask(w.tasks[x], u);
      }
    }
    forall u: nat | InTask(w.tasks[t], u) ensures !Done(w, u) && !UnderWayBut(w, t, u) {
      assert UnderWay(w, u);
    }
  }

  /** New numbers take new messages, and leave the old ones as they were. */
  lemma ArriveMessages(w: World, items: seq<Item>, messages: map<nat, Message>)
    requires EndsOk(w) && messages == w.messages + MessagesIn(w.nextUid, items)
    ensures forall u | u in messages :: u < w.nextUid + |items|
    ensures forall u: nat | u < w.nextUid ::
      (u in messages <==> u in w.messages) && (u in w.messages ==> messages[u] == w.messages[u])
    ensures forall u: nat | w.nextUid <= u < w.nextUid + |items| ::
      (u in messages <==> items[u - w.nextUid].Item?)
      && (u in messages ==> messages[u] == items[u - w.nextUid].message)
  {
    var found := MessagesIn(w.nextUid, items);
    hide MessagesIn;
    forall u: nat | w.nextUid <= u < w.nextUid + |items|
      ensures (u in messages <==> items[u - w.nextUid].Item?)
        && (u in messages ==> messages[u] == items[u - w.nextUid].message)
    {
      assert u !in w.messages;
      assert u in found <==> items[u - w.nextUid].Item?;
    }
  }

  lemma ArriveTask(setup: Setup, w: World, w': World, task: Task)
    requires EndsOk(w) && VerdictsOk(setup, w)
    requires task == Task(w.nextUid, task.items, [], AwaitsRules)
    requires w' == w.(nextUid := w.nextUid + |task.items|, nextTask := w.nextTask + 1,
      messages := w.messages + MessagesIn(w.nextUid, task.items))
    ensures TaskOk(setup, w', w.nextTask, task) && Unruled(w', task)
  {
    ArriveMessages(w, task.items, w'.messages);
    VerdictsAreOld(setup, w);
    hide *;
    NewTask(setup, w', w.nextTask, task);
  }

  lemma VerdictsAreOld(setup: Setup, w: World)
    requires EndsOk(w) && VerdictsOk(setup, w)
    ensures forall u | u in w.verdicts :: u < w.nextUid
  {
  }

  lemma NewTask(setup: Setup, w: World, t: nat, task: Task)
    requires task.rulings == [] && t < w.nextTask && task.base + |task.items| <= w.nextUid
    requires forall u | u in w.verdicts :: u < task.base
    requires forall u: nat | task.base <= u < task.base + |task.items| ::
      (u in w.messages <==> task.items[u - task.base].Item?)
      && (u in w.messages ==> w.messages[u] == task.items[u - task.base].message)
    ensures TaskOk(setup, w, t, task) && Unruled(w, task)
  {
  }

  lemma ArriveEnds(setup: Setup, w: World, w': World, items: seq<Item>)
    requires PlacesOk(w) && EndsOk(w) && VerdictsOk(setup, w)
    requires w' == w.(nextUid := w.nextUid + |items|, nextTask := w.nextTask + 1,
      messages := w.messages + MessagesIn(w.nextUid, items))
    ensures EndsOk(w') && VerdictsOk(setup, w')
  {
    ArriveMessages(w, items, w'.messages);
    EndsAreOld(w);
    VerdictsAreOld(setup, w);
    hide MessagesIn;
    hide PlacesOk;
  }

  lemma EndsAreOld(w: World)
    requires PlacesOk(w)
    ensures forall u | u in w.written || u in w.answered || u in w.silent :: u < w.nextUid
  {
    hide NoRepeats;
    hide UnderWay;
    forall u: nat | u in w.written || u in w.answered || u in w.silent ensures u < w.nextUid {
      assert Done(w, u);
    }
  }

  lemma ArriveOthers(setup: Setup, w: World, w': World, task: Task)
    requires TasksOk(setup, w) && EndsOk(w)
    requires task == Task(w.nextUid, task.items, [], AwaitsRules)
    requires w' == w.(nextUid := w.nextUid + |task.items|, nextTask := w.nextTask + 1,
      messages := w.messages + MessagesIn(w.nextUid, task.items))
    ensures OthersOk(setup, w', w.nextTask, task)
  {
    hide Fits;
    hide FollowsVerdict;
    forall t' | t' in w'.tasks
      ensures TaskOk(setup, w', t', w'.tasks[t']) && AtCall(setup, w', w'.tasks[t'])
    {
      assert TaskOk(setup, w, t', w.tasks[t']) && AtCall(setup, w, w.tasks[t']);
    }
  }

  lemma ArrivePlaces(setup: Setup, w: World, w': World, task: Task)
    requires TasksOk(setup, w) && PlacesOk(w)
    requires task == Task(w.nextUid, task.items, [], AwaitsRules)
    requires w' == w.(nextUid := w.nextUid + |task.items|, nextTask := w.nextTask + 1,
      messages := w.messages + MessagesIn(w.nextUid, task.items))
    ensures PlacesBut(w', w.nextTask, task)
  {
    hide AtCall;
    hide Fits;
    hide FollowsVerdict;
    hide NoRepeats;
    forall u: nat ensures (Done(w', u) <==> Done(w, u)) && (UnderWayBut(w', w.nextTask, u) <==> UnderWay(w, u)) {
      if UnderWay(w, u) {
        var x :| x in w.tasks && InTask(w.tasks[x], u);
        assert TaskOk(setup, w, x, w.tasks[x]);
        assert x in w'.tasks && x != w.nextTask && InTask(w'.tasks[x], u);
      }
      if UnderWayBut(w', w.nextTask, u) {
        var x :| x in w'.tasks && x != w.nextTask && InTask(w'.tasks[x], u);
        assert x in w.tasks && InTask(w.tasks[x], u);
      }
    }
  }

  lemma ArriveKeeps(setup: Setup, s: State, items: seq<Item>, accepts: bool)
    requires Inv(setup, s)
    ensures Inv(setup, Arrive(s, items, accepts))
  {
    hide TaskOk;
    hide OthersOk;
    hide PlacesBut;
    hide EndsOk;
    hide VerdictsOk;
    hide TasksOk;
    hide PlacesOk;
    hide Unruled;
    hide Continue;
    hide MessagesIn;
    var w := s.world;
    var task := Task(w.nextUid, items, [], AwaitsRules);
    var next := s.(world := w.(
      nextUid := w.nextUid + |items|, nextTask := w.nextTask + 1,
      messages := w.messages + MessagesIn(w.nextUid, items)));
    ArriveTask(setup, w, next.world, task);
    ArriveEnds(setup, w, next.world, items);
    ArriveOthers(setup, w, next.world, task);
    ArrivePlaces(setup, w, next.world, task);
    ContinueKeeps(setup, next, w.nextTask, task, accepts);
  }

  lemma ResumeKeeps(setup: Setup, s: State, t: nat, accepts: bool)
    requires Inv(setup, s) && Waits(s, t) && s.world.tasks[t].stage.Ruled?
    ensures Inv(setup, Resume(s, t, accepts))
  {
    var w := s.world;
    var task := w.tasks[t];
    var ruling := if task.stage.allow then Forward else if Current(task).id.Some? then Refuse else Silence;
    var ruled := task.(rulings := task.rulings + [ruling]);
    TakeUp(setup, s, t);
    RuledTask(setup, w, t, task, ruling);
    SameRange(setup, w, t, task, ruled);
    ContinueKeeps(setup, s, t, ruled, accepts);
  }

  lemma RuledTask(setup: Setup, w: World, t: nat, task: Task, ruling: Ruling)
    requires TaskOk(setup, w, t, task) && AtCall(setup, w, task) && task.stage.Ruled?
    requires ruling == if task.stage.allow then Forward else if Current(task).id.Some? then Refuse else Silence
    ensures TaskOk(setup, w, t, task.(rulings := task.rulings + [ruling]))
    ensures Unruled(w, task.(rulings := task.rulings + [ruling]))
  {
    var ruled := task.(rulings := task.rulings + [ruling]);
    forall u: nat | InTask(ruled, u) ensures InTask(task, u) && ItemAt(ruled, u) == ItemAt(task, u) {
    }
    forall u: nat | InTask(ruled, u) && u < CurrentUid(ruled)
      ensures Fits(ItemAt(ruled, u), RulingAt(ruled, u))
        && FollowsVerdict(w.verdicts, u, ItemAt(ruled, u), RulingAt(ruled, u))
    {
      if u < CurrentUid(task) {
        assert RulingAt(ruled, u) == RulingAt(task, u);
      }
    }
  }

  /** Everything around one handler is what it was, where only its rulings and stage moved on. */
  lemma SameRange(setup: Setup, w: World, t: nat, task: Task, task': Task)
    requires TasksOk(setup, w) && PlacesOk(w) && t in w.tasks && w.tasks[t] == task
    requires task'.base == task.base && |task'.items| == |task.items|
    requires forall u: nat | InTask(task, u) :: !Done(w, u) && !UnderWayBut(w, t, u)
    requires forall u: nat :: UnderWay(w, u) <==> InTask(task, u) || UnderWayBut(w, t, u)
    requires forall t', u: nat | t' in w.tasks && t' != t && InTask(task, u) :: !InTask(w.tasks[t'], u)
    ensures OthersOk(setup, w, t, task') && PlacesBut(w, t, task')
  {
    hide TaskOk;
    hide AtCall;
    hide NoRepeats;
    forall u: nat ensures InTask(task', u) <==> InTask(task, u) {
    }
    hide InTask;
    forall u: nat | Done(w, u) ensures !UnderWayBut(w, t, u) {
      assert !UnderWay(w, u);
    }
  }

  lemma DecideKeeps(setup: Setup, s: State, t: nat, allow: bool)
    requires Inv(setup, s) && Waits(s, t) && !s.world.tasks[t].stage.Ruled?
    requires allow ==> setup.filter(Current(s.world.tasks[t]).call.name)
    ensures Inv(setup, Decide(setup, s, t, allow))
  {
    var w := s.world;
    var task := w.tasks[t];
    var uid := CurrentUid(task);
    var ruled := task.(stage := Ruled(allow));
    TakeUp(setup, s, t);
    assert InTask(task, uid);
    SameRange(setup, w, t, task, ruled);
    var given := w.(
      verdicts := w.verdicts[uid := allow],
      rows := if allow && Current(task).id.Some? then w.rows else w.rows + [Row(uid, allow, false)]);
    GivenTask(setup, w, given, t, task, allow);
    GivenOthers(setup, w, given, t, ruled, uid);
    GivenPlaces(w, given, t, ruled);
    GivenEnds(setup, w, given, t, task, allow);
    var mid := s.(world := given);
    PutKeeps(setup, mid, t, ruled);
    SameCoreKeeps(setup, mid.(world := given.(tasks := given.tasks[t := ruled])), Decide(setup, s, t, allow));
  }

  lemma GivenTask(setup: Setup, w: World, w': World, t: nat, task: Task, allow: bool)
    requires TaskOk(setup, w, t, task) && AtCall(setup, w, task)
    requires w' == w.(verdicts := w.verdicts[CurrentUid(task) := allow], rows := w'.rows)
    ensures TaskOk(setup, w', t, task.(stage := Ruled(allow))) && AtCall(setup, w', task.(stage := Ruled(allow)))
  {
    hide Fits;
    var ruled := task.(stage := Ruled(allow));
    forall u: nat | InTask(ruled, u)
      ensures InTask(task, u) && ItemAt(ruled, u) == ItemAt(task, u)
        && (u < CurrentUid(ruled) ==> RulingAt(ruled, u) == RulingAt(task, u))
    {
    }
  }

  lemma GivenOthers(setup: Setup, w: World, w': World, t: nat, task: Task, uid: nat)
    requires OthersOk(setup, w, t, task) && InTask(task, uid)
    requires uid in w'.verdicts && w' == w.(verdicts := w.verdicts[uid := w'.verdicts[uid]], rows := w'.rows)
    ensures OthersOk(setup, w', t, task)
  {
    forall t' | t' in w'.tasks && t' != t
      ensures TaskOk(setup, w', t', w'.tasks[t']) && AtCall(setup, w', w'.tasks[t'])
    {
      assert !InTask(w.tasks[t'], uid);
      GivenOther(setup, w, w', t', w.tasks[t'], uid);
    }
    hide TaskOk;
    hide AtCall;
    hide InTask;
  }

  /** A verdict on a call of another handler leaves a handler as it was. */
  lemma GivenOther(setup: Setup, w: World, w': World, t: nat, task: Task, uid: nat)
    requires TaskOk(setup, w, t, task) && AtCall(setup, w, task) && !InTask(task, uid)
    requires uid in w'.verdicts && w' == w.(verdicts := w.verdicts[uid := w'.verdicts[uid]], rows := w'.rows)
    ensures TaskOk(setup, w', t, task) && AtCall(setup, w', task)
  {
    hide Fits;
  }

  lemma GivenPlaces(w: World, w': World, t: nat, task: Task)
    requires PlacesBut(w, t, task)
    requires w' == w.(verdicts := w'.verdicts, rows := w'.rows)
    ensures PlacesBut(w', t, task)
  {
    hide InTask;
    hide NoRepeats;
    forall u: nat ensures (Done(w', u) <==> Done(w, u)) && (UnderWayBut(w', t, u) <==> UnderWayBut(w, t, u)) {
    }
  }

  lemma GivenEnds(setup: Setup, w: World, w': World, t: nat, task: Task, allow: bool)
    requires EndsOk(w) && VerdictsOk(setup, w) && TaskOk(setup, w, t, task) && AtCall(setup, w, task)
    requires !Done(w, CurrentUid(task)) && (allow ==> setup.filter(Current(task).call.name))
    requires w' == w.(verdicts := w.verdicts[CurrentUid(task) := allow], rows := w'.rows)
    ensures EndsOk(w') && VerdictsOk(setup, w')
  {
    hide Fits;
    hide FollowsVerdict;
    var uid := CurrentUid(task);
    assert InTask(task, uid) && ItemAt(task, uid) == task.items[|task.rulings|];
  }

  lemma AskKeeps(setup: Setup, s: State, t: nat)
    requires Inv(setup, s) && Waits(s, t) && s.world.tasks[t].stage.AwaitsRules?
    requires setup.filter(Current(s.world.tasks[t]).call.name)
    ensures Inv(setup, s.(world := s.world.(tasks := s.world.tasks[t := s.world.tasks[t].(stage := Asking)])))
  {
    var w := s.world;
    var task := w.tasks[t];
    var asking := task.(stage := Asking);
    TakeUp(setup, s, t);
    SameRange(setup, w, t, task, asking);
    StageTask(setup, w, t, task);
    PutKeeps(setup, s, t, asking);
  }

  lemma StageTask(setup: Setup, w: World, t: nat, task: Task)
    requires TaskOk(setup, w, t, task) && AtCall(setup, w, task) && task.stage.AwaitsRules?
    requires setup.filter(Current(task).call.name)
    ensures TaskOk(setup, w, t, task.(stage := Asking)) && AtCall(setup, w, task.(stage := Asking))
  {
    hide Fits;
    hide FollowsVerdict;
    var asking := task.(stage := Asking);
    forall u: nat | InTask(asking, u)
      ensures InTask(task, u) && ItemAt(asking, u) == ItemAt(task, u)
        && (u < CurrentUid(asking) ==> RulingAt(asking, u) == RulingAt(task, u))
    {
    }
  }

  lemma AnswerKeeps(setup: Setup, s: State, t: nat, effect: Effect)
    requires Inv(setup, s) && Waits(s, t) && s.world.tasks[t].stage.AwaitsRules?
    ensures Inv(setup, Answer(setup, s, t, effect))
  {
    hide Inv;
    hide Decide;
    var verdict := if setup.filter(Current(s.world.tasks[t]).call.name) then effect else Deny;
    if verdict.Ask? && setup.holds {
      AskKeeps(setup, s, t);
    } else {
      DecideKeeps(setup, s, t, verdict.Allow?);
    }
  }

  lemma PersonKeeps(setup: Setup, s: State, t: nat, yes: bool)
    requires Inv(setup, s) && Waits(s, t) && s.world.tasks[t].stage.Asking?
    ensures Inv(setup, Decide(setup, s, t, yes))
  {
    hide Decide;
    hide PlacesOk;
    hide EndsOk;
    hide VerdictsOk;
    hide TaskOk;
    assert AtCall(setup, s.world, s.world.tasks[t]);
    DecideKeeps(setup, s, t, yes);
  }

  lemma ThrowKeeps(setup: Setup, s: State, t: nat)
    requires Inv(setup, s) && t in s.world.tasks
    ensures Inv(setup, Throw(s, t))
  {
    var w, w' := s.world, Throw(s, t).world;
    TakeUp(setup, s, t);
    ThrowTasks(setup, w, w', t);
    ThrowPlaces(w, w', t, w.tasks[t]);
  }

  lemma ThrowTasks(setup: Setup, w: World, w': World, t: nat)
    requires TasksOk(setup, w)
    requires w' == w.(tasks := w.tasks - {t}, thrown := w'.thrown)
    ensures TasksOk(setup, w')
  {
    hide Fits;
    hide FollowsVerdict;
    hide InTask;
    forall t' | t' in w'.tasks
      ensures TaskOk(setup, w', t', w'.tasks[t']) && AtCall(setup, w', w'.tasks[t'])
    {
      assert TaskOk(setup, w, t', w.tasks[t']) && AtCall(setup, w, w.tasks[t']);
    }
  }

  lemma ThrowPlaces(w: World, w': World, t: nat, task: Task)
    requires PlacesOk(w) && t in w.tasks && w.tasks[t] == task
    requires w' == w.(tasks := w.tasks - {t}, thrown := w.thrown + NumbersFrom(task.base, |task.items|))
    requires forall u: nat | InTask(task, u) :: !Done(w, u) && !UnderWayBut(w, t, u)
    requires forall u: nat :: UnderWay(w, u) <==> InTask(task, u) || UnderWayBut(w, t, u)
    ensures PlacesOk(w')
  {
    hide NoRepeats;
    hide UnderWay;
    hide UnderWayBut;
    RemovedUnderWay(w, t, w');
    forall u: nat | InTask(task, u)
      ensures u !in w.written && u !in w.answered && u !in w.silent && u !in w.thrown
    {
      assert !Done(w, u);
    }
    forall u: nat ensures Done(w', u) <==> Done(w, u) || InTask(task, u) {
    }
    forall u: nat | Done(w', u) ensures !UnderWay(w', u) {
      assert Done(w, u) ==> !UnderWay(w, u);
    }
  }

  lemma ReplyKeepsCore(setup: Setup, s: State, m: Message)
    ensures SameCore(s.world, ReplyFor(setup, s, m).0.world)
  {
    hide Listing;
    hide Framed;
    var (next, reply) := ReplyFor(setup, s, m);
    if IsResponse(m) && m.id.Some? && m.id.value !in s.listIds && m.id.value in s.open {
      var w := s.world;
      var uid := s.open[m.id.value].uid;
      var w' := w.(rows := w.rows + [Row(uid, true, true)], settled := w.settled + [uid]);
      assert next.world == w' || next.world == w'.(handed := w'.handed + s.waiting);
    }
  }

  lemma {:induction false} ServerKeepsCore(setup: Setup, s: State, items: seq<Item>)
    ensures SameCore(s.world, FromServer(setup, s, items).world)
    decreases |items|
  {
    hide ReplyFor;
    if items != [] {
      if items[0].Junk? {
        ServerKeepsCore(setup, s, items[1..]);
      } else {
        ReplyKeepsCore(setup, s, items[0].message);
        var (next, m) := ReplyFor(setup, s, items[0].message);
        ServerKeepsCore(setup, next.(world := next.world.(shown := next.world.shown + [m])), items[1..]);
      }
    }
  }

  lemma StepKeeps(setup: Setup, s: State, e: Event)
    requires Inv(setup, s) && Enabled(s, e)
    ensures Inv(setup, Step(setup, s, e))
  {
    hide Inv;
    hide Arrive;
    hide Answer;
    hide Decide;
    hide Resume;
    hide Throw;
    hide FromServer;
    match e
    case ClientLine(items, accepts) => ArriveKeeps(setup, s, items, accepts);
    case Verdict(t, effect) => AnswerKeeps(setup, s, t, effect);
    case Person(t, yes) => PersonKeeps(setup, s, t, yes);
    case Resumed(t, accepts) => ResumeKeeps(setup, s, t, accepts);
    case Threw(t) => ThrowKeeps(setup, s, t);
    case ServerLine(items) =>
      ServerKeepsCore(setup, s, items);
      SameCoreKeeps(setup, s, FromServer(setup, s, items));
    case NotesFound(found) => SameCoreKeeps(setup, s, Step(setup, s, e));
    case NotesFailed => SameCoreKeeps(setup, s, Step(setup, s, e));
  }

  /** The invariant holds at every point of every run. */
  lemma {:induction false} RunKeeps(setup: Setup, events: seq<Event>, states: seq<State>, n: nat)
    requires Runs(setup, events, states) && n < |states|
    ensures Inv(setup, states[n])
  {
    hide Inv;
    hide Step;
    hide Enabled;
    if n == 0 {
      StartInv(setup);
    } else {
      RunKeeps(setup, events, states, n - 1);
      StepKeeps(setup, states[n - 1], events[n - 1]);
    }
  }
}
