/** What every run of a session does with each message a client sends: one place for each, no
    call through without its allow, and nothing said to a notification. */
module FirewallOutcomes {
  import opened Basics
  import opened FirewallSession
  import opened FirewallInvariants

  /** How often a message has been written, answered, kept silent about, lost to a throw, or is
      still under way. */
  ghost function Times(w: World, u: nat): nat {
    multiset(w.written)[u] + multiset(w.answered)[u]
    + (if u in w.silent then 1 else 0) + (if u in w.thrown then 1 else 0)
    + (if UnderWay(w, u) then 1 else 0)
  }

  lemma {:induction false} OnceEach<T(!new)>(s: seq<T>, x: T)
    requires NoRepeats(s)
    ensures multiset(s)[x] == if x in s then 1 else 0
  {
    if s != [] {
      OnceEach(s[1..], x);
      assert s == [s[0]] + s[1..];
    }
  }

  /** Every message of a client is at all times in exactly one place, and there once. */
  lemma OnePlace(setup: Setup, events: seq<Event>, states: seq<State>, n: nat, u: nat)
    requires Runs(setup, events, states) && n < |states|
    ensures Times(states[n].world, u) == if u < states[n].world.nextUid then 1 else 0
  {
    RunKeeps(setup, events, states, n);
    hide Runs;
    hide TasksOk;
    hide EndsOk;
    hide VerdictsOk;
    var w := states[n].world;
    InOnePlace(w, u);
  }

  lemma InOnePlace(w: World, u: nat)
    requires PlacesOk(w)
    ensures Times(w, u) == if u < w.nextUid then 1 else 0
  {
    OnceEach(w.written, u);
    OnceEach(w.answered, u);
    hide NoRepeats;
    hide UnderWay;
    assert u < w.nextUid <==> Done(w, u) || UnderWay(w, u);
    assert Done(w, u) ==> !UnderWay(w, u);
  }

  /** The call a step gives its final verdict, and the verdict. */
  ghost function Decision(setup: Setup, s: State, e: Event): Option<(nat, bool)>
    requires Enabled(s, e)
  {
    match e
    case Verdict(t, effect) =>
      var verdict := if setup.filter(Current(s.world.tasks[t]).call.name) then effect else Deny;
      if verdict.Ask? && setup.holds then None
      else Some((CurrentUid(s.world.tasks[t]), verdict.Allow?))
    case Person(t, yes) => Some((CurrentUid(s.world.tasks[t]), yes))
    case _ => None
  }

  lemma ContinueVerdicts(s: State, t: nat, task: Task, accepts: bool)
    requires |task.rulings| <= |task.items|
    ensures var s' := Continue(s, t, task, accepts);
      && s'.world.verdicts == s.world.verdicts && s'.world.messages == s.world.messages
      && s'.world.rows == s.world.rows && s'.world.settled == s.world.settled
      && s'.open == s.open && s'.waiting == s.waiting && s'.collecting == s.collecting
      && s'.world.collected == s.world.collected && s'.world.handed == s.world.handed
      && s'.world.shown == s.world.shown
  {
    hide Numbers;
    hide NowWritten;
    hide NowAnswered;
    hide NowSilent;
    hide RuleAhead;
  }

  /** A step gives at most the verdict it decides, and touches no other message. */
  lemma StepVerdicts(setup: Setup, s: State, e: Event)
    requires Inv(setup, s) && Enabled(s, e)
    ensures var w, w' := s.world, Step(setup, s, e).world;
      && (forall u | u in w.messages :: u in w'.messages && w'.messages[u] == w.messages[u])
      && w'.verdicts == match Decision(setup, s, e)
         case None => w.verdicts
         case Some(d) => w.verdicts[d.0 := d.1]
  {
    hide Continue;
    hide FromServer;
    hide MessagesIn;
    hide TasksOk;
    hide PlacesOk;
    hide VerdictsOk;
    var w := s.world;
    match e {
      case ClientLine(items, accepts) =>
        var base := w.nextUid;
        var next := s.(world := w.(
          nextUid := base + |items|, nextTask := w.nextTask + 1,
          messages := w.messages + MessagesIn(base, items)));
        ArriveMessages(w, items, next.world.messages);
        ContinueVerdicts(next, w.nextTask, Task(base, items, [], AwaitsRules), accepts);
      case Resumed(t, accepts) =>
        var task := w.tasks[t];
        var ruling := if task.stage.allow then Forward else if Current(task).id.Some? then Refuse else Silence;
        ContinueVerdicts(s, t, task.(rulings := task.rulings + [ruling]), accepts);
      case ServerLine(items) =>
        ServerKeepsCore(setup, s, items);
      case Verdict(t, effect) =>
      case Person(t, yes) =>
      case Threw(t) =>
      case NotesFound(found) =>
      case NotesFailed =>
    }
  }

  lemma DecidesNew(setup: Setup, s: State, e: Event)
    requires Inv(setup, s) && Enabled(s, e) && Decision(setup, s, e).Some?
    ensures Decision(setup, s, e).value.0 !in s.world.verdicts
  {
    hide PlacesOk;
    hide EndsOk;
    hide VerdictsOk;
    hide TaskOk;
  }

  /** Step `i` of a run is the one that gave call `u` its verdict. */
  ghost predicate Decides(setup: Setup, events: seq<Event>, states: seq<State>, i: nat, u: nat, allow: bool)
    requires |states| == |events| + 1
  {
    i < |events| && Enabled(states[i], events[i]) && Decision(setup, states[i], events[i]) == Some((u, allow))
  }

  /** A verdict on record was given by one step of the run, and by no other. */
  lemma {:induction false} OneDecision(
    setup: Setup, events: seq<Event>, states: seq<State>, n: nat, u: nat, allow: bool)
    requires Runs(setup, events, states) && n < |states|
    ensures (u in states[n].world.verdicts && states[n].world.verdicts[u] == allow) <==>
      exists i :: 0 <= i < n && Decides(setup, events, states, i, u, allow)
    ensures forall i, j, a, b | 0 <= i < n && 0 <= j < n
        && Decides(setup, events, states, i, u, a) && Decides(setup, events, states, j, u, b) :: i == j
    ensures u !in states[n].world.verdicts ==> forall i, a | 0 <= i < n :: !Decides(setup, events, states, i, u, a)
  {
    hide Decision;
    hide Step;
    hide Enabled;
    hide Inv;
    if n > 0 {
      OneDecision(setup, events, states, n - 1, u, allow);
      OneDecision(setup, events, states, n - 1, u, !allow);
      var s, e := states[n - 1], events[n - 1];
      RunKeeps(setup, events, states, n - 1);
      StepVerdicts(setup, s, e);
      var d := Decision(setup, s, e);
      if d.Some? {
        DecidesNew(setup, s, e);
        assert Decides(setup, events, states, n - 1, d.value.0, d.value.1);
      }
      hide Runs;
    }
  }

  /** Nothing is written to the server that was not allowed: the filter shows the tool, one step of the run
      gave the call a yes, and none gave it a no. */
  lemma WrittenWasAllowed(setup: Setup, events: seq<Event>, states: seq<State>, n: nat, u: nat)
    requires Runs(setup, events, states) && n < |states|
    requires u in states[n].world.written && u in states[n].world.messages
    requires states[n].world.messages[u].verb.ToolsCall?
    ensures setup.filter(states[n].world.messages[u].call.name)
    ensures exists i :: 0 <= i < n && Decides(setup, events, states, i, u, true)
    ensures forall i | 0 <= i < n :: !Decides(setup, events, states, i, u, false)
  {
    RunKeeps(setup, events, states, n);
    OneDecision(setup, events, states, n, u, true);
    OneDecision(setup, events, states, n, u, false);
    hide Runs;
    hide Decides;
    hide TasksOk;
    hide PlacesOk;
  }

  /** What has become of a call no handler holds any more, whose line no throw took: an allowed
      one was written once, or answered once or passed over in silence where the server took
      nothing; a denied one was answered once, or by nothing where it was a notification. */
  lemma CallFate(setup: Setup, events: seq<Event>, states: seq<State>, n: nat, u: nat)
    requires Runs(setup, events, states) && n < |states|
    requires u in states[n].world.messages && states[n].world.messages[u].verb.ToolsCall?
    requires !UnderWay(states[n].world, u) && u !in states[n].world.thrown
    ensures var w := states[n].world; var owed := w.messages[u].id.Some?;
      && multiset(w.written)[u] + multiset(w.answered)[u] + (if u in w.silent then 1 else 0) == 1
      && (u in w.answered ==> owed)
      && (u in w.silent ==> !owed)
      && (u in w.written ==> u in w.verdicts && w.verdicts[u])
      && (u in w.verdicts && !w.verdicts[u] ==> if owed then u in w.answered else u in w.silent)
  {
    RunKeeps(setup, events, states, n);
    hide Runs;
    hide TasksOk;
    hide VerdictsOk;
    var w := states[n].world;
    InOnePlace(w, u);
    OnceEach(w.written, u);
    OnceEach(w.answered, u);
  }

  /** Nothing is ever said back to a notification. */
  lemma NotificationsUnanswered(setup: Setup, events: seq<Event>, states: seq<State>, n: nat, u: nat)
    requires Runs(setup, events, states) && n < |states|
    requires u in states[n].world.messages && states[n].world.messages[u].id.None?
    ensures u !in states[n].world.answered
  {
    RunKeeps(setup, events, states, n);
  }
}
