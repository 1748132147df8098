/** What a session keeps about calls that are out, and what comes back to them: the record of
    calls and results, the notes handed over with results, and the framing of what a tool
    returned. */
module FirewallRecord {
  import opened Basics
  import opened FirewallSession
  import opened FirewallInvariants
  import opened FirewallOutcomes

  // ---------------------------------------------------------------- calls and rows

  ghost predicate IsOpen(s: State, u: nat) {
    exists id :: id in s.open && s.open[id].uid == u
  }

  ghost predicate Recorded(w: World, u: nat) {
    exists k :: 0 <= k < |w.rows| && w.rows[k].uid == u
  }

  ghost predicate OpenOk(s: State) {
    forall id | id in s.open ::
      var u := s.open[id].uid;
      u in s.world.verdicts && s.world.verdicts[u]
      && u in s.world.messages && s.world.messages[u].id == Some(id)
      && s.world.messages[u].call == s.open[id].call
  }

  /** A row's call was ruled on, and its result is in it just where the call was let out and one
      was due. */
  ghost predicate RowOk(w: World, r: Row) {
    && r.uid in w.verdicts && r.allowed == w.verdicts[r.uid]
    && r.uid in w.messages && (r.returned <==> r.allowed && w.messages[r.uid].id.Some?)
  }

  /** Every ruled call is in exactly one place: open under its own id, or recorded once. */
  ghost predicate RecordOk(s: State) {
    && OpenOk(s)
    && (forall k | 0 <= k < |s.world.rows| :: RowOk(s.world, s.world.rows[k]))
    && (forall j, k | 0 <= j < k < |s.world.rows| :: s.world.rows[j].uid != s.world.rows[k].uid)
    && (forall u | u in s.world.verdicts :: IsOpen(s, u) != Recorded(s.world, u))
  }

  /** Two open calls are never one: each is open under the id its own message carries. */
  lemma OpenApart(s: State, id: MessageId, id': MessageId)
    requires OpenOk(s) && id in s.open && id' in s.open && s.open[id].uid == s.open[id'].uid
    ensures id == id'
  {
  }

  /** The step does not let a call out under an id whose earlier call has not come back. */
  ghost predicate FreshId(setup: Setup, s: State, e: Event)
    requires Enabled(s, e)
  {
    match Decision(setup, s, e)
    case None => true
    case Some(d) =>
      d.1 && d.0 in s.world.messages && s.world.messages[d.0].id.Some? ==> s.world.messages[d.0].id.value !in s.open
  }

  // Where nothing is decided and the server says nothing, the record stays as it is.
  lemma QuietStep(setup: Setup, s: State, e: Event)
    requires Inv(setup, s) && Enabled(s, e) && !e.ServerLine? && Decision(setup, s, e).None?
    ensures var s' := Step(setup, s, e);
      s'.open == s.open && s'.world.rows == s.world.rows
  {
    hide Continue;
    hide MessagesIn;
    hide Inv;
    var w := s.world;
    match e {
      case ClientLine(items, accepts) =>
        var base := w.nextUid;
        var next := s.(world := w.(
          nextUid := base + |items|, nextTask := w.nextTask + 1,
          messages := w.messages + MessagesIn(base, items)));
        ContinueVerdicts(next, w.nextTask, Task(base, items, [], AwaitsRules), accepts);
      case Resumed(t, accepts) =>
        var task := w.tasks[t];
        var ruling := if task.stage.allow then Forward else if Current(task).id.Some? then Refuse else Silence;
        ContinueVerdicts(s, t, task.(rulings := task.rulings + [ruling]), accepts);
      case Verdict(t, effect) =>
      case Threw(t) =>
      case NotesFound(found) =>
      case NotesFailed =>
    }
  }

  lemma QuietKeeps(s: State, s': State)
    requires s'.open == s.open && s'.world.rows == s.world.rows && s'.world.verdicts == s.world.verdicts
    requires forall u | u in s.world.messages :: u in s'.world.messages && s'.world.messages[u] == s.world.messages[u]
    requires RecordOk(s)
    ensures RecordOk(s')
  {
    forall u | u in s'.world.verdicts ensures IsOpen(s', u) != Recorded(s'.world, u) {
      assert IsOpen(s, u) != Recorded(s.world, u);
      assert IsOpen(s, u) <==> IsOpen(s', u);
      assert Recorded(s.world, u) <==> Recorded(s'.world, u);
    }
  }

  /** Giving a verdict keeps the record exactly where it opens no id that is open. */
  lemma DecideRecord(setup: Setup, s: State, t: nat, allow: bool)
    requires Inv(setup, s) && RecordOk(s) && Waits(s, t)
    requires CurrentUid(s.world.tasks[t]) !in s.world.verdicts
    ensures RecordOk(Decide(setup, s, t, allow)) <==>
      var m := Current(s.world.tasks[t]);
      (allow && m.id.Some? ==> m.id.value !in s.open)
  {
    CurrentKnown(setup, s, t);
    hide Inv;
    var uid, m := CurrentUid(s.world.tasks[t]), Current(s.world.tasks[t]);
    var s' := Decide(setup, s, t, allow);
    if !(allow && m.id.Some?) {
      NewRow(s, s', uid, Row(uid, allow, false));
    } else if m.id.value !in s.open {
      NewOpen(s, s', uid, m.id.value);
    } else {
      LostCall(s, s', uid, m.id.value);
    }
  }

  lemma CurrentKnown(setup: Setup, s: State, t: nat)
    requires Inv(setup, s) && Waits(s, t)
    ensures CurrentUid(s.world.tasks[t]) in s.world.messages
    ensures s.world.messages[CurrentUid(s.world.tasks[t])] == Current(s.world.tasks[t])
  {
    hide PlacesOk;
    hide EndsOk;
    hide VerdictsOk;
    hide Fits;
    hide FollowsVerdict;
    var task := s.world.tasks[t];
    assert TaskOk(setup, s.world, t, task) && InTask(task, CurrentUid(task));
    assert ItemAt(task, CurrentUid(task)) == task.items[|task.rulings|];
  }

  lemma NewRow(s: State, s': State, uid: nat, row: Row)
    requires RecordOk(s) && uid !in s.world.verdicts && row.uid == uid && !row.returned
    requires uid in s.world.messages && !(row.allowed && s.world.messages[uid].id.Some?)
    requires s'.open == s.open && s'.world.rows == s.world.rows + [row]
    requires s'.world.verdicts == s.world.verdicts[uid := row.allowed] && s'.world.messages == s.world.messages
    ensures RecordOk(s')
  {
    var rows, rows' := s.world.rows, s'.world.rows;
    RowsKeep(s, s'.(world := s'.world.(rows := rows)), uid);
    forall k | 0 <= k < |rows'| ensures RowOk(s'.world, rows'[k]) {
      assert k < |rows| ==> RowOk(s'.world.(rows := rows), rows[k]);
    }
    forall k | 0 <= k < |rows| ensures rows[k].uid != uid {
    }
    hide RowOk;
    assert forall u :: IsOpen(s', u) <==> IsOpen(s, u);
    hide IsOpen;
    forall u ensures Recorded(s'.world, u) <==> Recorded(s.world, u) || u == uid {
      RecordedMore(s.world, s'.world, row, u);
    }
    assert !IsOpen(s, uid) by { NotYetOpen(s, uid); }
    hide Recorded;
    forall u | u in s'.world.verdicts ensures IsOpen(s', u) != Recorded(s'.world, u) {
      if u != uid {
        assert IsOpen(s, u) != Recorded(s.world, u);
      }
    }
  }

  lemma NotYetOpen(s: State, uid: nat)
    requires OpenOk(s) && uid !in s.world.verdicts
    ensures !IsOpen(s, uid)
  {
  }

  lemma RecordedMore(w: World, w': World, row: Row, u: nat)
    requires w'.rows == w.rows + [row]
    ensures Recorded(w', u) <==> Recorded(w, u) || row.uid == u
  {
    if Recorded(w, u) {
      var k :| 0 <= k < |w.rows| && w.rows[k].uid == u;
      assert w'.rows[k].uid == u;
    }
    if row.uid == u {
      assert w'.rows[|w.rows|].uid == u;
    }
  }

  /** A verdict on a call that had none leaves the rows as they were. */
  lemma RowsKeep(s: State, s': State, uid: nat)
    requires RecordOk(s) && uid !in s.world.verdicts
    requires s'.world.rows == s.world.rows && s'.world.messages == s.world.messages
    requires uid in s'.world.verdicts && s'.world.verdicts == s.world.verdicts[uid := s'.world.verdicts[uid]]
    ensures forall k | 0 <= k < |s'.world.rows| :: RowOk(s'.world, s'.world.rows[k])
    ensures forall j, k | 0 <= j < k < |s'.world.rows| :: s'.world.rows[j].uid != s'.world.rows[k].uid
    ensures !Recorded(s.world, uid)
  {
    hide OpenOk;
    hide IsOpen;
    forall k | 0 <= k < |s.world.rows| ensures s.world.rows[k].uid != uid {
      assert RowOk(s.world, s.world.rows[k]);
    }
  }

  lemma NewOpen(s: State, s': State, uid: nat, id: MessageId)
    requires RecordOk(s) && uid !in s.world.verdicts && id !in s.open
    requires uid in s.world.messages && s.world.messages[uid].id == Some(id)
    requires s'.open == s.open[id := OpenCall(uid, s.world.messages[uid].call)] && s'.world.rows == s.world.rows
    requires s'.world.verdicts == s.world.verdicts[uid := true] && s'.world.messages == s.world.messages
    ensures RecordOk(s')
  {
    RowsKeep(s, s', uid);
    hide RowOk;
    assert forall u :: Recorded(s'.world, u) <==> Recorded(s.world, u);
    hide Recorded;
    forall u | u in s'.world.verdicts ensures IsOpen(s', u) != Recorded(s'.world, u) {
      if u == uid {
        assert s'.open[id].uid == u;
      } else {
        assert IsOpen(s, u) != Recorded(s.world, u);
        if IsOpen(s, u) {
          var x :| x in s.open && s.open[x].uid == u;
          assert s'.open[x].uid == u;
        }
      }
    }
  }

  lemma LostCall(s: State, s': State, uid: nat, id: MessageId)
    requires RecordOk(s) && uid !in s.world.verdicts && id in s.open
    requires id in s'.open && s'.open == s.open[id := s'.open[id]] && s'.open[id].uid == uid
      && s'.world.rows == s.world.rows
    requires s'.world.verdicts == s.world.verdicts[uid := true]
    ensures !RecordOk(s')
  {
    var lost := s.open[id].uid;
    assert IsOpen(s, lost);
    assert !Recorded(s'.world, lost) by { assert !Recorded(s.world, lost); }
    forall x | x in s'.open ensures s'.open[x].uid != lost {
      if x != id && s.open[x].uid == lost {
        OpenApart(s, x, id);
      }
    }
  }

  /** What one server message can do to the record: close the call it answers, and record it. */
  lemma ReplyRecord(setup: Setup, s: State, m: Message)
    requires RecordOk(s)
    ensures RecordOk(ReplyFor(setup, s, m).0)
  {
    var s' := ReplyFor(setup, s, m).0;
    ReplyEffect(setup, s, m);
    if Closes(s, m) {
      var u := s.open[m.id.value].uid;
      var row := Row(u, true, true);
      assert !IsOpen(s', u) by {
        forall id | id in s'.open ensures s'.open[id].uid != u {
        }
      }
      forall x | x in s'.world.verdicts ensures IsOpen(s', x) != Recorded(s'.world, x) {
        assert IsOpen(s, x) != Recorded(s.world, x);
        RecordedMore(s.world, s'.world, row, x);
        if IsOpen(s, x) && x != u {
          var id :| id in s.open && s.open[id].uid == x;
          assert id in s'.open && s'.open[id].uid == x;
        }
      }
      assert IsOpen(s, u);
      RowStays(s, s', row);
    } else {
      QuietKeeps(s, s');
    }
  }

  lemma RowStays(s: State, s': State, row: Row)
    requires RecordOk(s) && IsOpen(s, row.uid) && row.allowed && row.returned
    requires s'.world.rows == s.world.rows + [row]
    requires s'.world.verdicts == s.world.verdicts && s'.world.messages == s.world.messages
    ensures forall k | 0 <= k < |s'.world.rows| :: RowOk(s'.world, s'.world.rows[k])
    ensures forall j, k | 0 <= j < k < |s'.world.rows| :: s'.world.rows[j].uid != s'.world.rows[k].uid
  {
    assert !Recorded(s.world, row.uid);
    forall k | 0 <= k < |s.world.rows| ensures s.world.rows[k].uid != row.uid {
    }
  }

  ghost predicate Closes(s: State, m: Message) {
    IsResponse(m) && m.id.Some? && m.id.value !in s.listIds && m.id.value in s.open
  }

  /** A message from the server moves nothing but the id it answers. */
  lemma ReplyEffect(setup: Setup, s: State, m: Message)
    ensures var s' := ReplyFor(setup, s, m).0;
      && s'.world.verdicts == s.world.verdicts && s'.world.messages == s.world.messages
      && s'.collecting == s.collecting && s'.world.collected == s.world.collected
      && (if Closes(s, m)
          then s'.open == s.open - {m.id.value} && s'.listIds == s.listIds
            && s'.world.rows == s.world.rows + [Row(s.open[m.id.value].uid, true, true)]
            && s'.world.settled == s.world.settled + [s.open[m.id.value].uid]
          else
            s'.open == s.open && s'.world.rows == s.world.rows && s'.world.settled == s.world.settled
            && s'.listIds == if IsResponse(m) && m.id.Some? then s.listIds - {m.id.value} else s.listIds)
  {
    hide Listing;
    hide Framed;
  }

  lemma {:induction false} ServerRecord(setup: Setup, s: State, items: seq<Item>)
    requires RecordOk(s)
    ensures RecordOk(FromServer(setup, s, items))
    decreases |items|
  {
    hide ReplyFor;
    hide RecordOk;
    if items != [] {
      if items[0].Junk? {
        ServerRecord(setup, s, items[1..]);
      } else {
        ReplyRecord(setup, s, items[0].message);
        var (next, m) := ReplyFor(setup, s, items[0].message);
        var shown := next.(world := next.world.(shown := next.world.shown + [m]));
        QuietKeeps(next, shown);
        ServerRecord(setup, shown, items[1..]);
      }
    }
  }

  /** A step keeps every ruled call in one place exactly where it takes a fresh id. */
  lemma StepRecord(setup: Setup, s: State, e: Event)
    requires Inv(setup, s) && RecordOk(s) && Enabled(s, e)
    ensures RecordOk(Step(setup, s, e)) <==> FreshId(setup, s, e)
  {
    hide Inv;
    hide RecordOk;
    hide Decide;
    hide FromServer;
    hide Arrive;
    hide Resume;
    hide Throw;
    var d := Decision(setup, s, e);
    if e.ServerLine? {
      ServerRecord(setup, s, e.items);
    } else if d.None? {
      StepVerdicts(setup, s, e);
      QuietStep(setup, s, e);
      QuietKeeps(s, Step(setup, s, e));
    } else {
      DecidesNew(setup, s, e);
      CurrentKnown(setup, s, e.task);
      DecideRecord(setup, s, e.task, d.value.1);
    }
  }

  ghost predicate AllRecorded(states: seq<State>, n: nat)
    requires n < |states|
  {
    forall i | 0 <= i <= n :: RecordOk(states[i])
  }

  ghost predicate AllFresh(setup: Setup, events: seq<Event>, states: seq<State>, n: nat)
    requires Runs(setup, events, states) && n <= |events|
  {
    forall i | 0 <= i < n :: FreshId(setup, states[i], events[i])
  }

  /** Throughout a run every ruled call is open or recorded once, exactly where no call was let
      out under the id of a call still open. */
  lemma {:induction false} Conserved(setup: Setup, events: seq<Event>, states: seq<State>, n: nat)
    requires Runs(setup, events, states) && n < |states|
    ensures AllRecorded(states, n) <==> AllFresh(setup, events, states, n)
  {
    hide RecordOk;
    hide Enabled;
    hide Step;
    hide Inv;
    hide FreshId;
    if n == 0 {
      StartRecord();
    } else {
      Conserved(setup, events, states, n - 1);
      RunKeeps(setup, events, states, n - 1);
      assert states[n] == Step(setup, states[n - 1], events[n - 1]);
      if RecordOk(states[n - 1]) {
        StepRecord(setup, states[n - 1], events[n - 1]);
      }
      assert AllRecorded(states, n) <==> AllRecorded(states, n - 1) && RecordOk(states[n]);
      assert AllFresh(setup, events, states, n) <==>
        AllFresh(setup, events, states, n - 1) && FreshId(setup, states[n - 1], events[n - 1]);
    }
  }

  lemma StartRecord()
    ensures RecordOk(Start())
  {
  }

  /** A call under an id that is still open takes the earlier call's place, and the earlier one is
      then neither open nor on record. */
  lemma ReusedId()
    ensures var id := NumberId(1);
      var call := Message(Some(id), ToolsCall, Call("t", map[]), NoReply);
      var setup := Setup(name => true, false, false, content => false, notes => "");
      var s1 := Arrive(Start(), [Item(call)], true);
      Enabled(s1, Verdict(0, Allow)) &&
      var s2 := Step(setup, s1, Verdict(0, Allow));
      Enabled(s2, Resumed(0, true)) &&
      var s3 := Step(setup, s2, Resumed(0, true));
      var s4 := Arrive(s3, [Item(call)], true);
      Enabled(s4, Verdict(1, Allow)) &&
      var s5 := Step(setup, s4, Verdict(1, Allow));
      s5.world.verdicts == map[0 := true, 1 := true] && s5.open == map[id := OpenCall(1, call.call)]
        && s5.world.rows == []
  {
    var id := NumberId(1);
    var call := Message(Some(id), ToolsCall, Call("t", map[]), NoReply);
    var setup := Setup(name => true, false, false, content => false, notes => "");
    hide Arrive;
    hide Resume;
    hide FromServer;
    hide Throw;
    CallArrives(Start(), call);
    var s1 := Arrive(Start(), [Item(call)], true);
    assert s1.world.tasks[0] == Task(0, [Item(call)], [], AwaitsRules);
    var s2 := Step(setup, s1, Verdict(0, Allow));
    CallGoesOut(s2, 0);
    var s3 := Step(setup, s2, Resumed(0, true));
    CallArrives(s3, call);
    var s4 := Arrive(s3, [Item(call)], true);
    assert s4.world.tasks[1] == Task(1, [Item(call)], [], AwaitsRules);
  }

  /** A line with one call in it waits at that call. */
  lemma CallArrives(s: State, call: Message)
    requires call.verb.ToolsCall?
    ensures var s' := Arrive(s, [Item(call)], true);
      s' == s.(world := s.world.(
        nextUid := s.world.nextUid + 1, nextTask := s.world.nextTask + 1, messages := s'.world.messages,
        tasks := s.world.tasks[s.world.nextTask := Task(s.world.nextUid, [Item(call)], [], AwaitsRules)]))
  {
    hide MessagesIn;
    assert ListIdsIn([Item(call)], 0, 0) == {};
    assert RuleAhead([Item(call)], []) == [];
    hide RuleAhead;
  }

  /** A ruled call that was all of its line leaves nothing under way for it. */
  lemma CallGoesOut(s: State, t: nat)
    requires Waits(s, t) && s.world.tasks[t].stage == Ruled(true) && s.world.tasks[t].rulings == []
      && |s.world.tasks[t].items| == 1
    ensures var s' := Resume(s, t, true);
      && s'.listIds == s.listIds && s'.open == s.open && s'.world.tasks == s.world.tasks - {t}
      && s'.world.nextUid == s.world.nextUid
      && s'.world.nextTask == s.world.nextTask && s'.world.verdicts == s.world.verdicts && s'.world.rows == s.world.rows
  {
    hide NowWritten;
    hide NowAnswered;
    hide NowSilent;
    var items := s.world.tasks[t].items;
    assert RuleAhead(items, [Ruling.Forward]) == [Ruling.Forward];
    assert [] + [Ruling.Forward] == [Ruling.Forward];
    hide RuleAhead;
  }

  // ---------------------------------------------------------------- what a server line can close

  /** A line answers a call if some message of it is a response with the call's id. */
  ghost predicate Answers(items: seq<Item>, id: MessageId) {
    exists i :: 0 <= i < |items| && items[i].Item? && IsResponse(items[i].message) && items[i].message.id == Some(id)
  }

  lemma AnswersFirst(items: seq<Item>, id: MessageId)
    requires items != []
    ensures Answers(items, id) <==>
      (items[0].Item? && IsResponse(items[0].message) && items[0].message.id == Some(id)) || Answers(items[1..], id)
  {
    if Answers(items[1..], id) {
      var i :| 0 <= i < |items[1..]| && items[1..][i].Item? && IsResponse(items[1..][i].message)
        && items[1..][i].message.id == Some(id);
      assert items[i + 1] == items[1..][i];
    }
    if Answers(items, id) {
      var i :| 0 <= i < |items| && items[i].Item? && IsResponse(items[i].message) && items[i].message.id == Some(id);
      assert i == 0 || items[1..][i - 1] == items[i];
    }
  }

  /** A server line closes an open call exactly where it answers its id; a message that carries a
      method never does, whatever id it has. */
  lemma {:induction false} ClosedOnlyByAnswer(setup: Setup, s: State, items: seq<Item>, id: MessageId)
    requires id in s.open && id !in s.listIds
    ensures id in FromServer(setup, s, items).open <==> !Answers(items, id)
    ensures id in FromServer(setup, s, items).open ==> FromServer(setup, s, items).open[id] == s.open[id]
    decreases |items|
  {
    hide ReplyFor;
    if items != [] {
      AnswersFirst(items, id);
      if items[0].Junk? {
        ClosedOnlyByAnswer(setup, s, items[1..], id);
      } else {
        var m0 := items[0].message;
        ReplyEffect(setup, s, m0);
        var (next, m) := ReplyFor(setup, s, m0);
        var shown := next.(world := next.world.(shown := next.world.shown + [m]));
        if id in shown.open {
          ClosedOnlyByAnswer(setup, shown, items[1..], id);
        } else {
          NeverReopens(setup, shown, items[1..], id);
        }
      }
    }
  }

  lemma {:induction false} NeverReopens(setup: Setup, s: State, items: seq<Item>, id: MessageId)
    requires id !in s.open
    ensures id !in FromServer(setup, s, items).open
    decreases |items|
  {
    hide ReplyFor;
    if items != [] {
      if items[0].Junk? {
        NeverReopens(setup, s, items[1..], id);
      } else {
        ReplyEffect(setup, s, items[0].message);
        var (next, m) := ReplyFor(setup, s, items[0].message);
        NeverReopens(setup, next.(world := next.world.(shown := next.world.shown + [m])), items[1..], id);
      }
    }
  }

  // ---------------------------------------------------------------- notes

  /** Notes are handed over in the order they were collected, each once or still waiting. */
  ghost predicate NotesKept(s: State) {
    s.world.handed + s.waiting == s.world.collected
  }

  lemma ReplyNotes(setup: Setup, s: State, m: Message)
    requires NotesKept(s)
    ensures NotesKept(ReplyFor(setup, s, m).0)
  {
    hide Listing;
    hide Framed;
    var s' := ReplyFor(setup, s, m).0;
    assert s'.world.collected == s.world.collected;
    assert (s'.waiting == s.waiting && s'.world.handed == s.world.handed)
      || (s'.waiting == [] && s'.world.handed == s.world.handed + s.waiting);
  }

  lemma {:induction false} ServerNotes(setup: Setup, s: State, items: seq<Item>)
    requires NotesKept(s)
    ensures NotesKept(FromServer(setup, s, items))
    decreases |items|
  {
    hide ReplyFor;
    if items != [] {
      if items[0].Junk? {
        ServerNotes(setup, s, items[1..]);
      } else {
        ReplyNotes(setup, s, items[0].message);
        var (next, m) := ReplyFor(setup, s, items[0].message);
        ServerNotes(setup, next.(world := next.world.(shown := next.world.shown + [m])), items[1..]);
      }
    }
  }

  lemma StepNotes(setup: Setup, s: State, e: Event)
    requires Enabled(s, e) && NotesKept(s)
    ensures NotesKept(Step(setup, s, e))
  {
    hide Continue;
    hide FromServer;
    hide MessagesIn;
    var w := s.world;
    match e {
      case ClientLine(items, accepts) =>
        var base := w.nextUid;
        var next := s.(world := w.(
          nextUid := base + |items|, nextTask := w.nextTask + 1,
          messages := w.messages + MessagesIn(base, items)));
        ContinueVerdicts(next, w.nextTask, Task(base, items, [], AwaitsRules), accepts);
      case Resumed(t, accepts) =>
        var task := w.tasks[t];
        var ruling := if task.stage.allow then Forward else if Current(task).id.Some? then Refuse else Silence;
        ContinueVerdicts(s, t, task.(rulings := task.rulings + [ruling]), accepts);
      case ServerLine(items) =>
        ServerNotes(setup, s, items);
      case NotesFound(found) =>
        Associate(w.handed, s.waiting, found);
      case Verdict(t, effect) =>
      case Person(t, yes) =>
      case Threw(t) =>
      case NotesFailed =>
    }
  }

  lemma {:induction false} NotesHandedOnce(setup: Setup, events: seq<Event>, states: seq<State>, n: nat)
    requires Runs(setup, events, states) && n < |states|
    ensures states[n].world.handed + states[n].waiting == states[n].world.collected
  {
    hide Step;
    hide Enabled;
    if n > 0 {
      NotesHandedOnce(setup, events, states, n - 1);
      StepNotes(setup, states[n - 1], events[n - 1]);
    }
  }

  /** A step leaves notes being collected exactly where it allows a call and notes are asked for, or they
      were being and it does not end that. */
  lemma CollectsExactly(setup: Setup, s: State, e: Event)
    requires Enabled(s, e)
    ensures Step(setup, s, e).collecting <==>
      || (s.collecting && !e.NotesFound? && !e.NotesFailed?)
      || (setup.notes && Decision(setup, s, e).Some? && Decision(setup, s, e).value.1)
  {
    hide Continue;
    hide FromServer;
    match e {
      case ClientLine(items, accepts) =>
        var w := s.world;
        var next := s.(world := w.(
          nextUid := w.nextUid + |items|, nextTask := w.nextTask + 1,
          messages := w.messages + MessagesIn(w.nextUid, items)));
        ContinueVerdicts(next, w.nextTask, Task(w.nextUid, items, [], AwaitsRules), accepts);
      case Resumed(t, accepts) =>
        var task := s.world.tasks[t];
        var ruling := if task.stage.allow then Forward else if Current(task).id.Some? then Refuse else Silence;
        ContinueVerdicts(s, t, task.(rulings := task.rulings + [ruling]), accepts);
      case ServerLine(items) => ServerCollects(setup, s, items);
      case _ =>
    }
  }

  lemma {:induction false} ServerCollects(setup: Setup, s: State, items: seq<Item>)
    ensures FromServer(setup, s, items).collecting == s.collecting
    decreases |items|
  {
    if items != [] {
      if items[0].Junk? {
        ServerCollects(setup, s, items[1..]);
      } else {
        ReplyEffect(setup, s, items[0].message);
        hide ReplyFor;
        var (next, m) := ReplyFor(setup, s, items[0].message);
        ServerCollects(setup, next.(world := next.world.(shown := next.world.shown + [m])), items[1..]);
      }
    }
  }

  // ---------------------------------------------------------------- what the client is shown

  /** What is shown of a result that answers a call: all of its blocks, in order and unchanged,
      between the lines that say it is data exactly where it reads like an instruction, with any
      waiting notes after it. */
  ghost predicate ShownFor(setup: Setup, waiting: seq<string>, m: Message, shown: Message) {
    && shown == m.(reply := shown.reply)
    && if m.reply.ResultReply? && m.reply.content.Some? then
         var content := m.reply.content.value;
         var frames := setup.instructs(content);
         shown.reply.ResultReply? && shown.reply.tools == m.reply.tools && shown.reply.content.Some?
         && shown.reply.content.value ==
              (if frames then [QUOTED_PREFIX] else []) + content
              + (if frames then [QUOTED_SUFFIX] else [])
              + (if waiting != [] then [setup.render(waiting)] else [])
       else shown == m
  }

  lemma ResultShownWhole(setup: Setup, s: State, m: Message)
    requires Closes(s, m)
    ensures ShownFor(setup, s.waiting, m, ReplyFor(setup, s, m).1)
    ensures m.reply.ResultReply? && m.reply.content.Some? ==> ReplyFor(setup, s, m).0.waiting == []
  {
  }

  /** A listing shows exactly the tools the filter lets through, and shows them as listed. */
  lemma {:induction false} VisibleAre(filter: string -> bool, tools: seq<string>, name: string)
    ensures multiset(Visible(filter, tools))[name] == if filter(name) then multiset(tools)[name] else 0
  {
    if tools != [] {
      VisibleAre(filter, tools[1..], name);
      assert tools == [tools[0]] + tools[1..];
    }
  }

  /** Anything that is no answer to a listing or to an open call passes as it is. */
  lemma OthersPass(setup: Setup, s: State, m: Message)
    ensures ReplyFor(setup, s, m) == (s, m)
      || (IsResponse(m) && m.id.Some? && (m.id.value in s.listIds || m.id.value in s.open))
    ensures !m.verb.NoMethod? ==> ReplyFor(setup, s, m) == (s, m)
  {
  }
}
