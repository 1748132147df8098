/** The session object itself: the fields it keeps between lines, and what each stretch of its
    code between two `await`s does to them. Every stretch is one step of the machine. */
module FirewallProxy {
  import opened Basics
  import opened FirewallSession
  import Machine = FirewallSession

  class Session {
    const setup: Setup
    var listRequestIds: set<MessageId>
    var openCalls: map<MessageId, OpenCall>
    var waiting: seq<string>
    var collecting: bool
    /** The channels, the record and the suspended handlers. */
    var world: World

    ghost function View(): State
      reads this
    {
      State(listRequestIds, openCalls, waiting, collecting, world)
    }

    constructor (setup: Setup)
      ensures View() == Start() && this.setup == setup
    {
      this.setup := setup;
      listRequestIds, openCalls, waiting, collecting := {}, map[], [], false;
      world := World(0, 0, map[], map[], map[], [], [], {}, {}, [], [], [], [], []);
    }

    // -------------------------------------------------------------- from the client

    method FromClient(items: seq<Item>, accepts: bool)
      modifies this
      ensures View() == Step(setup, old(View()), ClientLine(items, accepts))
    {
      hide Continue;
      var base, t := world.nextUid, world.nextTask;
      world := world.(
        nextUid := base + |items|, nextTask := t + 1,
        messages := world.messages + MessagesIn(base, items));
      RuleOn(t, Task(base, items, [], AwaitsRules), accepts);
    }

    /** The items in turn, from wherever a handler is, until one has to wait or none is left. */
    method RuleOn(t: nat, task: Task, accepts: bool)
      requires |task.rulings| <= |task.items|
      modifies this
      ensures View() == Continue(old(View()), t, task, accepts)
    {
      hide Finish;
      var rulings := RuleOnNext(task.items, task.rulings);
      var ahead := task.(rulings := rulings, stage := AwaitsRules);
      if |rulings| == |task.items| {
        Send(t, ahead, accepts);
      } else {
        world := world.(tasks := world.tasks[t := ahead]);
      }
    }

    /** What needs no verdict goes on at once; a listing asked for is remembered by its id. */
    method RuleOnNext(items: seq<Item>, before: seq<Ruling>) returns (rulings: seq<Ruling>)
      requires |before| <= |items|
      modifies this`listRequestIds
      ensures rulings == RuleAhead(items, before)
      ensures listRequestIds == old(listRequestIds) + ListIdsIn(items, |before|, |rulings|)
    {
      hide ListIdsIn;
      ListIdsNone(items, |before|);
      rulings := before;
      while |rulings| < |items| && !IsCall(items[|rulings|])
        invariant |before| <= |rulings| <= |items|
        invariant RuleAhead(items, rulings) == RuleAhead(items, before)
        invariant listRequestIds == old(listRequestIds) + ListIdsIn(items, |before|, |rulings|)
      {
        var item := items[|rulings|];
        ListIdsMore(items, |before|, |rulings|);
        RuleAheadMore(items, rulings);
        if item.Junk? {
          rulings := rulings + [Invalid];
        } else {
          if item.message.verb == ToolsList && item.message.id.Some? {
            listRequestIds := listRequestIds + {item.message.id.value};
          }
          rulings := rulings + [Machine.Ruling.Forward];
        }
      }
    }

    /** The end of a line: what it forwards goes out as one, and its refusals go back. */
    method Send(t: nat, task: Task, accepts: bool)
      requires |task.rulings| == |task.items|
      modifies this`world
      ensures View() == Finish(old(View()), t, task, accepts)
    {
      var onward: seq<nat>, answers: seq<nat>, quiet: seq<nat> := [], [], [];
      for i := 0 to |task.items|
        invariant onward == Numbers(task.base, task.rulings[..i], {Machine.Ruling.Forward})
        invariant answers == Numbers(task.base, task.rulings[..i], {Refuse, Invalid})
        invariant quiet == Numbers(task.base, task.rulings[..i], {Silence})
        invariant world == old(world)
      {
        NumbersMore(task.base, task.rulings, i);
        match task.rulings[i] {
          case Forward => onward := onward + [task.base + i];
          case Refuse => answers := answers + [task.base + i];
          case Invalid => answers := answers + [task.base + i];
          case Silence => quiet := quiet + [task.base + i];
        }
      }
      assert task.rulings[..|task.items|] == task.rulings;
      if accepts {
        world := world.(written := world.written + onward);
      } else {
        var owed, unowed := Dropped(task);
        answers, quiet := owed + answers, unowed + quiet;
      }
      hide Numbers;
      hide Owed;
      assert answers == NowAnswered(task, accepts) && quiet == NowSilent(task, accepts);
      assert world.written == old(world).written + NowWritten(task, accepts);
      assert world == old(world).(written := old(world).written + NowWritten(task, accepts));
      hide NowAnswered;
      hide NowSilent;
      hide NowWritten;
      world := world.(
        tasks := world.tasks - {t},
        answered := world.answered + answers,
        silent := world.silent + set u | u in quiet);
    }

    /** What a server that takes nothing leaves to be answered here, and what expects no answer. */
    method Dropped(task: Task) returns (owed: seq<nat>, unowed: seq<nat>)
      requires |task.rulings| == |task.items|
      ensures owed == Owed(task.base, task.items, task.rulings, true)
      ensures unowed == Owed(task.base, task.items, task.rulings, false)
    {
      owed, unowed := [], [];
      for i := 0 to |task.items|
        invariant owed == Owed(task.base, task.items, task.rulings[..i], true)
        invariant unowed == Owed(task.base, task.items, task.rulings[..i], false)
      {
        OwedMore(task.base, task.items, task.rulings, i);
        if task.rulings[i].Forward? && task.items[i].Item? {
          if task.items[i].message.id.Some? {
            owed := owed + [task.base + i];
          } else {
            unowed := unowed + [task.base + i];
          }
        }
      }
      assert task.rulings[..|task.items|] == task.rulings;
    }

    /** The rules have answered for the call a handler waits at. */
    method VerdictFor(t: nat, effect: Effect)
      requires Enabled(View(), Verdict(t, effect))
      modifies this
      ensures View() == Step(setup, old(View()), Verdict(t, effect))
    {
      var task := world.tasks[t];
      var verdict := effect;
      if !setup.filter(Current(task).call.name) {
        verdict := Deny;
      }
      if verdict == Ask && setup.holds {
        world := world.(tasks := world.tasks[t := task.(stage := Asking)]);
      } else {
        RuleOnCall(t, verdict == Allow);
      }
    }

    /** A person has answered for it. */
    method Answered(t: nat, yes: bool)
      requires Enabled(View(), Person(t, yes))
      modifies this
      ensures View() == Step(setup, old(View()), Person(t, yes))
    {
      RuleOnCall(t, yes);
    }

    method RuleOnCall(t: nat, allow: bool)
      requires Waits(View(), t)
      modifies this
      ensures View() == Decide(setup, old(View()), t, allow)
    {
      var task := world.tasks[t];
      var m, uid := Current(task), CurrentUid(task);
      if allow {
        if m.id.None? {
          world := world.(rows := world.rows + [Row(uid, true, false)]);
        } else {
          openCalls := openCalls[m.id.value := OpenCall(uid, m.call)];
        }
        CollectNotes();
      } else {
        world := world.(rows := world.rows + [Row(uid, false, false)]);
      }
      world := world.(
        tasks := world.tasks[t := task.(stage := Ruled(allow))],
        verdicts := world.verdicts[uid := allow]);
    }

    method Resumed(t: nat, accepts: bool)
      requires Enabled(View(), Machine.Event.Resumed(t, accepts))
      modifies this
      ensures View() == Step(setup, old(View()), Machine.Event.Resumed(t, accepts))
    {
      var task := world.tasks[t];
      var ruling := Silence;
      if task.stage.allow {
        ruling := Machine.Ruling.Forward;
      } else if Current(task).id.Some? {
        ruling := Refuse;
      }
      RuleOn(t, task.(rulings := task.rulings + [ruling]), accepts);
    }

    // -------------------------------------------------------------- notes

    /** Asks for notes, unless they are being asked for. */
    method CollectNotes()
      modifies this`collecting
      ensures collecting == (old(collecting) || setup.notes)
    {
      if !setup.notes || collecting {
        return;
      }
      collecting := true;
    }

    method NotesFound(found: seq<string>)
      requires collecting
      modifies this
      ensures View() == Step(setup, old(View()), Machine.Event.NotesFound(found))
    {
      waiting := waiting + found;
      world := world.(collected := world.collected + found);
      collecting := false;
    }

    method NotesFailed()
      requires collecting
      modifies this`collecting
      ensures View() == Step(setup, old(View()), Machine.Event.NotesFailed)
    {
      collecting := false;
    }

    method WithNotes(m: Message) returns (shown: Message)
      modifies this
      ensures (View(), shown) == Machine.WithNotes(setup, old(View()), m)
    {
      if waiting == [] || !m.reply.ResultReply? || m.reply.content.None? {
        return m;
      }
      var notes := setup.render(waiting);
      world := world.(handed := world.handed + waiting);
      waiting := [];
      shown := m.(reply := m.reply.(content := Some(m.reply.content.value + [notes])));
    }

    // -------------------------------------------------------------- from the server

    method FromServer(items: seq<Item>)
      modifies this
      ensures View() == Step(setup, old(View()), ServerLine(items))
    {
      var i := 0;
      assert items[0..] == items;
      while i < |items|
        invariant 0 <= i <= |items|
        invariant Machine.FromServer(setup, View(), items[i..]) == Machine.FromServer(setup, old(View()), items)
      {
        assert items[i..][0] == items[i] && items[i..][1..] == items[i + 1..];
        if items[i].Item? {
          var m := ReplyFor(items[i].message);
          world := world.(shown := world.shown + [m]);
        }
        i := i + 1;
      }
    }

    method ReplyFor(m: Message) returns (shown: Message)
      modifies this
      ensures (View(), shown) == Machine.ReplyFor(setup, old(View()), m)
    {
      if !IsResponse(m) || m.id.None? {
        return m;
      }
      var id := m.id.value;
      if id in listRequestIds {
        listRequestIds := listRequestIds - {id};
        shown := FilterListing(m);
        return;
      }
      if id !in openCalls {
        return m;
      }
      var call := openCalls[id];
      openCalls := openCalls - {id};
      world := world.(settled := world.settled + [call.uid], rows := world.rows + [Row(call.uid, true, true)]);
      shown := WithNotes(Framed(setup, m));
    }

    method FilterListing(m: Message) returns (shown: Message)
      ensures shown == Listing(setup, m)
    {
      if !m.reply.ResultReply? || m.reply.tools.None? {
        return m;
      }
      var tools, visible := m.reply.tools.value, [];
      for i := 0 to |tools|
        invariant visible == Visible(setup.filter, tools[..i])
      {
        VisibleMore(setup.filter, tools, i);
        if setup.filter(tools[i]) {
          visible := visible + [tools[i]];
        }
      }
      assert tools[..|tools|] == tools;
      shown := m.(reply := m.reply.(tools := Some(visible)));
    }
  }

  lemma ListIdsMore(items: seq<Item>, from: nat, to: nat)
    requires from <= to < |items|
    ensures ListIdsIn(items, from, to + 1) == ListIdsIn(items, from, to)
      + if items[to].Item? && items[to].message.verb == ToolsList && items[to].message.id.Some?
        then {items[to].message.id.value} else {}
  {
  }

  lemma ListIdsNone(items: seq<Item>, from: nat)
    requires from <= |items|
    ensures ListIdsIn(items, from, from) == {}
  {
  }

  lemma RuleAheadMore(items: seq<Item>, rulings: seq<Ruling>)
    requires |rulings| < |items| && !IsCall(items[|rulings|])
    ensures RuleAhead(items, rulings)
      == RuleAhead(items, rulings + [if items[|rulings|].Junk? then Invalid else Machine.Ruling.Forward])
  {
  }

  lemma {:induction false} VisibleMore(filter: string -> bool, tools: seq<string>, i: nat)
    requires i < |tools|
    ensures Visible(filter, tools[..i + 1]) == Visible(filter, tools[..i]) + if filter(tools[i]) then [tools[i]] else []
  {
    var head := tools[..i + 1];
    if i > 0 {
      assert head[1..] == tools[1..][..i] && tools[..i][1..] == tools[1..][..i - 1];
      VisibleMore(filter, tools[1..], i - 1);
    } else {
      assert head == [tools[0]] && head[1..] == [];
    }
  }

  lemma NumbersMore(base: nat, rulings: seq<Ruling>, i: nat)
    requires i < |rulings|
    ensures forall which: set<Ruling> ::
      Numbers(base, rulings[..i + 1], which)
      == Numbers(base, rulings[..i], which) + if rulings[i] in which then [base + i] else []
  {
    assert rulings[..i + 1][..i] == rulings[..i];
  }

  lemma OwedMore(base: nat, items: seq<Item>, rulings: seq<Ruling>, i: nat)
    requires i < |rulings| <= |items|
    ensures forall withId ::
      Owed(base, items, rulings[..i + 1], withId)
      == Owed(base, items, rulings[..i], withId)
      + if rulings[i].Forward? && items[i].Item? && items[i].message.id.Some? == withId then [base + i] else []
  {
    assert rulings[..i + 1][..i] == rulings[..i];
  }
}
