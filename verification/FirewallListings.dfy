/** Listings on their way back: what the filter hides is never shown as the answer to a listing asked for,
    from the moment it is asked for until it is answered. */
module FirewallListings {
  import opened Basics
  import opened FirewallSession
  import opened FirewallRecord

  // ---------------------------------------------------------------- what one answer shows

  /** A listing as it is shown: its other fields as they came. */
  ghost predicate ShownFiltered(filter: string -> bool, m: Message, shown: Message) {
    if m.reply.ResultReply? && m.reply.tools.Some? then
      && shown.reply.ResultReply? && shown.reply.tools.Some?
      && shown.id == m.id && shown.verb == m.verb && shown.call == m.call && shown.reply.content == m.reply.content
      && exists at :: Picks(filter, m.reply.tools.value, shown.reply.tools.value, at)
    else shown == m
  }

  /** What is shown of some tools are exactly those the filter lets through, in order. */
  lemma {:induction false} VisiblePicks(filter: string -> bool, tools: seq<string>) returns (at: seq<nat>)
    ensures Picks(filter, tools, Visible(filter, tools), at)
  {
    if tools == [] {
      at := [];
    } else {
      var rest := VisiblePicks(filter, tools[1..]);
      var more := Visible(filter, tools[1..]);
      assert [] + more == more;
      hide Picks;
      at := PicksMore(filter, tools, more, rest);
    }
  }

  /** A response to a listing asked for is shown filtered, and answers it. */
  lemma ListingShown(setup: Setup, s: State, m: Message)
    requires IsResponse(m) && m.id.Some? && m.id.value in s.listIds
    ensures var (s', shown) := ReplyFor(setup, s, m);
      s' == s.(listIds := s.listIds - {m.id.value}) && ShownFiltered(setup.filter, m, shown)
  {
    if m.reply.ResultReply? && m.reply.tools.Some? {
      var at := VisiblePicks(setup.filter, m.reply.tools.value);
    }
    hide Visible;
  }

  // ---------------------------------------------------------------- a whole line from the server

  /** How many messages some items hold. */
  function MessagesAmong(items: seq<Item>): nat {
    if items == [] then 0 else (if items[0].Item? then 1 else 0) + MessagesAmong(items[1..])
  }

  /** A line is the line without its last part, and then that part. */
  lemma {:induction false} LineInParts(setup: Setup, s: State, a: seq<Item>, b: seq<Item>)
    ensures FromServer(setup, s, a + b) == FromServer(setup, FromServer(setup, s, a), b)
    decreases |a|
  {
    hide ReplyFor;
    if a == [] {
      assert a + b == b;
    } else {
      assert (a + b)[0] == a[0] && (a + b)[1..] == a[1..] + b;
      if a[0].Junk? {
        LineInParts(setup, s, a[1..], b);
      } else {
        var (next, m) := ReplyFor(setup, s, a[0].message);
        LineInParts(setup, next.(world := next.world.(shown := next.world.shown + [m])), a[1..], b);
      }
    }
  }

  lemma OneMessage(setup: Setup, s: State, m: Message)
    ensures var (next, shown) := ReplyFor(setup, s, m);
      FromServer(setup, s, [Item(m)]) == next.(world := next.world.(shown := next.world.shown + [shown]))
  {
    hide ReplyFor;
    assert [Item(m)][1..] == [];
  }

  /** Replying leaves what was shown before. */
  lemma ReplyShown(setup: Setup, s: State, m: Message)
    ensures ReplyFor(setup, s, m).0.world.shown == s.world.shown
  {
    hide Listing;
    hide Framed;
  }

  /** A line shows one message for each it holds, after what was shown before; and its responses take
      from the listings asked for exactly those they answer. */
  lemma {:induction false} LineShows(setup: Setup, s: State, items: seq<Item>)
    ensures var s' := FromServer(setup, s, items);
      && |s'.world.shown| == |s.world.shown| + MessagesAmong(items) && s.world.shown <= s'.world.shown
      && forall id :: id in s'.listIds <==> id in s.listIds && !Answers(items, id)
    decreases |items|
  {
    if items != [] {
      forall id ensures Answers(items, id) <==>
        (items[0].Item? && IsResponse(items[0].message) && items[0].message.id == Some(id)) || Answers(items[1..], id) {
        AnswersFirst(items, id);
      }
      if items[0].Junk? {
        LineShows(setup, s, items[1..]);
      } else {
        ReplyEffect(setup, s, items[0].message);
        ReplyShown(setup, s, items[0].message);
        var (next, m) := ReplyFor(setup, s, items[0].message);
        LineShows(setup, next.(world := next.world.(shown := next.world.shown + [m])), items[1..]);
      }
      hide ReplyFor;
      hide Answers;
      hide FromServer;
    }
  }

  /** The first response in a line to a listing asked for is shown filtered, where it comes in the line. */
  lemma LineFilters(setup: Setup, s: State, before: seq<Item>, m: Message, after: seq<Item>)
    requires IsResponse(m) && m.id.Some? && m.id.value in s.listIds && !Answers(before, m.id.value)
    ensures var s' := FromServer(setup, s, before + ([Item(m)] + after));
      var place := |s.world.shown| + MessagesAmong(before);
      place < |s'.world.shown| && ShownFiltered(setup.filter, m, s'.world.shown[place])
  {
    var s1 := FromServer(setup, s, before);
    LineShows(setup, s, before);
    LineInParts(setup, s, before, [Item(m)] + after);
    LineInParts(setup, s1, [Item(m)], after);
    OneMessage(setup, s1, m);
    ReplyShown(setup, s1, m);
    ListingShown(setup, s1, m);
    LineShows(setup, FromServer(setup, s1, [Item(m)]), after);
    hide ReplyFor;
    hide FromServer;
    hide ShownFiltered;
  }

  // ---------------------------------------------------------------- from asking to answer

  /** Among some items, from a place on, a listing under an id comes before the next call. */
  ghost predicate Reaches(items: seq<Item>, from: nat, id: MessageId) {
    exists k :: from <= k < |items| && items[k].Item? && items[k].message.verb == ToolsList
      && items[k].message.id == Some(id) && forall j | from <= j <= k :: !IsCall(items[j])
  }

  /** A step that goes on with a client line past a listing under an id. */
  ghost predicate AsksToList(s: State, e: Event, id: MessageId) {
    || (e.ClientLine? && Reaches(e.items, 0, id))
    || (e.Resumed? && Waits(s, e.task) && Reaches(s.world.tasks[e.task].items, |s.world.tasks[e.task].rulings| + 1, id))
  }

  lemma {:induction false} AheadToCall(items: seq<Item>, rulings: seq<Ruling>, k: nat)
    requires |rulings| <= k < |items| && forall j | |rulings| <= j <= k :: !IsCall(items[j])
    ensures k < |RuleAhead(items, rulings)|
    decreases |items| - |rulings|
  {
    if |rulings| < k {
      AheadToCall(items, rulings + [if items[|rulings|].Junk? then Invalid else Forward], k);
    }
  }

  /** Going on with a line remembers exactly the listings before its next call. */
  lemma ContinueLists(s: State, t: nat, task: Task, accepts: bool, id: MessageId)
    requires |task.rulings| <= |task.items|
    ensures id in Continue(s, t, task, accepts).listIds <==> id in s.listIds || Reaches(task.items, |task.rulings|, id)
  {
    var rulings := RuleAhead(task.items, task.rulings);
    if Reaches(task.items, |task.rulings|, id) {
      var k :| |task.rulings| <= k < |task.items| && task.items[k].Item? && task.items[k].message.verb == ToolsList
        && task.items[k].message.id == Some(id) && forall j | |task.rulings| <= j <= k :: !IsCall(task.items[j]);
      AheadToCall(task.items, task.rulings, k);
    }
    hide Finish;
    hide RuleAhead;
  }

  /** A listing's id is remembered exactly from where a client line asks for it until a server line answers
      it. */
  lemma StepLists(setup: Setup, s: State, e: Event, id: MessageId)
    requires Enabled(s, e)
    ensures id in Step(setup, s, e).listIds <==>
      AsksToList(s, e, id) || (id in s.listIds && !(e.ServerLine? && Answers(e.items, id)))
  {
    hide Continue;
    hide FromServer;
    hide Reaches;
    match e {
      case ClientLine(items, accepts) =>
        var w := s.world;
        var next := s.(world := w.(
          nextUid := w.nextUid + |items|, nextTask := w.nextTask + 1,
          messages := w.messages + MessagesIn(w.nextUid, items)));
        ContinueLists(next, w.nextTask, Task(w.nextUid, items, [], AwaitsRules), accepts, id);
      case Resumed(t, accepts) =>
        var task := s.world.tasks[t];
        var ruling := if task.stage.allow then Forward else if Current(task).id.Some? then Refuse else Silence;
        ContinueLists(s, t, task.(rulings := task.rulings + [ruling]), accepts, id);
      case ServerLine(items) => LineShows(setup, s, items);
      case _ =>
    }
  }

  ghost predicate AnsweredAt(events: seq<Event>, i: nat, id: MessageId)
    requires i < |events|
  {
    events[i].ServerLine? && Answers(events[i].items, id)
  }

  lemma {:induction false} StaysListed(
    setup: Setup, events: seq<Event>, states: seq<State>, i: nat, n: nat, id: MessageId)
    requires Runs(setup, events, states) && i < n < |states| && AsksToList(states[i], events[i], id)
    requires forall j | i < j < n :: !AnsweredAt(events, j, id)
    ensures id in states[n].listIds
  {
    if n > i + 1 {
      StaysListed(setup, events, states, i, n - 1, id);
      assert !AnsweredAt(events, n - 1, id);
    }
    assert Enabled(states[n - 1], events[n - 1]) && states[n] == Step(setup, states[n - 1], events[n - 1]);
    hide Step;
    hide Enabled;
    hide AsksToList;
    StepLists(setup, states[n - 1], events[n - 1], id);
  }

  /** In every run, whatever comes between, the first answer to a listing a client asked for is shown
      filtered: exactly the listed tools the filter lets through, in order, as often as listed. */
  lemma ListingsFiltered(
    setup: Setup, events: seq<Event>, states: seq<State>, i: nat, n: nat,
    before: seq<Item>, m: Message, after: seq<Item>)
    requires Runs(setup, events, states) && i < n < |events|
    requires IsResponse(m) && m.id.Some? && AsksToList(states[i], events[i], m.id.value)
    requires events[n] == ServerLine(before + ([Item(m)] + after))
    requires (forall j | i < j < n :: !AnsweredAt(events, j, m.id.value)) && !Answers(before, m.id.value)
    ensures var place := |states[n].world.shown| + MessagesAmong(before);
      place < |states[n + 1].world.shown| && ShownFiltered(setup.filter, m, states[n + 1].world.shown[place])
  {
    StaysListed(setup, events, states, i, n, m.id.value);
    LineFilters(setup, states[n], before, m, after);
    assert states[n + 1] == Step(setup, states[n], events[n]);
    hide FromServer;
    hide Answers;
    hide AsksToList;
    hide ShownFiltered;
  }
}
