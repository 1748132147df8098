/** The session and its claims as one machine. The rules' yes to a call is followed by a claim where the
    call has something to claim; a person's yes is not; and every result that closes a call settles it.
    What the claims see of such a run is a run of theirs, so what holds of those holds here. */
module ProxyClaims {
  import opened Basics
  import opened FirewallSession
  import opened FirewallInvariants
  import opened FirewallOutcomes
  import opened FirewallRecord
  import Claims = DuplicateWork

  datatype Joint = Joint(session: State, claims: Claims.State)

  /** What the rules, and after their yes the workspace, answer for a call; a line from the server; any
      other step of the session; and any other step of the claims. */
  datatype Event =
    | Ruled(task: nat, effect: Effect, answer: Claims.ClaimAnswer)
    | FromServer(items: seq<Item>)
    | InSession(step: FirewallSession.Event)
    | InClaims(claim: Claims.Event)

  function Begin(): Joint {
    Joint(Start(), Claims.Start())
  }

  /** A claim is made for a call the rules allow, of a tool the filter shows, that has something to claim. */
  predicate Asks(setup: Setup, actionOf: Claims.Actions, s: State, t: nat, effect: Effect)
    requires Waits(s, t)
  {
    var task := s.world.tasks[t];
    setup.filter(Current(task).call.name) && effect.Allow? && actionOf(CurrentUid(task)).Some?
  }

  /** No call is claimed twice: only calls with a verdict have been, and each verdict is given once. And
      only a call that was claimed holds. */
  ghost predicate Fits(setup: Setup, j: Joint) {
    && Inv(setup, j.session)
    && (forall u | u in j.claims.world.claimed :: u in j.session.world.verdicts)
    && (forall u | u in j.claims.world.holding :: u in j.claims.world.claimed)
  }

  ghost predicate Possible(setup: Setup, actionOf: Claims.Actions, j: Joint, e: Event) {
    match e
    case Ruled(t, effect, _) => Enabled(j.session, Verdict(t, effect))
    case FromServer(_) => true
    case InSession(e) => !e.Verdict? && !e.ServerLine? && Enabled(j.session, e)
    case InClaims(e) => !e.Claimed? && !e.Settles? && Claims.Enabled(j.claims, e)
  }

  /** The calls a server line settles, in order. */
  ghost function NowSettled(setup: Setup, s: State, items: seq<Item>): seq<nat> {
    var after := FirewallSession.FromServer(setup, s, items).world.settled;
    if |s.world.settled| <= |after| then after[|s.world.settled|..] else []
  }

  ghost function Settlings(calls: seq<nat>): seq<Claims.Event> {
    seq(|calls|, i requires 0 <= i < |calls| => Claims.Settles(calls[i]))
  }

  /** What the claims are told of a step, in order. */
  ghost function Tells(setup: Setup, actionOf: Claims.Actions, j: Joint, e: Event): seq<Claims.Event>
    requires Possible(setup, actionOf, j, e)
  {
    match e
    case Ruled(t, effect, answer) =>
      if Asks(setup, actionOf, j.session, t, effect)
      then [Claims.Claimed(CurrentUid(j.session.world.tasks[t]), answer)] else []
    case FromServer(items) => Settlings(NowSettled(setup, j.session, items))
    case InSession(_) => []
    case InClaims(claim) => [claim]
  }

  /** What the session does at a step: a call that is claimed goes out where the claim is ours or could
      not be asked about. */
  ghost function Does(setup: Setup, actionOf: Claims.Actions, j: Joint, e: Event): State
    requires Possible(setup, actionOf, j, e)
  {
    match e
    case Ruled(t, effect, answer) =>
      if Asks(setup, actionOf, j.session, t, effect)
      then Step(setup, j.session, Verdict(t, if answer.Mine? || answer.Unknown? then Allow else Deny))
      else Step(setup, j.session, Verdict(t, effect))
    case FromServer(items) => FirewallSession.FromServer(setup, j.session, items)
    case InSession(step) => Step(setup, j.session, step)
    case InClaims(_) => j.session
  }

  /** The claims after some events; one that cannot come would change nothing. */
  ghost function After(actionOf: Claims.Actions, c: Claims.State, events: seq<Claims.Event>): Claims.State {
    if events == [] then c
    else
      var before := After(actionOf, c, events[..|events| - 1]);
      var last := events[|events| - 1];
      if Claims.Enabled(before, last) then Claims.Step(actionOf, before, last) else before
  }

  ghost function Next(setup: Setup, actionOf: Claims.Actions, j: Joint, e: Event): Joint
    requires Possible(setup, actionOf, j, e)
  {
    Joint(Does(setup, actionOf, j, e), After(actionOf, j.claims, Tells(setup, actionOf, j, e)))
  }

  ghost predicate Runs(setup: Setup, actionOf: Claims.Actions, events: seq<Event>, states: seq<Joint>) {
    && |states| == |events| + 1
    && states[0] == Begin()
    && forall i | 0 <= i < |events| ::
         Possible(setup, actionOf, states[i], events[i]) && states[i + 1] == Next(setup, actionOf, states[i], events[i])
  }

  // ---------------------------------------------------------------- every state of a run fits

  lemma BeginFits(setup: Setup)
    ensures Fits(setup, Begin())
  {
    StartInv(setup);
  }

  /** Every event comes as it can, one after another. */
  ghost predicate Comes(actionOf: Claims.Actions, c: Claims.State, events: seq<Claims.Event>) {
    forall i | 0 <= i < |events| :: Claims.Enabled(After(actionOf, c, events[..i]), events[i])
  }

  lemma AfterMore(actionOf: Claims.Actions, c: Claims.State, events: seq<Claims.Event>, e: Claims.Event)
    requires Claims.Enabled(After(actionOf, c, events), e)
    ensures After(actionOf, c, events + [e]) == Claims.Step(actionOf, After(actionOf, c, events), e)
  {
    hide Claims.Step;
    hide Claims.Enabled;
    assert (events + [e])[..|events|] == events;
  }

  lemma AfterOne(actionOf: Claims.Actions, c: Claims.State, e: Claims.Event)
    requires Claims.Enabled(c, e)
    ensures After(actionOf, c, [e]) == Claims.Step(actionOf, c, e) && Comes(actionOf, c, [e])
  {
    hide Claims.Step;
    hide Claims.Enabled;
    assert [e][..0] == [];
  }

  lemma {:induction false} SettleClaims(actionOf: Claims.Actions, c: Claims.State, calls: seq<nat>)
    ensures After(actionOf, c, Settlings(calls)).world.claimed == c.world.claimed
    ensures After(actionOf, c, Settlings(calls)).world.holding.Keys <= c.world.holding.Keys
  {
    if calls != [] {
      var n := |calls| - 1;
      SettleClaims(actionOf, c, calls[..n]);
      assert Settlings(calls)[..n] == Settlings(calls[..n]);
      hide Settlings;
    }
  }

  /** In a state that fits, what the claims are told can come. */
  lemma TellsCome(setup: Setup, actionOf: Claims.Actions, j: Joint, e: Event)
    requires Fits(setup, j) && Possible(setup, actionOf, j, e)
    ensures Comes(actionOf, j.claims, Tells(setup, actionOf, j, e))
  {
    match e {
      case Ruled(t, effect, answer) =>
        if Asks(setup, actionOf, j.session, t, effect) {
          DecidesNew(setup, j.session, Verdict(t, effect));
          hide Inv;
          AfterOne(actionOf, j.claims, Claims.Claimed(CurrentUid(j.session.world.tasks[t]), answer));
        }
      case InClaims(claim) => AfterOne(actionOf, j.claims, claim);
      case _ =>
    }
  }

  /** Every step of the joint machine leaves a state that fits. */
  lemma NextFits(setup: Setup, actionOf: Claims.Actions, j: Joint, e: Event)
    requires Fits(setup, j) && Possible(setup, actionOf, j, e)
    ensures Fits(setup, Next(setup, actionOf, j, e))
  {
    hide Inv;
    hide After;
    match e {
      case Ruled(t, effect, answer) =>
        if Asks(setup, actionOf, j.session, t, effect) {
          RuledFits(setup, actionOf, j, t, effect, answer);
        } else {
          OnlySession(setup, j, Verdict(t, effect), actionOf);
        }
      case FromServer(items) =>
        StepKeeps(setup, j.session, ServerLine(items));
        StepVerdicts(setup, j.session, ServerLine(items));
        SettleClaims(actionOf, j.claims, NowSettled(setup, j.session, items));
        hide FirewallSession.FromServer;
      case InSession(step) => OnlySession(setup, j, step, actionOf);
      case InClaims(claim) =>
        AfterOne(actionOf, j.claims, claim);
    }
  }

  lemma RuledFits(setup: Setup, actionOf: Claims.Actions, j: Joint, t: nat, effect: Effect, answer: Claims.ClaimAnswer)
    requires Fits(setup, j) && Possible(setup, actionOf, j, Event.Ruled(t, effect, answer))
    requires Asks(setup, actionOf, j.session, t, effect)
    ensures Fits(setup, Next(setup, actionOf, j, Event.Ruled(t, effect, answer)))
  {
    hide Inv;
    var verdict := Verdict(t, if answer.Mine? || answer.Unknown? then Allow else Deny);
    StepKeeps(setup, j.session, verdict);
    StepVerdicts(setup, j.session, verdict);
    DecidesNew(setup, j.session, verdict);
    hide Step;
    AfterOne(actionOf, j.claims, Claims.Claimed(CurrentUid(j.session.world.tasks[t]), answer));
    hide After;
  }

  lemma OnlySession(setup: Setup, j: Joint, step: FirewallSession.Event, actionOf: Claims.Actions)
    requires Fits(setup, j) && Enabled(j.session, step)
    ensures Fits(setup, Joint(Step(setup, j.session, step), After(actionOf, j.claims, [])))
  {
    hide Inv;
    StepKeeps(setup, j.session, step);
    StepVerdicts(setup, j.session, step);
    hide Step;
  }

  /** Whatever comes, in whatever order, every state of a run fits: no call is claimed twice, and only one
      claimed holds. */
  lemma {:induction false} RunFits(
    setup: Setup, actionOf: Claims.Actions, events: seq<Event>, states: seq<Joint>, n: nat)
    requires Runs(setup, actionOf, events, states) && n < |states|
    ensures Fits(setup, states[n])
  {
    hide Fits;
    hide Possible;
    hide Next;
    if n == 0 {
      BeginFits(setup);
    } else {
      RunFits(setup, actionOf, events, states, n - 1);
      NextFits(setup, actionOf, states[n - 1], events[n - 1]);
    }
  }

  // ---------------------------------------------------------------- what the claims see

  /** The calls settled among some events, in order. */
  ghost function SettledIn(events: seq<Claims.Event>): seq<nat> {
    if events == [] then []
    else
      var last := events[|events| - 1];
      SettledIn(events[..|events| - 1]) + if last.Settles? then [last.call] else []
  }

  lemma {:induction false} SettledInBoth(a: seq<Claims.Event>, b: seq<Claims.Event>)
    ensures SettledIn(a + b) == SettledIn(a) + SettledIn(b)
  {
    if b == [] {
      assert a + b == a;
    } else {
      var n := |b| - 1;
      SettledInBoth(a, b[..n]);
      assert (a + b)[..|a + b| - 1] == a + b[..n];
    }
  }

  lemma {:induction false} SettledInSettlings(calls: seq<nat>)
    ensures SettledIn(Settlings(calls)) == calls
  {
    if calls != [] {
      var n := |calls| - 1;
      SettledInSettlings(calls[..n]);
      assert Settlings(calls)[..n] == Settlings(calls[..n]);
    }
  }

  lemma ComesButLast(actionOf: Claims.Actions, c: Claims.State, events: seq<Claims.Event>)
    requires Comes(actionOf, c, events) && events != []
    ensures var n := |events| - 1;
      Comes(actionOf, c, events[..n]) && Claims.Enabled(After(actionOf, c, events[..n]), events[n])
  {
    hide After;
    hide Claims.Enabled;
    var n := |events| - 1;
    assert forall i | 0 <= i < n :: events[..n][..i] == events[..i];
  }

  /** A run goes on with events that come as they can. */
  lemma {:induction false} GoesOn(
    actionOf: Claims.Actions, events: seq<Claims.Event>, states: seq<Claims.State>, more: seq<Claims.Event>)
    returns (states': seq<Claims.State>)
    requires Claims.Runs(actionOf, events, states) && Comes(actionOf, states[|events|], more)
    ensures Claims.Runs(actionOf, events + more, states') && states <= states'
    ensures states'[|events + more|] == After(actionOf, states[|events|], more)
  {
    hide Claims.Runs;
    hide Claims.Step;
    hide Claims.Enabled;
    hide Comes;
    Lengths(actionOf, events, states);
    var c := states[|events|];
    if more == [] {
      states' := states;
      assert events + more == events;
      assert After(actionOf, c, []) == c;
    } else {
      var n := |more| - 1;
      ComesButLast(actionOf, c, more);
      var reached := GoesOn(actionOf, events, states, more[..n]);
      Lengths(actionOf, events + more[..n], reached);
      assert more == more[..n] + [more[n]];
      AfterMore(actionOf, c, more[..n], more[n]);
      hide After;
      ClaimsMore(actionOf, events + more[..n], reached, more[n]);
      Associate(events, more[..n], [more[n]]);
      states' := reached + [After(actionOf, c, more)];
    }
  }

  lemma ClaimsMore(actionOf: Claims.Actions, events: seq<Claims.Event>, states: seq<Claims.State>, e: Claims.Event)
    requires Claims.Runs(actionOf, events, states) && Claims.Enabled(states[|events|], e)
    ensures Claims.Runs(actionOf, events + [e], states + [Claims.Step(actionOf, states[|events|], e)])
  {
    hide Claims.Step;
    hide Claims.Enabled;
  }

  lemma {:induction false} ServerSettles(setup: Setup, s: State, items: seq<Item>)
    ensures s.world.settled + NowSettled(setup, s, items) == FirewallSession.FromServer(setup, s, items).world.settled
    decreases |items|
  {
    ServerPrefix(setup, s, items);
    hide FirewallSession.FromServer;
  }

  lemma {:induction false} ServerPrefix(setup: Setup, s: State, items: seq<Item>)
    ensures s.world.settled <= FirewallSession.FromServer(setup, s, items).world.settled
    decreases |items|
  {
    hide ReplyFor;
    if items != [] {
      if items[0].Junk? {
        ServerPrefix(setup, s, items[1..]);
      } else {
        ReplyEffect(setup, s, items[0].message);
        var (next, m) := ReplyFor(setup, s, items[0].message);
        ServerPrefix(setup, next.(world := next.world.(shown := next.world.shown + [m])), items[1..]);
      }
    }
  }

  lemma Lengths(actionOf: Claims.Actions, events: seq<Claims.Event>, states: seq<Claims.State>)
    requires Claims.Runs(actionOf, events, states)
    ensures |states| == |events| + 1
  {
  }

  lemma StepSettles(setup: Setup, s: State, e: FirewallSession.Event)
    requires Enabled(s, e) && !e.ServerLine?
    ensures Step(setup, s, e).world.settled == s.world.settled
  {
    hide MessagesIn;
    hide RuleAhead;
    hide NowWritten;
    hide NowAnswered;
    hide NowSilent;
    hide FirewallSession.FromServer;
  }

  /** What the claims are told in a run, up to its state `n`. */
  ghost function ToldBy(
    setup: Setup, actionOf: Claims.Actions, events: seq<Event>, states: seq<Joint>, n: nat): seq<Claims.Event>
    requires Runs(setup, actionOf, events, states) && n < |states|
  {
    if n == 0 then []
    else ToldBy(setup, actionOf, events, states, n - 1) + Tells(setup, actionOf, states[n - 1], events[n - 1])
  }

  /** State `i` of a joint run is where the claims stand once told that much, and the calls the session has
      settled are those they were told of, in order. */
  ghost predicate Shows(
    setup: Setup, actionOf: Claims.Actions, events: seq<Event>, states: seq<Joint>, reached: seq<Claims.State>, i: nat)
    requires Runs(setup, actionOf, events, states) && i < |states|
  {
    var told := ToldBy(setup, actionOf, events, states, i);
    && |told| < |reached| && reached[|told|] == states[i].claims
    && SettledIn(told) == states[i].session.world.settled
  }

  /** What the claims are told in a joint run is a run of theirs, which passes through the claims of every
      state of the joint run, each where they have been told as much as came before it. */
  lemma {:induction false} Projects(
    setup: Setup, actionOf: Claims.Actions, events: seq<Event>, states: seq<Joint>, n: nat)
    returns (reached: seq<Claims.State>)
    requires Runs(setup, actionOf, events, states) && n < |states|
    ensures Claims.Runs(actionOf, ToldBy(setup, actionOf, events, states, n), reached)
    ensures forall i | 0 <= i <= n :: Shows(setup, actionOf, events, states, reached, i)
  {
    if n == 0 {
      reached := [Claims.Start()];
    } else {
      var passed := Projects(setup, actionOf, events, states, n - 1);
      var told := ToldBy(setup, actionOf, events, states, n - 1);
      var j, e := states[n - 1], events[n - 1];
      assert Possible(setup, actionOf, j, e) && states[n] == Next(setup, actionOf, j, e);
      RunFits(setup, actionOf, events, states, n - 1);
      TellsCome(setup, actionOf, j, e);
      TellsSettled(setup, actionOf, j, e);
      Lengths(actionOf, told, passed);
      assert Shows(setup, actionOf, events, states, passed, n - 1);
      hide Fits;
      hide Possible;
      hide Claims.Runs;
      hide Comes;
      hide After;
      hide Does;
      hide Tells;
      var more := Tells(setup, actionOf, j, e);
      reached := GoesOn(actionOf, told, passed, more);
      Lengths(actionOf, told + more, reached);
      SettledInBoth(told, more);
      forall i | 0 <= i <= n ensures Shows(setup, actionOf, events, states, reached, i) {
        assert i < n ==> Shows(setup, actionOf, events, states, passed, i);
      }
    }
  }

  /** A step tells the claims of the calls the session settles at it. */
  lemma TellsSettled(setup: Setup, actionOf: Claims.Actions, j: Joint, e: Event)
    requires Possible(setup, actionOf, j, e)
    ensures Next(setup, actionOf, j, e).session.world.settled
      == j.session.world.settled + SettledIn(Tells(setup, actionOf, j, e))
  {
    hide Step;
    hide After;
    match e {
      case Ruled(t, effect, answer) =>
        if Asks(setup, actionOf, j.session, t, effect) {
          StepSettles(setup, j.session, Verdict(t, if answer.Mine? || answer.Unknown? then Allow else Deny));
          var claim := Claims.Claimed(CurrentUid(j.session.world.tasks[t]), answer);
          assert [claim][..0] == [] && SettledIn([claim]) == [];
        } else {
          StepSettles(setup, j.session, Verdict(t, effect));
        }
      case FromServer(items) =>
        ServerSettles(setup, j.session, items);
        hide FirewallSession.FromServer;
        hide NowSettled;
        SettledInSettlings(NowSettled(setup, j.session, items));
      case InSession(step) => StepSettles(setup, j.session, step);
      case InClaims(claim) =>
        assert [claim][..0] == [] && SettledIn([claim]) == [];
    }
  }

  /** Through a whole joint run, at each of its states and between the results of one line, a fingerprint's
      keeper runs exactly while a call holds it, exactly where each call the session settled, in the order
      it did, held its claim or found nothing running. */
  lemma KeptThroughout(setup: Setup, actionOf: Claims.Actions, events: seq<Event>, states: seq<Joint>, n: nat)
    returns (reached: seq<Claims.State>)
    requires Runs(setup, actionOf, events, states) && n < |states|
    ensures var told := ToldBy(setup, actionOf, events, states, n);
      && Claims.Runs(actionOf, told, reached)
      && (Claims.AllCounted(reached, |told|) <==> Claims.AllOwned(actionOf, told, reached, |told|))
      && (Claims.AllCounted(reached, |told|) ==> forall i | 0 <= i <= n :: Claims.CountsOk(states[i].claims))
    ensures forall i | 0 <= i <= n :: Shows(setup, actionOf, events, states, reached, i)
  {
    reached := Projects(setup, actionOf, events, states, n);
    var told := ToldBy(setup, actionOf, events, states, n);
    Lengths(actionOf, told, reached);
    Claims.KeptWhileHeld(actionOf, told, reached, |told|);
    hide Claims.Runs;
    hide Claims.CountsOk;
    hide Runs;
    if Claims.AllCounted(reached, |told|) {
      forall i | 0 <= i <= n ensures Claims.CountsOk(states[i].claims) {
        assert Shows(setup, actionOf, events, states, reached, i);
      }
    }
  }

  // ---------------------------------------------------------------- what the workspace is asked

  /** The workspace is asked about exactly the calls the rules allow, of tools the filter shows, that have
      something to claim: what it would answer for any other changes nothing. And of those only a claim of
      ours, and a workspace that could not be asked, let the call out. */
  lemma AskedOfWorkspace(
    setup: Setup, actionOf: Claims.Actions, j: Joint, t: nat, effect: Effect, answer: Claims.ClaimAnswer)
    requires Possible(setup, actionOf, j, Event.Ruled(t, effect, answer))
    ensures var call, uid := Current(j.session.world.tasks[t]).call, CurrentUid(j.session.world.tasks[t]);
      var j' := Next(setup, actionOf, j, Event.Ruled(t, effect, answer));
      if effect.Allow? && setup.filter(call.name) && actionOf(uid).Some? then
        && j'.session.world.verdicts == j.session.world.verdicts[uid := answer.Mine? || answer.Unknown?]
        && (uid !in j.claims.world.claimed ==>
              j'.claims == Claims.Step(actionOf, j.claims, Claims.Claimed(uid, answer)))
      else
        j' == j.(session := Step(setup, j.session, Verdict(t, effect)))
  {
    hide Claims.Step;
    var uid := CurrentUid(j.session.world.tasks[t]);
    if Asks(setup, actionOf, j.session, t, effect) && uid !in j.claims.world.claimed {
      AfterOne(actionOf, j.claims, Claims.Claimed(uid, answer));
    }
  }

  // ---------------------------------------------------------------- what a person lets out

  /** A call a person lets out claims nothing. */
  lemma PersonClaimsNothing(setup: Setup, actionOf: Claims.Actions, j: Joint, t: nat)
    requires Fits(setup, j) && Possible(setup, actionOf, j, InSession(Person(t, true)))
    ensures var j' := Next(setup, actionOf, j, InSession(Person(t, true)));
      var m, uid := Current(j.session.world.tasks[t]), CurrentUid(j.session.world.tasks[t]);
      && uid !in j'.claims.world.holding
      && (m.id.Some? ==> m.id.value in j'.session.open && j'.session.open[m.id.value].uid == uid)
  {
    DecidesNew(setup, j.session, Person(t, true));
    hide Inv;
  }

  /** A result that closes a call which holds no claim lets go of the keeper of the one call that holds
      the same fingerprint. */
  lemma UnheldReplyReleases(setup: Setup, actionOf: Claims.Actions, j: Joint, m: Message, key: string)
    requires Fits(setup, j) && Closes(j.session, m)
    requires var uid := j.session.open[m.id.value].uid; actionOf(uid) == Some(key) && uid !in j.claims.world.holding
    requires key in j.claims.running && j.claims.running[key].calls == 1
    ensures var j' := Next(setup, actionOf, j, FromServer([Item(m)]));
      && j'.claims.running == j.claims.running - {key} && j'.claims.world.holding == j.claims.world.holding
      && j'.session.open == j.session.open - {m.id.value}
  {
    hide Inv;
    var uid := j.session.open[m.id.value].uid;
    OneReply(setup, j.session, m);
    hide FirewallSession.FromServer;
    assert NowSettled(setup, j.session, [Item(m)]) == [uid];
    hide NowSettled;
    assert Settlings([uid]) == [Claims.Settles(uid)];
    AfterOne(actionOf, j.claims, Claims.Settles(uid));
    assert j.claims.world.holding - {uid} == j.claims.world.holding;
  }

  lemma OneReply(setup: Setup, s: State, m: Message)
    requires Closes(s, m)
    ensures var s' := FirewallSession.FromServer(setup, s, [Item(m)]);
      s'.world.settled == s.world.settled + [s.open[m.id.value].uid] && s'.open == s.open - {m.id.value}
  {
    ReplyEffect(setup, s, m);
    hide ReplyFor;
    var (next, shown) := ReplyFor(setup, s, m);
    assert [Item(m)][1..] == [];
    var rest := next.(world := next.world.(shown := next.world.shown + [shown]));
    assert FirewallSession.FromServer(setup, rest, []) == rest;
  }

  lemma RunsMore(setup: Setup, actionOf: Claims.Actions, events: seq<Event>, states: seq<Joint>, e: Event)
    requires Runs(setup, actionOf, events, states) && Possible(setup, actionOf, states[|events|], e)
    ensures Runs(setup, actionOf, events + [e], states + [Next(setup, actionOf, states[|events|], e)])
  {
    hide Possible;
    hide Next;
  }

  const DEPLOY := "deploy"

  /** A session in which every call asks for one thing, and a person can be asked. */
  function OneThing(): (Setup, Claims.Actions) {
    (Setup(name => true, true, false, content => false, notes => ""), call => Some(DEPLOY))
  }

  function CallUnder(n: int): Message {
    Message(Some(NumberId(n)), ToolsCall, Call("t", map[]), NoReply)
  }

  /** A call that claims what it does, one that a person lets out, and the second one's result. */
  function PersonsRun(): (events: seq<Event>)
    ensures |events| == 8
  {
    [InSession(ClientLine([Item(CallUnder(1))], true)), Event.Ruled(0, Allow, Claims.Mine), InSession(Resumed(0, true)),
     InSession(ClientLine([Item(CallUnder(2))], true)), Event.Ruled(1, Ask, Claims.Unknown), InSession(Person(1, true)),
     InSession(Resumed(1, true)),
     FromServer([Item(Message(Some(NumberId(2)), NoMethod, Call("", map[]), ResultReply(None, None)))])]
  }

  /** A call that claims goes out. */
  lemma ClaimedGoesOut(actionOf: Claims.Actions) returns (states: seq<Joint>)
    requires actionOf == OneThing().1
    ensures Runs(OneThing().0, actionOf, PersonsRun()[..3], states)
    ensures var j := states[3];
      && j.session.listIds == {} && j.session.open == map[NumberId(1) := OpenCall(0, CallUnder(1).call)]
      && j.session.world.nextUid == 1 && j.session.world.nextTask == 1 && j.session.world.tasks == map[]
      && j.claims.world.holding == map[0 := DEPLOY] && j.claims.running == map[DEPLOY := Claims.Entry(0, 1)]
  {
    var setup := OneThing().0;
    var events := PersonsRun();
    var line := [Item(CallUnder(1))];
    hide Arrive;
    hide Resume;
    hide FirewallSession.FromServer;
    hide Throw;
    var j0 := Begin();
    var j1 := Next(setup, actionOf, j0, events[0]);
    CallArrives(j0.session, CallUnder(1));
    assert j1.session.world.tasks[0] == Task(0, line, [], AwaitsRules);
    var j2 := Next(setup, actionOf, j1, events[1]);
    assert Asks(setup, actionOf, j1.session, 0, Allow);
    AfterOne(actionOf, j1.claims, Claims.Claimed(0, Claims.Mine));
    CallGoesOut(j2.session, 0);
    var j3 := Next(setup, actionOf, j2, events[2]);
    states := [j0, j1, j2, j3];
  }

  /** After it, a call that a person lets out goes out and holds nothing. */
  lemma PersonsGoesOut(actionOf: Claims.Actions, j3: Joint) returns (more: seq<Joint>)
    requires actionOf == OneThing().1
    requires j3.session.listIds == {} && j3.session.open == map[NumberId(1) := OpenCall(0, CallUnder(1).call)]
    requires j3.session.world.nextUid == 1 && j3.session.world.nextTask == 1 && j3.session.world.tasks == map[]
    ensures |more| == 4
    ensures forall i | 0 <= i < 4 :: var j := ([j3] + more)[i];
      Possible(OneThing().0, actionOf, j, PersonsRun()[i + 3])
        && more[i] == Next(OneThing().0, actionOf, j, PersonsRun()[i + 3])
    ensures more[3].claims == j3.claims && more[3].session.listIds == {}
    ensures more[3].session.open
      == map[NumberId(1) := OpenCall(0, CallUnder(1).call), NumberId(2) := OpenCall(1, CallUnder(2).call)]
  {
    var setup := OneThing().0;
    var events := PersonsRun();
    var line := [Item(CallUnder(2))];
    hide Arrive;
    hide Resume;
    hide FirewallSession.FromServer;
    hide Throw;
    CallArrives(j3.session, CallUnder(2));
    var j4 := Next(setup, actionOf, j3, events[3]);
    assert j4.session.world.tasks[1] == Task(1, line, [], AwaitsRules);
    var j5 := Next(setup, actionOf, j4, events[4]);
    var j6 := Next(setup, actionOf, j5, events[5]);
    CallGoesOut(j6.session, 1);
    var j7 := Next(setup, actionOf, j6, events[6]);
    more := [j4, j5, j6, j7];
  }

  /** Both, one after the other. */
  lemma BothGoOut(actionOf: Claims.Actions) returns (states: seq<Joint>)
    requires actionOf == OneThing().1
    ensures Runs(OneThing().0, actionOf, PersonsRun()[..7], states)
    ensures var j := states[7];
      && j.session.listIds == {}
      && j.session.open
         == map[NumberId(1) := OpenCall(0, CallUnder(1).call), NumberId(2) := OpenCall(1, CallUnder(2).call)]
      && j.claims.world.holding == map[0 := DEPLOY] && j.claims.running == map[DEPLOY := Claims.Entry(0, 1)]
  {
    hide Next;
    hide Possible;
    hide PersonsRun;
    var first := ClaimedGoesOut(actionOf);
    var more := PersonsGoesOut(actionOf, first[3]);
    states := first + more;
    forall i | 0 <= i < 7
      ensures Possible(OneThing().0, actionOf, states[i], PersonsRun()[..7][i])
        && states[i + 1] == Next(OneThing().0, actionOf, states[i], PersonsRun()[..7][i])
    {
      if i < 3 {
        assert PersonsRun()[..3][i] == PersonsRun()[i] && states[i] == first[i];
      } else {
        assert ([first[3]] + more)[i - 3] == states[i] && more[i - 3] == states[i + 1];
        assert PersonsRun()[(i - 3) + 3] == PersonsRun()[i];
      }
    }
  }

  /** A run from the start in which the result of a call a person let out lets go of the keeper that
      another call, still out, holds. */
  lemma PersonLetsOut() returns (states: seq<Joint>)
    ensures Runs(OneThing().0, OneThing().1, PersonsRun(), states)
    ensures states[7].claims.running == map[DEPLOY := Claims.Entry(0, 1)] && states[8].claims.running == map[]
    ensures states[7].claims.world.holding == states[8].claims.world.holding == map[0 := DEPLOY]
    ensures states[8].session.open == map[NumberId(1) := OpenCall(0, CallUnder(1).call)]
  {
    var (setup, actionOf) := OneThing();
    var before := BothGoOut(actionOf);
    var events, last := PersonsRun()[..7], PersonsRun()[7];
    RunFits(setup, actionOf, events, before, 7);
    UnheldReplyReleases(setup, actionOf, before[7], last.items[0].message, DEPLOY);
    RunsMore(setup, actionOf, events, before, last);
    assert PersonsRun() == events + [last];
    hide Runs;
    hide Next;
    hide Fits;
    states := before + [Next(setup, actionOf, before[7], last)];
  }
}
