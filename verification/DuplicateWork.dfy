/** Claims a proxy holds on work other agents might do, kept while the calls they were made for
    are out. One keeper runs for each fingerprint, counting its calls, and is let go by the last
    of them or by the close. Claims, results, closes and finished releases come in any order. */
module DuplicateWork {
  import opened Basics

  datatype ClaimAnswer = Mine | Unknown | Duplicate | Busy

  /** A keeper under a fingerprint and how many calls are out under it. */
  datatype Entry = Entry(keeper: nat, calls: int)

  /** A close under way: what had been begun when it was called, and what it waits for. */
  datatype Closing = Closing(begun: set<nat>, waits: set<nat>)

  datatype World = World(
    nextKeeper: nat,
    released: multiset<nat>,
    resolved: set<nat>,
    rejected: set<nat>,
    claimed: set<nat>,
    holding: map<nat, string>,
    nextClose: nat,
    closes: map<nat, Closing>)

  datatype State = State(running: map<string, Entry>, finishing: set<nat>, world: World)

  datatype Event =
    | Claimed(call: nat, answer: ClaimAnswer)
    | Settles(call: nat)
    | Finished(keeper: nat, resolves: bool)
    | Closes
    | Closed(close: nat)
    | CloseFailed(close: nat)

  /** The fingerprint of each call that claims something; the other calls have none. */
  type Actions = nat -> Option<string>

  function Start(): State {
    State(map[], {}, World(0, multiset{}, {}, {}, {}, map[], 0, map[]))
  }

  /** One more call under a key, with a new keeper where none runs. */
  function Hold(s: State, call: nat, key: string): State {
    var w := s.world.(holding := s.world.holding[call := key]);
    if key in s.running then
      s.(running := s.running[key := s.running[key].(calls := s.running[key].calls + 1)], world := w)
    else
      s.(running := s.running[key := Entry(w.nextKeeper, 1)], world := w.(nextKeeper := w.nextKeeper + 1))
  }

  function Settle(s: State, call: nat, key: string): State {
    var w := s.world.(holding := s.world.holding - {call});
    if key !in s.running then s.(world := w)
    else
      var held := s.running[key].(calls := s.running[key].calls - 1);
      if held.calls > 0 then s.(running := s.running[key := held], world := w)
      else s.(
        running := s.running - {key}, finishing := s.finishing + {held.keeper},
        world := w.(released := w.released + multiset{held.keeper}))
  }

  /** The keepers that run. */
  function Keepers(running: map<string, Entry>): set<nat> {
    set k | k in running :: running[k].keeper
  }

  function Each(keepers: set<nat>): multiset<nat> {
    multiset(keepers)
  }

  /** Everything that runs is let go, and what is being let go is waited for. Nothing is held for
      a call any longer. */
  function Close(s: State): State {
    var w := s.world;
    var finishing := s.finishing + Keepers(s.running);
    var released := w.released + Each(Keepers(s.running));
    State(map[], finishing, w.(
      released := released, holding := map[], nextClose := w.nextClose + 1,
      closes := w.closes[w.nextClose := Closing(Begun(w.nextKeeper, released), finishing)]))
  }

  /** The keepers whose release has begun. */
  function Begun(next: nat, released: multiset<nat>): set<nat> {
    set k | 0 <= k < next && k in released
  }

  ghost predicate Enabled(s: State, e: Event) {
    match e
    case Claimed(call, _) => call !in s.world.claimed
    case Settles(call) => true
    case Finished(keeper, _) => keeper in s.finishing
    case Closes => true
    case Closed(c) => c in s.world.closes && s.world.closes[c].waits <= s.world.resolved
    case CloseFailed(c) => c in s.world.closes && s.world.closes[c].waits * s.world.rejected != {}
  }

  ghost function Step(actionOf: Actions, s: State, e: Event): State
    requires Enabled(s, e)
  {
    match e
    case Claimed(call, answer) =>
      var claimed := s.(world := s.world.(claimed := s.world.claimed + {call}));
      if actionOf(call).Some? && answer.Mine? then Hold(claimed, call, actionOf(call).value) else claimed
    case Settles(call) => if actionOf(call).Some? then Settle(s, call, actionOf(call).value) else s
    case Finished(keeper, resolves) =>
      var w := s.world;
      s.(finishing := s.finishing - {keeper},
         world := if resolves then w.(resolved := w.resolved + {keeper}) else w.(rejected := w.rejected + {keeper}))
    case Closes => Close(s)
    case Closed(c) => s.(world := s.world.(closes := s.world.closes - {c}))
    case CloseFailed(c) => s.(world := s.world.(closes := s.world.closes - {c}))
  }

  ghost predicate Runs(actionOf: Actions, events: seq<Event>, states: seq<State>) {
    && |states| == |events| + 1
    && states[0] == Start()
    && forall i | 0 <= i < |events| ::
         Enabled(states[i], events[i]) && states[i + 1] == Step(actionOf, states[i], events[i])
  }

  // ---------------------------------------------------------------- keepers

  ghost predicate Keeps(running: map<string, Entry>, keeper: nat) {
    exists k :: k in running && running[k].keeper == keeper
  }

  /** A keeper runs, or has been let go of once, and what is let go of is waited for until it is
      done. */
  ghost predicate KeepersOk(s: State) {
    RunningOk(s) && OnceOk(s) && FinishingOk(s) && ClosesOk(s.world)
  }

  ghost predicate RunningOk(s: State) {
    && (forall k | k in s.running :: s.running[k].keeper < s.world.nextKeeper && s.running[k].calls > 0)
    && (forall k, k' | k in s.running && k' in s.running && s.running[k].keeper == s.running[k'].keeper :: k == k')
  }

  ghost predicate OnceOk(s: State) {
    forall x: nat ::
      s.world.released[x] + (if Keeps(s.running, x) then 1 else 0) == if x < s.world.nextKeeper then 1 else 0
  }

  ghost predicate FinishingOk(s: State) {
    && (forall x: nat :: x in s.world.released <==> x in s.finishing || x in s.world.resolved || x in s.world.rejected)
    && (forall x: nat | x in s.finishing :: x !in s.world.resolved && x !in s.world.rejected)
  }

  ghost predicate ClosesOk(w: World) {
    && (forall c, x: nat | c in w.closes && x in w.closes[c].begun ::
         x in w.closes[c].waits || x in w.resolved || x in w.rejected)
    && (forall c | c in w.closes :: c < w.nextClose)
  }

  lemma HoldKeepers(s: State, call: nat, key: string)
    requires KeepersOk(s)
    ensures KeepersOk(Hold(s, call, key))
  {
    var s' := Hold(s, call, key);
    forall x: nat
      ensures Keeps(s'.running, x) <==> Keeps(s.running, x) || (key !in s.running && x == s.world.nextKeeper)
    {
      assert s'.running[key].keeper == if key in s.running then s.running[key].keeper else s.world.nextKeeper;
      if Keeps(s.running, x) {
        var k :| k in s.running && s.running[k].keeper == x;
        assert s'.running[k].keeper == x;
      }
    }
  }

  lemma SettleKeepers(s: State, call: nat, key: string)
    requires KeepersOk(s)
    ensures KeepersOk(Settle(s, call, key))
  {
    var s' := Settle(s, call, key);
    forall x: nat ensures Keeps(s'.running, x) <==>
        Keeps(s.running, x) && !(key in s.running && key !in s'.running && x == s.running[key].keeper)
    {
      if Keeps(s.running, x) && !(key in s.running && key !in s'.running && x == s.running[key].keeper) {
        var k :| k in s.running && s.running[k].keeper == x;
        assert k in s'.running && s'.running[k].keeper == x;
      }
    }
    if key in s.running {
      assert Keeps(s.running, s.running[key].keeper);
    }
  }

  lemma CloseKeepers(s: State)
    requires KeepersOk(s)
    ensures KeepersOk(Close(s))
  {
    CloseOnce(s);
    CloseFinishing(s);
    CloseCloses(s);
  }

  lemma CloseOnce(s: State)
    requires RunningOk(s) && OnceOk(s)
    ensures RunningOk(Close(s)) && OnceOk(Close(s))
  {
    hide Begun;
    var s' := Close(s);
    forall x: nat
      ensures s'.world.released[x] == s.world.released[x] + if Keeps(s.running, x) then 1 else 0
    {
      assert x in Keepers(s.running) <==> Keeps(s.running, x);
    }
  }

  lemma CloseFinishing(s: State)
    requires OnceOk(s) && FinishingOk(s)
    ensures FinishingOk(Close(s))
  {
    hide Begun;
    forall x: nat | x in Keepers(s.running) ensures x !in s.world.released {
      assert Keeps(s.running, x);
    }
    hide Keepers;
  }

  lemma CloseCloses(s: State)
    requires FinishingOk(s) && ClosesOk(s.world)
    ensures ClosesOk(Close(s).world)
  {
    hide Keepers;
  }

  lemma StepKeepers(actionOf: Actions, s: State, e: Event)
    requires KeepersOk(s) && Enabled(s, e)
    ensures KeepersOk(Step(actionOf, s, e))
  {
    match e {
      case Claimed(call, answer) =>
        var claimed := s.(world := s.world.(claimed := s.world.claimed + {call}));
        if actionOf(call).Some? && answer.Mine? {
          HoldKeepers(claimed, call, actionOf(call).value);
        }
      case Settles(call) =>
        if actionOf(call).Some? {
          SettleKeepers(s, call, actionOf(call).value);
        }
      case Closes => CloseKeepers(s);
      case Finished(keeper, resolves) =>
      case Closed(c) =>
      case CloseFailed(c) =>
    }
  }

  /** In every run, whatever is settled, each keeper started is either running or was let go of
      exactly once. */
  lemma {:induction false} ReleasedOnce(actionOf: Actions, events: seq<Event>, states: seq<State>, n: nat)
    requires Runs(actionOf, events, states) && n < |states|
    ensures KeepersOk(states[n])
  {
    hide Step;
    hide Enabled;
    hide KeepersOk;
    if n == 0 {
      assert KeepersOk(Start()) by { StartKeepers(); }
    } else {
      ReleasedOnce(actionOf, events, states, n - 1);
      StepKeepers(actionOf, states[n - 1], events[n - 1]);
    }
  }

  lemma StartKeepers()
    ensures KeepersOk(Start())
  {
  }

  // ---------------------------------------------------------------- counts

  /** The calls that hold a key: claimed as ours and not back. */
  ghost function Callers(holding: map<nat, string>, key: string): set<nat> {
    set c | c in holding && holding[c] == key
  }

  /** A keeper runs under a key exactly while a call holds it, and counts those calls. */
  ghost predicate CountsOk(s: State) {
    forall key :: CountOk(s, key)
  }

  ghost predicate CountOk(s: State, key: string) {
    && (key in s.running <==> Callers(s.world.holding, key) != {})
    && (key in s.running ==> s.running[key].calls == |Callers(s.world.holding, key)|)
  }

  /** A settle that finds what it holds, or finds nothing. */
  ghost predicate Owns(actionOf: Actions, s: State, e: Event) {
    e.Settles? && actionOf(e.call).Some? ==> e.call in s.world.holding || actionOf(e.call).value !in s.running
  }

  /** Calls hold what they claimed. */
  ghost predicate HoldingOk(actionOf: Actions, s: State) {
    forall c | c in s.world.holding :: c in s.world.claimed && actionOf(c) == Some(s.world.holding[c])
  }

  lemma HoldCounts(s: State, call: nat, key: string)
    requires CountsOk(s) && call !in s.world.holding
    ensures CountsOk(Hold(s, call, key))
  {
    forall k ensures CountOk(Hold(s, call, key), k) {
      assert CountOk(s, k);
      OneCallerMore(s.world.holding, call, key, k);
      hide Callers;
    }
  }

  lemma OneCallerMore(h: map<nat, string>, call: nat, key: string, k: string)
    requires call !in h
    ensures var callers, more := Callers(h, k), Callers(h[call := key], k);
      && |more| == |callers| + (if k == key then 1 else 0)
      && (callers == {} <==> |callers| == 0) && (more == {} <==> |more| == 0)
  {
    var callers, more := Callers(h, k), Callers(h[call := key], k);
    assert call !in callers;
    assert more == if k == key then callers + {call} else callers;
  }

  lemma OneCallerLess(h: map<nat, string>, call: nat, key: string)
    ensures var callers, left := Callers(h, key), Callers(h - {call}, key);
      if call in h && h[call] == key then left == callers - {call} && |left| == |callers| - 1 else left == callers
  {
    var callers, left := Callers(h, key), Callers(h - {call}, key);
    assert left == callers - {call};
  }

  /** Settling a call that holds its key keeps every count; settling one that does not, while
      something runs under its key, takes that keeper's count from another call. */
  lemma SettleCounts(s: State, call: nat, key: string)
    requires CountsOk(s) && (call in s.world.holding ==> s.world.holding[call] == key)
    ensures CountsOk(Settle(s, call, key)) <==> call in s.world.holding || key !in s.running
  {
    var h, h' := s.world.holding, s.world.holding - {call};
    var s' := Settle(s, call, key);
    if call in h || key !in s.running {
      forall k ensures CountOk(s', k) {
        assert CountOk(s, k);
        OneCallerLess(h, call, k);
      }
    } else {
      assert CountOk(s, key);
      assert Callers(h', key) == Callers(h, key);
      assert !CountOk(s', key);
    }
  }

  lemma StepCounts(actionOf: Actions, s: State, e: Event)
    requires HoldingOk(actionOf, s) && CountsOk(s) && Enabled(s, e)
    ensures CountsOk(Step(actionOf, s, e)) <==> Owns(actionOf, s, e)
  {
    match e {
      case Claimed(call, answer) =>
        var claimed := s.(world := s.world.(claimed := s.world.claimed + {call}));
        SameCounts(s, claimed);
        if actionOf(call).Some? && answer.Mine? {
          HoldCounts(claimed, call, actionOf(call).value);
        }
      case Settles(call) =>
        if actionOf(call).Some? {
          SettleCounts(s, call, actionOf(call).value);
        }
      case Closes =>
        forall key ensures CountOk(Close(s), key) {
          assert Callers(map[], key) == {};
        }
      case Finished(keeper, resolves) => SameCounts(s, Step(actionOf, s, e));
      case Closed(c) => SameCounts(s, Step(actionOf, s, e));
      case CloseFailed(c) => SameCounts(s, Step(actionOf, s, e));
    }
  }

  lemma SameCounts(s: State, s': State)
    requires CountsOk(s) && s'.running == s.running && s'.world.holding == s.world.holding
    ensures CountsOk(s')
  {
    forall key ensures CountOk(s', key) {
      assert CountOk(s, key);
    }
  }

  lemma {:induction false} RunHolding(actionOf: Actions, events: seq<Event>, states: seq<State>, n: nat)
    requires Runs(actionOf, events, states) && n < |states|
    ensures HoldingOk(actionOf, states[n])
  {
    if n > 0 {
      RunHolding(actionOf, events, states, n - 1);
    }
  }

  ghost predicate AllCounted(states: seq<State>, n: nat)
    requires n < |states|
  {
    forall i | 0 <= i <= n :: CountsOk(states[i])
  }

  ghost predicate AllOwned(actionOf: Actions, events: seq<Event>, states: seq<State>, n: nat)
    requires |states| == |events| + 1 && n <= |events|
  {
    forall i | 0 <= i < n :: Owns(actionOf, states[i], events[i])
  }

  /** Throughout a run a fingerprint's keeper runs exactly while a call holds it, where and only
      where every settle was of a call that holds its claim or found nothing running. */
  lemma {:induction false} KeptWhileHeld(actionOf: Actions, events: seq<Event>, states: seq<State>, n: nat)
    requires Runs(actionOf, events, states) && n < |states|
    ensures AllCounted(states, n) <==> AllOwned(actionOf, events, states, n)
  {
    hide Step;
    hide Enabled;
    hide CountsOk;
    hide Owns;
    if n == 0 {
      StartCounts();
    } else {
      KeptWhileHeld(actionOf, events, states, n - 1);
      RunHolding(actionOf, events, states, n - 1);
      assert states[n] == Step(actionOf, states[n - 1], events[n - 1]);
      if CountsOk(states[n - 1]) {
        StepCounts(actionOf, states[n - 1], events[n - 1]);
      }
      assert AllCounted(states, n) <==> AllCounted(states, n - 1) && CountsOk(states[n]);
      assert AllOwned(actionOf, events, states, n) <==>
        AllOwned(actionOf, events, states, n - 1) && Owns(actionOf, states[n - 1], events[n - 1]);
    }
  }

  lemma StartCounts()
    ensures CountsOk(Start())
  {
    forall key ensures CountOk(Start(), key) {
    }
  }

  /** The last call under a key lets its keeper go, and no other settle does. */
  lemma LastCallReleases(s: State, call: nat, key: string)
    requires CountsOk(s) && call in s.world.holding && s.world.holding[call] == key
    ensures key in s.running
    ensures Settle(s, call, key).world.released == s.world.released
      + if Callers(s.world.holding, key) == {call} then multiset{s.running[key].keeper} else multiset{}
  {
    assert CountOk(s, key);
    var callers := Callers(s.world.holding, key);
    assert call in callers;
    if |callers| == 1 {
      assert |callers - {call}| == 0;
      assert callers == {call};
    }
  }

  /** A call the workspace could not answer for goes out holding nothing, and its return lets go
      of what another call under the same fingerprint still holds. */
  lemma UnansweredCallReleasesAnother()
    ensures var actionOf: Actions := c => Some("deploy");
      var s := Hold(Start(), 1, "deploy");
      s == Step(actionOf, Step(actionOf, Start(), Claimed(0, Unknown)), Claimed(1, Mine)).(world := s.world)
      && var s' := Step(actionOf, s, Settles(0));
      s'.world.holding == map[1 := "deploy"] && s'.running == map[] && s'.world.released == multiset{0}
  {
    var s := Hold(Start(), 1, "deploy");
    assert s.running["deploy"] == Entry(0, 1);
    assert s.world.holding - {0} == map[1 := "deploy"];
  }

  // ---------------------------------------------------------------- closing

  /** A close that returns finds every release begun before it, its own among them, finished. */
  lemma CloseWaits(actionOf: Actions, events: seq<Event>, states: seq<State>, n: nat, c: nat)
    requires Runs(actionOf, events, states) && n < |events| && events[n] == Closed(c)
    ensures forall x: nat | x in states[n].world.closes[c].begun ::
      x in states[n].world.resolved || x in states[n].world.rejected
  {
    ReleasedOnce(actionOf, events, states, n);
  }

  /** What a close counts as begun is all that ever was, and leaves nothing running. */
  lemma CloseBegins(s: State)
    requires KeepersOk(s)
    ensures var s' := Close(s); var c := s.world.nextClose;
      && s'.running == map[] && c in s'.world.closes
      && (forall x: nat :: x in s'.world.closes[c].begun <==> x in s'.world.released)
      && (forall x: nat :: x in s'.world.released <==> x < s.world.nextKeeper)
  {
    CloseKeepers(s);
    var s' := Close(s);
    assert forall x: nat :: !Keeps(s'.running, x);
    assert OnceOk(s');
  }

  /** A settled call holds nothing after, whether or not anything ran under its key, and the others hold what
      they held. */
  lemma SettledHoldsNothing(actionOf: Actions, s: State, call: nat)
    requires actionOf(call).Some?
    ensures Step(actionOf, s, Settles(call)).world.holding == s.world.holding - {call}
  {
  }

  ghost predicate FinishedBy(events: seq<Event>, n: nat, keeper: nat, resolves: bool)
    requires n <= |events|
  {
    exists i :: 0 <= i < n && events[i] == Finished(keeper, resolves)
  }

  /** In every run a release is counted as done, or as failed, exactly where it came out so. */
  lemma {:induction false} FinishedExactly(
    actionOf: Actions, events: seq<Event>, states: seq<State>, n: nat, keeper: nat)
    requires Runs(actionOf, events, states) && n < |states|
    ensures keeper in states[n].world.resolved <==> FinishedBy(events, n, keeper, true)
    ensures keeper in states[n].world.rejected <==> FinishedBy(events, n, keeper, false)
  {
    if n > 0 {
      FinishedExactly(actionOf, events, states, n - 1, keeper);
      assert Enabled(states[n - 1], events[n - 1]) && states[n] == Step(actionOf, states[n - 1], events[n - 1]);
      FinishedMore(events, n, keeper, true);
      FinishedMore(events, n, keeper, false);
      hide FinishedBy;
      hide Begun;
      hide Keepers;
    }
  }

  lemma FinishedMore(events: seq<Event>, n: nat, keeper: nat, resolves: bool)
    requires 0 < n <= |events|
    ensures FinishedBy(events, n, keeper, resolves) <==>
      FinishedBy(events, n - 1, keeper, resolves) || events[n - 1] == Finished(keeper, resolves)
  {
  }

  /** A close returns, or fails, once. */
  lemma {:induction false} ClosesOnce(actionOf: Actions, events: seq<Event>, states: seq<State>, i: nat, n: nat, c: nat)
    requires Runs(actionOf, events, states) && i < n < |states|
    requires events[i] == Closed(c) || events[i] == CloseFailed(c)
    ensures c !in states[n].world.closes && c < states[n].world.nextClose
  {
    assert states[n] == Step(actionOf, states[n - 1], events[n - 1]);
    if n == i + 1 {
      ReleasedOnce(actionOf, events, states, i);
    } else {
      ClosesOnce(actionOf, events, states, i, n - 1, c);
    }
    hide Begun;
    hide Keepers;
  }

  // ---------------------------------------------------------------- the authorizer

  /** A keeper while it runs, shared by every call out under its fingerprint. */
  class Held {
    const release: nat
    var calls: int

    constructor (release: nat)
      ensures this.release == release && calls == 1
    {
      this.release, calls := release, 1;
    }
  }

  class DuplicateWorkAuthorizer {
    const actionOf: Actions
    var running: map<string, Held>
    var finishing: set<nat>
    var world: World

    /** No two fingerprints share a keeper. */
    ghost predicate Valid()
      reads this, running.Values
    {
      Apart() && KeepersOk(View())
    }

    ghost predicate Apart()
      reads this
    {
      forall k, k' | k in running && k' in running && running[k] == running[k'] :: k == k'
    }

    ghost function Entries(): map<string, Entry>
      reads this, running.Values
    {
      map k | k in running :: Entry(running[k].release, running[k].calls)
    }

    ghost function View(): State
      reads this, running.Values
    {
      State(Entries(), finishing, world)
    }

    constructor (actionOf: Actions)
      ensures Valid() && View() == Start() && this.actionOf == actionOf
    {
      this.actionOf := actionOf;
      running, finishing := map[], {};
      world := World(0, multiset{}, {}, {}, {}, map[], 0, map[]);
      new;
      StartKeepers();
    }

    /** The workspace has answered a claim: the call goes out unless somebody else is at it. */
    method Authorize(call: nat, answer: ClaimAnswer) returns (allowed: bool)
      requires Valid() && Enabled(View(), Claimed(call, answer))
      modifies this, running.Values
      ensures Valid() && View() == Step(actionOf, old(View()), Claimed(call, answer))
      ensures forall k | k in running :: running[k] in old(running.Values) || fresh(running[k])
      ensures allowed <==> actionOf(call).None? || answer.Mine? || answer.Unknown?
    {
      StepKeepers(actionOf, View(), Claimed(call, answer));
      hide KeepersOk;
      hide Hold;
      world := world.(claimed := world.claimed + {call});
      assert Entries() == old(Entries());
      if actionOf(call).None? {
        return true;
      }
      if answer.Mine? {
        HoldFor(call, actionOf(call).value);
        return true;
      }
      return answer.Unknown?;
    }

    method HoldFor(call: nat, key: string)
      requires Apart()
      modifies this, running.Values
      ensures Apart() && View() == Hold(old(View()), call, key)
      ensures forall k | k in running :: running[k] in old(running.Values) || fresh(running[k])
    {
      ghost var entries := Entries();
      world := world.(holding := world.holding[call := key]);
      if key in running {
        var held := running[key];
        held.calls := held.calls + 1;
        assert Entries() == entries[key := Entry(held.release, held.calls)];
      } else {
        var held := new Held(world.nextKeeper);
        world := world.(nextKeeper := world.nextKeeper + 1);
        running := running[key := held];
        assert Entries() == entries[key := Entry(held.release, 1)];
      }
    }

    /** One call fewer under a fingerprint, and with the last of them its keeper is let go. */
    method SettleCall(call: nat)
      requires Valid() && Enabled(View(), Settles(call))
      modifies this, running.Values
      ensures Valid() && View() == Step(actionOf, old(View()), Settles(call))
      ensures forall k | k in running :: running[k] in old(running.Values)
    {
      StepKeepers(actionOf, View(), Settles(call));
      hide KeepersOk;
      hide Settle;
      if actionOf(call).Some? {
        LetGo(call, actionOf(call).value);
      }
    }

    method LetGo(call: nat, key: string)
      requires Apart()
      modifies this, running.Values
      ensures Apart() && View() == Settle(old(View()), call, key)
      ensures forall k | k in running :: running[k] in old(running.Values)
    {
      ghost var entries := Entries();
      world := world.(holding := world.holding - {call});
      assert Entries() == entries;
      if key !in running {
        return;
      }
      var held := running[key];
      held.calls := held.calls - 1;
      assert Entries() == entries[key := Entry(held.release, held.calls)];
      if held.calls > 0 {
        return;
      }
      running := running - {key};
      Track(held.release);
      assert Entries() == entries - {key};
      hide Entries;
    }

    /** A release begins, and is waited for until it is done. */
    method Track(keeper: nat)
      modifies this`finishing, this`world
      ensures finishing == old(finishing) + {keeper}
      ensures world == old(world).(released := old(world).released + multiset{keeper})
    {
      world := world.(released := world.released + multiset{keeper});
      finishing := finishing + {keeper};
    }

    /** Everything still held is let go of, and the close waits for all that is being let go. */
    method CloseAll() returns (waits: set<nat>)
      requires Valid()
      modifies this
      ensures Valid() && View() == Step(actionOf, old(View()), Closes)
      ensures waits == finishing
    {
      hide KeepersOk;
      hide Close;
      StepKeepers(actionOf, View(), Closes);
      waits := LetAllGo();
    }

    method LetAllGo() returns (waits: set<nat>)
      requires KeepersOk(View())
      modifies this
      ensures running == map[] && View() == Close(old(View())) && waits == finishing
    {
      hide KeepersOk;
      hide Keepers;
      hide Begun;
      hide Each;
      hide OneKeyEach;
      ghost var after := Close(View());
      var held := RunningKeepers();
      hide Entries;
      running := map[];
      ReleaseEach(held);
      assert finishing == after.finishing && world.released == after.world.released;
      waits := finishing;
      world := world.(
        holding := map[], nextClose := world.nextClose + 1,
        closes := world.closes[world.nextClose := Closing(Begun(world.nextKeeper, world.released), waits)]);
      assert world == after.world;
      NothingRuns();
    }

    lemma NothingRuns()
      requires running == map[]
      ensures Entries() == map[]
    {
    }

    method RunningKeepers() returns (keepers: map<string, nat>)
      requires KeepersOk(View())
      ensures OneKeyEach(keepers) && keepers.Values == Keepers(Entries())
    {
      keepers := map k | k in running :: running[k].release;
      var entries := Entries();
      assert forall k | k in running :: entries[k].keeper == keepers[k];
    }

    method ReleaseEach(keepers: map<string, nat>)
      requires OneKeyEach(keepers)
      modifies this`finishing, this`world
      ensures finishing == old(finishing) + keepers.Values
      ensures world == old(world).(released := old(world).released + Each(keepers.Values))
    {
      hide *;
      var rest := keepers;
      while rest.Keys != {}
        invariant OneKeyEach(rest)
        invariant finishing + rest.Values == old(finishing) + keepers.Values
        invariant world.released + Each(rest.Values) == old(world).released + Each(keepers.Values)
        invariant world == old(world).(released := world.released)
        decreases |rest.Keys|
      {
        var key :| key in rest.Keys;
        NextKeeper(finishing, world.released, rest, key);
        Track(rest[key]);
        rest := rest - {key};
      }
      NoKeepers(world.released, rest);
    }
  }

  ghost predicate OneKeyEach(keepers: map<string, nat>) {
    forall k, k' | k in keepers && k' in keepers && keepers[k] == keepers[k'] :: k == k'
  }

  lemma NextKeeper(finishing: set<nat>, released: multiset<nat>, rest: map<string, nat>, key: string)
    requires OneKeyEach(rest) && key in rest
    ensures var left := rest - {key};
      && OneKeyEach(left) && |left.Keys| < |rest.Keys|
      && finishing + {rest[key]} + left.Values == finishing + rest.Values
      && released + multiset{rest[key]} + Each(left.Values) == released + Each(rest.Values)
  {
    var left := rest - {key};
    assert left.Keys == rest.Keys - {key};
    ValuesLess(rest, key);
    assert finishing + {rest[key]} + left.Values == finishing + (left.Values + {rest[key]});
  }

  lemma ValuesLess(rest: map<string, nat>, key: string)
    requires OneKeyEach(rest) && key in rest
    ensures rest.Values == (rest - {key}).Values + {rest[key]}
    ensures rest[key] !in (rest - {key}).Values
  {
    var left := rest - {key};
    forall x ensures x in rest.Values <==> x in left.Values || x == rest[key] {
      if x in rest.Values {
        var k :| k in rest && rest[k] == x;
        assert k == key || k in left;
      }
    }
  }

  lemma NoKeepers(released: multiset<nat>, rest: map<string, nat>)
    requires rest.Keys == {}
    ensures rest.Values == {} && released + Each(rest.Values) == released
  {
    assert forall x | x in rest.Values :: exists k :: k in rest.Keys && rest[k] == x;
  }
}
