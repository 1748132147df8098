/** What every run of a guard keeps: each allowed call has its cause, a denial and a pause are not
    got past, and what is decided is decided and recorded once. */
module GuardRuns {
  import opened Basics
  import opened Json
  import opened Guard
  import Args = ArgsDigest

  // ---------------------------------------------------------------- calls are decided once

  lemma SettleStages(setup: Setup, s: State, s': State, c: nat, decision: Decision)
    requires StagesOk(setup, s) && c in s.world.tasks
    requires s'.world == s.world.(tasks := s.world.tasks - {c}, decided := s.world.decided[c := decision])
    ensures StagesOk(setup, s')
  {
    hide Names;
  }

  lemma AtStages(setup: Setup, s: State, s': State, c: nat, stage: Stage)
    requires StagesOk(setup, s) && c in s.world.tasks && !stage.FetchingKeys?
    requires s'.world == s.world.(tasks := s.world.tasks[c := s.world.tasks[c].(stage := stage)])
    ensures StagesOk(setup, s')
  {
    hide Names;
  }

  lemma FetchingStages(setup: Setup, s: State, s': State, c: nat, stage: Stage)
    requires StagesOk(setup, s) && c in s.world.tasks && stage.FetchingKeys?
    requires setup.requireSigned && stage.held.status.Answered? && stage.held.signed.Some?
    requires Names(setup.claimsOf(stage.held.signed.value.payload), stage.id,
      Args.DigestOf(setup.runtime, s.world.tasks[c].call.input), stage.held.answer)
    requires s'.world == s.world.(tasks := s.world.tasks[c := s.world.tasks[c].(stage := stage)])
    ensures StagesOk(setup, s')
  {
    hide Names;
  }

  lemma ArriveStages(setup: Setup, s: State, call: Call)
    requires StagesOk(setup, s)
    ensures StagesOk(setup, Arrive(s, call))
  {
    hide Names;
  }

  lemma TakeStages(setup: Setup, s: State, c: nat, request: Request, held: Held)
    requires StagesOk(setup, s) && c in s.world.tasks
    ensures StagesOk(setup, Take(setup, s, c, request, held))
  {
    hide StagesOk;
    hide ProofIn;
    hide GrantKey;
    var s' := Take(setup, s, c, request, held);
    SettleStages(setup, s, s', c, s'.world.decided[c]);
  }

  lemma HearStages(setup: Setup, s: State, c: nat, held: Option<Held>, now: int)
    requires StagesOk(setup, s) && Enabled(s, Hears(c, held, now))
    ensures StagesOk(setup, Hear(setup, s, c, held, now))
  {
    hide StagesOk;
    hide Names;
    hide FindKey;
    hide Take;
    var s' := Hear(setup, s, c, held, now);
    var stage := s.world.tasks[c].stage;
    if held.Some? && held.value.status.Answered? && s' == Take(setup, s, c, stage.request, held.value) {
      TakeStages(setup, s, c, stage.request, held.value);
    } else if c in s'.world.tasks {
      if s'.world.tasks[c].stage.FetchingKeys? {
        FetchingStages(setup, s, s', c, s'.world.tasks[c].stage);
      } else {
        AtStages(setup, s, s', c, s'.world.tasks[c].stage);
      }
    } else {
      SettleStages(setup, s, s', c, s'.world.decided[c]);
    }
  }

  lemma FetchStages(setup: Setup, s: State, c: nat, found: Option<seq<Key>>)
    requires StagesOk(setup, s) && Enabled(s, Fetched(c, found))
    ensures StagesOk(setup, Fetch(setup, s, c, found))
  {
    SameWorldStages(setup, s, if found.Some? then s.(keys := found.value) else s);
    hide StagesOk;
    hide FindKey;
    hide Take;
    var s' := Fetch(setup, s, c, found);
    var stage := s.world.tasks[c].stage;
    var next := if found.Some? then s.(keys := found.value) else s;
    if s' == Take(setup, next, c, stage.request, stage.held) {
      TakeStages(setup, next, c, stage.request, stage.held);
    } else {
      SettleStages(setup, next, s', c, s'.world.decided[c]);
    }
  }

  lemma SameWorldStages(setup: Setup, s: State, s': State)
    requires StagesOk(setup, s) && s'.world == s.world
    ensures StagesOk(setup, s')
  {
  }

  lemma RuleStages(setup: Setup, s: State, c: nat, now: int)
    requires StagesOk(setup, s) && Enabled(s, Goes(c, now))
    ensures StagesOk(setup, Rule(setup, s, c, now))
  {
    hide StagesOk;
    hide Strictest;
    hide GrantKey;
    var s' := Rule(setup, s, c, now);
    if c in s'.world.tasks {
      AtStages(setup, s, s', c, s'.world.tasks[c].stage);
    } else {
      SettleStages(setup, s, s', c, s'.world.decided[c]);
    }
  }

  lemma StepStages(setup: Setup, s: State, e: Event)
    requires StagesOk(setup, s) && Enabled(s, e)
    ensures StagesOk(setup, Step(setup, s, e))
  {
    hide StagesOk;
    hide Rule;
    hide Hear;
    hide Fetch;
    hide Arrive;
    var s' := Step(setup, s, e);
    match e {
      case Arrives(call) => ArriveStages(setup, s, call);
      case Ready(c, now) => AtStages(setup, s, s', c, s'.world.tasks[c].stage);
      case Replies(c, reply) => AtStages(setup, s, s', c, s'.world.tasks[c].stage);
      case Goes(c, now) => RuleStages(setup, s, c, now);
      case Raised(c, id, now) =>
        if c in s'.world.tasks {
          AtStages(setup, s, s', c, s'.world.tasks[c].stage);
        } else {
          SettleStages(setup, s, s', c, s'.world.decided[c]);
        }
      case Hears(c, held, now) => HearStages(setup, s, c, held, now);
      case Fetched(c, found) => FetchStages(setup, s, c, found);
      case Breach(session, reason, now) => SameWorldStages(setup, s, s');
      case Resumes(session) => SameWorldStages(setup, s, s');
      case NewRules(engine) => SameWorldStages(setup, s, s');
      case NewKeys(keys) => SameWorldStages(setup, s, s');
    }
  }

  /** Every call is being checked or decided, and never both. */
  lemma {:induction false} RunStages(setup: Setup, events: seq<Event>, states: seq<State>, n: nat)
    requires Runs(setup, events, states) && n < |states|
    ensures StagesOk(setup, states[n])
  {
    hide Step;
    hide Enabled;
    if n > 0 {
      hide StagesOk;
      RunStages(setup, events, states, n - 1);
      StepStages(setup, states[n - 1], events[n - 1]);
    }
  }

  /** Once decided, a call stays decided as it was. */
  lemma {:induction false} DecidedForGood(setup: Setup, events: seq<Event>, states: seq<State>, i: nat, n: nat, c: nat)
    requires Runs(setup, events, states) && i <= n < |states| && c in states[i].world.decided
    ensures c in states[n].world.decided && states[n].world.decided[c] == states[i].world.decided[c]
  {
    hide Step;
    hide Enabled;
    if i < n {
      DecidedForGood(setup, events, states, i, n - 1, c);
      RunStages(setup, events, states, n - 1);
      StepSound(setup, states[n - 1], events[n - 1]);
      hide StagesOk;
      hide Allows;
      hide Grants;
    }
  }

  // ---------------------------------------------------------------- causes

  ghost predicate AllowedAt(setup: Setup, events: seq<Event>, states: seq<State>, i: nat, c: nat, why: Why)
    requires |states| == |events| + 1
  {
    i < |events| && Allows(setup, states[i], events[i], c, why)
  }

  ghost predicate GrantedAt(setup: Setup, events: seq<Event>, states: seq<State>, i: nat, grant: string)
    requires |states| == |events| + 1
  {
    i < |events| && Grants(setup, states[i], events[i], grant)
  }

  /** Every key granted was granted by a person's accepted yes for the session. */
  lemma {:induction false} GrantsEarned(setup: Setup, events: seq<Event>, states: seq<State>, n: nat, grant: string)
    requires Runs(setup, events, states) && n < |states| && grant in states[n].grants
    ensures exists j :: 0 <= j < n && GrantedAt(setup, events, states, j, grant)
  {
    hide Step;
    hide Enabled;
    hide Allows;
    hide Grants;
    if n > 0 {
      RunStages(setup, events, states, n - 1);
      StepSound(setup, states[n - 1], events[n - 1]);
      hide StagesOk;
      if grant in states[n - 1].grants {
        GrantsEarned(setup, events, states, n - 1, grant);
      } else {
        assert GrantedAt(setup, events, states, n - 1, grant);
      }
    }
  }

  /** Every allowed call has its cause at the step that decided it. */
  lemma {:induction false} AllowedCaused(setup: Setup, events: seq<Event>, states: seq<State>, n: nat, c: nat)
    requires Runs(setup, events, states) && n < |states|
    requires c in states[n].world.decided && states[n].world.decided[c].allowed
    ensures exists i :: 0 <= i < n && AllowedAt(setup, events, states, i, c, states[n].world.decided[c].why)
  {
    hide Step;
    hide Enabled;
    hide Allows;
    hide Grants;
    if n > 0 {
      RunStages(setup, events, states, n - 1);
      StepSound(setup, states[n - 1], events[n - 1]);
      hide StagesOk;
      if c in states[n - 1].world.decided {
        AllowedCaused(setup, events, states, n - 1, c);
      } else {
        assert AllowedAt(setup, events, states, n - 1, c, states[n].world.decided[c].why);
      }
    }
  }

  /** A call allowed by a grant: an earlier step accepted a person's yes for the session to a request
      with the same key as one this call is asked about. */
  lemma GrantBefore(setup: Setup, events: seq<Event>, states: seq<State>, n: nat, c: nat)
    requires Runs(setup, events, states) && n < |states|
    requires c in states[n].world.decided && states[n].world.decided[c] == Decision(true, ByGrant)
    ensures exists j, i, q :: 0 <= j < i < n && GrantedBefore(setup, events, states, j, i, c, q)
  {
    AllowedCaused(setup, events, states, n, c);
    var i :| 0 <= i < n && AllowedAt(setup, events, states, i, c, ByGrant);
    var call := states[i].world.tasks[c].call;
    var q :| q in setup.requestsFor(call) && GrantKey(call.session, q) in states[i].grants
      && states[i].engine(q, call.session, events[i].now) == Ask;
    GrantsEarned(setup, events, states, i, GrantKey(call.session, q));
    var j :| 0 <= j < i && GrantedAt(setup, events, states, j, GrantKey(call.session, q));
    assert GrantedBefore(setup, events, states, j, i, c, q);
  }

  ghost predicate GrantedBefore(
    setup: Setup, events: seq<Event>, states: seq<State>, j: nat, i: nat, c: nat, q: Request)
    requires |states| == |events| + 1
  {
    && j < i < |events| && c in states[i].world.tasks
    && q in setup.requestsFor(states[i].world.tasks[c].call)
    && GrantedAt(setup, events, states, j, GrantKey(states[i].world.tasks[c].call.session, q))
  }

  /** Step `j` raised the question `id` about call `c`. */
  ghost predicate RaisedFor(events: seq<Event>, j: nat, c: nat, id: string) {
    j < |events| && events[j].Raised? && events[j].c == c && events[j].id == Some(id)
  }

  /** Step `k` found that the rules want a person asked about a request of call `c`, and deny none. */
  ghost predicate AskedAbout(setup: Setup, events: seq<Event>, states: seq<State>, k: nat, c: nat, request: Request)
    requires |states| == |events| + 1
  {
    && k < |events| && events[k].Goes? && events[k].c == c && c in states[k].world.tasks
    && var call := states[k].world.tasks[c].call;
       request in setup.requestsFor(call)
       && states[k].engine(request, call.session, events[k].now) == Ask
       && forall q | q in setup.requestsFor(call) :: states[k].engine(q, call.session, events[k].now) != Deny
  }

  ghost predicate Asking(stage: Stage) {
    stage.Raising? || stage.Polling? || stage.FetchingKeys?
  }

  /** From one stage to the next, over the same request and question. */
  ghost predicate GoesOn(s: State, e: Event, c: nat, stage: Stage) {
    && c in s.world.tasks
    && (if e.Goes? && e.c == c then stage.Raising?
        else
          var before := s.world.tasks[c].stage;
          Asking(before) && Asking(stage) && before.request == stage.request
          && (!stage.Raising? ==>
                if e.Raised? && e.c == c then e.id == Some(stage.id)
                else !before.Raising? && before.id == stage.id))
  }

  lemma TakeEnds(setup: Setup, s: State, c: nat, request: Request, held: Held)
    requires c in s.world.tasks
    ensures c !in Take(setup, s, c, request, held).world.tasks
  {
  }

  lemma HearGoesOn(setup: Setup, s: State, c: nat, held: Option<Held>, now: int)
    requires Enabled(s, Hears(c, held, now)) && c in Hear(setup, s, c, held, now).world.tasks
    ensures GoesOn(s, Hears(c, held, now), c, Hear(setup, s, c, held, now).world.tasks[c].stage)
  {
    hide FindKey;
    hide Names;
    hide Take;
    if held.Some? {
      TakeEnds(setup, s, c, s.world.tasks[c].stage.request, held.value);
    }
  }

  lemma FetchEnds(setup: Setup, s: State, c: nat, found: Option<seq<Key>>)
    requires Enabled(s, Fetched(c, found))
    ensures c !in Fetch(setup, s, c, found).world.tasks
  {
    hide FindKey;
    hide ProofIn;
    hide GrantKey;
  }

  lemma RaiseGoesOn(setup: Setup, s: State, c: nat, id: Option<string>, now: int)
    requires Enabled(s, Raised(c, id, now)) && c in Raise(s, c, id, now).world.tasks
    ensures GoesOn(s, Raised(c, id, now), c, Raise(s, c, id, now).world.tasks[c].stage)
  {
  }

  /** A call being asked about after a stretch that may decide: it was asked about before, or that stretch
      asks or goes on asking about it. */
  lemma DecidingFrom(setup: Setup, s: State, e: Event, c: nat)
    requires Enabled(s, e) && (e.Goes? || e.Raised? || e.Hears? || e.Fetched?)
    requires var s' := Step(setup, s, e);
      c in s.world.tasks && c < s.world.next && c in s'.world.tasks && Asking(s'.world.tasks[c].stage)
    ensures GoesOn(s, e, c, Step(setup, s, e).world.tasks[c].stage)
  {
    hide Rule;
    hide Raise;
    hide Hear;
    hide Fetch;
    if e.c != c {
      StepElsewhere(setup, s, e, c);
    } else if e.Goes? {
      GoesAsks(setup, s, c, e.now);
    } else if e.Raised? {
      RaiseGoesOn(setup, s, c, e.id, e.now);
    } else if e.Hears? {
      HearGoesOn(setup, s, c, e.held, e.now);
    } else {
      FetchEnds(setup, s, c, e.found);
    }
  }

  lemma AskingFrom(setup: Setup, s: State, e: Event, c: nat)
    requires StagesOk(setup, s) && Enabled(s, e)
    requires var s' := Step(setup, s, e); c in s'.world.tasks && Asking(s'.world.tasks[c].stage)
    ensures GoesOn(s, e, c, Step(setup, s, e).world.tasks[c].stage)
  {
    hide Rule;
    hide Raise;
    hide Hear;
    hide Fetch;
    assert c in s.world.tasks ==> c < s.world.next;
    hide StagesOk;
    if e.Goes? || e.Raised? || e.Hears? || e.Fetched? {
      StepOnly(setup, s, e);
      assert c in s.world.tasks;
      hide OnlyAt;
      DecidingFrom(setup, s, e, c);
    } else {
      OthersFrom(setup, s, e, c);
    }
  }

  /** Nothing else starts asking about a call. */
  lemma OthersFrom(setup: Setup, s: State, e: Event, c: nat)
    requires Enabled(s, e) && !e.Goes? && !e.Raised? && !e.Hears? && !e.Fetched?
    requires var s' := Step(setup, s, e); c in s'.world.tasks && Asking(s'.world.tasks[c].stage)
    ensures GoesOn(s, e, c, Step(setup, s, e).world.tasks[c].stage)
  {
    hide Rule;
    hide Raise;
    hide Hear;
    hide Fetch;
  }

  lemma GoesAsks(setup: Setup, s: State, c: nat, now: int)
    requires Enabled(s, Goes(c, now)) && c in Rule(setup, s, c, now).world.tasks
    ensures var stage, call := Rule(setup, s, c, now).world.tasks[c].stage, s.world.tasks[c].call;
      && stage.Raising? && stage.request in setup.requestsFor(call)
      && s.engine(stage.request, call.session, now) == Ask
      && forall q | q in setup.requestsFor(call) :: s.engine(q, call.session, now) != Deny
  {
    hide GrantKey;
    var call := s.world.tasks[c].call;
    var requests := setup.requestsFor(call);
    var (request, effect) := Strictest(s.engine, requests, call.session, now);
    hide Strictest;
    forall q | q in requests ensures s.engine(q, call.session, now) != Deny {
      assert Strictness(s.engine(q, call.session, now)) <= Strictness(effect);
    }
  }

  lemma GoesAsksAt(setup: Setup, events: seq<Event>, states: seq<State>, k: nat, c: nat)
    requires Runs(setup, events, states) && k < |events| && events[k].Goes? && events[k].c == c
    requires c in states[k + 1].world.tasks
    ensures AskedAbout(setup, events, states, k, c, states[k + 1].world.tasks[c].stage.request)
  {
    assert Enabled(states[k], events[k]) && states[k + 1] == Rule(setup, states[k], c, events[k].now);
    GoesAsks(setup, states[k], c, events[k].now);
  }

  /** A call waits for a person only over a request the rules wanted asked about, and hears answers
      only to the question raised for it. */
  lemma {:induction false} AskedAndRaised(setup: Setup, events: seq<Event>, states: seq<State>, n: nat, c: nat)
    requires Runs(setup, events, states) && n < |states|
    requires c in states[n].world.tasks && Asking(states[n].world.tasks[c].stage)
    ensures var stage := states[n].world.tasks[c].stage;
      && (exists k :: 0 <= k < n && AskedAbout(setup, events, states, k, c, stage.request))
      && (!stage.Raising? ==> exists j :: 0 <= j < n && RaisedFor(events, j, c, stage.id))
  {
    hide Step;
    hide Enabled;
    hide StagesOk;
    hide AskedAbout;
    if n > 0 {
      var s, e := states[n - 1], events[n - 1];
      var stage := states[n].world.tasks[c].stage;
      RunStages(setup, events, states, n - 1);
      AskingFrom(setup, s, e, c);
      if e.Goes? && e.c == c {
        GoesAsksAt(setup, events, states, n - 1, c);
      } else {
        AskedAndRaised(setup, events, states, n - 1, c);
        hide Runs;
        if !stage.Raising? && e.Raised? && e.c == c {
          assert RaisedFor(events, n - 1, c, stage.id);
        }
      }
    }
  }

  /** A call allowed by a person: a step accepted a yes to the question an earlier step raised for
      this call, over a request the rules wanted asked about, none of the call's being denied. */
  lemma PersonSaidYes(setup: Setup, events: seq<Event>, states: seq<State>, n: nat, c: nat)
    returns (i: nat, request: Request, id: string, held: Held, j: nat, k: nat)
    requires Runs(setup, events, states) && n < |states|
    requires c in states[n].world.decided && states[n].world.decided[c] == Decision(true, ByPerson)
    ensures k < i < n && j < i && i < |events|
    ensures Accepts(setup, states[i], events[i], c, request, id, held)
    ensures RaisedFor(events, j, c, id) && AskedAbout(setup, events, states, k, c, request)
  {
    AllowedCaused(setup, events, states, n, c);
    i :| 0 <= i < n && AllowedAt(setup, events, states, i, c, ByPerson);
    request, id, held :| Accepts(setup, states[i], events[i], c, request, id, held);
    AskedAndRaised(setup, events, states, i, c);
    hide *;
    j :| 0 <= j < i && RaisedFor(events, j, c, id);
    k :| 0 <= k < i && AskedAbout(setup, events, states, k, c, request);
  }

  // ---------------------------------------------------------------- what is never got past

  /** A call with a request the rules deny when they are asked is refused, then and ever after,
      whatever has been granted. */
  lemma DeniedForGood(
    setup: Setup, events: seq<Event>, states: seq<State>, i: nat, n: nat, c: nat, now: int, q: Request)
    requires Runs(setup, events, states) && i < n < |states| && events[i] == Goes(c, now)
    requires c in states[i].world.tasks && q in setup.requestsFor(states[i].world.tasks[c].call)
    requires states[i].engine(q, states[i].world.tasks[c].call.session, now) == Deny
    ensures c in states[n].world.decided && !states[n].world.decided[c].allowed
  {
    var s := states[i];
    var call := s.world.tasks[c].call;
    assert Enabled(s, events[i]) && states[i + 1] == Rule(setup, s, c, now);
    if s.world.tasks[c].stage.found.None? {
      var (request, effect) := Strictest(s.engine, setup.requestsFor(call), call.session, now);
      assert Strictness(s.engine(q, call.session, now)) <= Strictness(effect);
    }
    DecidedForGood(setup, events, states, i + 1, n, c);
  }

  /** The check of a pause found one that is not lifted: none was asked about because it was asked
      about a moment ago, or the plane gave no yes. */
  ghost predicate FindsPause(s: State, e: Event, c: nat) {
    && c in s.world.tasks && Enabled(s, e)
    && (match e
        case Ready(x, now) =>
          var session := s.world.tasks[c].call.session;
          x == c && session in s.paused && now - s.paused[session].checkedAt < RESUME_CHECK_MS
        case Replies(x, reply) => x == c && reply != Some(true)
        case _ => false)
  }

  ghost predicate Stopped(s: State, c: nat) {
    || (c in s.world.tasks && s.world.tasks[c].stage.Looked? && s.world.tasks[c].stage.found.Some?)
    || (c in s.world.decided && s.world.decided[c] == Decision(false, SessionPaused))
  }

  lemma StaysStopped(setup: Setup, s: State, e: Event, c: nat)
    requires StagesOk(setup, s) && Enabled(s, e) && Stopped(s, c)
    ensures Stopped(Step(setup, s, e), c)
  {
    hide Allows;
    hide Grants;
    StepSound(setup, s, e);
    if c in s.world.tasks && !(e.Goes? && e.c == c) {
      StepElsewhere(setup, s, e, c);
    }
  }

  /** A stretch about one call leaves the others be, and adds a row only with its decision. */
  ghost predicate OnlyAt(s: State, s': State, c: nat) {
    && s'.seen == s.seen
    && (forall x | x in s.world.tasks && x != c :: x in s'.world.tasks && s'.world.tasks[x] == s.world.tasks[x])
    && (forall x | x in s'.world.tasks :: x in s.world.tasks)
    && s'.world.calls == s.world.calls
    && ((s'.records == s.records && s'.world.decided == s.world.decided)
        || exists effect, d: Decision ::
             s'.records == s.records + [ActionRecorded(c, effect, d.allowed)]
             && s'.world.decided == s.world.decided[c := d])
  }

  lemma SettleOnly(s: State, s': State, c: nat, effect: Effect, d: Decision)
    requires s'.seen == s.seen && s'.records == s.records + [ActionRecorded(c, effect, d.allowed)]
    requires s'.world == s.world.(tasks := s.world.tasks - {c}, decided := s.world.decided[c := d])
    ensures OnlyAt(s, s', c)
  {
  }

  lemma AtOnly(s: State, s': State, c: nat)
    requires s'.seen == s.seen && s'.records == s.records
    requires c in s.world.tasks && c in s'.world.tasks
    requires s'.world == s.world.(tasks := s.world.tasks[c := s'.world.tasks[c]])
    ensures OnlyAt(s, s', c)
  {
  }

  lemma RuleOnly(setup: Setup, s: State, c: nat, now: int)
    requires Enabled(s, Goes(c, now))
    ensures OnlyAt(s, Rule(setup, s, c, now), c)
  {
    hide Strictest;
    hide GrantKey;
    hide OnlyAt;
    var s' := Rule(setup, s, c, now);
    if c !in s'.world.tasks {
      SettleOnly(s, s', c, s'.records[|s.records|].effect, s'.world.decided[c]);
    } else {
      AtOnly(s, s', c);
    }
  }

  lemma TakeOnly(setup: Setup, s: State, c: nat, request: Request, held: Held)
    requires c in s.world.tasks
    ensures OnlyAt(s, Take(setup, s, c, request, held), c)
  {
    hide GrantKey;
    hide ProofIn;
    hide OnlyAt;
    var s' := Take(setup, s, c, request, held);
    SettleOnly(s, s', c, s'.records[|s.records|].effect, s'.world.decided[c]);
  }

  lemma PollOnly(s: State, c: nat, request: Request, id: string, deadline: int, now: int)
    requires c in s.world.tasks
    ensures OnlyAt(s, Poll(s, c, request, id, deadline, now), c)
  {
    hide OnlyAt;
    var s' := Poll(s, c, request, id, deadline, now);
    if c in s'.world.tasks {
      AtOnly(s, s', c);
    } else {
      SettleOnly(s, s', c, Ask, s'.world.decided[c]);
    }
  }

  lemma WeighOnly(setup: Setup, s: State, c: nat, request: Request, id: string, held: Held)
    requires c in s.world.tasks
    ensures OnlyAt(s, Weigh(setup, s, c, request, id, held), c)
  {
    hide FindKey;
    hide Names;
    hide Take;
    hide OnlyAt;
    var s' := Weigh(setup, s, c, request, id, held);
    TakeOnly(setup, s, c, request, held);
    if s' != Take(setup, s, c, request, held) {
      if c in s'.world.tasks {
        AtOnly(s, s', c);
      } else {
        SettleOnly(s, s', c, Ask, s'.world.decided[c]);
      }
    }
  }

  lemma HearOnly(setup: Setup, s: State, c: nat, held: Option<Held>, now: int)
    requires Enabled(s, Hears(c, held, now))
    ensures OnlyAt(s, Hear(setup, s, c, held, now), c)
  {
    hide OnlyAt;
    hide Weigh;
    hide Poll;
    var s' := Hear(setup, s, c, held, now);
    var stage := s.world.tasks[c].stage;
    if held.None? || held.value.status.Expired? {
      SettleOnly(s, s', c, Ask, s'.world.decided[c]);
    } else if held.value.status.Pending? {
      PollOnly(s, c, stage.request, stage.id, stage.deadline, now);
    } else {
      WeighOnly(setup, s, c, stage.request, stage.id, held.value);
    }
  }

  lemma FetchOnly(setup: Setup, s: State, c: nat, found: Option<seq<Key>>)
    requires Enabled(s, Fetched(c, found))
    ensures OnlyAt(s, Fetch(setup, s, c, found), c)
  {
    hide GrantKey;
    hide FindKey;
    hide ProofIn;
    hide OnlyAt;
    var s' := Fetch(setup, s, c, found);
    SettleOnly(s, s', c, s'.records[|s.records|].effect, s'.world.decided[c]);
  }

  lemma StepOnly(setup: Setup, s: State, e: Event)
    requires Enabled(s, e) && (e.Goes? || e.Raised? || e.Hears? || e.Fetched?)
    ensures OnlyAt(s, Step(setup, s, e), e.c)
  {
    hide Rule;
    hide Hear;
    hide Fetch;
    if e.Goes? {
      RuleOnly(setup, s, e.c, e.now);
    } else if e.Hears? {
      HearOnly(setup, s, e.c, e.held, e.now);
    } else if e.Fetched? {
      FetchOnly(setup, s, e.c, e.found);
    } else {
      var s' := Step(setup, s, e);
      if e.c !in s'.world.tasks {
        SettleOnly(s, s', e.c, s'.records[|s.records|].effect, s'.world.decided[e.c]);
      }
    }
  }

  /** A step moves only the call it is about. */
  lemma StepElsewhere(setup: Setup, s: State, e: Event, c: nat)
    requires Enabled(s, e) && c in s.world.tasks && !About(s, e, c) && c < s.world.next
    ensures c in Step(setup, s, e).world.tasks && Step(setup, s, e).world.tasks[c] == s.world.tasks[c]
  {
    hide Rule;
    hide Raise;
    hide Hear;
    hide Fetch;
    if e.Goes? || e.Raised? || e.Hears? || e.Fetched? {
      StepOnly(setup, s, e);
    }
  }

  /** A call whose session's pause was looked up and found unlifted is refused: from then on it is
      either refused or on its way to being so. */
  lemma {:induction false} PausedForGood(setup: Setup, events: seq<Event>, states: seq<State>, i: nat, n: nat, c: nat)
    requires Runs(setup, events, states) && i < n < |states| && FindsPause(states[i], events[i], c)
    ensures Stopped(states[n], c)
  {
    RunStages(setup, events, states, n - 1);
    if n == i + 1 {
      FoundStops(setup, states[i], events[i], c);
    } else {
      hide Step;
      hide Enabled;
      hide StagesOk;
      PausedForGood(setup, events, states, i, n - 1, c);
      hide FindsPause;
      hide Stopped;
      StaysStopped(setup, states[n - 1], events[n - 1], c);
    }
  }

  lemma FoundStops(setup: Setup, s: State, e: Event, c: nat)
    requires Enabled(s, e) && FindsPause(s, e, c)
    ensures Stopped(Step(setup, s, e), c)
  {
  }

  // ---------------------------------------------------------------- which pause is lifted

  /** A session's pause is the one it had, however often it was asked about, or has been set anew. */
  lemma {:induction false} OnlyABreachReplaces(
    setup: Setup, events: seq<Event>, states: seq<State>, k: nat, n: nat, session: string)
    requires Runs(setup, events, states) && k <= n < |states|
    requires session in states[k].paused && session in states[n].paused
    ensures var was, now := states[k].paused[session], states[n].paused[session];
      || (was.breach == now.breach && was.at == now.at)
      || exists j :: k <= j < n && BreachAt(events, j, session)
  {
    if k < n {
      hide Step;
      hide Enabled;
      assert states[n] == Step(setup, states[n - 1], events[n - 1]);
      if !BreachAt(events, n - 1, session) {
        StepPaused(setup, states[n - 1], events[n - 1], session);
        OnlyABreachReplaces(setup, events, states, k, n - 1, session);
      }
    }
  }

  ghost predicate BreachAt(events: seq<Event>, j: nat, session: string) {
    j < |events| && events[j].Breach? && events[j].session == session
  }

  lemma StepPaused(setup: Setup, s: State, e: Event, session: string)
    requires Enabled(s, e) && session in Step(setup, s, e).paused && !(e.Breach? && e.session == session)
    ensures session in s.paused && s.paused[session].(checkedAt := 0)
      == Step(setup, s, e).paused[session].(checkedAt := 0)
  {
    hide Strictest;
    hide GrantKey;
    hide FindKey;
    hide ProofIn;
    hide Names;
  }

  ghost predicate BreachBetween(events: seq<Event>, i: nat, n: nat, session: string) {
    exists j :: i <= j < n && BreachAt(events, j, session)
  }

  /** A breach since leaves a pause later than the one before it. */
  lemma {:induction false} LaterPause(
    setup: Setup, events: seq<Event>, states: seq<State>, i: nat, n: nat, session: string, at: int)
    requires Runs(setup, events, states) && i < n < |states| && session in states[n].paused
    requires BreachBetween(events, i, n, session)
    requires forall j | i <= j < n && BreachAt(events, j, session) :: events[j].now > at
    ensures states[n].paused[session].at > at
  {
    assert Enabled(states[n - 1], events[n - 1]) && states[n] == Step(setup, states[n - 1], events[n - 1]);
    if !BreachAt(events, n - 1, session) {
      StepPaused(setup, states[n - 1], events[n - 1], session);
      hide Step;
      hide Enabled;
      var j :| i <= j < n && BreachAt(events, j, session);
      assert j < n - 1;
      LaterPause(setup, events, states, i, n - 1, session, at);
    }
  }

  lemma StepCalls(setup: Setup, s: State, e: Event, c: nat)
    requires StagesOk(setup, s) && Enabled(s, e) && c in s.world.calls
    ensures c in Step(setup, s, e).world.calls && Step(setup, s, e).world.calls[c] == s.world.calls[c]
  {
    assert c < s.world.next;
    hide StagesOk;
    if e.Goes? || e.Raised? || e.Hears? || e.Fetched? {
      hide Step;
      StepOnly(setup, s, e);
      hide Enabled;
    }
  }

  lemma {:induction false} SameCall(setup: Setup, events: seq<Event>, states: seq<State>, i: nat, n: nat, c: nat)
    requires Runs(setup, events, states) && i <= n < |states| && c in states[i].world.calls
    ensures c in states[n].world.calls && states[n].world.calls[c] == states[i].world.calls[c]
  {
    hide Step;
    hide Enabled;
    hide StagesOk;
    if i < n {
      SameCall(setup, events, states, i, n - 1, c);
      RunStages(setup, events, states, n - 1);
      StepCalls(setup, states[n - 1], events[n - 1], c);
    }
  }

  /** A check asks about a session's pause at step `i`, and is told at step `n` that a person resumed
      the session. The session is then not paused; and the pause lifted, where there is one, is the one
      asked about exactly where no breach of the session came between, each breach being later than
      the pause asked about. */
  lemma LiftsTheOneAskedAbout(
    setup: Setup, events: seq<Event>, states: seq<State>, i: nat, n: nat, session: string, now: int)
    requires Runs(setup, events, states) && i < n < |events| && AsksPlane(setup, events, states, i, session, now)
    requires events[n] == Replies(events[i].c, Some(true)) && session in states[n].paused
    requires forall j | i <= j < n && BreachAt(events, j, session) :: events[j].now > states[i].paused[session].at
    ensures session in states[i].paused
      && states[i + 1].world.tasks[events[i].c].stage.pause.at == states[i].paused[session].at
    ensures states[n].paused[session].at == states[i].paused[session].at <==> !BreachBetween(events, i, n, session)
    ensures session !in states[n + 1].paused
  {
    RunStages(setup, events, states, i);
    SameCall(setup, events, states, i, n, events[i].c);
    RunStages(setup, events, states, n);
    assert Enabled(states[n], events[n]);
    assert states[n].world.tasks[events[i].c].call == states[i].world.tasks[events[i].c].call;
    hide StagesOk;
    assert states[i + 1] == Step(setup, states[i], events[i]);
    assert Enabled(states[n], events[n]) && states[n + 1] == Step(setup, states[n], events[n]);
    hide Step;
    if BreachBetween(events, i, n, session) {
      LaterPause(setup, events, states, i, n, session, states[i].paused[session].at);
    } else {
      OnlyABreachReplaces(setup, events, states, i, n, session);
    }
  }

  /** A resume that answers a question about one pause lifts whatever pause the session has when it
      comes, a newer one too. */
  lemma NewerPauseLifted(setup: Setup, call: Call)
    ensures var s1 := Step(setup, Arrive(Start(setup), call), Breach(call.session, "loop", 0));
      var s2 := Step(setup, s1, Ready(0, RESUME_CHECK_MS));
      var s3 := Step(setup, s2, Breach(call.session, "again", RESUME_CHECK_MS + 1));
      Enabled(s3, Replies(0, Some(true)))
      && s3.world.tasks[0].stage.pause.breach == "loop" && s3.paused[call.session].breach == "again"
      && call.session !in Step(setup, s3, Replies(0, Some(true))).paused
  {
  }

  /** Step `i` asks the plane whether a session was resumed, at the time `now`. */
  ghost predicate AsksPlane(setup: Setup, events: seq<Event>, states: seq<State>, i: nat, session: string, now: int)
    requires |states| == |events| + 1
  {
    && i < |events| && Enabled(states[i], events[i]) && events[i].Ready? && events[i].now == now
    && states[i].world.tasks[events[i].c].call.session == session
    && states[i + 1].world.tasks.Keys == states[i].world.tasks.Keys
    && states[i + 1].world.tasks[events[i].c].stage.Checking?
  }

  /** A session's pause, while nobody sets or lifts it, was last asked about no earlier than before. */
  lemma {:induction false} CheckedSince(
    setup: Setup, events: seq<Event>, states: seq<State>, i: nat, n: nat, session: string, now: int)
    requires Runs(setup, events, states) && i < n < |states| && AsksPlane(setup, events, states, i, session, now)
    requires forall k | i < k <= n :: session in states[k].paused
    requires forall k | i < k < n :: !BreachAt(events, k, session)
    ensures states[n].paused[session].checkedAt >= now
  {
    assert states[i + 1] == Step(setup, states[i], events[i]);
    if n > i + 1 {
      CheckedSince(setup, events, states, i, n - 1, session, now);
      assert session in states[n - 1].paused && session in states[n].paused && !BreachAt(events, n - 1, session);
      assert Enabled(states[n - 1], events[n - 1]) && states[n] == Step(setup, states[n - 1], events[n - 1]);
      hide Step;
      hide Enabled;
      StepChecked(setup, states[n - 1], events[n - 1], session);
    }
  }

  lemma StepChecked(setup: Setup, s: State, e: Event, session: string)
    requires Enabled(s, e) && session in s.paused && session in Step(setup, s, e).paused
    requires !(e.Breach? && e.session == session)
    ensures Step(setup, s, e).paused[session].checkedAt >= s.paused[session].checkedAt
  {
    hide Strictest;
    hide GrantKey;
    hide FindKey;
    hide ProofIn;
    hide Names;
  }

  /** While one pause stays, the plane is asked about it at most once a window. */
  lemma AskedOnceAWindow(
    setup: Setup, events: seq<Event>, states: seq<State>, i: nat, j: nat, session: string, now: int, later: int)
    requires Runs(setup, events, states) && i < j
    requires AsksPlane(setup, events, states, i, session, now) && AsksPlane(setup, events, states, j, session, later)
    requires forall k | i < k <= j :: session in states[k].paused
    requires forall k | i < k < j :: !BreachAt(events, k, session)
    ensures later - now >= RESUME_CHECK_MS
  {
    CheckedSince(setup, events, states, i, j, session, now);
    assert states[j + 1] == Step(setup, states[j], events[j]);
  }

  // ---------------------------------------------------------------- the record

  ghost function TimesRecorded(records: seq<Record>, c: nat, allowed: bool): nat {
    if records == [] then 0
    else
      var last := records[|records| - 1];
      TimesRecorded(records[..|records| - 1], c, allowed)
      + if last.ActionRecorded? && last.call == c && last.allowed == allowed then 1 else 0
  }

  ghost function TimesStarted(records: seq<Record>, session: string): nat {
    if records == [] then 0
    else
      TimesStarted(records[..|records| - 1], session)
      + if records[|records| - 1] == SessionStarted(session) then 1 else 0
  }

  /** A step adds at most one row: a call's with its decision, or a session's. */
  ghost predicate Books(s: State, s': State) {
    var w, w' := s.world, s'.world;
    || (s'.records == s.records && s'.seen == s.seen && w'.decided == w.decided)
    || (exists row :: s'.records == s.records + [row] && match row
        case ActionRecorded(c, _, allowed) =>
          c !in w.decided && s'.seen == s.seen
          && exists why :: w'.decided == w.decided[c := Decision(allowed, why)]
        case SessionStarted(session) =>
          session !in s.seen && s'.seen == s.seen + {session} && w'.decided == w.decided
        case SessionStopped(_) => s'.seen == s.seen && w'.decided == w.decided)
  }

  /** A stretch that may decide its call books it where it does. */
  lemma DecidingBooks(setup: Setup, s: State, e: Event)
    requires StagesOk(setup, s) && Enabled(s, e) && (e.Goes? || e.Raised? || e.Hears? || e.Fetched?)
    ensures Books(s, Step(setup, s, e))
  {
    hide Step;
    var s' := Step(setup, s, e);
    Undecided(setup, s, e.c);
    hide StagesOk;
    StepOnly(setup, s, e);
    hide Enabled;
    if s'.records != s.records {
      var effect, d: Decision :| s'.records == s.records + [ActionRecorded(e.c, effect, d.allowed)]
        && s'.world.decided == s.world.decided[e.c := d];
      assert s'.world.decided == s.world.decided[e.c := Decision(d.allowed, d.why)];
    }
  }

  lemma LookUpBooks(s: State, c: nat, now: int)
    requires c in s.world.tasks
    ensures Books(s, LookUp(s, c, now))
  {
    var session := s.world.tasks[c].call.session;
    var s' := LookUp(s, c, now);
    if session !in s.seen {
      assert s'.records == s.records + [SessionStarted(session)];
    }
  }

  lemma StepBooks(setup: Setup, s: State, e: Event)
    requires StagesOk(setup, s) && Enabled(s, e)
    ensures Books(s, Step(setup, s, e))
  {
    hide Books;
    hide StagesOk;
    hide LookUp;
    match e {
      case Ready(c, now) => LookUpBooks(s, c, now);
      case Breach(session, reason, now) => StopBooks(s, Step(setup, s, e), session);
      case Goes(_, _) => DecidingBooks(setup, s, e);
      case Raised(_, _, _) => DecidingBooks(setup, s, e);
      case Hears(_, _, _) => DecidingBooks(setup, s, e);
      case Fetched(_, _) => DecidingBooks(setup, s, e);
      case _ => NothingBooked(s, Step(setup, s, e));
    }
  }

  lemma NothingBooked(s: State, s': State)
    requires s'.records == s.records && s'.seen == s.seen && s'.world.decided == s.world.decided
    ensures Books(s, s')
  {
  }

  lemma StopBooks(s: State, s': State, session: string)
    requires s'.records == s.records + [SessionStopped(session)]
    requires s'.seen == s.seen && s'.world.decided == s.world.decided
    ensures Books(s, s')
  {
  }

  lemma LastRow(records: seq<Record>, row: Record, c: nat, allowed: bool, session: string)
    ensures TimesRecorded(records + [row], c, allowed)
      == TimesRecorded(records, c, allowed)
        + if row.ActionRecorded? && row.call == c && row.allowed == allowed then 1 else 0
    ensures TimesStarted(records + [row], session)
      == TimesStarted(records, session) + if row == SessionStarted(session) then 1 else 0
  {
    assert (records + [row])[..|records|] == records;
  }

  ghost predicate OnceRecorded(s: State, c: nat, allowed: bool) {
    TimesRecorded(s.records, c, allowed)
      == if c in s.world.decided && s.world.decided[c].allowed == allowed then 1 else 0
  }

  ghost predicate OnceStarted(s: State, session: string) {
    TimesStarted(s.records, session) == if session in s.seen then 1 else 0
  }

  lemma BookedOnce(s: State, s': State, c: nat, allowed: bool, session: string)
    requires Books(s, s') && OnceRecorded(s, c, allowed) && OnceStarted(s, session)
    ensures OnceRecorded(s', c, allowed) && OnceStarted(s', session)
  {
    hide TimesRecorded;
    hide TimesStarted;
    if s'.records != s.records {
      LastRow(s.records, s'.records[|s.records|], c, allowed, session);
    }
  }

  /** Every decision is on the record exactly once, as it was given, and so is every session's start. */
  lemma {:induction false} RecordedOnce(
    setup: Setup, events: seq<Event>, states: seq<State>, n: nat, c: nat, allowed: bool, session: string)
    requires Runs(setup, events, states) && n < |states|
    ensures OnceRecorded(states[n], c, allowed) && OnceStarted(states[n], session)
  {
    hide Step;
    hide Enabled;
    if n > 0 {
      RecordedOnce(setup, events, states, n - 1, c, allowed, session);
      RunStages(setup, events, states, n - 1);
      hide StagesOk;
      assert states[n] == Step(setup, states[n - 1], events[n - 1]);
      StepBooks(setup, states[n - 1], events[n - 1]);
      hide Books;
      BookedOnce(states[n - 1], states[n], c, allowed, session);
    }
  }

  // ---------------------------------------------------------------- what a signature covers

  /** A signed answer to a question, bound to one call, is bound to another exactly where the two calls'
      arguments are the same once the members below the top that are under no name at the top are left
      out, unless the hash itself takes their two texts for one. */
  lemma BoundAlike(setup: Setup, keys: seq<Key>, id: string, call: Call, call': Call, held: Held)
    requires Args.Standard(setup.runtime) && Bound(setup, keys, id, call, held)
    requires Args.Valued(setup.runtime, Object(call.input)) && Args.Valued(setup.runtime, Object(call'.input))
    requires Args.DigestOf(setup.runtime, call.input) == Args.DigestOf(setup.runtime, call'.input) ==>
      Args.ArgsText(setup.runtime, call.input) == Args.ArgsText(setup.runtime, call'.input)
    ensures Bound(setup, keys, id, call', held) <==> Args.KeptOf(call.input) == Args.KeptOf(call'.input)
  {
    Args.SameText(setup.runtime, call.input, call'.input);
    hide Args.Standard;
    hide Args.ArgsText;
    hide Args.KeptOf;
  }

  // ---------------------------------------------------------------- keys of grants

  lemma SplitAtNul(a: string, x: string, b: string, y: string)
    requires '\0' !in a && '\0' !in b
    requires a + ['\0'] + x == b + ['\0'] + y
    ensures a == b && x == y
  {
    var s, t := a + ['\0'] + x, b + ['\0'] + y;
    assert s[|a|] == '\0' && t[|b|] == '\0';
    assert |a| == |b|;
    assert a == s[..|a|] && b == t[..|b|];
    assert x == s[|a| + 1..] && y == t[|b| + 1..];
  }

  /** Where sessions and actions hold no NUL, a grant is shared by exactly the requests of one
      session with the same action and target. */
  lemma GrantKeyExact(session: string, request: Request, session': string, request': Request)
    requires '\0' !in session && '\0' !in session' && '\0' !in request.action && '\0' !in request'.action
    ensures GrantKey(session, request) == GrantKey(session', request') <==>
      session == session' && request.action == request'.action && TargetOf(request) == TargetOf(request')
  {
    if GrantKey(session, request) == GrantKey(session', request') {
      var rest, rest' := request.action + ['\0'] + TargetOf(request), request'.action + ['\0'] + TargetOf(request');
      assert GrantKey(session, request) == session + ['\0'] + rest;
      assert GrantKey(session', request') == session' + ['\0'] + rest';
      SplitAtNul(session, rest, session', rest');
      SplitAtNul(request.action, TargetOf(request), request'.action, TargetOf(request'));
    }
  }

  ghost function TargetOf(request: Request): string {
    if request.target.Some? then request.target.value else ""
  }
}
