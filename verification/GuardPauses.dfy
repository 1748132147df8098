/** How long a pause lasts: from a breach until a person resumes the session, whatever the plane answers in
    between or does not. */
module GuardPauses {
  import opened Basics
  import opened Guard
  import opened GuardRuns

  /** A step that lifts a session's pause: a resume of it, or the plane's yes to a question about it. */
  ghost predicate Lifts(s: State, e: Event, session: string) {
    || (e.Resumes? && e.session == session)
    || (e.Replies? && e.c in s.world.tasks && e.reply == Some(true) && s.world.tasks[e.c].call.session == session)
  }

  lemma DecidingKeepsPauses(setup: Setup, s: State, e: Event)
    requires Enabled(s, e) && (e.Goes? || e.Raised? || e.Hears? || e.Fetched?)
    ensures Step(setup, s, e).paused == s.paused
  {
    hide Strictest;
    hide GrantKey;
    hide FindKey;
    hide ProofIn;
    hide Names;
  }

  /** A paused session is no longer paused after a step exactly where the step lifts it. */
  lemma LiftedExactly(setup: Setup, s: State, e: Event, session: string)
    requires Enabled(s, e) && session in s.paused
    ensures session !in Step(setup, s, e).paused <==> Lifts(s, e, session)
  {
    hide Rule;
    hide Raise;
    hide Hear;
    hide Fetch;
    if e.Goes? || e.Raised? || e.Hears? || e.Fetched? {
      DecidingKeepsPauses(setup, s, e);
      hide Step;
    }
  }

  /** And a session that is not paused is after a step exactly where the step is a breach of it. */
  lemma PausedExactly(setup: Setup, s: State, e: Event, session: string)
    requires Enabled(s, e) && session !in s.paused
    ensures session in Step(setup, s, e).paused <==> e.Breach? && e.session == session
  {
    hide Rule;
    hide Raise;
    hide Hear;
    hide Fetch;
    if e.Goes? || e.Raised? || e.Hears? || e.Fetched? {
      DecidingKeepsPauses(setup, s, e);
      hide Step;
    }
  }

  /** A paused session stays paused until it is lifted. */
  lemma {:induction false} StaysPaused(
    setup: Setup, events: seq<Event>, states: seq<State>, i: nat, n: nat, session: string)
    requires Runs(setup, events, states) && i <= n < |states| && session in states[i].paused
    requires forall j | i <= j < n :: !Lifts(states[j], events[j], session)
    ensures session in states[n].paused
  {
    if i < n {
      StaysPaused(setup, events, states, i, n - 1, session);
      assert Enabled(states[n - 1], events[n - 1]) && states[n] == Step(setup, states[n - 1], events[n - 1]);
      hide Step;
      hide Enabled;
      hide Lifts;
      LiftedExactly(setup, states[n - 1], events[n - 1], session);
    }
  }

  /** A call that looks for a pause finds the one its session has, and asks about it or is on its way to a
      refusal; with none it goes on to the rules. */
  lemma LooksForPause(setup: Setup, s: State, c: nat, now: int)
    requires Enabled(s, Ready(c, now))
    ensures var stage, session := Step(setup, s, Ready(c, now)).world.tasks[c].stage, s.world.tasks[c].call.session;
      if session !in s.paused then stage == Looked(None)
      else if now - s.paused[session].checkedAt < RESUME_CHECK_MS then stage == Looked(Some(s.paused[session]))
      else stage.Checking? && stage.pause == s.paused[session].(checkedAt := now)
  {
  }

  /** The plane's answer: a plain yes lets the call go on to the rules; anything else, and no answer, leaves
      it facing the pause it asked about and the session paused as it was. */
  lemma AnswerHeeded(setup: Setup, s: State, c: nat, reply: Option<bool>)
    requires Enabled(s, Replies(c, reply))
    ensures var s', task := Step(setup, s, Replies(c, reply)), s.world.tasks[c];
      if reply == Some(true)
      then s'.world.tasks[c].stage == Looked(None) && s'.paused == s.paused - {task.call.session}
      else s'.world.tasks[c].stage == Looked(Some(task.stage.pause)) && s'.paused == s.paused
  {
  }

  /** From a breach on, until the pause is lifted, every call of the session that looks for a pause finds
      one: it is refused, or asks the plane, and only the plane's yes lets it go on. */
  lemma BreachHolds(
    setup: Setup, events: seq<Event>, states: seq<State>, i: nat, n: nat, session: string)
    requires Runs(setup, events, states) && i < n < |events| && BreachAt(events, i, session)
    requires forall j | i < j < n :: !Lifts(states[j], events[j], session)
    requires events[n].Ready? && states[n].world.tasks[events[n].c].call.session == session
    ensures var stage := states[n + 1].world.tasks[events[n].c].stage;
      stage.Checking? || (stage.Looked? && stage.found.Some?)
    ensures session in states[n].paused && session in states[n + 1].paused
  {
    assert Enabled(states[i], events[i]) && states[i + 1] == Step(setup, states[i], events[i]);
    assert session in states[i + 1].paused;
    StaysPaused(setup, events, states, i + 1, n, session);
    assert Enabled(states[n], events[n]) && states[n + 1] == Step(setup, states[n], events[n]);
    LooksForPause(setup, states[n], events[n].c, events[n].now);
    LiftedExactly(setup, states[n], events[n], session);
    hide Step;
  }
}
