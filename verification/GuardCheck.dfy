/** The guard object: the fields it keeps, and what each stretch of a check between two `await`s
    does to them. */
module GuardCheck {
  import opened Basics
  import Args = ArgsDigest
  import opened Guard
  import Machine = Guard

  class CloudGuard {
    const setup: Setup
    var engine: Engine
    var keys: seq<Key>
    var paused: map<string, Pause>
    var sessionGrants: set<string>
    var sessionsSeen: set<string>
    var records: seq<Record>
    /** The checks under way, and what was decided. */
    var world: World

    ghost function View(): State
      reads this
    {
      State(engine, keys, paused, sessionGrants, sessionsSeen, records, world)
    }

    constructor (setup: Setup)
      ensures View() == Start(setup) && this.setup == setup
    {
      this.setup := setup;
      engine, keys := setup.defaults, [];
      paused, sessionGrants, sessionsSeen, records := map[], {}, {}, [];
      world := World(0, map[], map[], map[]);
    }

    // -------------------------------------------------------------- before the rules

    /** A check begins: it waits for the first rules. */
    method Authorize(call: Call) returns (c: nat)
      modifies this`world
      ensures View() == Step(setup, old(View()), Arrives(call)) && c == old(world.next)
    {
      c := world.next;
      world := world.(
        next := c + 1, tasks := world.tasks[c := Task(call, Arriving)], calls := world.calls[c := call]);
    }

    method NoteSession(session: string)
      modifies this`sessionsSeen, this`records
      ensures View() == Machine.NoteSession(old(View()), session)
    {
      if session in sessionsSeen {
        return;
      }
      sessionsSeen := sessionsSeen + {session};
      records := records + [SessionStarted(session)];
    }

    method RulesReady(c: nat, now: int)
      requires Enabled(View(), Ready(c, now))
      modifies this
      ensures View() == Step(setup, old(View()), Ready(c, now))
    {
      var session := world.tasks[c].call.session;
      NoteSession(session);
      if session !in paused {
        Suspend(c, Looked(None));
        return;
      }
      var pause := paused[session];
      if now - pause.checkedAt < RESUME_CHECK_MS {
        Suspend(c, Looked(Some(pause)));
        return;
      }
      pause := pause.(checkedAt := now);
      paused := paused[session := pause];
      Suspend(c, Checking(pause));
    }

    method ResumedSince(c: nat, reply: Option<bool>)
      requires Enabled(View(), Replies(c, reply))
      modifies this
      ensures View() == Step(setup, old(View()), Replies(c, reply))
    {
      var task := world.tasks[c];
      if reply == Some(true) {
        Resume(task.call.session);
        Suspend(c, Looked(None));
      } else {
        Suspend(c, Looked(Some(task.stage.pause)));
      }
    }

    method Resume(session: string)
      modifies this`paused
      ensures View() == Step(setup, old(View()), Resumes(session))
    {
      paused := paused - {session};
    }

    /** A call came out so that the breaker stops its session. */
    method Outcome(session: string, reason: string, now: int)
      modifies this`paused, this`records
      ensures View() == Step(setup, old(View()), Breach(session, reason, now))
    {
      paused := paused[session := Pause(reason, now, now)];
      records := records + [SessionStopped(session)];
    }

    // -------------------------------------------------------------- the rules and the grants

    method RuleOn(c: nat, now: int)
      requires Enabled(View(), Goes(c, now))
      modifies this
      ensures View() == Step(setup, old(View()), Goes(c, now))
    {
      var call := world.tasks[c].call;
      if world.tasks[c].stage.found.Some? {
        Finish(c, Deny, Decision(false, SessionPaused));
        return;
      }
      var requests := setup.requestsFor(call);
      if requests == [] {
        Finish(c, Allow, Decision(true, NothingRuled));
        return;
      }
      var (request, effect) := Strictest(engine, requests, call.session, now);
      if effect == Allow {
        Finish(c, effect, Decision(true, ByRules));
        return;
      }
      if effect != Ask {
        Finish(c, effect, Decision(false, ByRules));
        return;
      }
      var grant := GrantKey(call.session, request);
      if grant in sessionGrants {
        Finish(c, effect, Decision(true, ByGrant));
        return;
      }
      Suspend(c, Raising(request, now + setup.waitMs));
    }

    // -------------------------------------------------------------- a person's answer

    method RaiseReplied(c: nat, id: Option<string>, now: int)
      requires Enabled(View(), Raised(c, id, now))
      modifies this
      ensures View() == Step(setup, old(View()), Raised(c, id, now))
    {
      var stage := world.tasks[c].stage;
      if id.None? {
        Finish(c, Ask, Decision(false, Unreachable));
      } else {
        AskAgain(c, stage.request, id.value, stage.deadline, now);
      }
    }

    method AskAgain(c: nat, request: Request, id: string, deadline: int, now: int)
      requires c in world.tasks
      modifies this
      ensures View() == Poll(old(View()), c, request, id, deadline, now)
    {
      if deadline - now <= 0 {
        Finish(c, Ask, Decision(false, NotInTime));
      } else {
        Suspend(c, Polling(request, id, deadline));
      }
    }

    method StatusReplied(c: nat, held: Option<Held>, now: int)
      requires Enabled(View(), Hears(c, held, now))
      modifies this
      ensures View() == Step(setup, old(View()), Hears(c, held, now))
    {
      var stage := world.tasks[c].stage;
      if held.None? {
        Finish(c, Ask, Decision(false, Unreachable));
      } else if held.value.status == Expired {
        Finish(c, Ask, Decision(false, NotInTime));
      } else if held.value.status == Answered {
        PersonAnswered(c, stage.request, stage.id, held.value);
      } else {
        AskAgain(c, stage.request, stage.id, stage.deadline, now);
      }
    }

    method PersonAnswered(c: nat, request: Request, id: string, held: Held)
      requires c in world.tasks
      modifies this
      ensures View() == Weigh(setup, old(View()), c, request, id, held)
    {
      if setup.requireSigned {
        if held.signed.None? {
          Finish(c, Ask, Decision(false, Unsigned));
          return;
        }
        var signed := held.signed.value;
        var claims := setup.claimsOf(signed.payload);
        if claims.NullClaims? {
          Finish(c, Ask, Decision(false, Unreachable));
          return;
        }
        if claims.NotJson? || claims.callId != Some(id) || claims.answer != held.answer
          || claims.argsDigest != Some(Args.DigestOf(setup.runtime, world.tasks[c].call.input))
        {
          Finish(c, Ask, Decision(false, Unsigned));
          return;
        }
        var key := FindKey(keys, signed.keyId);
        if key.None? {
          Suspend(c, FetchingKeys(request, id, held));
          return;
        }
        if !setup.verifies(signed.payload, key.value.publicKey, signed.signature) {
          Finish(c, Ask, Decision(false, Unsigned));
          return;
        }
      }
      Believe(c, request, held);
    }

    method KeysReplied(c: nat, found: Option<seq<Key>>)
      requires Enabled(View(), Fetched(c, found))
      modifies this
      ensures View() == Step(setup, old(View()), Fetched(c, found))
    {
      var stage := world.tasks[c].stage;
      if found.None? {
        Finish(c, Ask, Decision(false, Unsigned));
        return;
      }
      keys := found.value;
      var signed := stage.held.signed.value;
      var key := FindKey(keys, signed.keyId);
      if key.None? || !setup.verifies(signed.payload, key.value.publicKey, signed.signature) {
        Finish(c, Ask, Decision(false, Unsigned));
        return;
      }
      Believe(c, stage.request, stage.held);
    }

    method Believe(c: nat, request: Request, held: Held)
      requires c in world.tasks
      modifies this
      ensures View() == Take(setup, old(View()), c, request, held)
    {
      var session := world.tasks[c].call.session;
      if held.answer != Some(ONCE) && held.answer != Some(SESSION) {
        Finish(c, Ask, Decision(false, SaidNo));
        return;
      }
      if setup.requireDeviceProof && ProofIn(setup, held.signed) == NO_PROOF {
        Finish(c, Ask, Decision(false, NoDevice));
        return;
      }
      if held.answer == Some(SESSION) {
        sessionGrants := sessionGrants + {GrantKey(session, request)};
      }
      Finish(c, Ask, Decision(true, ByPerson));
    }

    // -------------------------------------------------------------- suspending and settling

    method Suspend(c: nat, stage: Stage)
      requires c in world.tasks
      modifies this`world
      ensures View() == At(old(View()), c, stage)
    {
      world := world.(tasks := world.tasks[c := world.tasks[c].(stage := stage)]);
    }

    method Finish(c: nat, effect: Effect, decision: Decision)
      modifies this`world, this`records
      ensures View() == Settle(old(View()), c, effect, decision)
    {
      records := records + [ActionRecorded(c, effect, decision.allowed)];
      world := world.(tasks := world.tasks - {c}, decided := world.decided[c := decision]);
    }
  }
}
