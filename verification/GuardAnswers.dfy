/** What a check comes to at each place it waits, told from what it was answered: by the rules, by the plane
    when it is asked and asked again, and by a person. */
module GuardAnswers {
  import opened Basics
  import opened Guard
  import Args = ArgsDigest

  /** The check is over, and was decided so. */
  ghost predicate Over(s: State, s': State, c: nat, allowed: bool, why: Why) {
    c !in s'.world.tasks && s'.world.decided == s.world.decided[c := Decision(allowed, why)]
  }

  /** The check goes on from a stage, and nothing else of the session moves. */
  ghost predicate GoesOnAt(s: State, s': State, c: nat, stage: Stage) {
    && c in s'.world.tasks && c in s.world.tasks && s'.world.tasks[c] == s.world.tasks[c].(stage := stage)
    && s'.world.decided == s.world.decided && s'.grants == s.grants && s'.keys == s.keys
  }

  // ---------------------------------------------------------------- the rules

  /** Request `k` is the first the rules ask about. */
  ghost predicate FirstAsked(engine: Engine, requests: seq<Request>, session: string, now: int, k: nat) {
    && k < |requests| && engine(requests[k], session, now) == Ask
    && forall i | 0 <= i < k :: engine(requests[i], session, now) != Ask
  }

  lemma {:induction false} StrictestAsked(engine: Engine, requests: seq<Request>, session: string, now: int, k: nat)
    requires FirstAsked(engine, requests, session, now, k)
    requires forall q | q in requests :: engine(q, session, now) != Deny
    ensures Strictest(engine, requests, session, now) == (requests[k], Ask)
  {
    var front := requests[..|requests| - 1];
    if k < |front| {
      StrictestAsked(engine, front, session, now, k);
    } else if front != [] {
      var (request, effect) := Strictest(engine, front, session, now);
      assert request in front && request in requests;
      var i :| 0 <= i < |front| && front[i] == request;
      assert engine(requests[i], session, now) != Ask;
    }
  }

  /** The first request asked about is granted for the session, or asked about. */
  ghost predicate AskedAt(setup: Setup, s: State, s': State, c: nat, now: int, k: nat)
    requires c in s.world.tasks
  {
    var requests, session := setup.requestsFor(s.world.tasks[c].call), s.world.tasks[c].call.session;
    && FirstAsked(s.engine, requests, session, now, k)
    && if GrantKey(session, requests[k]) in s.grants then Over(s, s', c, true, ByGrant)
       else GoesOnAt(s, s', c, Raising(requests[k], now + setup.waitMs))
  }

  lemma StrictestSays(engine: Engine, requests: seq<Request>, session: string, now: int)
    requires requests != []
    ensures var effect := Strictest(engine, requests, session, now).1;
      && (effect.Deny? <==> exists q :: q in requests && engine(q, session, now) == Deny)
      && (effect.Allow? <==> forall q | q in requests :: engine(q, session, now) == Allow)
      && (effect.Ask? ==> exists q :: q in requests && engine(q, session, now) == Ask)
  {
    var (request, effect) := Strictest(engine, requests, session, now);
    hide Strictest;
    assert forall q | q in requests :: Strictness(engine(q, session, now)) <= Strictness(effect);
    assert engine(request, session, now) == effect && request in requests;
  }

  /** Past its pause check a call is refused where it faces a pause; let go where nothing in it is ruled on
      or the rules allow all of it; refused where they deny any of it; and otherwise let go where the first
      request they ask about is granted for its session, and asked about, with as long to answer as it is
      set up with, where it is not. */
  lemma RuledExactly(setup: Setup, s: State, c: nat, now: int)
    requires Enabled(s, Goes(c, now))
    ensures var s', task := Step(setup, s, Goes(c, now)), s.world.tasks[c];
      var requests, session := setup.requestsFor(task.call), task.call.session;
      && s'.grants == s.grants
      && if task.stage.found.Some? then Over(s, s', c, false, SessionPaused)
         else if requests == [] then Over(s, s', c, true, NothingRuled)
         else if exists q :: q in requests && s.engine(q, session, now) == Deny then Over(s, s', c, false, ByRules)
         else if forall q | q in requests :: s.engine(q, session, now) == Allow then Over(s, s', c, true, ByRules)
         else exists k: nat :: AskedAt(setup, s, s', c, now, k)
  {
    var s', task := Step(setup, s, Goes(c, now)), s.world.tasks[c];
    var requests, session := setup.requestsFor(task.call), task.call.session;
    hide GrantKey;
    if task.stage.found.None? && requests != [] {
      StrictestSays(s.engine, requests, session, now);
      var effect := Strictest(s.engine, requests, session, now).1;
      if effect.Ask? {
        var k := FirstOne(s.engine, requests, session, now);
        StrictestAsked(s.engine, requests, session, now, k);
        hide Strictest;
        assert AskedAt(setup, s, s', c, now, k);
      }
      hide Strictest;
      hide AskedAt;
    }
  }

  lemma {:induction false} FirstOne(engine: Engine, requests: seq<Request>, session: string, now: int) returns (k: nat)
    requires exists q :: q in requests && engine(q, session, now) == Ask
    ensures FirstAsked(engine, requests, session, now, k)
  {
    if engine(requests[0], session, now) == Ask {
      k := 0;
    } else {
      var later := FirstOne(engine, requests[1..], session, now);
      k := later + 1;
      forall i | 0 <= i < k ensures engine(requests[i], session, now) != Ask {
        assert i > 0 ==> requests[i] == requests[1..][i - 1];
      }
    }
  }

  // ---------------------------------------------------------------- a question put and waited for

  /** A question that was raised is waited for while there is time left; one that could not be is refused. */
  lemma RaisedExactly(setup: Setup, s: State, c: nat, id: Option<string>, now: int)
    requires Enabled(s, Raised(c, id, now))
    ensures var s', stage := Step(setup, s, Raised(c, id, now)), s.world.tasks[c].stage;
      if id.None? then Over(s, s', c, false, Unreachable)
      else if now < stage.deadline then GoesOnAt(s, s', c, Polling(stage.request, id.value, stage.deadline))
      else Over(s, s', c, false, NotInTime)
  {
  }

  /** Until it is answered it is asked about again while there is time left. */
  lemma WaitsExactly(setup: Setup, s: State, c: nat, held: Option<Held>, now: int)
    requires Enabled(s, Hears(c, held, now)) && (held.Some? ==> !held.value.status.Answered?)
    ensures var s', stage := Step(setup, s, Hears(c, held, now)), s.world.tasks[c].stage;
      if held.None? then Over(s, s', c, false, Unreachable)
      else if held.value.status.Pending? && now < stage.deadline then GoesOnAt(s, s', c, stage)
      else Over(s, s', c, false, NotInTime)
  {
  }

  // ---------------------------------------------------------------- a person's answer

  predicate SaysYes(held: Held) {
    held.answer == Some("once") || held.answer == Some("session")
  }

  /** The answer is signed for this question, this answer and this call's argument digest. */
  ghost predicate SignedFor(setup: Setup, call: Call, id: string, held: Held) {
    && held.signed.Some?
    && var claims := setup.claimsOf(held.signed.value.payload);
       && claims.Claims?
       && claims.callId == Some(id) && claims.answer == held.answer
       && claims.argsDigest == Some(Args.DigestOf(setup.runtime, call.input))
  }

  ghost predicate FirstNamed(keys: seq<Key>, keyId: string, k: nat) {
    k < |keys| && keys[k].keyId == keyId && forall i | 0 <= i < k :: keys[i].keyId != keyId
  }

  /** Its signature holds under the key it names, the first of that name there is. */
  ghost predicate HoldsUnder(setup: Setup, keys: seq<Key>, signed: Signed) {
    exists k: nat :: FirstNamed(keys, signed.keyId, k)
                     && setup.verifies(signed.payload, keys[k].publicKey, signed.signature)
  }

  /** What was signed says a device or a passkey vouches for it. */
  ghost predicate HasProof(setup: Setup, held: Held) {
    && held.signed.Some?
    && var claims := setup.claimsOf(held.signed.value.payload);
       claims.Claims? && claims.proof.Some? && claims.proof.value != "none"
  }

  ghost predicate KeyKnown(keys: seq<Key>, keyId: string) {
    exists key :: key in keys && key.keyId == keyId
  }

  lemma {:induction false} FirstKey(keys: seq<Key>, keyId: string)
    ensures FindKey(keys, keyId).Some? <==> KeyKnown(keys, keyId)
    ensures forall k: nat | FirstNamed(keys, keyId, k) :: FindKey(keys, keyId) == Some(keys[k])
    ensures FindKey(keys, keyId).Some? ==> exists k: nat :: FirstNamed(keys, keyId, k)
  {
    if keys != [] && keys[0].keyId == keyId {
      assert FirstNamed(keys, keyId, 0);
    } else if keys != [] {
      FirstKey(keys[1..], keyId);
      forall k: nat | FirstNamed(keys, keyId, k) ensures FindKey(keys, keyId) == Some(keys[k]) {
        assert FirstNamed(keys[1..], keyId, k - 1);
      }
      if k: nat :| FirstNamed(keys[1..], keyId, k) {
        forall i | 0 <= i < k + 1 ensures keys[i].keyId != keyId {
          assert i > 0 ==> keys[i] == keys[1..][i - 1];
        }
        assert FirstNamed(keys, keyId, k + 1);
      }
    }
  }

  lemma VerifiesExactly(setup: Setup, keys: seq<Key>, signed: Signed)
    ensures HoldsUnder(setup, keys, signed) <==>
      FindKey(keys, signed.keyId).Some?
      && setup.verifies(signed.payload, FindKey(keys, signed.keyId).value.publicKey, signed.signature)
    ensures FindKey(keys, signed.keyId).Some? <==> KeyKnown(keys, signed.keyId)
  {
    FirstKey(keys, signed.keyId);
    hide FindKey;
    if HoldsUnder(setup, keys, signed) {
      var k: nat :| FirstNamed(keys, signed.keyId, k)
        && setup.verifies(signed.payload, keys[k].publicKey, signed.signature);
      assert keys[k] in keys;
    }
  }

  /** What heeding an answer comes to. A yes, vouched for by a device where that is asked, lets its call out,
      and where it is for the session grants the request to it; any other answer refuses, granting nothing. */
  ghost predicate Heeded(setup: Setup, s: State, s': State, c: nat, request: Request, held: Held)
    requires c in s.world.tasks
  {
    var yes := SaysYes(held) && (setup.requireDeviceProof ==> HasProof(setup, held));
    && (if yes then Over(s, s', c, true, ByPerson)
        else exists why :: Over(s, s', c, false, why))
    && s'.grants == if yes && held.answer == Some("session")
         then s.grants + {GrantKey(s.world.tasks[c].call.session, request)} else s.grants
  }

  lemma TakenHeeded(setup: Setup, s0: State, s: State, c: nat, request: Request, held: Held)
    requires c in s.world.tasks && s == s0.(keys := s.keys)
    ensures Heeded(setup, s0, Take(setup, s, c, request, held), c, request, held)
  {
    hide GrantKey;
    var s' := Take(setup, s, c, request, held);
    assert ProofIn(setup, held.signed) == "none" <==> !HasProof(setup, held);
    hide ProofIn;
    hide HasProof;
    if !SaysYes(held) {
      assert Over(s0, s', c, false, SaidNo);
    } else if setup.requireDeviceProof && !HasProof(setup, held) {
      assert Over(s0, s', c, false, NoDevice);
    }
  }

  /** A person's answer is heeded exactly where answers need no signature, or it is signed for this question,
      answer and arguments and the signature holds; it waits for keys exactly where it is so signed under a
      key not known; and in every other case the call is refused and nothing granted. */
  lemma AnswerExactly(setup: Setup, s: State, c: nat, held: Held, now: int)
    requires Enabled(s, Hears(c, Some(held), now)) && held.status.Answered?
    ensures var s', task := Step(setup, s, Hears(c, Some(held), now)), s.world.tasks[c];
      var signed := SignedFor(setup, task.call, task.stage.id, held);
      if !setup.requireSigned || (signed && HoldsUnder(setup, s.keys, held.signed.value))
      then Heeded(setup, s, s', c, task.stage.request, held)
      else if signed && !KeyKnown(s.keys, held.signed.value.keyId)
      then GoesOnAt(s, s', c, FetchingKeys(task.stage.request, task.stage.id, held))
      else s'.grants == s.grants && exists why :: Over(s, s', c, false, why)
  {
    var s', task := Step(setup, s, Hears(c, Some(held), now)), s.world.tasks[c];
    TakenHeeded(setup, s, s, c, task.stage.request, held);
    if held.signed.Some? {
      VerifiesExactly(setup, s.keys, held.signed.value);
    }
    hide Take;
    hide Heeded;
    hide HoldsUnder;
    hide KeyKnown;
    hide FindKey;
    if setup.requireSigned {
      if held.signed.Some? && setup.claimsOf(held.signed.value.payload).NullClaims? {
        assert Over(s, s', c, false, Unreachable);
      } else if !SignedFor(setup, task.call, task.stage.id, held)
        || (FindKey(s.keys, held.signed.value.keyId).Some? && !HoldsUnder(setup, s.keys, held.signed.value)) {
        assert Over(s, s', c, false, Unsigned);
      }
    }
  }

  /** With the keys fetched, an answer that waited for them is heeded exactly where its signature holds under
      one of them, and they are the keys from then on; and otherwise the call is refused. */
  lemma FetchedExactly(setup: Setup, s: State, c: nat, found: Option<seq<Key>>)
    requires Enabled(s, Fetched(c, found))
    ensures var s', stage := Step(setup, s, Fetched(c, found)), s.world.tasks[c].stage;
      && (if found.Some? && HoldsUnder(setup, found.value, stage.held.signed.value)
          then Heeded(setup, s, s', c, stage.request, stage.held)
          else s'.grants == s.grants && exists why :: Over(s, s', c, false, why))
      && s'.keys == if found.Some? then found.value else s.keys
  {
    var s', stage := Step(setup, s, Fetched(c, found)), s.world.tasks[c].stage;
    if found.Some? {
      VerifiesExactly(setup, found.value, stage.held.signed.value);
      TakenHeeded(setup, s, s.(keys := found.value), c, stage.request, stage.held);
      KeysStay(setup, s.(keys := found.value), c, stage.request, stage.held);
    }
    hide Take;
    hide Heeded;
    hide HoldsUnder;
    hide FindKey;
    if found.None? || !HoldsUnder(setup, found.value, stage.held.signed.value) {
      assert Over(s, s', c, false, Unsigned);
    }
  }

  lemma KeysStay(setup: Setup, s: State, c: nat, request: Request, held: Held)
    requires c in s.world.tasks
    ensures Take(setup, s, c, request, held).keys == s.keys
  {
    hide ProofIn;
    hide GrantKey;
  }

  // ---------------------------------------------------------------- the rules and keys in force

  lemma DecidingKeepsRules(setup: Setup, s: State, e: Event)
    requires Enabled(s, e) && (e.Goes? || e.Raised? || e.Hears? || e.Fetched?)
    ensures var s' := Step(setup, s, e);
      && s'.engine == s.engine && s'.seen == s.seen
      && s'.keys == if e.Fetched? && e.found.Some? then e.found.value else s.keys
  {
    hide Strictest;
    hide GrantKey;
    hide FindKey;
    hide ProofIn;
    hide Names;
  }

  /** The rules in force are those last given, and the keys those last given or fetched, whatever a check does
      in between. */
  lemma InForce(setup: Setup, s: State, e: Event)
    requires Enabled(s, e)
    ensures var s' := Step(setup, s, e);
      && s'.engine == (if e.NewRules? then e.engine else s.engine)
      && s'.keys == (if e.NewKeys? then e.keys else if e.Fetched? && e.found.Some? then e.found.value else s.keys)
  {
    hide Rule;
    hide Raise;
    hide Hear;
    hide Fetch;
    if e.Goes? || e.Raised? || e.Hears? || e.Fetched? {
      DecidingKeepsRules(setup, s, e);
      hide Step;
    }
  }
}
