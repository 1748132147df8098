/** The cloud guard. A check of a tool call is cut wherever it waits, so many checks are under way at
    once and their stretches come in any order, with new rules, new keys, pauses and resumes between. */
module Guard {
  import opened Basics
  import Args = ArgsDigest

  datatype Effect = Allow | Ask | Deny

  datatype Request = Request(action: string, target: Option<string>, details: string)

  datatype Call = Call(tool: string, input: Args.Input, session: string)

  /** The rules in memory: what they say of a request, in a session, at a time. */
  type Engine = (Request, string, int) -> Effect

  datatype Key = Key(keyId: string, publicKey: string)

  datatype Signed = Signed(payload: string, signature: string, keyId: string)

  datatype Status = Pending | Answered | Expired

  datatype Held = Held(status: Status, answer: Option<string>, signed: Option<Signed>)

  /** What a signed payload reads as: not JSON, JSON's `null`, or an object naming a call, an
      answer and the arguments. */
  datatype Claims =
    | NotJson
    | NullClaims
    | Claims(callId: Option<string>, answer: Option<string>, argsDigest: Option<string>, proof: Option<string>)

  datatype Pause = Pause(breach: string, at: int, checkedAt: int)

  datatype Why =
    | NothingRuled | ByRules | ByGrant | ByPerson
    | SessionPaused | Unsigned | NoDevice | NotInTime | Unreachable | SaidNo

  datatype Decision = Decision(allowed: bool, why: Why)

  datatype Record =
    | SessionStarted(session: string)
    | ActionRecorded(call: nat, effect: Effect, allowed: bool)
    | SessionStopped(session: string)

  /** Where a check is suspended. */
  datatype Stage =
    | Arriving
    | Checking(pause: Pause)
    | Looked(found: Option<Pause>)
    | Raising(request: Request, deadline: int)
    | Polling(request: Request, id: string, deadline: int)
    | FetchingKeys(request: Request, id: string, held: Held)

  datatype Task = Task(call: Call, stage: Stage)

  /** The calls so far by number: those being checked and those decided. */
  datatype World = World(next: nat, tasks: map<nat, Task>, calls: map<nat, Call>, decided: map<nat, Decision>)

  datatype State = State(
    engine: Engine,
    keys: seq<Key>,
    paused: map<string, Pause>,
    grants: set<string>,
    seen: set<string>,
    records: seq<Record>,
    world: World)

  datatype Setup = Setup(
    defaults: Engine,
    requestsFor: Call -> seq<Request>,
    runtime: Args.Runtime,
    claimsOf: string -> Claims,
    verifies: (string, string, string) -> bool,
    requireSigned: bool,
    requireDeviceProof: bool,
    waitMs: int)

  const RESUME_CHECK_MS := 10_000
  const ONCE := "once"
  const SESSION := "session"
  const NO_PROOF := "none"

  function Start(setup: Setup): State {
    State(setup.defaults, [], map[], {}, {}, [], World(0, map[], map[], map[]))
  }

  // ---------------------------------------------------------------- pure parts

  function Strictness(effect: Effect): nat {
    match effect
    case Allow => 0
    case Ask => 1
    case Deny => 2
  }

  /** The request ruled on most strictly, the first of them where several are. */
  function Strictest(engine: Engine, requests: seq<Request>, session: string, now: int): (r: (Request, Effect))
    requires requests != []
    ensures r.0 in requests && r.1 == engine(r.0, session, now)
    ensures forall q | q in requests :: Strictness(engine(q, session, now)) <= Strictness(r.1)
  {
    var last := requests[|requests| - 1];
    var next := (last, engine(last, session, now));
    if |requests| == 1 then next
    else
      var worst := Strictest(engine, requests[..|requests| - 1], session, now);
      if Strictness(next.1) > Strictness(worst.1) then next else worst
  }

  /** Sessions, actions and targets, joined by NULs. A missing target reads as an empty one. */
  function GrantKey(session: string, request: Request): string {
    session + ['\0'] + request.action + ['\0'] + (if request.target.Some? then request.target.value else "")
  }

  function FindKey(keys: seq<Key>, keyId: string): (r: Option<Key>)
    ensures r.Some? ==> r.value in keys && r.value.keyId == keyId
    ensures r.None? ==> forall k | k in keys :: k.keyId != keyId
  {
    if keys == [] then None
    else if keys[0].keyId == keyId then Some(keys[0])
    else FindKey(keys[1..], keyId)
  }

  function ProofIn(setup: Setup, signed: Option<Signed>): string {
    if signed.None? then NO_PROOF
    else
      var claims := setup.claimsOf(signed.value.payload);
      if claims.Claims? && claims.proof.Some? then claims.proof.value else NO_PROOF
  }

  /** Whether some claims are about this question's id, its answer and the arguments' digest. */
  predicate Names(claims: Claims, id: string, digest: string, answer: Option<string>) {
    claims.Claims? && claims.callId == Some(id) && claims.answer == answer && claims.argsDigest == Some(digest)
  }

  // ---------------------------------------------------------------- stretches

  /** The decision is recorded, and the check is over. */
  function Settle(s: State, c: nat, effect: Effect, decision: Decision): State {
    s.(records := s.records + [ActionRecorded(c, effect, decision.allowed)],
       world := s.world.(tasks := s.world.tasks - {c}, decided := s.world.decided[c := decision]))
  }

  function At(s: State, c: nat, stage: Stage): State
    requires c in s.world.tasks
  {
    s.(world := s.world.(tasks := s.world.tasks[c := s.world.tasks[c].(stage := stage)]))
  }

  function Arrive(s: State, call: Call): State {
    var w := s.world;
    s.(world := w.(
      next := w.next + 1, tasks := w.tasks[w.next := Task(call, Arriving)], calls := w.calls[w.next := call]))
  }

  function NoteSession(s: State, session: string): State {
    if session in s.seen then s
    else s.(seen := s.seen + {session}, records := s.records + [SessionStarted(session)])
  }

  /** The rules are in: the session is noted, and a pause on it looked up, and asked about where
      it has not been for a while. */
  function LookUp(s: State, c: nat, now: int): State
    requires c in s.world.tasks
  {
    var session := s.world.tasks[c].call.session;
    var noted := NoteSession(s, session);
    if session !in s.paused then At(noted, c, Looked(None))
    else
      var pause := s.paused[session];
      if now - pause.checkedAt < RESUME_CHECK_MS then At(noted, c, Looked(Some(pause)))
      else
        var checked := pause.(checkedAt := now);
        At(noted.(paused := s.paused[session := checked]), c, Checking(checked))
  }

  /** Whether a person resumed the session since the pause, or no answer. */
  function Resumption(s: State, c: nat, reply: Option<bool>): State
    requires c in s.world.tasks && s.world.tasks[c].stage.Checking?
  {
    var task := s.world.tasks[c];
    if reply == Some(true) then At(s.(paused := s.paused - {task.call.session}), c, Looked(None))
    else At(s, c, Looked(Some(task.stage.pause)))
  }

  /** The rules are asked, and then the grants. */
  function Rule(setup: Setup, s: State, c: nat, now: int): State
    requires c in s.world.tasks && s.world.tasks[c].stage.Looked?
  {
    var task := s.world.tasks[c];
    var requests := setup.requestsFor(task.call);
    if task.stage.found.Some? then Settle(s, c, Deny, Decision(false, SessionPaused))
    else if requests == [] then Settle(s, c, Allow, Decision(true, NothingRuled))
    else
      var (request, effect) := Strictest(s.engine, requests, task.call.session, now);
      match effect
      case Allow => Settle(s, c, Allow, Decision(true, ByRules))
      case Deny => Settle(s, c, Deny, Decision(false, ByRules))
      case Ask =>
        if GrantKey(task.call.session, request) in s.grants then Settle(s, c, Ask, Decision(true, ByGrant))
        else At(s, c, Raising(request, now + setup.waitMs))
  }

  /** The question is asked again while there is time left. */
  function Poll(s: State, c: nat, request: Request, id: string, deadline: int, now: int): State
    requires c in s.world.tasks
  {
    if deadline - now <= 0 then Settle(s, c, Ask, Decision(false, NotInTime))
    else At(s, c, Polling(request, id, deadline))
  }

  function Raise(s: State, c: nat, id: Option<string>, now: int): State
    requires c in s.world.tasks && s.world.tasks[c].stage.Raising?
  {
    var stage := s.world.tasks[c].stage;
    if id.None? then Settle(s, c, Ask, Decision(false, Unreachable))
    else Poll(s, c, stage.request, id.value, stage.deadline, now)
  }

  function Hear(setup: Setup, s: State, c: nat, held: Option<Held>, now: int): State
    requires c in s.world.tasks && s.world.tasks[c].stage.Polling?
  {
    var stage := s.world.tasks[c].stage;
    if held.None? then Settle(s, c, Ask, Decision(false, Unreachable))
    else match held.value.status
      case Expired => Settle(s, c, Ask, Decision(false, NotInTime))
      case Pending => Poll(s, c, stage.request, stage.id, stage.deadline, now)
      case Answered => Weigh(setup, s, c, stage.request, stage.id, held.value)
  }

  /** What a check does with an answer: where answers must be signed, it needs a signature that holds for
      claims that name it. */
  function Weigh(setup: Setup, s: State, c: nat, request: Request, id: string, held: Held): State
    requires c in s.world.tasks
  {
    if !setup.requireSigned then Take(setup, s, c, request, held)
    else if held.signed.None? then Settle(s, c, Ask, Decision(false, Unsigned))
    else
      var claims := setup.claimsOf(held.signed.value.payload);
      if claims.NullClaims? then Settle(s, c, Ask, Decision(false, Unreachable))
      else if !Names(claims, id, Args.DigestOf(setup.runtime, s.world.tasks[c].call.input), held.answer) then
        Settle(s, c, Ask, Decision(false, Unsigned))
      else match FindKey(s.keys, held.signed.value.keyId)
        case None => At(s, c, FetchingKeys(request, id, held))
        case Some(key) => Verify(setup, s, c, request, held, key)
  }

  function Verify(setup: Setup, s: State, c: nat, request: Request, held: Held, key: Key): State
    requires c in s.world.tasks && held.signed.Some?
  {
    if setup.verifies(held.signed.value.payload, key.publicKey, held.signed.value.signature)
    then Take(setup, s, c, request, held)
    else Settle(s, c, Ask, Decision(false, Unsigned))
  }

  function Fetch(setup: Setup, s: State, c: nat, keys: Option<seq<Key>>): State
    requires c in s.world.tasks && s.world.tasks[c].stage.FetchingKeys? && s.world.tasks[c].stage.held.signed.Some?
  {
    var stage := s.world.tasks[c].stage;
    if keys.None? then Settle(s, c, Ask, Decision(false, Unsigned))
    else
      var next := s.(keys := keys.value);
      match FindKey(keys.value, stage.held.signed.value.keyId)
      case None => Settle(next, c, Ask, Decision(false, Unsigned))
      case Some(key) => Verify(setup, next, c, stage.request, stage.held, key)
  }

  /** A believed answer: yes once, yes for the session, or no. */
  function Take(setup: Setup, s: State, c: nat, request: Request, held: Held): State
    requires c in s.world.tasks
  {
    var session := s.world.tasks[c].call.session;
    if held.answer != Some(ONCE) && held.answer != Some(SESSION) then Settle(s, c, Ask, Decision(false, SaidNo))
    else if setup.requireDeviceProof && ProofIn(setup, held.signed) == NO_PROOF then
      Settle(s, c, Ask, Decision(false, NoDevice))
    else
      var granted := if held.answer == Some(SESSION) then s.grants + {GrantKey(session, request)} else s.grants;
      Settle(s.(grants := granted), c, Ask, Decision(true, ByPerson))
  }

  // ---------------------------------------------------------------- steps and runs

  datatype Event =
    | Arrives(newCall: Call)
    | Ready(c: nat, now: int)
    | Replies(c: nat, reply: Option<bool>)
    | Goes(c: nat, now: int)
    | Raised(c: nat, id: Option<string>, now: int)
    | Hears(c: nat, held: Option<Held>, now: int)
    | Fetched(c: nat, found: Option<seq<Key>>)
    | Breach(session: string, reason: string, now: int)
    | Resumes(session: string)
    | NewRules(engine: Engine)
    | NewKeys(keys: seq<Key>)

  ghost predicate Enabled(s: State, e: Event) {
    match e
    case Arrives(_) => true
    case Ready(c, _) => c in s.world.tasks && s.world.tasks[c].stage.Arriving?
    case Replies(c, _) => c in s.world.tasks && s.world.tasks[c].stage.Checking?
    case Goes(c, _) => c in s.world.tasks && s.world.tasks[c].stage.Looked?
    case Raised(c, _, _) => c in s.world.tasks && s.world.tasks[c].stage.Raising?
    case Hears(c, _, _) => c in s.world.tasks && s.world.tasks[c].stage.Polling?
    case Fetched(c, _) =>
      c in s.world.tasks && s.world.tasks[c].stage.FetchingKeys? && s.world.tasks[c].stage.held.signed.Some?
    case Breach(_, _, _) => true
    case Resumes(_) => true
    case NewRules(_) => true
    case NewKeys(_) => true
  }

  ghost function Step(setup: Setup, s: State, e: Event): State
    requires Enabled(s, e)
  {
    match e
    case Arrives(call) => Arrive(s, call)
    case Ready(c, now) => LookUp(s, c, now)
    case Replies(c, reply) => Resumption(s, c, reply)
    case Goes(c, now) => Rule(setup, s, c, now)
    case Raised(c, id, now) => Raise(s, c, id, now)
    case Hears(c, held, now) => Hear(setup, s, c, held, now)
    case Fetched(c, found) => Fetch(setup, s, c, found)
    case Breach(session, reason, now) =>
      s.(paused := s.paused[session := Pause(reason, now, now)], records := s.records + [SessionStopped(session)])
    case Resumes(session) => s.(paused := s.paused - {session})
    case NewRules(engine) => s.(engine := engine)
    case NewKeys(keys) => s.(keys := keys)
  }

  ghost predicate Runs(setup: Setup, events: seq<Event>, states: seq<State>) {
    && |states| == |events| + 1
    && states[0] == Start(setup)
    && forall i | 0 <= i < |events| ::
         Enabled(states[i], events[i]) && states[i + 1] == Step(setup, states[i], events[i])
  }

  // ---------------------------------------------------------------- why a call is allowed

  /** The call a step is about. */
  ghost predicate About(s: State, e: Event, c: nat) {
    (e.Goes? || e.Raised? || e.Hears? || e.Fetched? || e.Ready? || e.Replies?) && e.c == c && c in s.world.tasks
  }

  /** An answer vouched for by a key the guard has: it names the question raised for this call, what
      was answered, and the digest of these arguments. */
  ghost predicate Bound(setup: Setup, keys: seq<Key>, id: string, call: Call, held: Held) {
    && held.signed.Some?
    && Names(setup.claimsOf(held.signed.value.payload), id, Args.DigestOf(setup.runtime, call.input), held.answer)
    && exists key :: key in keys && key.keyId == held.signed.value.keyId
         && setup.verifies(held.signed.value.payload, key.publicKey, held.signed.value.signature)
  }

  /** A step that accepts a person's yes to the question `id` about a call's request. */
  ghost predicate Accepts(setup: Setup, s: State, e: Event, c: nat, request: Request, id: string, held: Held) {
    && About(s, e, c) && Enabled(s, e)
    && (held.answer == Some(ONCE) || held.answer == Some(SESSION))
    && held.status.Answered?
    && (setup.requireDeviceProof ==> ProofIn(setup, held.signed) != NO_PROOF)
    && ((e.Hears? && e.held == Some(held)
         && s.world.tasks[c].stage.request == request && s.world.tasks[c].stage.id == id
         && (setup.requireSigned ==> Bound(setup, s.keys, id, s.world.tasks[c].call, held)))
        || (e.Fetched? && s.world.tasks[c].stage == FetchingKeys(request, id, held) && e.found.Some?
            && setup.requireSigned && Bound(setup, e.found.value, id, s.world.tasks[c].call, held)))
  }

  /** What at a step allows a call: nothing in it is ruled on, every request in it is allowed by the
      rules in force, the session was granted the request that is asked about, or a person said yes. */
  ghost predicate Allows(setup: Setup, s: State, e: Event, c: nat, why: Why) {
    && About(s, e, c) && Enabled(s, e)
    && match why
       case NothingRuled => e.Goes? && s.world.tasks[c].stage == Looked(None)
         && setup.requestsFor(s.world.tasks[c].call) == []
       case ByRules =>
         e.Goes? && s.world.tasks[c].stage == Looked(None)
         && forall q | q in setup.requestsFor(s.world.tasks[c].call) ::
              s.engine(q, s.world.tasks[c].call.session, e.now) == Allow
       case ByGrant =>
         e.Goes? && s.world.tasks[c].stage == Looked(None)
         && (forall q | q in setup.requestsFor(s.world.tasks[c].call) ::
              s.engine(q, s.world.tasks[c].call.session, e.now) != Deny)
         && exists q :: q in setup.requestsFor(s.world.tasks[c].call)
              && GrantKey(s.world.tasks[c].call.session, q) in s.grants
              && s.engine(q, s.world.tasks[c].call.session, e.now) == Ask
       case ByPerson => exists request, id, held :: Accepts(setup, s, e, c, request, id, held)
       case _ => false
  }

  /** A step at which a person's yes for the session is accepted, granting a key. */
  ghost predicate Grants(setup: Setup, s: State, e: Event, grant: string) {
    exists c: nat, request, id, held: Held ::
      Accepts(setup, s, e, c, request, id, held) && held.answer == Some(SESSION)
      && grant == GrantKey(s.world.tasks[c].call.session, request)
  }

  /** The stages keep what the answer they wait over was. */
  ghost predicate StagesOk(setup: Setup, s: State) {
    && (forall c | c in s.world.tasks ::
         c < s.world.next && c !in s.world.decided && c in s.world.calls && s.world.calls[c] == s.world.tasks[c].call)
    && (forall c | c in s.world.decided :: c < s.world.next && c in s.world.calls)
    && (forall c | c in s.world.calls :: c < s.world.next && (c in s.world.tasks || c in s.world.decided))
    && (forall c | c in s.world.tasks && s.world.tasks[c].stage.FetchingKeys? ::
         var stage := s.world.tasks[c].stage;
         setup.requireSigned && stage.held.status.Answered? && stage.held.signed.Some?
         && Names(setup.claimsOf(stage.held.signed.value.payload), stage.id,
                  Args.DigestOf(setup.runtime, s.world.tasks[c].call.input), stage.held.answer))
  }

  /** A step gives each new decision a cause and each new grant a yes, and leaves the old be. */
  ghost predicate Sound(setup: Setup, s: State, e: Event, s': State) {
    && (forall c | c in s'.world.decided ::
         || (c in s.world.decided && s'.world.decided[c] == s.world.decided[c])
         || (c !in s.world.decided && (s'.world.decided[c].allowed ==>
           Allows(setup, s, e, c, s'.world.decided[c].why))))
    && (forall c | c in s.world.decided :: c in s'.world.decided)
    && (forall g | g in s'.grants :: g in s.grants || Grants(setup, s, e, g))
    && s.grants <= s'.grants
  }

  /** What the strictest ruling says of all of them. */
  lemma NoneStricter(setup: Setup, s: State, c: nat, now: int)
    requires c in s.world.tasks && setup.requestsFor(s.world.tasks[c].call) != []
    ensures var call := s.world.tasks[c].call; var requests := setup.requestsFor(call);
      var effect := Strictest(s.engine, requests, call.session, now).1;
      && (effect.Allow? ==> forall q | q in requests :: s.engine(q, call.session, now) == Allow)
      && (effect.Ask? ==> forall q | q in requests :: s.engine(q, call.session, now) != Deny)
  {
    var call := s.world.tasks[c].call;
    var effect := Strictest(s.engine, setup.requestsFor(call), call.session, now).1;
    hide Strictest;
    forall q | q in setup.requestsFor(call)
      ensures effect.Allow? ==> s.engine(q, call.session, now) == Allow
      ensures effect.Ask? ==> s.engine(q, call.session, now) != Deny
    {
      assert Strictness(s.engine(q, call.session, now)) <= Strictness(effect);
    }
  }

  lemma RuleSound(setup: Setup, s: State, c: nat, now: int)
    requires StagesOk(setup, s) && Enabled(s, Goes(c, now))
    ensures Sound(setup, s, Goes(c, now), Rule(setup, s, c, now))
  {
    Undecided(setup, s, c);
    hide StagesOk;
    hide Sound;
    hide Accepts;
    hide GrantKey;
    var e, s' := Goes(c, now), Rule(setup, s, c, now);
    var call := s.world.tasks[c].call;
    var requests := setup.requestsFor(call);
    if s.world.tasks[c].stage.found.Some? {
      SettleSound(setup, s, e, s', c, Deny, SessionPaused);
    } else if requests == [] {
      AllowSound(setup, s, e, s', c, "", NothingRuled);
    } else {
      NoneStricter(setup, s, c, now);
      var (request, effect) := Strictest(s.engine, requests, call.session, now);
      hide Strictest;
      match effect {
        case Allow => AllowSound(setup, s, e, s', c, "", ByRules);
        case Ask =>
          if GrantKey(call.session, request) in s.grants {
            AllowSound(setup, s, e, s', c, "", ByGrant);
          } else {
            SettleSound(setup, s, e, s', c, Ask, NotInTime);
          }
        case Deny => SettleSound(setup, s, e, s', c, Deny, ByRules);
      }
    }
  }

  lemma TakeSound(setup: Setup, s0: State, e: Event, s: State, c: nat, request: Request, id: string, held: Held)
    requires c in s.world.tasks && c !in s.world.decided
    requires s == s0.(keys := s.keys)
    requires (held.answer == Some(ONCE) || held.answer == Some(SESSION))
      && (setup.requireDeviceProof ==> ProofIn(setup, held.signed) != NO_PROOF)
      ==> Accepts(setup, s0, e, c, request, id, held)
    ensures Sound(setup, s0, e, Take(setup, s, c, request, held))
  {
    hide Accepts;
    hide ProofIn;
    hide GrantKey;
    var s' := Take(setup, s, c, request, held);
    if held.answer != Some(ONCE) && held.answer != Some(SESSION) {
      SettleSound(setup, s0, e, s', c, Ask, SaidNo);
    } else if setup.requireDeviceProof && ProofIn(setup, held.signed) == NO_PROOF {
      SettleSound(setup, s0, e, s', c, Ask, NoDevice);
    } else {
      AcceptsAbout(setup, s0, e, c, request, id, held);
      hide Enabled;
      hide About;
      var grant := GrantKey(s0.world.tasks[c].call.session, request);
      assert Allows(setup, s0, e, c, ByPerson);
      assert held.answer == Some(SESSION) ==> Grants(setup, s0, e, grant);
      hide Allows;
      hide Grants;
      hide Sound;
      AllowSound(setup, s0, e, s', c, grant, ByPerson);
    }
  }

  lemma AllowSound(setup: Setup, s: State, e: Event, s': State, c: nat, grant: string, why: Why)
    requires c !in s.world.decided && Allows(setup, s, e, c, why)
    requires s'.world.decided == s.world.decided[c := Decision(true, why)]
    requires s'.grants == s.grants || (Grants(setup, s, e, grant) && s'.grants == s.grants + {grant})
    ensures Sound(setup, s, e, s')
  {
    hide Allows;
    hide Grants;
  }

  lemma AcceptsAbout(setup: Setup, s: State, e: Event, c: nat, request: Request, id: string, held: Held)
    requires Accepts(setup, s, e, c, request, id, held)
    ensures About(s, e, c) && Enabled(s, e)
  {
  }

  lemma SettleSound(setup: Setup, s: State, e: Event, s': State, c: nat, effect: Effect, why: Why)
    requires c !in s.world.decided && s'.grants == s.grants
    requires s'.world.decided == s.world.decided[c := Decision(false, why)] || s'.world.decided == s.world.decided
    ensures Sound(setup, s, e, s')
  {
    hide Allows;
    hide Grants;
  }

  lemma HearSound(setup: Setup, s: State, c: nat, held: Option<Held>, now: int)
    requires StagesOk(setup, s) && Enabled(s, Hears(c, held, now))
    ensures Sound(setup, s, Hears(c, held, now), Hear(setup, s, c, held, now))
  {
    hide StagesOk;
    assert c !in s.world.decided by { Undecided(setup, s, c); }
    var e, s' := Hears(c, held, now), Hear(setup, s, c, held, now);
    var stage := s.world.tasks[c].stage;
    if held.None? || !held.value.status.Answered? {
      hide Sound;
      SettleSound(setup, s, e, s', c, Ask, if held.None? then Unreachable else NotInTime);
    } else {
      WeighSound(setup, s, c, held.value, now);
    }
  }

  lemma Undecided(setup: Setup, s: State, c: nat)
    requires StagesOk(setup, s) && c in s.world.tasks
    ensures c !in s.world.decided
  {
  }

  lemma WeighSound(setup: Setup, s: State, c: nat, held: Held, now: int)
    requires c in s.world.tasks && c !in s.world.decided && s.world.tasks[c].stage.Polling? && held.status.Answered?
    ensures var stage := s.world.tasks[c].stage;
      Sound(setup, s, Hears(c, Some(held), now), Weigh(setup, s, c, stage.request, stage.id, held))
  {
    hide Sound;
    hide Take;
    var e := Hears(c, Some(held), now);
    var stage := s.world.tasks[c].stage;
    var s' := Weigh(setup, s, c, stage.request, stage.id, held);
    if !setup.requireSigned {
      TakeSound(setup, s, e, s, c, stage.request, stage.id, held);
    } else {
      var key := if held.signed.Some? then FindKey(s.keys, held.signed.value.keyId) else None;
      if held.signed.Some?
        && Names(setup.claimsOf(held.signed.value.payload), stage.id,
          Args.DigestOf(setup.runtime, s.world.tasks[c].call.input), held.answer)
        && key.Some?
        && setup.verifies(held.signed.value.payload, key.value.publicKey, held.signed.value.signature)
      {
        assert Bound(setup, s.keys, stage.id, s.world.tasks[c].call, held);
        TakeSound(setup, s, e, s, c, stage.request, stage.id, held);
      } else {
        hide Names;
        hide FindKey;
        SettleSound(setup, s, e, s', c, Ask,
          if held.signed.Some? && setup.claimsOf(held.signed.value.payload).NullClaims? then Unreachable else Unsigned);
      }
    }
  }

  lemma FetchSound(setup: Setup, s: State, c: nat, found: Option<seq<Key>>)
    requires StagesOk(setup, s) && Enabled(s, Fetched(c, found))
    ensures Sound(setup, s, Fetched(c, found), Fetch(setup, s, c, found))
  {
    hide Sound;
    hide Take;
    var e, s' := Fetched(c, found), Fetch(setup, s, c, found);
    var stage := s.world.tasks[c].stage;
    var held := stage.held;
    var key := if found.Some? then FindKey(found.value, held.signed.value.keyId) else None;
    assert c !in s.world.decided && setup.requireSigned && held.status.Answered?;
    if key.Some? && setup.verifies(held.signed.value.payload, key.value.publicKey, held.signed.value.signature) {
      assert Bound(setup, found.value, stage.id, s.world.tasks[c].call, held);
      hide StagesOk;
      TakeSound(setup, s, e, s.(keys := found.value), c, stage.request, stage.id, held);
    } else {
      hide StagesOk;
      hide FindKey;
      SettleSound(setup, s, e, s', c, Ask, Unsigned);
    }
  }

  /** A step that neither decides nor grants has nothing to account for. */
  lemma SameSound(setup: Setup, s: State, e: Event, s': State)
    requires s'.world.decided == s.world.decided && s'.grants == s.grants
    ensures Sound(setup, s, e, s')
  {
    hide Allows;
    hide Grants;
  }

  lemma RaiseSound(setup: Setup, s: State, c: nat, id: Option<string>, now: int)
    requires StagesOk(setup, s) && Enabled(s, Raised(c, id, now))
    ensures Sound(setup, s, Raised(c, id, now), Raise(s, c, id, now))
  {
    Undecided(setup, s, c);
    hide StagesOk;
    hide Sound;
    SettleSound(setup, s, Raised(c, id, now), Raise(s, c, id, now), c, Ask,
      if id.None? then Unreachable else NotInTime);
  }

  lemma QuietSound(setup: Setup, s: State, e: Event)
    requires Enabled(s, e) && !e.Goes? && !e.Hears? && !e.Fetched? && !e.Raised?
    ensures Sound(setup, s, e, Step(setup, s, e))
  {
    hide Sound;
    hide Rule;
    hide Raise;
    hide Hear;
    hide Fetch;
    SameSound(setup, s, e, Step(setup, s, e));
  }

  lemma StepSound(setup: Setup, s: State, e: Event)
    requires StagesOk(setup, s) && Enabled(s, e)
    ensures Sound(setup, s, e, Step(setup, s, e))
  {
    hide StagesOk;
    hide Sound;
    hide Rule;
    hide Raise;
    hide Hear;
    hide Fetch;
    if e.Goes? {
      RuleSound(setup, s, e.c, e.now);
    } else if e.Hears? {
      HearSound(setup, s, e.c, e.held, e.now);
    } else if e.Fetched? {
      FetchSound(setup, s, e.c, e.found);
    } else if e.Raised? {
      RaiseSound(setup, s, e.c, e.id, e.now);
    } else {
      QuietSound(setup, s, e);
    }
  }
}
