/** One command line, worked out twice over one picture of the machine: as the Node interceptor does
    it, effect by effect, and as the daemon plans it for the native wrapper. Wherever the plan is not
    to hand the line to Node, carrying the plan out has the effects Node's run would have had. */
module FastIntercept {
  import opened Basics
  import opened ShellAction

  type Environment = map<string, string>

  datatype Effect = Allow | Ask | Deny

  datatype Mode = Enforce | Advise | Observe

  /** What the verb table makes of a command line. */
  datatype BinaryVerdict = BinaryVerdict(action: string, cls: string, target: Option<string>, because: string)

  datatype Request = Request(action: string, cls: string, target: Option<string>)

  /** What the local rules say. */
  datatype LocalVerdict = LocalVerdict(
    effect: Effect, reason: string, policies: seq<string>, shadow: Option<Effect>, outOfScope: bool, frozen: bool)

  /** The rules in force for a scene, given whether the target, from the directory of the process
      that asks them, touches what governs the agent. */
  type Gate = (Request, bool) -> LocalVerdict

  /** A person's reply to a question: to go ahead, or not, with what to say and perhaps another command. */
  datatype Answer = Yes | No(message: string, edited: Option<string>)

  datatype Outcome = Outcome(
    allowed: bool,
    binary: string,
    args: seq<string>,
    action: string,
    cls: string,
    target: Option<string>,
    message: Option<string>,
    edited: Option<string>,
    reason: Option<string>,
    rule: Option<string>,
    outOfScope: bool,
    mode: Mode,
    shadowEffect: Option<Effect>)

  /** A row of the ledger, apart from its times. */
  datatype Row = Row(
    provenance: string,
    outcome: Outcome,
    effect: Effect,
    reason: string,
    rule: Option<string>,
    session: Option<string>,
    exitCode: Option<int>)

  /** What either of them does to the world, in order. */
  datatype Deed =
    | Say(line: string)
    | Checkpoint
    | Clash(reason: string)
    | Start(file: string, args: seq<string>, path: string)
    | Report(action: string, target: Option<string>, status: Option<int>, outOfScope: bool, session: Option<string>)
    | Record(row: Row)

  /** All of it, and the exit code. */
  datatype Run = Run(deeds: seq<Deed>, exitCode: int)

  datatype SpawnError = Missing | NotExecutable | OtherError

  /** How a command that is told to start comes to its end: with a code of its own, by a signal, which
      has a number here where the platform knows one, or without having started. */
  datatype ChildEnd =
    | Exited(code: int)
    | Signalled(number: Option<nat>)
    | NotStarted(error: SpawnError, said: string)

  /** One run of a wrapped command: what it was called with, and its parent's process id. */
  datatype Scene = Scene(argv: seq<string>, env: Environment, cwd: string, ppid: int)

  /** Names, files and processes. The daemon looks for a file that is there, and Node for one that may be
      run. */
  datatype Lookup = Lookup(
    passwdHome: string,
    baseName: string -> string,
    join: (string, string) -> string,
    isSelf: string -> bool,
    isOurs: (string, string) -> bool,
    present: string -> bool,
    runnable: string -> bool,
    executableName: string -> string,
    ancestors: int -> seq<seq<string>>)

  /** What a home remembers: whether protection is stopped, pauses, the mode and what is in force. */
  datatype Memory = Memory(
    stopped: string -> bool,
    pause: (string, string) -> Option<string>,
    mode: string -> Mode,
    overlays: string -> seq<string>,
    provenance: (string, seq<string>) -> string,
    tripped: (string, Option<string>) -> Option<string>)

  /** What is loaded and said for a scene. */
  datatype Rules = Rules(
    rootOf: (string, Environment) -> Option<string>,
    gate: (string, Environment, string, Option<string>) -> Option<Gate>,
    warnings: (string, Environment, string, Option<string>) -> seq<string>,
    verdict: (string, seq<string>, Environment) -> BinaryVerdict,
    evidence: (seq<string>, seq<string>) -> seq<string>,
    refusal: (BinaryVerdict, LocalVerdict) -> string,
    advice: (Effect, string, Option<string>, Option<string>) -> string)

  /** People, claims, browsers, checkpoints, and how commands end. */
  datatype Seams = Seams(
    person: (BinaryVerdict, string) -> Answer,
    touches: (string, string) -> bool,
    isBrowser: string -> bool,
    visit: seq<string> -> Option<string>,
    destructive: seq<string> -> bool,
    claim: Action -> Option<string>,
    words: string -> seq<string>,
    names: Names,
    checkout: Checkout,
    end: (string, seq<string>, string) -> ChildEnd)

  /** One picture of the machine. */
  datatype World = World(lookup: Lookup, memory: Memory, rules: Rules, seams: Seams)

  /** The daemon that plans: the home it serves, where it stands, and its own environment. */
  datatype Daemon = Daemon(home: string, cwd: string, env: Environment)

  const SESSION_VAR := "MEMNOX_SESSION"
  const BROKER_VAR := "MEMNOX_CREDENTIAL_BROKER"
  const HOME := "HOME"
  const FAILED := 1
  const MISUSED := 2
  const NOT_FOUND := 127
  const NOT_EXECUTABLE := 126
  const SIGNALLED_BASE := 128

  // ---------------------------------------------------------------- what both look up

  const MARKERS := [
    SESSION_VAR, "MEMNOX_AGENT_NAME", "CLAUDECODE", "AI_AGENT", "CODEX_SANDBOX", "CURSOR_AGENT", "GEMINI_CLI"]

  const AGENTS := [
    "claude", "codex", "cursor-agent", "gemini", "aider", "goose", "opencode", "hermes", "openclaw", "ruflo"]

  function ValueOf(env: Environment, name: string): string {
    if name in env then env[name] else ""
  }

  /** The first of some names an environment gives a value. */
  function Marker(env: Environment, names: seq<string>): Option<string> {
    if names == [] then None
    else if ValueOf(env, names[0]) != "" then Some(names[0])
    else Marker(env, names[1..])
  }

  /** The agent an argv is of, by its first two words. */
  function AgentIn(w: World, argv: seq<string>): Option<string> {
    if |argv| > 0 && w.lookup.executableName(argv[0]) in AGENTS then Some(w.lookup.executableName(argv[0]))
    else if |argv| > 1 && w.lookup.executableName(argv[1]) in AGENTS then Some(w.lookup.executableName(argv[1]))
    else None
  }

  function AgentAmong(w: World, ancestors: seq<seq<string>>): Option<string> {
    if ancestors == [] then None
    else if AgentIn(w, ancestors[0]).Some? then AgentIn(w, ancestors[0])
    else AgentAmong(w, ancestors[1..])
  }

  /** The marker or binary that names an agent, or none where a person ran it. */
  function AgentBehind(w: World, env: Environment, ancestors: seq<seq<string>>): Option<string> {
    if Marker(env, MARKERS).Some? then Marker(env, MARKERS) else AgentAmong(w, ancestors)
  }

  /** Ancestors never hide an agent an environment names, and alone decide where it names none. */
  lemma AncestorsOnlyAdd(w: World, env: Environment, ancestors: seq<seq<string>>)
    ensures AgentBehind(w, env, []).Some? ==> AgentBehind(w, env, ancestors) == AgentBehind(w, env, [])
    ensures AgentBehind(w, env, []).None? ==> AgentBehind(w, env, ancestors) == AgentAmong(w, ancestors)
  {
  }

  function Theirs(w: World, entries: seq<string>, home: string): (r: seq<string>)
    ensures forall e :: e in r <==> e in entries && e != "" && !w.lookup.isOurs(e, home)
  {
    if entries == [] then []
    else
      var more := Theirs(w, entries[1..], home);
      if entries[0] != "" && !w.lookup.isOurs(entries[0], home) then [entries[0]] + more else more
  }

  /** PATH without our own directories. */
  function RealPath(w: World, path: string, home: string): string {
    JoinWith(Theirs(w, Split(path, ':'), home), ":")
  }

  /** The first entry of PATH with the binary in it, never one of ours. */
  function Resolve(w: World, found: string -> bool, binary: string, entries: seq<string>): (r: Option<string>)
    ensures r.Some? ==>
      && !w.lookup.isSelf(r.value) && found(r.value)
      && (exists e :: e in entries && e != "" && r.value == w.lookup.join(e, binary))
    ensures r.None? ==> forall e | e in entries && e != "" ::
      w.lookup.isSelf(w.lookup.join(e, binary)) || !found(w.lookup.join(e, binary))
  {
    if entries == [] then None
    else
      var candidate := w.lookup.join(entries[0], binary);
      if entries[0] != "" && !w.lookup.isSelf(candidate) && found(candidate) then Some(candidate)
      else Resolve(w, found, binary, entries[1..])
  }

  function ResolveReal(w: World, found: string -> bool, binary: string, path: string): Option<string> {
    if w.lookup.isSelf(binary) then None else Resolve(w, found, binary, Split(path, ':'))
  }

  /** The file Node would start. */
  function NodeFinds(w: World, binary: string, path: string): Option<string> {
    ResolveReal(w, w.lookup.runnable, binary, path)
  }

  /** The wrapped binary and its arguments, or none for our own name. */
  function InvokedFor(w: World, argv: seq<string>): Option<(string, seq<string>)> {
    if argv == [] || w.lookup.baseName(argv[0]) == "memnox-intercept" then None
    else Some((w.lookup.baseName(argv[0]), argv[1..]))
  }

  /** The variables git finds a repository by. */
  predicate IsDiscovery(name: string) {
    name in {"GIT_DIR", "GIT_WORK_TREE", "GIT_COMMON_DIR", "GIT_CEILING_DIRECTORIES",
             "GIT_DISCOVERY_ACROSS_FILESYSTEM", "XDG_CONFIG_HOME"}
    || StartsWith(name, "GIT_CONFIG")
  }

  function Discovery(env: Environment): Environment {
    map name | name in env && IsDiscovery(name) :: env[name]
  }

  function ValueIn(env: Environment, name: string): Option<string> {
    if name in env then Some(env[name]) else None
  }

  predicate FindsRepositoryElsewhere(env: Environment, own: Environment) {
    exists name :: name in env.Keys + own.Keys && IsDiscovery(name) && ValueIn(env, name) != ValueIn(own, name)
  }

  /** Two environments name one repository to git exactly where none of those variables differs. */
  lemma SameDiscovery(env: Environment, own: Environment)
    ensures FindsRepositoryElsewhere(env, own) <==> Discovery(env) != Discovery(own)
  {
    var a, b := Discovery(env), Discovery(own);
    if !FindsRepositoryElsewhere(env, own) {
      forall name ensures name in a <==> name in b {
        if name in a || name in b {
          assert name in env.Keys + own.Keys;
          assert ValueIn(env, name) == ValueIn(own, name);
        }
      }
      forall name | name in a ensures a[name] == b[name] {
        assert name in env.Keys + own.Keys;
        assert ValueIn(env, name) == ValueIn(own, name);
      }
      assert a == b;
    } else {
      var name :| name in env.Keys + own.Keys && IsDiscovery(name) && ValueIn(env, name) != ValueIn(own, name);
      assert ValueIn(a, name) == ValueIn(env, name) && ValueIn(b, name) == ValueIn(own, name);
    }
  }

  function PauseHolding(w: World, home: string, session: Option<string>): Option<string> {
    if session.None? || session.value == "" then None else w.memory.pause(home, session.value)
  }

  // ---------------------------------------------------------------- one command ruled on

  /** A freeze is a person's own; otherwise a mode that does not enforce turns a verdict into a note
      of what it would have been. */
  function Softened(d: LocalVerdict, mode: Mode): Option<Effect> {
    if d.frozen || mode.Enforce? || d.effect.Allow? then None else Some(d.effect)
  }

  function BaseOutcome(binary: string, args: seq<string>, v: BinaryVerdict, mode: Mode): Outcome {
    Outcome(true, binary, args, v.action, v.cls, v.target, None, None, None, None, false, mode, None)
  }

  /** Whether anything the process's own directory decides comes into it. */
  predicate Touches(w: World, target: Option<string>, cwd: string) {
    target.Some? && w.seams.touches(target.value, cwd)
  }

  /** The ruling, and whether a person was asked, of a process that stands at `cwd` and asks `person`. */
  function RuleOnCommand(
    w: World, env: Environment, gate: Option<Gate>, mode: Mode, overlays: seq<string>, cwd: string,
    person: (BinaryVerdict, string) -> Answer, binary: string, args: seq<string>): Told<Outcome>
  {
    var v := w.rules.verdict(binary, args, env);
    var base := BaseOutcome(binary, args, v, mode);
    if gate.None? then Told(base, false)
    else
      var d := gate.value(Request(v.action, v.cls, v.target), Touches(w, v.target, cwd));
      var scoped := base.(outOfScope := d.outOfScope);
      if d.effect.Allow? then Told(if d.shadow.None? then scoped else scoped.(reason := Some(d.reason)), false)
      else
        var rule := if d.policies == [] then None else Some(d.policies[0]);
        var decided := scoped.(reason := Some(d.reason), rule := rule);
        var soft := Softened(d, mode);
        if soft.Some? then Told(decided.(shadowEffect := soft), false)
        else if d.effect.Ask? then
          match person(v, d.reason)
          case Yes => Told(decided, true)
          case No(message, edited) => Told(decided.(allowed := false, message := Some(message), edited := edited), true)
        else
          var said := Lines([w.rules.refusal(v, d)] + w.rules.evidence(d.policies, overlays));
          Told(decided.(allowed := false, message := Some(said)), false)
  }

  function Lines(lines: seq<string>): string {
    JoinWith(lines, "\n")
  }

  /** The line advise prints. */
  function AdviceLine(w: World, o: Outcome): Option<string> {
    if !o.mode.Advise? || o.shadowEffect.None? then None
    else Some(w.rules.advice(o.shadowEffect.value, o.action, o.target, o.reason))
  }

  /** Nobody asked, and the target not protected from either place: the ruling is the same from both,
      whoever would have been asked. */
  lemma SameRuling(
    w: World, env: Environment, gate: Option<Gate>, mode: Mode, overlays: seq<string>, cwd: string, cwd': string,
    person: (BinaryVerdict, string) -> Answer, person': (BinaryVerdict, string) -> Answer,
    binary: string, args: seq<string>)
    requires var told := RuleOnCommand(w, env, gate, mode, overlays, cwd, person, binary, args);
      !told.asked && !Touches(w, told.value.target, cwd) && !Touches(w, told.value.target, cwd')
    ensures RuleOnCommand(w, env, gate, mode, overlays, cwd', person', binary, args)
      == RuleOnCommand(w, env, gate, mode, overlays, cwd, person, binary, args)
  {
    var v := w.rules.verdict(binary, args, env);
    assert RuleOnCommand(w, env, gate, mode, overlays, cwd, person, binary, args).value.target == v.target;
  }

  /** A refusal nobody was asked about has nothing to advise and nothing typed in its place. */
  lemma RefusalIsPlain(
    w: World, env: Environment, gate: Option<Gate>, mode: Mode, overlays: seq<string>, cwd: string,
    person: (BinaryVerdict, string) -> Answer, binary: string, args: seq<string>)
    requires var told := RuleOnCommand(w, env, gate, mode, overlays, cwd, person, binary, args);
      !told.asked && !told.value.allowed
    ensures var o := RuleOnCommand(w, env, gate, mode, overlays, cwd, person, binary, args).value;
      AdviceLine(w, o) == None && o.edited == None && o.message.Some? && o.reason.Some?
  {
  }

  // ---------------------------------------------------------------- the Node interceptor

  /** What is read once when a command arrives. */
  datatype Context = Context(
    home: string, env: Environment, cwd: string, path: string, session: Option<string>,
    gate: Option<Gate>, mode: Mode, overlays: seq<string>, provenance: string)

  function Said(lines: seq<string>): seq<Deed> {
    seq(|lines|, i requires 0 <= i < |lines| => Say(lines[i]))
  }

  function Warned(lines: seq<string>): seq<string> {
    seq(|lines|, i requires 0 <= i < |lines| => "[memnox] " + lines[i])
  }

  /** What Node exits with for a command's end, as a shell would. */
  function NodeStatus(end: ChildEnd): int {
    match end
    case Exited(code) => code
    case Signalled(number) => if number.None? then FAILED else SIGNALLED_BASE + number.value
    case NotStarted(error, _) =>
      match error
      case Missing => NOT_FOUND
      case NotExecutable => NOT_EXECUTABLE
      case OtherError => FAILED
  }

  /** What Node says of a command that would not start. */
  function Trouble(binary: string, end: ChildEnd): seq<Deed> {
    if end.NotStarted? then [Say("memnox: could not run " + binary + ": " + end.said)] else []
  }

  /** A command told to start, as Node tells of it. */
  function Launched(w: World, binary: string, file: string, args: seq<string>, path: string): seq<Deed> {
    [Start(file, args, path)] + Trouble(binary, w.seams.end(file, args, path))
  }

  /** The command runs, with our directory off PATH, or is not there. */
  function Hand(w: World, path: string, binary: string, args: seq<string>): (r: (seq<Deed>, int, bool)) {
    match NodeFinds(w, binary, path)
    case None => ([Say("memnox: " + binary + " is not on PATH behind the interceptor")], NOT_FOUND, false)
    case Some(file) => (Launched(w, binary, file, args, path), NodeStatus(w.seams.end(file, args, path)), true)
  }

  function RowOf(
    c: Context, o: Outcome, effect: Effect, reason: string, rule: Option<string>, exitCode: Option<int>): Row
  {
    Row(c.provenance, o, effect, reason, rule, c.session, exitCode)
  }

  function OrElse(reason: Option<string>, other: string): string {
    if reason.Some? then reason.value else other
  }

  function RuleIn(w: World, c: Context, binary: string, args: seq<string>): Outcome {
    RuleOnCommand(w, c.env, c.gate, c.mode, c.overlays, c.cwd, w.seams.person, binary, args).value
  }

  /** What the interceptor does once the rules let a command run and nobody else has it. */
  function KeepAndRun(w: World, c: Context, binary: string, args: seq<string>, o: Outcome): Run {
    var kept := if w.seams.destructive([binary] + args) then [Checkpoint] else [];
    var advice := AdviceLine(w, o);
    var said := if advice.None? then [] else [Say(advice.value)];
    var (deeds, status, ran) := Hand(w, c.path, binary, args);
    if !ran then Run(kept + said + deeds, status)
    else Run(kept + said + deeds + Afterwards(w, c, o, status), status)
  }

  /** What follows a command that ran. */
  function Afterwards(w: World, c: Context, o: Outcome, status: int): seq<Deed> {
    var tripped := w.memory.tripped(c.home, c.session);
    [Report(o.action, o.target, Some(status), o.outOfScope, c.session),
     Record(RowOf(c, o, Allow, OrElse(o.reason, "no rule matched"), o.rule, Some(status)))]
    + (if tripped.None? then [] else [Say(tripped.value)])
  }

  /** What another agent holds is refused; the rest runs. */
  function HandAndRecord(w: World, c: Context, binary: string, args: seq<string>, o: Outcome): Run {
    var action := ActionOf(w.seams.names, binary, args, Ruled(o.action, o.cls, o.target), w.seams.checkout).value;
    var refused := if action.None? then None else w.seams.claim(action.value);
    if refused.Some? then
      Run([Say("memnox: " + refused.value), Clash(refused.value),
           Record(RowOf(c, o.(allowed := false), Deny, refused.value, None, None))], FAILED)
    else KeepAndRun(w, c, binary, args, o)
  }

  function RefuseRecord(c: Context, o: Outcome): Run {
    Run([Record(RowOf(c, o, Deny, OrElse(o.reason, "denied"), o.rule, None))], FAILED)
  }

  /** A refusal, or what a person typed in its place ruled on from the start. */
  function Refuse(w: World, c: Context, o: Outcome): Run {
    var said := [Say(OrElse(o.message, "denied"))];
    if o.edited.None? then Run(said + RefuseRecord(c, o).deeds, FAILED)
    else
      var words := w.seams.words(o.edited.value);
      if words == [] || w.lookup.baseName(words[0]) == "memnox-intercept"
      then Run(said + RefuseRecord(c, o).deeds, FAILED)
      else
        var binary, args := w.lookup.baseName(words[0]), words[1..];
        var ruling := [Say("memnox: ruling on the replacement")];
        var again := RuleIn(w, c, binary, args);
        if again.allowed then
          var run := HandAndRecord(w, c, binary, args, again);
          Run(said + ruling + run.deeds, run.exitCode)
        else
          Run(said + ruling + [Say(OrElse(again.message, "denied"))] + RefuseRecord(c, o).deeds, FAILED)
  }

  function Usage(): string {
    "memnox-intercept is run through the wrappers in ~/.memnox/bin, not directly.\n"
    + "Usage: memnox-intercept <binary> [args...]"
  }

  function HomeOf(w: World, env: Environment): string {
    if HOME in env then env[HOME] else w.lookup.passwdHome
  }

  /** PATH as this environment has it. */
  function PathOf(env: Environment): string {
    ValueOf(env, "PATH")
  }

  /** A command the rules have spoken on: refused, or let through unless it is a browser that goes
      where it may not. */
  function AfterRuling(w: World, c: Context, binary: string, args: seq<string>, o: Outcome): Run {
    if !o.allowed then Refuse(w, c, o)
    else
      var refused := if w.seams.isBrowser(binary) then w.seams.visit(args) else None;
      if refused.Some? then Run([Say(refused.value)], FAILED)
      else HandAndRecord(w, c, binary, args, o)
  }

  function ContextOf(w: World, home: string, env: Environment, cwd: string, root: Option<string>): Context {
    var overlays := w.memory.overlays(home);
    Context(
      home, env, cwd, RealPath(w, PathOf(env), home), ValueIn(env, SESSION_VAR), w.rules.gate(home, env, cwd, root),
      w.memory.mode(home), overlays, w.memory.provenance(home, overlays))
  }

  /** What Node does for an agent: nothing while the session is held, and otherwise as the rules say. */
  function Governed(w: World, s: Scene, home: string, binary: string, args: seq<string>): Run {
    var held := PauseHolding(w, home, ValueIn(s.env, SESSION_VAR));
    if held.Some? then Run([Say(held.value)], FAILED)
    else
      var root := w.rules.rootOf(s.cwd, Discovery(s.env));
      var c := ContextOf(w, home, s.env, s.cwd, root);
      var run := AfterRuling(w, c, binary, args, RuleIn(w, c, binary, args));
      Run(Said(Warned(w.rules.warnings(home, s.env, s.cwd, root))) + run.deeds, run.exitCode)
  }

  function Handed(w: World, path: string, binary: string, args: seq<string>): Run {
    var (deeds, status, _) := Hand(w, path, binary, args);
    Run(deeds, status)
  }

  /** Whether Node lets a command through unruled: no agent is behind it, or the home is not protected. */
  predicate Unguarded(w: World, s: Scene, home: string) {
    AgentBehind(w, s.env, w.lookup.ancestors(s.ppid)).None? || w.memory.stopped(home)
  }

  function NodeFor(w: World, s: Scene, home: string, binary: string, args: seq<string>): Run {
    if Unguarded(w, s, home) then Handed(w, RealPath(w, PathOf(s.env), home), binary, args)
    else Governed(w, s, home, binary, args)
  }

  /** The whole of the Node interceptor. */
  function NodeMain(w: World, s: Scene): Run {
    match InvokedFor(w, s.argv)
    case None => Run([Say(Usage())], MISUSED)
    case Some(invocation) => NodeFor(w, s, HomeOf(w, s.env), invocation.0, invocation.1)
  }

  // ---------------------------------------------------------------- the daemon's plan

  datatype Pending = Pending(row: Row, outOfScope: bool)

  datatype Plan =
    | ToNode
    | Pass(file: string, path: string)
    | RefuseAs(notes: seq<string>, exitCode: int, row: Option<Row>)
    | RunAs(file: string, path: string, notes: seq<string>, pending: Pending)

  datatype Located = Located(binary: string, args: seq<string>, file: string, path: string)

  /** What the daemon needs to plan for a command: its name, arguments, file and PATH. It has none where
      any of the things the two must agree on could differ. */
  function Locate(w: World, d: Daemon, s: Scene): Option<Located> {
    match InvokedFor(w, s.argv)
    case None => None
    case Some(invocation) =>
      var (binary, args) := invocation;
      if ValueIn(s.env, HOME) != Some(d.home) then None
      else if ValueOf(s.env, BROKER_VAR) != "" then None
      else if FindsRepositoryElsewhere(s.env, d.env) then None
      else
        var path := RealPath(w, PathOf(s.env), d.home);
        match ResolveReal(w, w.lookup.present, binary, path)
        case None => None
        case Some(file) => Some(Located(binary, args, file, path))
  }

  /** The daemon's version of that question, which looks at ancestors only if it has to. */
  predicate PassesThrough(w: World, d: Daemon, s: Scene) {
    (AgentBehind(w, s.env, []).None? && AgentBehind(w, s.env, w.lookup.ancestors(s.ppid)).None?)
      || w.memory.stopped(d.home)
  }

  /** The one the daemon can ask: nobody. */
  function Nobody(): (BinaryVerdict, string) -> Answer {
    (v: BinaryVerdict, reason: string) => No("nobody to ask", None)
  }

  function PlanIntercept(w: World, d: Daemon, s: Scene): Plan {
    match Locate(w, d, s)
    case None => ToNode
    case Some(located) =>
      if PassesThrough(w, d, s) then Pass(located.file, located.path)
      else PlanGoverned(w, d, s, located)
  }

  function PlanGoverned(w: World, d: Daemon, s: Scene, l: Located): Plan {
    var held := PauseHolding(w, d.home, ValueIn(s.env, SESSION_VAR));
    if held.Some? then RefuseAs([held.value], FAILED, None)
    else
      var root := w.rules.rootOf(s.cwd, Discovery(d.env));
      var c := ContextOf(w, d.home, s.env, s.cwd, root);
      var told := RuleOnCommand(w, s.env, c.gate, c.mode, c.overlays, d.cwd, Nobody(), l.binary, l.args);
      if told.asked then ToNode
      else if Touches(w, told.value.target, s.cwd) || Touches(w, told.value.target, d.cwd) then ToNode
      else PlanRuled(w, c, l, told.value, Warned(w.rules.warnings(d.home, s.env, s.cwd, root)))
  }

  function PlanRuled(w: World, c: Context, l: Located, o: Outcome, warned: seq<string>): Plan {
    var advice := AdviceLine(w, o);
    var notes := warned + if advice.None? then [] else [advice.value];
    if o.allowed then RunPlan(w, l, o, notes, c.provenance, c.session)
    else if o.edited.Some? then ToNode
    else RefuseAs(
      notes + [OrElse(o.message, "denied")], FAILED,
      Some(Row(c.provenance, o, Deny, OrElse(o.reason, "denied"), o.rule, c.session, None)))
  }

  /** The plan for a command the rules let run: to run it, unless something else comes with running it. */
  function RunPlan(
    w: World, l: Located, o: Outcome, notes: seq<string>, provenance: string, session: Option<string>): Plan
  {
    if w.seams.isBrowser(l.binary) then ToNode
    else if MayBeClaimed(w.seams.names, l.binary, l.args, Ruled(o.action, o.cls, o.target)) then ToNode
    else if w.seams.destructive([l.binary] + l.args) then ToNode
    else RunAs(
      l.file, l.path, notes,
      Pending(Row(provenance, o, Allow, OrElse(o.reason, "no rule matched"), o.rule, session, None), o.outOfScope))
  }

  /** A pending row with the exit code, where one is known. */
  function FinishedRow(p: Pending, exitCode: Option<int>): Row {
    if exitCode.None? then p.row else p.row.(exitCode := exitCode)
  }

  /** The name a scene's command goes by. */
  function NameOf(w: World, s: Scene): string {
    if s.argv == [] then "" else w.lookup.baseName(s.argv[0])
  }

  function ArgsOf(s: Scene): seq<string> {
    if s.argv == [] then [] else s.argv[1..]
  }

  /** What is told and kept of a planned command once it has ended. */
  function Ended(w: World, d: Daemon, pending: Pending, status: int): seq<Deed> {
    var row := FinishedRow(pending, Some(status));
    var tripped := w.memory.tripped(d.home, row.session);
    [Report(row.outcome.action, row.outcome.target, Some(status), pending.outOfScope, row.session), Record(row)]
    + (if tripped.None? then [] else [Say(tripped.value)])
  }

  /** What a plan comes to where Node carries it out: with the file Node finds, and the command's end told
      as Node tells it. */
  function CarryOut(w: World, d: Daemon, s: Scene, plan: Plan): Run
    requires !plan.ToNode?
  {
    match plan
    case Pass(_, path) => Handed(w, path, NameOf(w, s), ArgsOf(s))
    case RefuseAs(notes, code, row) => Run(Said(notes) + (if row.None? then [] else [Record(row.value)]), code)
    case RunAs(_, path, notes, pending) =>
      var (deeds, status, ran) := Hand(w, path, NameOf(w, s), ArgsOf(s));
      Run(Said(notes) + deeds + (if ran then Ended(w, d, pending, status) else []), status)
  }

  // ---------------------------------------------------------------- the plan is Node's run

  lemma SaidAll(a: seq<string>, b: seq<string>)
    ensures Said(a + b) == Said(a) + Said(b)
  {
  }

  lemma SaidOne(line: string)
    ensures Said([line]) == [Say(line)] && Said([]) == []
  {
  }

  /** A daemon that says anything but `node` serves the home, the broker and the repository the Node
      interceptor would, and has found the file it would start. */
  lemma LocatedAlike(w: World, d: Daemon, s: Scene)
    requires Locate(w, d, s).Some?
    ensures var l := Locate(w, d, s).value;
      && InvokedFor(w, s.argv) == Some((l.binary, l.args)) && l.binary == NameOf(w, s) && l.args == ArgsOf(s)
      && HomeOf(w, s.env) == d.home
      && l.path == RealPath(w, PathOf(s.env), d.home)
      && Discovery(s.env) == Discovery(d.env)
  {
    SameDiscovery(s.env, d.env);
  }

  /** A command let through: what Node does around one that is no browser, claims nothing and destroys
      nothing is to advise, start, report and record it. */
  lemma PlainRun(w: World, c: Context, l: Located, o: Outcome)
    requires !w.seams.isBrowser(l.binary) && !w.seams.destructive([l.binary] + l.args)
    requires !MayBeClaimed(w.seams.names, l.binary, l.args, Ruled(o.action, o.cls, o.target))
    ensures var (deeds, status, ran) := Hand(w, c.path, l.binary, l.args); var advice := AdviceLine(w, o);
      HandAndRecord(w, c, l.binary, l.args, o) == Run(
        (if advice.None? then [] else [Say(advice.value)]) + deeds + (if ran then Afterwards(w, c, o, status) else []),
        status)
  {
    NeverClaimed(w.seams.names, l.binary, l.args, Ruled(o.action, o.cls, o.target), w.seams.checkout);
    hide Hand;
    hide AdviceLine;
    hide Afterwards;
    var (deeds, status, ran) := Hand(w, c.path, l.binary, l.args);
    var advice := AdviceLine(w, o);
    var said := if advice.None? then [] else [Say(advice.value)];
    assert [] + said == said;
    assert said + deeds + [] == said + deeds;
  }

  /** A refusal nobody was asked about: the daemon's notes are Node's lines, and its row Node's. */
  lemma RefusedAlike(w: World, d: Daemon, s: Scene, c: Context, l: Located, o: Outcome, warned: seq<string>)
    requires !o.allowed && AdviceLine(w, o) == None && o.edited == None
    ensures var run := AfterRuling(w, c, l.binary, l.args, o);
      CarryOut(w, d, s, PlanRuled(w, c, l, o, warned)) == Run(Said(warned) + run.deeds, run.exitCode)
  {
    var line := OrElse(o.message, "denied");
    assert warned + [] == warned;
    SaidAll(warned, [line]);
    SaidOne(line);
    Associate(Said(warned), [Say(line)], RefuseRecord(c, o).deeds);
  }

  lemma LetThroughAlike(w: World, d: Daemon, s: Scene, c: Context, l: Located, o: Outcome, warned: seq<string>)
    requires o.allowed && !PlanRuled(w, c, l, o, warned).ToNode?
    requires c.home == d.home && c.path == l.path && l.binary == NameOf(w, s) && l.args == ArgsOf(s)
    ensures var run := AfterRuling(w, c, l.binary, l.args, o);
      CarryOut(w, d, s, PlanRuled(w, c, l, o, warned)) == Run(Said(warned) + run.deeds, run.exitCode)
  {
    hide MayBeClaimed;
    hide Hand;
    hide AdviceLine;
    PlainRun(w, c, l, o);
    hide HandAndRecord;
    var advice := AdviceLine(w, o);
    var said := if advice.None? then [] else [Say(advice.value)];
    SaidAll(warned, if advice.None? then [] else [advice.value]);
    if advice.Some? {
      SaidOne(advice.value);
    }
    hide Said;
    var (deeds, status, ran) := Hand(w, c.path, l.binary, l.args);
    Regroup4(Said(warned), said, deeds, if ran then Afterwards(w, c, o, status) else []);
  }

  lemma Regroup4<T>(a: seq<T>, b: seq<T>, c: seq<T>, d: seq<T>)
    ensures a + b + c + d == a + (b + c + d)
  {
  }

  /** What a plan for a ruled command carries out is what Node does after the same ruling. */
  lemma GovernedAlike(w: World, d: Daemon, s: Scene, l: Located)
    requires Locate(w, d, s) == Some(l) && !PlanGoverned(w, d, s, l).ToNode?
    ensures CarryOut(w, d, s, PlanGoverned(w, d, s, l)) == Governed(w, s, d.home, l.binary, l.args)
  {
    LocatedAlike(w, d, s);
    var held := PauseHolding(w, d.home, ValueIn(s.env, SESSION_VAR));
    hide PauseHolding;
    hide Locate;
    hide Discovery;
    if held.Some? {
      SaidOne(held.value);
    } else {
      var root := w.rules.rootOf(s.cwd, Discovery(d.env));
      var c := ContextOf(w, d.home, s.env, s.cwd, root);
      var warned := Warned(w.rules.warnings(d.home, s.env, s.cwd, root));
      var told := RuleOnCommand(w, s.env, c.gate, c.mode, c.overlays, d.cwd, Nobody(), l.binary, l.args);
      SameRuling(w, s.env, c.gate, c.mode, c.overlays, d.cwd, s.cwd, Nobody(), w.seams.person, l.binary, l.args);
      if !told.value.allowed {
        RefusalIsPlain(w, s.env, c.gate, c.mode, c.overlays, d.cwd, Nobody(), l.binary, l.args);
      }
      hide RuleOnCommand;
      hide Touches;
      hide PlanRuled;
      hide AfterRuling;
      hide CarryOut;
      hide RealPath;
      hide ResolveReal;
      if told.value.allowed {
        LetThroughAlike(w, d, s, c, l, told.value, warned);
      } else {
        RefusedAlike(w, d, s, c, l, told.value, warned);
      }
    }
  }

  /** Who passes the daemon by passes Node by: ancestors decide alone where no marker does. */
  lemma PassedAlike(w: World, d: Daemon, s: Scene)
    ensures PassesThrough(w, d, s) <==> Unguarded(w, s, d.home)
  {
    AncestorsOnlyAdd(w, s.env, w.lookup.ancestors(s.ppid));
    hide AgentBehind;
  }

  lemma PassAlike(w: World, d: Daemon, s: Scene, l: Located)
    requires Locate(w, d, s) == Some(l)
    ensures CarryOut(w, d, s, Pass(l.file, l.path)) == Handed(w, l.path, l.binary, l.args)
  {
    LocatedAlike(w, d, s);
    hide Locate;
    hide RealPath;
    hide ResolveReal;
    hide InvokedFor;
    hide HomeOf;
    hide Discovery;
  }

  lemma NodeUsage(w: World, s: Scene)
    requires InvokedFor(w, s.argv).None?
    ensures NodeMain(w, s) == Run([] + [Say(Usage())], MISUSED)
  {
    hide InvokedFor;
    hide NodeFor;
    hide Usage;
  }

  lemma NodeIs(w: World, s: Scene, binary: string, args: seq<string>)
    requires InvokedFor(w, s.argv) == Some((binary, args))
    ensures NodeMain(w, s) == NodeFor(w, s, HomeOf(w, s.env), binary, args)
  {
    hide InvokedFor;
    hide NodeFor;
    hide HomeOf;
  }

  lemma NodeLocates(w: World, d: Daemon, s: Scene, l: Located)
    requires Locate(w, d, s) == Some(l)
    ensures l.path == RealPath(w, PathOf(s.env), d.home)
    ensures NodeMain(w, s) == NodeFor(w, s, d.home, l.binary, l.args)
  {
    hide *;
    LocatedAlike(w, d, s);
    NodeIs(w, s, l.binary, l.args);
  }

  /** For every command line and every picture of the machine, a plan that is not to ask Node asks for
      what Node would have done: the same arguments and PATH, the same lines in the same order, the same
      report and the same row but for its times, where Node finds the file and tells of its end. */
  lemma PlanIsNodesRun(w: World, d: Daemon, s: Scene)
    requires !PlanIntercept(w, d, s).ToNode?
    ensures CarryOut(w, d, s, PlanIntercept(w, d, s)) == NodeMain(w, s)
  {
    hide PassesThrough;
    hide CarryOut;
    hide Governed;
    hide PlanGoverned;
    hide Locate;
    hide NodeMain;
    hide Unguarded;
    hide Handed;
    hide RealPath;
    hide PathOf;
    var l := Locate(w, d, s).value;
    NodeLocates(w, d, s, l);
    PassedAlike(w, d, s);
    if PassesThrough(w, d, s) {
      PassAlike(w, d, s, l);
    } else {
      GovernedAlike(w, d, s, l);
    }
  }
}
