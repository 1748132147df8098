/** The fast path from end to end: the native wrapper's lines as the daemon hears them, what the daemon
    does about each, and what it all comes to beside the Node interceptor's run of the same command. */
module FastPath {
  import opened Basics
  import opened Json
  import opened JsonDoc
  import opened FastIntercept
  import Wire = Protocol
  import Native = NativeIntercept

  // ---------------------------------------------------------------- what the wire carries

  /** A plan as the daemon answers it; the row stays behind. */
  function ToWire(plan: Plan): Wire.Plan {
    match plan
    case ToNode => Wire.Plan.Node
    case Pass(file, path) => Wire.Plan.Pass(file, path)
    case RefuseAs(notes, exitCode, _) => Wire.Plan.Refuse(notes, exitCode)
    case RunAs(file, path, notes, _) => Wire.Plan.Run(file, path, notes)
  }

  /** Every refusal the planner makes exits 1, so every plan survives the wire. */
  lemma PlansSurvive(numberOf: NumberReader, w: World, d: Daemon, s: Scene, text: Padded)
    requires WholeNumbers(numberOf) && LegalPadded(text) && Height(text.doc) <= MOST_DEPTH
    requires Meaning(text.doc) == Object(Wire.AnswerFields(ToWire(PlanIntercept(w, d, s))))
    ensures Wire.PlanOf(numberOf, PrintPadded(text)) == ToWire(PlanIntercept(w, d, s))
  {
    RefusalsFail(w, d, s);
    hide PlanIntercept;
    Wire.AnswerRoundTrip(numberOf, ToWire(PlanIntercept(w, d, s)), text);
  }

  lemma RefusalsFail(w: World, d: Daemon, s: Scene)
    ensures var plan := PlanIntercept(w, d, s); plan.RefuseAs? ==> plan.exitCode == FAILED
  {
    hide Locate;
    hide PassesThrough;
    hide RuleOnCommand;
    hide ContextOf;
    hide AdviceLine;
  }

  function EnvironmentOf(pairs: seq<Wire.Pair>): Environment {
    if pairs == [] then map[]
    else EnvironmentOf(pairs[..|pairs| - 1])[pairs[|pairs| - 1].0 := pairs[|pairs| - 1].1]
  }

  function AllTexts(fields: map<string, Json>): Option<Environment> {
    if forall name | name in fields :: fields[name].Text? then Some(map name | name in fields :: fields[name].text)
    else None
  }

  /** The scene in a request, or none for one not shaped as this version sends it. */
  function SceneOf(value: Json): Option<Scene> {
    if Wire.IntegerField(value, "fast") != Some(Wire.VERSION) then None
    else
      match (value.Field("argv"), value.Field("env"), Wire.TextField(value, "cwd"), Wire.IntegerField(value, "ppid"))
      case (Some(List(items)), Some(Object(fields)), Some(cwd), Some(ppid)) =>
        var argv, env := Wire.Texts(items), AllTexts(fields);
        if argv.None? || argv.value == [] || env.None? then None
        else Some(Scene(argv.value, env.value, cwd, ppid))
      case _ => None
  }

  /** What the wrapper was started with, as the daemon plans for it. */
  function SceneFor(argv: seq<string>, pairs: seq<Wire.Pair>, cwd: string, ppid: nat): Scene {
    Scene(argv, EnvironmentOf(pairs), cwd, ppid)
  }

  lemma {:induction false} EnvironmentExact(pairs: seq<Wire.Pair>)
    requires Wire.DistinctNames(pairs)
    ensures forall i | 0 <= i < |pairs| ::
      pairs[i].0 in EnvironmentOf(pairs) && EnvironmentOf(pairs)[pairs[i].0] == pairs[i].1
    ensures forall name | name in EnvironmentOf(pairs) :: exists i :: 0 <= i < |pairs| && pairs[i].0 == name
  {
    if pairs != [] {
      var front := pairs[..|pairs| - 1];
      EnvironmentExact(front);
      forall name | name in EnvironmentOf(pairs) ensures exists i :: 0 <= i < |pairs| && pairs[i].0 == name {
        if name in EnvironmentOf(front) {
          var i :| 0 <= i < |front| && front[i].0 == name;
          assert pairs[i].0 == name;
        } else {
          assert pairs[|pairs| - 1].0 == name;
        }
      }
      forall i | 0 <= i < |pairs|
        ensures pairs[i].0 in EnvironmentOf(pairs) && EnvironmentOf(pairs)[pairs[i].0] == pairs[i].1
      {
        assert i < |front| ==> front[i] == pairs[i];
      }
    }
  }

  /** The environment read from the request is the wrapper's. */
  lemma EnvironmentReads(pairs: seq<Wire.Pair>)
    requires Wire.DistinctNames(pairs)
    ensures AllTexts(Wire.EnvFields(pairs, map[])) == Some(EnvironmentOf(pairs))
  {
    var fields := Wire.EnvFields(pairs, map[]);
    Wire.EnvFieldsExact(pairs, map[]);
    EnvironmentExact(pairs);
    forall name | name in fields
      ensures fields[name].Text? && name in EnvironmentOf(pairs) && fields[name].text == EnvironmentOf(pairs)[name]
    {
      var i :| 0 <= i < |pairs| && pairs[i].0 == name;
      assert fields[pairs[i].0] == Text(pairs[i].1);
    }
    forall name | name in EnvironmentOf(pairs) ensures name in fields {
      var i :| 0 <= i < |pairs| && pairs[i].0 == name;
      assert pairs[i].0 in fields;
    }
    assert (map name | name in fields :: fields[name].text) == EnvironmentOf(pairs);
  }

  /** The daemon plans for exactly the arguments, environment, directory and parent the wrapper has. */
  lemma RequestIsScene(argv: seq<string>, pairs: seq<Wire.Pair>, cwd: string, ppid: nat)
    requires argv != [] && Wire.DistinctNames(pairs) && ppid < 0x1_0000_0000
    ensures SceneOf(Object(Wire.RequestFields(argv, pairs, cwd, ppid))) == Some(SceneFor(argv, pairs, cwd, ppid))
  {
    var fields := Wire.RequestFields(argv, pairs, cwd, ppid);
    var value := Object(fields);
    Wire.TextsOfWords(argv);
    EnvironmentReads(pairs);
    assert fields["fast"] == Number(1.0) && fields["ppid"] == Number(ppid as real);
    assert (ppid as real).Floor == ppid;
    assert Wire.IntegerField(value, "fast") == Some(Wire.VERSION) && Wire.IntegerField(value, "ppid") == Some(ppid);
    assert value.Field("argv") == Some(List(Wire.WordValues(argv)));
    assert value.Field("env") == Some(Object(Wire.EnvFields(pairs, map[])));
    assert Wire.TextField(value, "cwd") == Some(cwd);
  }

  // ---------------------------------------------------------------- the daemon, line by line

  /** What a connection waits for: nothing, or word that its plan was acted on or has run. */
  datatype Waiting = Nothing | Holding(plan: Plan, acted: bool)

  type Planner = Scene -> Plan

  function Plans(plan: Plan): Waiting {
    if plan.RunAs? || plan.RefuseAs? then Holding(plan, false) else Nothing
  }

  function RefusalRow(plan: Plan): seq<Deed> {
    if plan.RefuseAs? && plan.row.Some? then [Record(plan.row.value)] else []
  }

  /** The breaker's count, and then the row. */
  function Finish(pending: Pending, exitCode: Option<int>): seq<Deed> {
    var row := FinishedRow(pending, exitCode);
    [Report(row.outcome.action, row.outcome.target, exitCode, pending.outOfScope, row.session), Record(row)]
  }

  /** What hearing one line leaves waiting, and what is done about it. */
  function Hears(numberOf: NumberReader, planner: Planner, waiting: Waiting, line: string): (Waiting, seq<Deed>) {
    match Parsed(numberOf, line)
    case None => (waiting, [])
    case Some(value) =>
      var verb := Wire.TextField(value, "method");
      if verb == Some("intercept") then
        var scene := SceneOf(value);
        var next := if scene.None? then Nothing else Plans(planner(scene.value));
        (if next.Nothing? then waiting else next, [])
      else if verb == Some(Wire.ACTED) then
        if waiting.Nothing? then (waiting, [])
        else if waiting.plan.RunAs? then (waiting.(acted := true), [])
        else (Nothing, RefusalRow(waiting.plan))
      else if verb == Some(Wire.RAN) then
        (Nothing,
         if waiting.Holding? && waiting.plan.RunAs?
         then Finish(waiting.plan.pending, Wire.IntegerField(value, "exitCode"))
         else [])
      else (waiting, [])
  }

  /** A request the daemon plans for is of this version, and names a command. */
  lemma SceneAsSent(value: Json)
    requires SceneOf(value).Some?
    ensures value.Field("fast") == Some(Number(1.0)) && SceneOf(value).value.argv != []
    ensures value.Field("cwd") == Some(Text(SceneOf(value).value.cwd))
    ensures value.Field("ppid") == Some(Number(SceneOf(value).value.ppid as real))
  {
    hide Wire.Texts;
    hide AllTexts;
  }

  /** A line that is no JSON, or by none of the three methods, or a request the daemon cannot plan for,
      leaves what is waited for as it was, and nothing is done about it. */
  lemma OthersUnheard(numberOf: NumberReader, planner: Planner, waiting: Waiting, line: string)
    requires var value := Parsed(numberOf, line);
      value.None? || (value.value.Field("method") == Some(Text("intercept")) && SceneOf(value.value).None?)
      || (forall verb | verb in {"intercept", Wire.ACTED, Wire.RAN} :: value.value.Field("method") != Some(Text(verb)))
    ensures Hears(numberOf, planner, waiting, line) == (waiting, [])
  {
    hide Parsed;
    hide SceneOf;
    MethodsApart();
  }

  /** The wrapper hung up: a command it acted on still ran. */
  function Drops(waiting: Waiting): seq<Deed> {
    if waiting.Holding? && waiting.acted && waiting.plan.RunAs? then [Record(FinishedRow(waiting.plan.pending, None))]
    else []
  }

  /** What an effect of the wrapper does to the world by itself. */
  function Direct(node: seq<Deed>, e: Native.Effect): seq<Deed> {
    match e
    case Said(line) => [Say(line)]
    case Started(file, args, path) => [Start(file, args, path)]
    case HandedToNode(_) => node
    case Sent(_) => []
    case Exited(_) => []
  }

  /** What a wrapper's effects do to the world, with what the daemon does on hearing its lines. */
  function Done(
    numberOf: NumberReader, planner: Planner, node: seq<Deed>, waiting: Waiting, effects: seq<Native.Effect>): seq<Deed>
    decreases |effects|
  {
    if effects == [] then Drops(waiting)
    else if effects[0].Sent? then
      var (next, deeds) := Hears(numberOf, planner, waiting, effects[0].line);
      deeds + Done(numberOf, planner, node, next, effects[1..])
    else Direct(node, effects[0]) + Done(numberOf, planner, node, waiting, effects[1..])
  }

  /** The code the wrapper's process ends with. */
  function ExitOf(node: int, effects: seq<Native.Effect>): int {
    if effects == [] then FAILED
    else
      match effects[|effects| - 1]
      case Exited(code) => code
      case _ => node
  }

  function PlannerOf(w: World, d: Daemon): Planner {
    (scene: Scene) => PlanIntercept(w, d, scene)
  }

  /** What one run of the wrapper comes to, beside a daemon that plans and a Node that may be handed to. */
  ghost function RunOf(numberOf: NumberReader, planner: Planner, node: Run, nw: Native.World): Run {
    var effects := Native.Effects(numberOf, nw);
    Run(Done(numberOf, planner, node.deeds, Nothing, effects), ExitOf(node.exitCode, effects))
  }

  ghost function FastRun(numberOf: NumberReader, w: World, d: Daemon, s: Scene, nw: Native.World): Run {
    RunOf(numberOf, PlannerOf(w, d), NodeMain(w, s), nw)
  }

  // ---------------------------------------------------------------- one machine

  /** How a command's end looks to the wrapper. */
  function Spawned(end: ChildEnd): Option<Option<int>> {
    match end
    case Exited(code) => Some(Some(code))
    case Signalled(_) => Some(None)
    case NotStarted(_, _) => None
  }

  function EndOf(w: World, s: Scene, plan: Plan): ChildEnd
    requires plan.Pass? || plan.RunAs?
  {
    w.seams.end(plan.file, ArgsOf(s), plan.path)
  }

  function TrippedLines(w: World, d: Daemon, plan: Plan): seq<string>
    requires plan.RunAs?
  {
    var tripped := w.memory.tripped(d.home, plan.pending.row.session);
    if tripped.None? then [] else [tripped.value]
  }

  /** A legal spelling of some fields. */
  ghost predicate Spells(line: string, fields: map<string, Json>) {
    exists text: Padded ::
      LegalPadded(text) && Height(text.doc) <= MOST_DEPTH && Meaning(text.doc) == Object(fields)
        && line == PrintPadded(text)
  }

  function ReplyFields(notes: seq<string>): map<string, Json> {
    map["id" := Number(Wire.RAN_ID as real)]["ok" := Bool(true)]["notes" := List(Wire.WordValues(notes))]
  }

  /** The wrapper and the daemon are about one command on one machine: the wrapper was started with the
      scene; where a whole answer comes it is the daemon's, however it is spelled, and so is a whole
      reply; and the command's end is one end. Anything may still be lost on the way. */
  ghost predicate OneMachine(w: World, d: Daemon, s: Scene, nw: Native.World) {
    var plan := PlanIntercept(w, d, s);
    && nw.ppid < 0x1_0000_0000
    && (Native.MayAsk(nw) ==> s == SceneFor(Native.Argv(nw.args), Native.Pairs(nw.vars), nw.cwd.value, nw.ppid))
    && (Native.LineOf(nw.answer).Some? ==> Spells(Native.LineOf(nw.answer).value, Wire.AnswerFields(ToWire(plan))))
    && (plan.Pass? || plan.RunAs? ==>
          && nw.spawned == Spawned(EndOf(w, s, plan))
          && (EndOf(w, s, plan).Exited? ==> -0x8000_0000 <= EndOf(w, s, plan).code < 0x8000_0000))
    && (plan.RunAs? && Native.LineOf(nw.report).Some? ==>
          Spells(Native.LineOf(nw.report).value, ReplyFields(TrippedLines(w, d, plan))))
  }

  /** An end both tell alike: the command's own code, or a signal that has no number here. */
  predicate ToldAlike(end: ChildEnd) {
    end.Exited? || end == Signalled(None)
  }

  /** Node finds the file the daemon found, the command's end is told alike, and what the daemon must
      hear and say arrives. */
  ghost predicate Alike(plan: Plan, found: Option<string>, end: ChildEnd, tripped: seq<string>, nw: Native.World) {
    match plan
    case ToNode => true
    case Pass(file, _) => found == Some(file) && ToldAlike(end)
    case RefuseAs(_, _, row) => row.None? || nw.actedWritten
    case RunAs(file, _, _, _) =>
      && found == Some(file) && ToldAlike(end)
      && nw.reportTimeoutSet && nw.ranWritten && (tripped == [] || Native.LineOf(nw.report).Some?)
  }

  function NodeFile(w: World, s: Scene, plan: Plan): Option<string> {
    if plan.Pass? || plan.RunAs? then NodeFinds(w, NameOf(w, s), plan.path) else None
  }

  function EndFor(w: World, s: Scene, plan: Plan): ChildEnd {
    if plan.Pass? || plan.RunAs? then EndOf(w, s, plan) else ChildEnd.Exited(0)
  }

  function TrippedFor(w: World, d: Daemon, plan: Plan): seq<string> {
    if plan.RunAs? then TrippedLines(w, d, plan) else []
  }

  /** What it takes for the two to come out alike: that the wrapper hands over, or all of that. */
  ghost predicate AllArrives(numberOf: NumberReader, w: World, d: Daemon, s: Scene, nw: Native.World) {
    var plan := PlanIntercept(w, d, s);
    || Native.PlanFor(numberOf, nw).Node?
    || Alike(plan, NodeFile(w, s, plan), EndFor(w, s, plan), TrippedFor(w, d, plan), nw)
  }

  // ---------------------------------------------------------------- what each line comes to

  lemma HearsRequest(numberOf: NumberReader, w: World, d: Daemon, s: Scene, nw: Native.World)
    requires WholeNumbers(numberOf) && OneMachine(w, d, s, nw) && Native.MayAsk(nw)
    ensures Hears(numberOf, PlannerOf(w, d), Nothing, Native.Request(nw)) == (Plans(PlanIntercept(w, d, s)), [])
  {
    var argv, pairs := Native.Argv(nw.args), Native.Pairs(nw.vars);
    Wire.RequestRoundTrip(numberOf, argv, pairs, nw.cwd.value, nw.ppid);
    RequestIsScene(argv, pairs, nw.cwd.value, nw.ppid);
    hide SceneOf;
    hide PlanIntercept;
    hide Parsed;
    hide Wire.LineText;
    var fields := Wire.RequestFields(argv, pairs, nw.cwd.value, nw.ppid);
    assert fields["method"] == Text("intercept");
  }

  lemma HearsActed(numberOf: NumberReader, planner: Planner, waiting: Waiting)
    requires WholeNumbers(numberOf)
    ensures Hears(numberOf, planner, waiting, Wire.ActedLine()) ==
      if waiting.Nothing? then (waiting, [])
      else if waiting.plan.RunAs? then (waiting.(acted := true), [])
      else (Nothing, RefusalRow(waiting.plan))
  {
    Wire.ActedReads(numberOf);
    hide Wire.ActedLine;
    hide Parsed;
    hide SceneOf;
    assert Wire.TextField(Object(Wire.ActedFields()), "method") == Some(Wire.ACTED);
    MethodsApart();
  }

  lemma MethodsApart()
    ensures Wire.ACTED != "intercept" && Wire.RAN != "intercept" && Wire.RAN != Wire.ACTED
  {
    assert |Wire.RAN| == 13 && |Wire.ACTED| == 15 && |"intercept"| == 9;
  }

  lemma HearsRan(numberOf: NumberReader, planner: Planner, waiting: Waiting, code: int)
    requires WholeNumbers(numberOf) && -0x8000_0000 <= code < 0x8000_0000
    ensures Hears(numberOf, planner, waiting, Wire.RanLine(code)) ==
      (Nothing, if waiting.Holding? && waiting.plan.RunAs? then Finish(waiting.plan.pending, Some(code)) else [])
  {
    Wire.RanReads(numberOf, code);
    hide Wire.RanLine;
    hide Parsed;
    hide SceneOf;
    var value := Object(Wire.RanFields(code));
    assert Wire.TextField(value, "method") == Some(Wire.RAN);
    assert (code as real).Floor == code;
    assert Wire.IntegerField(value, "exitCode") == Some(code);
    MethodsApart();
  }

  /** A whole reply says what the breaker called. */
  lemma ReplyReads(numberOf: NumberReader, line: string, notes: seq<string>)
    requires WholeNumbers(numberOf) && Spells(line, ReplyFields(notes))
    ensures Parsed(numberOf, line) == Some(Object(ReplyFields(notes)))
    ensures Wire.IntegerField(Object(ReplyFields(notes)), "id") == Some(Wire.RAN_ID)
    ensures Wire.NotesOf(Object(ReplyFields(notes))) == Some(notes)
  {
    var text: Padded :| LegalPadded(text) && Height(text.doc) <= MOST_DEPTH
      && Meaning(text.doc) == Object(ReplyFields(notes))
      && line == PrintPadded(text);
    RoundTrip(numberOf, text);
    Wire.TextsOfWords(notes);
    var value := Object(ReplyFields(notes));
    assert ReplyFields(notes)["id"] == Number(3.0) && ReplyFields(notes)["notes"] == List(Wire.WordValues(notes));
    assert value.Field("notes") == Some(List(Wire.WordValues(notes)));
  }

  // ---------------------------------------------------------------- what the whole comes to

  /** What the wrapper exits with for a command's end. */
  function WrapperStatus(end: ChildEnd): int {
    if end.Exited? then end.code else Native.FAILED
  }

  /** What is told and kept of a command the wrapper ran. */
  ghost function Afterwards(end: ChildEnd, tripped: seq<string>, nw: Native.World, plan: Plan): seq<Deed>
    requires plan.RunAs?
  {
    if nw.reportTimeoutSet && nw.ranWritten then
      Finish(plan.pending, Some(WrapperStatus(end))) + Said(if Native.LineOf(nw.report).Some? then tripped else [])
    else if nw.actedWritten then [Record(FinishedRow(plan.pending, None))]
    else []
  }

  /** What the fast path comes to for a plan the wrapper acts on. */
  ghost function Came(end: ChildEnd, tripped: seq<string>, args: seq<string>, nw: Native.World, plan: Plan): Run
    requires !plan.ToNode?
  {
    match plan
    case Pass(file, path) => Run([Start(file, args, path)], WrapperStatus(end))
    case RefuseAs(notes, code, _) => Run(Said(notes) + (if nw.actedWritten then RefusalRow(plan) else []), code)
    case RunAs(file, path, notes, _) =>
      Run(Said(notes) + ([Start(file, args, path)] + Afterwards(end, tripped, nw, plan)), WrapperStatus(end))
  }

  lemma {:induction false} SaidDone(
    numberOf: NumberReader, planner: Planner, node: seq<Deed>, waiting: Waiting, notes: seq<string>,
    rest: seq<Native.Effect>)
    ensures Done(numberOf, planner, node, waiting, Native.SaidAll(notes) + rest)
      == Said(notes) + Done(numberOf, planner, node, waiting, rest)
  {
    hide Done;
    if notes == [] {
      assert Native.SaidAll(notes) + rest == rest;
      assert [] + Done(numberOf, planner, node, waiting, rest) == Done(numberOf, planner, node, waiting, rest);
    } else {
      var e, more := Native.Said(notes[0]), Native.SaidAll(notes[1..]);
      Associate([e], more, rest);
      FirstDone(numberOf, planner, node, waiting, e, more + rest);
      SaidDone(numberOf, planner, node, waiting, notes[1..], rest);
      assert Said(notes) == [Say(notes[0])] + Said(notes[1..]);
      hide Said;
      Associate([Say(notes[0])], Said(notes[1..]), Done(numberOf, planner, node, waiting, rest));
    }
  }

  /** The first effect, and then the rest. */
  lemma FirstDone(
    numberOf: NumberReader, planner: Planner, node: seq<Deed>, waiting: Waiting, e: Native.Effect,
    rest: seq<Native.Effect>)
    requires !e.Sent?
    ensures Done(numberOf, planner, node, waiting, [e] + rest)
      == Direct(node, e) + Done(numberOf, planner, node, waiting, rest)
  {
    hide Hears;
    hide Direct;
    assert ([e] + rest)[1..] == rest;
  }

  lemma SentDone(
    numberOf: NumberReader, planner: Planner, node: seq<Deed>, waiting: Waiting, line: string, rest: seq<Native.Effect>,
    next: Waiting, deeds: seq<Deed>)
    requires Hears(numberOf, planner, waiting, line) == (next, deeds)
    ensures Done(numberOf, planner, node, waiting, [Native.Sent(line)] + rest)
      == deeds + Done(numberOf, planner, node, next, rest)
  {
    hide Hears;
    hide Direct;
    assert ([Native.Sent(line)] + rest)[1..] == rest;
  }

  lemma ExitDone(numberOf: NumberReader, planner: Planner, node: seq<Deed>, waiting: Waiting, code: int)
    ensures Done(numberOf, planner, node, waiting, [Native.Exited(code)]) == Drops(waiting)
  {
    hide Hears;
    hide Drops;
    assert [Native.Exited(code)][1..] == [];
  }

  /** The acted line of a command about to run, where it is written. */
  lemma ActedRun(
    numberOf: NumberReader, planner: Planner, node: seq<Deed>, plan: Plan, written: bool, rest: seq<Native.Effect>)
    requires WholeNumbers(numberOf) && plan.RunAs?
    ensures Done(numberOf, planner, node, Holding(plan, false), Native.SentIf(written, Wire.ActedLine()) + rest)
      == Done(numberOf, planner, node, Holding(plan, written), rest)
  {
    HearsActed(numberOf, planner, Holding(plan, false));
    hide Hears;
    hide Done;
    if written {
      SentDone(numberOf, planner, node, Holding(plan, false), Wire.ActedLine(), rest, Holding(plan, true), []);
    } else {
      assert [] + rest == rest;
    }
  }

  /** The acted line of a refusal, where it is written, has the daemon keep the row. */
  lemma ActedRefusal(numberOf: NumberReader, planner: Planner, node: seq<Deed>, plan: Plan, written: bool, code: int)
    requires WholeNumbers(numberOf) && plan.RefuseAs?
    ensures Done(
        numberOf, planner, node, Holding(plan, false), Native.SentIf(written, Wire.ActedLine()) + [Native.Exited(code)])
      == if written then RefusalRow(plan) else []
  {
    HearsActed(numberOf, planner, Holding(plan, false));
    ExitDone(numberOf, planner, node, Nothing, code);
    ExitDone(numberOf, planner, node, Holding(plan, false), code);
    hide Hears;
    hide Done;
    hide RefusalRow;
    if written {
      SentDone(numberOf, planner, node, Holding(plan, false), Wire.ActedLine(), [Native.Exited(code)], Nothing,
        RefusalRow(plan));
      assert RefusalRow(plan) + [] == RefusalRow(plan);
    } else {
      assert [] + [Native.Exited(code)] == [Native.Exited(code)];
    }
  }

  /** A report that goes out, and the end. */
  lemma ReportDone(
    numberOf: NumberReader, planner: Planner, node: seq<Deed>, plan: Plan, acted: bool, code: int, notes: seq<string>)
    requires WholeNumbers(numberOf) && plan.RunAs? && -0x8000_0000 <= code < 0x8000_0000
    ensures Done(numberOf, planner, node, Holding(plan, acted),
        [Native.Sent(Wire.RanLine(code))] + Native.SaidAll(notes) + [Native.Exited(code)])
      == Finish(plan.pending, Some(code)) + Said(notes)
  {
    HearsRan(numberOf, planner, Holding(plan, acted), code);
    var exit, sent := [Native.Exited(code)], [Native.Sent(Wire.RanLine(code))];
    ExitDone(numberOf, planner, node, Nothing, code);
    SaidDone(numberOf, planner, node, Nothing, notes, exit);
    SentDone(numberOf, planner, node, Holding(plan, acted), Wire.RanLine(code), Native.SaidAll(notes) + exit,
      Nothing, Finish(plan.pending, Some(code)));
    assert Drops(Nothing) == [];
    hide *;
    Associate(sent, Native.SaidAll(notes), exit);
    assert Said(notes) + [] == Said(notes);
  }

  lemma ReportIs(numberOf: NumberReader, nw: Native.World, code: int)
    ensures Native.ReportEffects(numberOf, nw, code) ==
      if nw.reportTimeoutSet && nw.ranWritten
      then [Native.Sent(Wire.RanLine(code))] + Native.SaidAll(Native.ReportNotes(numberOf, nw.report)) else []
  {
    hide Native.ReportNotes;
    hide Wire.RanLine;
  }

  /** The report, where it goes out, and the end. */
  lemma EndDone(
    numberOf: NumberReader, planner: Planner, node: seq<Deed>, nw: Native.World, plan: Plan, acted: bool, code: int,
    tripped: seq<string>)
    requires WholeNumbers(numberOf) && plan.RunAs? && -0x8000_0000 <= code < 0x8000_0000
    requires Native.LineOf(nw.report).Some? ==> Spells(Native.LineOf(nw.report).value, ReplyFields(tripped))
    ensures Done(
        numberOf, planner, node, Holding(plan, acted),
        Native.ReportEffects(numberOf, nw, code) + [Native.Exited(code)]) ==
      if nw.reportTimeoutSet && nw.ranWritten then
        Finish(plan.pending, Some(code)) + Said(if Native.LineOf(nw.report).Some? then tripped else [])
      else Drops(Holding(plan, acted))
  {
    hide *;
    ReportIs(numberOf, nw, code);
    if nw.reportTimeoutSet && nw.ranWritten {
      NotesReported(numberOf, nw, tripped);
      ReportDone(numberOf, planner, node, plan, acted, code, Native.ReportNotes(numberOf, nw.report));
    } else {
      assert [] + [Native.Exited(code)] == [Native.Exited(code)];
      ExitDone(numberOf, planner, node, Holding(plan, acted), code);
    }
  }

  lemma NotesReported(numberOf: NumberReader, nw: Native.World, tripped: seq<string>)
    requires WholeNumbers(numberOf)
    requires Native.LineOf(nw.report).Some? ==> Spells(Native.LineOf(nw.report).value, ReplyFields(tripped))
    ensures Native.ReportNotes(numberOf, nw.report) == if Native.LineOf(nw.report).Some? then tripped else []
  {
    hide Native.LineOf;
    hide Spells;
    if Native.LineOf(nw.report).Some? {
      ReplyReads(numberOf, Native.LineOf(nw.report).value, tripped);
      hide ReplyFields;
      hide Parsed;
    }
  }

  /** The plan acted on is the daemon's. */
  lemma ActsOn(numberOf: NumberReader, w: World, d: Daemon, s: Scene, nw: Native.World)
    requires WholeNumbers(numberOf) && OneMachine(w, d, s, nw) && !Native.PlanFor(numberOf, nw).Node?
    ensures Native.MayAsk(nw) && nw.requestWritten && !PlanIntercept(w, d, s).ToNode?
    ensures Native.PlanFor(numberOf, nw) == ToWire(PlanIntercept(w, d, s))
  {
    var line := Native.LineOf(nw.answer).value;
    assert Spells(line, Wire.AnswerFields(ToWire(PlanIntercept(w, d, s))));
    hide PlanIntercept;
    hide Native.LineOf;
    hide Native.MayAsk;
    hide Native.Runnable;
    hide Wire.PlanOf;
    var text: Padded :| LegalPadded(text) && Height(text.doc) <= MOST_DEPTH
      && Meaning(text.doc) == Object(Wire.AnswerFields(ToWire(PlanIntercept(w, d, s)))) && line == PrintPadded(text);
    PlansSurvive(numberOf, w, d, s, text);
  }

  /** The whole run, from where the wrapper acts on its plan. */
  lemma RunFrom(
    numberOf: NumberReader, planner: Planner, node: Run, nw: Native.World, waiting: Waiting, acts: seq<Native.Effect>)
    requires Native.MayAsk(nw) ==> Hears(numberOf, planner, Nothing, Native.Request(nw)) == (waiting, [])
    requires !Native.PlanFor(numberOf, nw).Node? ==> Native.AllText(nw.args) && nw.args != []
    requires acts == Native.Acted(numberOf, nw, Native.PlanFor(numberOf, nw)) && acts != []
    ensures RunOf(numberOf, planner, node, nw) == Run(
      Done(numberOf, planner, node.deeds, if Native.MayAsk(nw) && nw.requestWritten then waiting else Nothing, acts),
      ExitOf(node.exitCode, acts))
  {
    hide Done;
    hide Hears;
    hide Native.PlanFor;
    hide Native.Acted;
    hide Native.MayAsk;
    LastIs(Native.Asked(nw), acts);
    if Native.MayAsk(nw) && nw.requestWritten {
      SentDone(numberOf, planner, node.deeds, Nothing, Native.Request(nw), acts, waiting, []);
      var after := Done(numberOf, planner, node.deeds, waiting, acts);
      assert [] + after == after;
    } else {
      assert [] + acts == acts;
    }
  }

  lemma LastIs<T>(a: seq<T>, b: seq<T>)
    requires b != []
    ensures (a + b)[|a + b| - 1] == b[|b| - 1]
  {
  }

  /** What the wrapper hands over, Node does, and the daemon keeps nothing of. */
  lemma HandedOver(numberOf: NumberReader, planner: Planner, node: Run, nw: Native.World, waiting: Waiting)
    requires Native.MayAsk(nw) ==> Hears(numberOf, planner, Nothing, Native.Request(nw)) == (waiting, [])
    requires Native.PlanFor(numberOf, nw).Node? && Drops(waiting) == []
    ensures RunOf(numberOf, planner, node, nw) == node
  {
    var acts := [Native.HandedToNode(nw.args)];
    assert Native.Acted(numberOf, nw, Native.PlanFor(numberOf, nw)) == acts;
    hide *;
    RunFrom(numberOf, planner, node, nw, waiting, acts);
    HandedDone(numberOf, planner, node, waiting, nw.args);
    HandedDone(numberOf, planner, node, Nothing, nw.args);
  }

  lemma HandedDone(numberOf: NumberReader, planner: Planner, node: Run, waiting: Waiting, args: seq<Option<string>>)
    requires waiting.Nothing? || Drops(waiting) == []
    ensures var acts := [Native.HandedToNode(args)];
      && Done(numberOf, planner, node.deeds, waiting, acts) == node.deeds
      && ExitOf(node.exitCode, acts) == node.exitCode
  {
    hide Hears;
    var acts := [Native.HandedToNode(args)];
    assert acts[1..] == [];
    assert node.deeds + [] == node.deeds;
  }

  lemma PassCame(
    numberOf: NumberReader, planner: Planner, node: Run, nw: Native.World, plan: Plan, end: ChildEnd, args: seq<string>)
    requires plan.Pass? && Native.AllText(nw.args) && nw.args != [] && Native.Argv(nw.args)[1..] == args
    requires nw.spawned == Spawned(end)
    ensures var acts := Native.Acted(numberOf, nw, ToWire(plan));
      && Done(numberOf, planner, node.deeds, Nothing, acts) == [Start(plan.file, args, plan.path)]
      && acts != [] && acts[|acts| - 1] == Native.Exited(WrapperStatus(end))
  {
    var code := WrapperStatus(end);
    var start := Native.Started(plan.file, args, plan.path);
    assert Native.ExitCode(nw.spawned) == code;
    assert Native.Acted(numberOf, nw, ToWire(plan)) == [start] + [Native.Exited(code)];
    FirstDone(numberOf, planner, node.deeds, Nothing, start, [Native.Exited(code)]);
    ExitDone(numberOf, planner, node.deeds, Nothing, code);
  }

  lemma RefusalCame(numberOf: NumberReader, planner: Planner, node: Run, nw: Native.World, plan: Plan)
    requires WholeNumbers(numberOf) && plan.RefuseAs? && Native.AllText(nw.args) && nw.args != []
    ensures var acts := Native.Acted(numberOf, nw, ToWire(plan));
      && Done(numberOf, planner, node.deeds, Holding(plan, false), acts)
         == Said(plan.notes) + (if nw.actedWritten then RefusalRow(plan) else [])
      && acts != [] && acts[|acts| - 1] == Native.Exited(plan.exitCode)
  {
    var exit := [Native.Exited(plan.exitCode)];
    var tail := Native.SentIf(nw.actedWritten, Wire.ActedLine()) + exit;
    assert Native.Acted(numberOf, nw, ToWire(plan)) == Native.SaidAll(plan.notes) + tail;
    SaidDone(numberOf, planner, node.deeds, Holding(plan, false), plan.notes, tail);
    ActedRefusal(numberOf, planner, node.deeds, plan, nw.actedWritten, plan.exitCode);
    LastIs(Native.SentIf(nw.actedWritten, Wire.ActedLine()), exit);
    LastIs(Native.SaidAll(plan.notes), tail);
  }

  lemma RunCame(
    numberOf: NumberReader, planner: Planner, node: Run, nw: Native.World, plan: Plan, end: ChildEnd, args: seq<string>,
    tripped: seq<string>)
    requires WholeNumbers(numberOf) && plan.RunAs?
    requires Native.AllText(nw.args) && nw.args != [] && Native.Argv(nw.args)[1..] == args
    requires nw.spawned == Spawned(end) && (end.Exited? ==> -0x8000_0000 <= end.code < 0x8000_0000)
    requires Native.LineOf(nw.report).Some? ==> Spells(Native.LineOf(nw.report).value, ReplyFields(tripped))
    ensures var acts := Native.Acted(numberOf, nw, ToWire(plan));
      && Done(numberOf, planner, node.deeds, Holding(plan, false), acts)
         == Said(plan.notes) + ([Start(plan.file, args, plan.path)] + Afterwards(end, tripped, nw, plan))
      && acts != [] && acts[|acts| - 1] == Native.Exited(WrapperStatus(end))
  {
    var code := WrapperStatus(end);
    var start := Native.Started(plan.file, args, plan.path);
    var exit := [Native.Exited(code)];
    var ending := Native.ReportEffects(numberOf, nw, code) + exit;
    var acted := Native.SentIf(nw.actedWritten, Wire.ActedLine());
    RunActs(numberOf, nw, plan, code, args);
    DirectStart(node.deeds, plan.file, args, plan.path);
    AfterwardsIs(end, tripped, nw, plan);
    hide *;
    EndDone(numberOf, planner, node.deeds, nw, plan, nw.actedWritten, code, tripped);
    FirstDone(numberOf, planner, node.deeds, Holding(plan, nw.actedWritten), start, ending);
    ActedRun(numberOf, planner, node.deeds, plan, nw.actedWritten, [start] + ending);
    SaidDone(numberOf, planner, node.deeds, Holding(plan, false), plan.notes, acted + ([start] + ending));
    LastIs(Native.ReportEffects(numberOf, nw, code), exit);
    LastIs([start], ending);
    LastIs(acted, [start] + ending);
    LastIs(Native.SaidAll(plan.notes), acted + ([start] + ending));
  }

  lemma DirectStart(node: seq<Deed>, file: string, args: seq<string>, path: string)
    ensures Direct(node, Native.Started(file, args, path)) == [Start(file, args, path)]
  {
  }

  lemma AfterwardsIs(end: ChildEnd, tripped: seq<string>, nw: Native.World, plan: Plan)
    requires plan.RunAs?
    ensures Afterwards(end, tripped, nw, plan) ==
      if nw.reportTimeoutSet && nw.ranWritten then
        Finish(plan.pending, Some(WrapperStatus(end))) + Said(if Native.LineOf(nw.report).Some? then tripped else [])
      else Drops(Holding(plan, nw.actedWritten))
  {
    hide Native.LineOf;
  }

  lemma RunActs(numberOf: NumberReader, nw: Native.World, plan: Plan, code: int, args: seq<string>)
    requires plan.RunAs? && Native.AllText(nw.args) && nw.args != [] && Native.Argv(nw.args)[1..] == args
    requires code == Native.ExitCode(nw.spawned)
    ensures Native.Acted(numberOf, nw, ToWire(plan)) == Native.SaidAll(plan.notes)
      + (Native.SentIf(nw.actedWritten, Wire.ActedLine())
         + ([Native.Started(plan.file, args, plan.path)]
           + (Native.ReportEffects(numberOf, nw, code) + [Native.Exited(code)])))
  {
    hide Native.ReportEffects;
    hide Wire.ActedLine;
    hide Native.SaidAll;
  }

  /** Whatever plan is acted on, the wrapper's effects come to what `Came` says. */
  lemma CameOf(
    numberOf: NumberReader, planner: Planner, node: Run, nw: Native.World, plan: Plan, end: ChildEnd, args: seq<string>,
    tripped: seq<string>)
    requires WholeNumbers(numberOf) && !plan.ToNode?
    requires Native.AllText(nw.args) && nw.args != [] && Native.Argv(nw.args)[1..] == args
    requires plan.Pass? || plan.RunAs? ==>
      nw.spawned == Spawned(end) && (end.Exited? ==> -0x8000_0000 <= end.code < 0x8000_0000)
    requires plan.RunAs? && Native.LineOf(nw.report).Some? ==>
      Spells(Native.LineOf(nw.report).value, ReplyFields(tripped))
    ensures var acts := Native.Acted(numberOf, nw, ToWire(plan));
      && acts != []
      && Run(Done(numberOf, planner, node.deeds, Plans(plan), acts), ExitOf(node.exitCode, acts))
         == Came(end, tripped, args, nw, plan)
  {
    hide Done;
    hide Native.Acted;
    hide Native.LineOf;
    hide Spells;
    hide Afterwards;
    if plan.Pass? {
      PassCame(numberOf, planner, node, nw, plan, end, args);
    } else if plan.RefuseAs? {
      RefusalCame(numberOf, planner, node, nw, plan);
    } else {
      RunCame(numberOf, planner, node, nw, plan, end, args, tripped);
    }
  }

  /** What a wrapper that may ask and the machine it is on share. */
  lemma Shared(w: World, d: Daemon, s: Scene, nw: Native.World)
    requires OneMachine(w, d, s, nw) && Native.MayAsk(nw)
    ensures Native.AllText(nw.args) && nw.args != [] && Native.Argv(nw.args)[1..] == ArgsOf(s)
  {
    hide PlanIntercept;
    hide EndOf;
    hide Spells;
    hide Native.LineOf;
    hide TrippedLines;
  }

  lemma NotYetActed(plan: Plan)
    ensures Drops(Plans(plan)) == []
  {
  }

  /** What the wrapper hands over comes to Node's own run. */
  lemma FastHanded(numberOf: NumberReader, w: World, d: Daemon, s: Scene, nw: Native.World)
    requires WholeNumbers(numberOf) && OneMachine(w, d, s, nw) && Native.PlanFor(numberOf, nw).Node?
    ensures FastRun(numberOf, w, d, s, nw) == NodeMain(w, s)
  {
    hide *;
    var plan := PlanIntercept(w, d, s);
    NotYetActed(plan);
    if Native.MayAsk(nw) {
      HearsRequest(numberOf, w, d, s, nw);
    }
    HandedOver(numberOf, PlannerOf(w, d), NodeMain(w, s), nw, Plans(plan));
    FastIs(numberOf, w, d, s, nw);
  }

  /** What the fast path comes to where the wrapper acts, for every daemon and machine: what its plan,
      its lines and the command's end make of it. */
  lemma FastCame(numberOf: NumberReader, w: World, d: Daemon, s: Scene, nw: Native.World)
    requires WholeNumbers(numberOf) && OneMachine(w, d, s, nw) && !Native.PlanFor(numberOf, nw).Node?
    ensures var plan := PlanIntercept(w, d, s);
      && !plan.ToNode?
      && FastRun(numberOf, w, d, s, nw) == Came(EndFor(w, s, plan), TrippedFor(w, d, plan), ArgsOf(s), nw, plan)
  {
    hide *;
    var plan := PlanIntercept(w, d, s);
    ActsOn(numberOf, w, d, s, nw);
    HearsRequest(numberOf, w, d, s, nw);
    Shared(w, d, s, nw);
    Ends(w, d, s, nw);
    FastIs(numberOf, w, d, s, nw);
    CameOf(numberOf, PlannerOf(w, d), NodeMain(w, s), nw, plan, EndFor(w, s, plan), ArgsOf(s), TrippedFor(w, d, plan));
    RunFrom(numberOf, PlannerOf(w, d), NodeMain(w, s), nw, Plans(plan), Native.Acted(numberOf, nw, ToWire(plan)));
  }

  lemma FastIs(numberOf: NumberReader, w: World, d: Daemon, s: Scene, nw: Native.World)
    ensures FastRun(numberOf, w, d, s, nw) == RunOf(numberOf, PlannerOf(w, d), NodeMain(w, s), nw)
  {
    hide RunOf;
    hide NodeMain;
    hide PlannerOf;
  }

  lemma Ends(w: World, d: Daemon, s: Scene, nw: Native.World)
    requires OneMachine(w, d, s, nw)
    ensures var plan := PlanIntercept(w, d, s); var end := EndFor(w, s, plan); plan.Pass? || plan.RunAs? ==>
      nw.spawned == Spawned(end) && (end.Exited? ==> -0x8000_0000 <= end.code < 0x8000_0000)
    ensures var plan := PlanIntercept(w, d, s); plan.RunAs? && Native.LineOf(nw.report).Some? ==>
      Spells(Native.LineOf(nw.report).value, ReplyFields(TrippedFor(w, d, plan)))
  {
    hide PlanIntercept;
    hide EndOf;
    hide Spells;
    hide Native.LineOf;
    hide Native.MayAsk;
    hide TrippedLines;
  }

  // ---------------------------------------------------------------- beside Node's run

  /** What Node's run comes to for a plan, by the command's name, the file Node finds and its end. */
  function Told(
    name: string, found: Option<string>, end: ChildEnd, tripped: seq<string>, args: seq<string>, plan: Plan): Run
    requires !plan.ToNode?
  {
    match plan
    case Pass(_, path) =>
      if found.None? then Run([NotFound(name)], NOT_FOUND)
      else Run([Start(found.value, args, path)] + Trouble(name, end), NodeStatus(end))
    case RefuseAs(notes, code, _) => Run(Said(notes) + RefusalRow(plan), code)
    case RunAs(_, path, notes, pending) =>
      if found.None? then Run(Said(notes) + [NotFound(name)], NOT_FOUND)
      else Run(Said(notes)
          + ([Start(found.value, args, path)]
             + (Trouble(name, end) + (Finish(pending, Some(NodeStatus(end))) + Said(tripped)))),
          NodeStatus(end))
  }

  function NotFound(name: string): Deed {
    Say("memnox: " + name + " is not on PATH behind the interceptor")
  }

  /** How the file Node finds comes to its end. */
  function NodeEnd(w: World, s: Scene, plan: Plan): ChildEnd {
    if (plan.Pass? || plan.RunAs?) && NodeFile(w, s, plan).Some?
    then w.seams.end(NodeFile(w, s, plan).value, ArgsOf(s), plan.path) else ChildEnd.Exited(0)
  }

  lemma CarriedOut(w: World, d: Daemon, s: Scene, plan: Plan)
    requires !plan.ToNode?
    ensures CarryOut(w, d, s, plan)
      == Told(NameOf(w, s), NodeFile(w, s, plan), NodeEnd(w, s, plan), TrippedFor(w, d, plan), ArgsOf(s), plan)
  {
    hide Trouble;
    hide NodeStatus;
    hide NodeFinds;
    hide Ended;
    if plan.RunAs? {
      if NodeFile(w, s, plan).Some? {
        var status := NodeStatus(NodeEnd(w, s, plan));
        EndedIs(w, d, plan, status);
        hide Finish;
        Regrouped(Said(plan.notes), [Start(NodeFile(w, s, plan).value, ArgsOf(s), plan.path)],
          Trouble(NameOf(w, s), NodeEnd(w, s, plan)), Ended(w, d, plan.pending, status));
      } else {
        assert Said(plan.notes) + [NotFound(NameOf(w, s))] + [] == Said(plan.notes) + [NotFound(NameOf(w, s))];
      }
    }
  }

  lemma Regrouped<T>(a: seq<T>, b: seq<T>, c: seq<T>, d: seq<T>)
    ensures a + (b + c) + d == a + (b + (c + d))
  {
  }

  lemma EndedIs(w: World, d: Daemon, plan: Plan, status: int)
    requires plan.RunAs?
    ensures Ended(w, d, plan.pending, status) == Finish(plan.pending, Some(status)) + Said(TrippedLines(w, d, plan))
  {
    var tripped := w.memory.tripped(d.home, plan.pending.row.session);
    if tripped.Some? {
      SaidOne(tripped.value);
    }
  }

  lemma Cancel<T>(a: seq<T>, x: seq<T>, y: seq<T>)
    ensures a + x == a + y <==> x == y
  {
    assert (a + x)[|a|..] == x && (a + y)[|a|..] == y;
  }

  /** Node and the wrapper tell one end alike exactly where the command ended with a code of its own, or
      by a signal that has no number here. */
  lemma EndToldAlike(name: string, end: ChildEnd)
    ensures Trouble(name, end) == [] && WrapperStatus(end) == NodeStatus(end) <==> ToldAlike(end)
  {
  }

  lemma SaidApart(a: seq<string>, b: seq<string>)
    ensures Said(a) == Said(b) <==> a == b
  {
    if Said(a) == Said(b) {
      assert |a| == |Said(a)| == |Said(b)| == |b|;
      forall i | 0 <= i < |a| ensures a[i] == b[i] {
        assert Said(a)[i] == Say(a[i]) && Said(b)[i] == Say(b[i]);
      }
    }
  }

  /** What is told of a command that ran comes out alike exactly where its end is told alike, the
      report went out and whatever the breaker called came back. */
  lemma RunToldAlike(name: string, end: ChildEnd, tripped: seq<string>, nw: Native.World, plan: Plan)
    requires plan.RunAs?
    ensures Afterwards(end, tripped, nw, plan)
      == Trouble(name, end) + (Finish(plan.pending, Some(NodeStatus(end))) + Said(tripped))
        && WrapperStatus(end) == NodeStatus(end)
      <==> ToldAlike(end) && nw.reportTimeoutSet && nw.ranWritten && (tripped == [] || Native.LineOf(nw.report).Some?)
  {
    hide Native.LineOf;
    var after := Afterwards(end, tripped, nw, plan);
    var told := Finish(plan.pending, Some(NodeStatus(end))) + Said(tripped);
    EndToldAlike(name, end);
    if end.NotStarted? {
      var all := Trouble(name, end) + told;
      assert all[0].Say?;
      assert after == [] || !after[0].Say?;
    } else {
      assert Trouble(name, end) + told == told;
      assert told[0].Report?;
      if nw.reportTimeoutSet && nw.ranWritten {
        var said := if Native.LineOf(nw.report).Some? then tripped else [];
        SaidApart(said, tripped);
        if WrapperStatus(end) == NodeStatus(end) {
          Cancel(Finish(plan.pending, Some(NodeStatus(end))), Said(said), Said(tripped));
        }
      } else {
        assert after == [] || after[0].Record?;
      }
    }
  }

  lemma FirstApart<T>(a: seq<T>, x: T, xs: seq<T>, y: T, ys: seq<T>)
    requires x != y
    ensures a + ([x] + xs) != a + ([y] + ys)
  {
    assert (a + ([x] + xs))[|a|] == x && (a + ([y] + ys))[|a|] == y;
  }

  /** Where Node finds another file, or none, the two come out apart. */
  lemma OtherFile(
    name: string, found: Option<string>, end: ChildEnd, nodes: ChildEnd, tripped: seq<string>, args: seq<string>,
    nw: Native.World, plan: Plan)
    requires (plan.Pass? || plan.RunAs?) && found != Some(plan.file)
    ensures Came(end, tripped, args, nw, plan) != Told(name, found, nodes, tripped, args, plan)
  {
    hide Afterwards;
    hide Trouble;
    hide Finish;
    hide NodeStatus;
    hide WrapperStatus;
    var start := Start(plan.file, args, plan.path);
    var first := if found.None? then NotFound(name) else Start(found.value, args, plan.path);
    if plan.Pass? {
      FirstApart([], start, [], first, if found.None? then [] else Trouble(name, nodes));
      assert [start] == [] + ([start] + []);
      var rest := if found.None? then [] else Trouble(name, nodes);
      assert [first] + rest == [] + ([first] + rest);
      assert [first] + [] == [first];
    } else {
      var rest := if found.None? then []
        else Trouble(name, nodes) + (Finish(plan.pending, Some(NodeStatus(nodes))) + Said(tripped));
      FirstApart(Said(plan.notes), start, Afterwards(end, tripped, nw, plan), first, rest);
      assert [first] + [] == [first];
    }
  }

  /** For a plan the wrapper acts on, what the fast path comes to is what Node's run comes to exactly
      where Node finds the plan's file, the command's end is told alike, and what the daemon must hear
      and say arrives. */
  lemma CameAsTold(
    name: string, found: Option<string>, end: ChildEnd, nodes: ChildEnd, tripped: seq<string>, args: seq<string>,
    nw: Native.World, plan: Plan)
    requires !plan.ToNode? && ((plan.Pass? || plan.RunAs?) && found == Some(plan.file) ==> nodes == end)
    ensures Came(end, tripped, args, nw, plan) == Told(name, found, nodes, tripped, args, plan) <==>
      Alike(plan, found, end, tripped, nw)
  {
    hide Native.LineOf;
    if plan.RefuseAs? {
      Cancel(Said(plan.notes), if nw.actedWritten then RefusalRow(plan) else [], RefusalRow(plan));
    } else if found != Some(plan.file) {
      OtherFile(name, found, end, nodes, tripped, args, nw, plan);
      hide Came;
      hide Told;
    } else if plan.Pass? {
      EndToldAlike(name, end);
      hide NodeStatus;
      hide WrapperStatus;
      Cancel([Start(plan.file, args, plan.path)], [], Trouble(name, end));
      assert [Start(plan.file, args, plan.path)] + [] == [Start(plan.file, args, plan.path)];
    } else {
      RunToldAlike(name, end, tripped, nw, plan);
      hide Afterwards;
      hide Trouble;
      hide Finish;
      hide NodeStatus;
      hide WrapperStatus;
      hide ToldAlike;
      var start := [Start(plan.file, args, plan.path)];
      var told := Trouble(name, end) + (Finish(plan.pending, Some(NodeStatus(end))) + Said(tripped));
      Cancel(Said(plan.notes), start + Afterwards(end, tripped, nw, plan), start + told);
      Cancel(start, Afterwards(end, tripped, nw, plan), told);
    }
  }

  /** For every command line, every machine, and whatever is lost between the wrapper and the daemon, the
      fast path does what the Node interceptor would have done exactly where the wrapper hands the
      command over, or Node finds the file the daemon found, the command ends with a code of its own (or
      by a signal that has no number here) and the lines that have the daemon keep its row, count it and
      say what the breaker called arrive. */
  lemma FastIsNode(numberOf: NumberReader, w: World, d: Daemon, s: Scene, nw: Native.World)
    requires WholeNumbers(numberOf) && OneMachine(w, d, s, nw)
    ensures FastRun(numberOf, w, d, s, nw) == NodeMain(w, s) <==> AllArrives(numberOf, w, d, s, nw)
  {
    hide *;
    if Native.PlanFor(numberOf, nw).Node? {
      FastHanded(numberOf, w, d, s, nw);
      HandedArrives(numberOf, w, d, s, nw);
    } else {
      FastActs(numberOf, w, d, s, nw);
    }
  }

  lemma HandedArrives(numberOf: NumberReader, w: World, d: Daemon, s: Scene, nw: Native.World)
    requires Native.PlanFor(numberOf, nw).Node?
    ensures AllArrives(numberOf, w, d, s, nw)
  {
    hide Native.PlanFor;
    hide PlanIntercept;
  }

  lemma FastActs(numberOf: NumberReader, w: World, d: Daemon, s: Scene, nw: Native.World)
    requires WholeNumbers(numberOf) && OneMachine(w, d, s, nw) && !Native.PlanFor(numberOf, nw).Node?
    ensures FastRun(numberOf, w, d, s, nw) == NodeMain(w, s) <==> AllArrives(numberOf, w, d, s, nw)
  {
    var plan := PlanIntercept(w, d, s);
    hide OneMachine;
    hide PlanIntercept;
    hide NodeMain;
    hide FastRun;
    hide Came;
    hide Told;
    hide CarryOut;
    hide Native.PlanFor;
    hide Native.LineOf;
    FastCame(numberOf, w, d, s, nw);
    PlanIsNodesRun(w, d, s);
    CarriedOut(w, d, s, plan);
    hide NodeFinds;
    CameAsTold(NameOf(w, s), NodeFile(w, s, plan), EndFor(w, s, plan), NodeEnd(w, s, plan), TrippedFor(w, d, plan),
      ArgsOf(s), nw, plan);
  }

  /** A command the wrapper starts and a numbered signal ends: the wrapper exits 1, Node 128 and the
      signal's number. */
  lemma SignalDiffers(numberOf: NumberReader, w: World, d: Daemon, s: Scene, nw: Native.World, number: nat)
    requires WholeNumbers(numberOf) && OneMachine(w, d, s, nw) && !Native.PlanFor(numberOf, nw).Node?
    requires var plan := PlanIntercept(w, d, s);
      !plan.RefuseAs? && EndFor(w, s, plan) == Signalled(Some(number)) && NodeFile(w, s, plan) == Some(plan.file)
    ensures FastRun(numberOf, w, d, s, nw).exitCode == 1 && NodeMain(w, s).exitCode == 128 + number
  {
    var plan := PlanIntercept(w, d, s);
    hide OneMachine;
    hide PlanIntercept;
    hide NodeMain;
    hide FastRun;
    hide CarryOut;
    hide Native.PlanFor;
    FastCame(numberOf, w, d, s, nw);
    PlanIsNodesRun(w, d, s);
    CarriedOut(w, d, s, plan);
  }

  /** A command that will not start: Node says so and exits 127, 126 or 1; the wrapper exits 1, and says
      nothing between its start and its end but what the breaker called. */
  lemma UnstartedDiffers(numberOf: NumberReader, w: World, d: Daemon, s: Scene, nw: Native.World)
    requires WholeNumbers(numberOf) && OneMachine(w, d, s, nw) && !Native.PlanFor(numberOf, nw).Node?
    requires var plan := PlanIntercept(w, d, s);
      plan.Pass? && EndFor(w, s, plan).NotStarted? && NodeFile(w, s, plan) == Some(plan.file)
    ensures var plan := PlanIntercept(w, d, s);
      var end, start := EndFor(w, s, plan), Start(plan.file, ArgsOf(s), plan.path);
      && FastRun(numberOf, w, d, s, nw) == Run([start], 1)
      && NodeMain(w, s) == Run([start, Say("memnox: could not run " + NameOf(w, s) + ": " + end.said)],
           if end.error.Missing? then 127 else if end.error.NotExecutable? then 126 else 1)
  {
    var plan := PlanIntercept(w, d, s);
    hide OneMachine;
    hide PlanIntercept;
    hide NodeMain;
    hide FastRun;
    hide CarryOut;
    hide Native.PlanFor;
    FastCame(numberOf, w, d, s, nw);
    PlanIsNodesRun(w, d, s);
    CarriedOut(w, d, s, plan);
  }

  /** A file that is there and may not be run, with none after it that may: the daemon has it started, and
      Node says there is none. */
  lemma PresentDiffers(numberOf: NumberReader, w: World, d: Daemon, s: Scene, nw: Native.World)
    requires WholeNumbers(numberOf) && OneMachine(w, d, s, nw) && !Native.PlanFor(numberOf, nw).Node?
    requires PlanIntercept(w, d, s).Pass? && NodeFile(w, s, PlanIntercept(w, d, s)).None?
    ensures var plan := PlanIntercept(w, d, s);
      && FastRun(numberOf, w, d, s, nw).deeds == [Start(plan.file, ArgsOf(s), plan.path)]
      && NodeMain(w, s) == Run([NotFound(NameOf(w, s))], NOT_FOUND)
  {
    var plan := PlanIntercept(w, d, s);
    hide OneMachine;
    hide PlanIntercept;
    hide NodeMain;
    hide FastRun;
    hide CarryOut;
    hide Native.PlanFor;
    FastCame(numberOf, w, d, s, nw);
    PlanIsNodesRun(w, d, s);
    CarriedOut(w, d, s, plan);
  }

  /** A command whose report is lost: Node counts it and keeps its code; the daemon keeps a row without
      one, where it heard of the plan acted on, and counts nothing. */
  lemma LostReport(numberOf: NumberReader, w: World, d: Daemon, s: Scene, nw: Native.World)
    requires WholeNumbers(numberOf) && OneMachine(w, d, s, nw) && !Native.PlanFor(numberOf, nw).Node?
    requires PlanIntercept(w, d, s).RunAs? && !nw.ranWritten
    ensures var plan := PlanIntercept(w, d, s);
      FastRun(numberOf, w, d, s, nw).deeds == Said(plan.notes) + ([Start(plan.file, ArgsOf(s), plan.path)]
        + if nw.actedWritten then [Record(plan.pending.row)] else [])
  {
    var plan := PlanIntercept(w, d, s);
    hide OneMachine;
    hide PlanIntercept;
    hide FastRun;
    hide Native.PlanFor;
    FastCame(numberOf, w, d, s, nw);
  }
}
