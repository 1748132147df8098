/** A machine, and the runs on it in which the fast path and Node differ: none of the cases in which
    `FastPath` says they do is empty. */
module FastPathRuns {
  import opened Basics
  import opened Json
  import opened JsonDoc
  import opened JsonTree
  import opened FastIntercept
  import opened FastPath
  import ShellAction
  import Wire = Protocol
  import Native = NativeIntercept

  const COMMAND := "c"
  const FILE := "/c"
  const DIRECTORY := "b"
  const OWN_HOME := "/h"

  const VARS: seq<Wire.Pair> := [(HOME, OWN_HOME), ("PATH", DIRECTORY), ("AI_AGENT", "a")]

  /** A machine with one command on PATH, no rules, and a command that comes to a given end. Its home is
      protected or not, and the command's file may be run or is only there. */
  ghost function Machine(guarded: bool, runs: bool, end: ChildEnd): World {
    World(
      Lookup(
        "", name => name, (directory, name) => FILE, file => false, (directory, home) => false, file => true,
        file => runs, name => name, parent => []),
      Memory(
        home => !guarded, (home, session) => None, home => Enforce, home => [], (home, overlays) => "",
        (home, session) => None),
      Rules(
        (cwd, env) => None, (home, env, cwd, root) => None, (home, env, cwd, root) => [],
        (binary, args, env) => BinaryVerdict("run", "local", None, ""), (policies, overlays) => [],
        (verdict, ruling) => "", (effect, action, target, reason) => ""),
      Seams(
        (verdict, reason) => No("", None), (target, cwd) => false, binary => false, args => None, words => false,
        action => None, line => [], NoNames(), ShellAction.Checkout(() => None, () => None, name => None),
        (file, args, path) => end))
  }

  function NoNames(): ShellAction.Names {
    ShellAction.Names(
      (repository, noun, number) => None, (url, branch) => None, word => None, word => None,
      cls => false, words => false)
  }

  function OneDaemon(): Daemon {
    Daemon(OWN_HOME, OWN_HOME, map[])
  }

  function OneScene(): Scene {
    SceneFor([COMMAND], VARS, OWN_HOME, 1)
  }

  /** The wrapper on it, given the daemon's answer: everything goes well, but perhaps the report. */
  function OneWrapper(answer: string, end: ChildEnd, reported: bool): Native.World {
    Native.World(
      false, [Some(COMMAND)],
      [(Some(HOME), Some(OWN_HOME)), (Some("PATH"), Some(DIRECTORY)), (Some("AI_AGENT"), Some("a"))],
      Some(OWN_HOME), Some(OWN_HOME), 1, true, true, true, true, Some(answer + "\n"),
      true, Spawned(end), true, reported, None)
  }

  /** What the daemon plans there. */
  ghost function OnePlan(guarded: bool): Plan {
    if !guarded then Pass(FILE, DIRECTORY)
    else
      var outcome := BaseOutcome(COMMAND, [], BinaryVerdict("run", "local", None, ""), Enforce);
      RunAs(FILE, DIRECTORY, [], Pending(Row("", outcome, Allow, "no rule matched", None, None, None), false))
  }

  lemma EnvironmentIs()
    ensures OneScene().env == map[HOME := OWN_HOME, "PATH" := DIRECTORY, "AI_AGENT" := "a"]
  {
    var one, two := [VARS[0]], [VARS[0], VARS[1]];
    assert one[..0] == [] && EnvironmentOf(one) == map[HOME := OWN_HOME];
    assert two[..1] == one && EnvironmentOf(two) == map[HOME := OWN_HOME, "PATH" := DIRECTORY];
    assert VARS[..2] == two;
  }

  lemma SplitsOnce(s: string, at: char)
    requires |s| == 1 && s[0] != at
    ensures Split(s, at) == [s]
  {
    assert s[1..] == "" && s == [s[0]] + "";
    assert [s] + [""][1..] == [s];
  }

  lemma NotDiscovery()
    ensures !FindsRepositoryElsewhere(OneScene().env, map[])
  {
    EnvironmentIs();
    assert !IsDiscovery(HOME) && !IsDiscovery("PATH") && !IsDiscovery("AI_AGENT");
  }

  lemma LooksUp(guarded: bool, runs: bool, end: ChildEnd)
    ensures var w := Machine(guarded, runs, end);
      && RealPath(w, DIRECTORY, OWN_HOME) == DIRECTORY
      && ResolveReal(w, w.lookup.present, COMMAND, DIRECTORY) == Some(FILE)
      && NodeFinds(w, COMMAND, DIRECTORY) == if runs then Some(FILE) else None
  {
    var w := Machine(guarded, runs, end);
    SplitsOnce(DIRECTORY, ':');
    assert Theirs(w, [DIRECTORY], OWN_HOME) == [DIRECTORY] by { assert [DIRECTORY][1..] == []; }
    assert [DIRECTORY][1..] == [];
  }

  lemma PlanIs(guarded: bool, runs: bool, end: ChildEnd)
    ensures PlanIntercept(Machine(guarded, runs, end), OneDaemon(), OneScene()) == OnePlan(guarded)
  {
    var w, d, s := Machine(guarded, runs, end), OneDaemon(), OneScene();
    EnvironmentIs();
    NotDiscovery();
    LooksUp(guarded, runs, end);
    hide FindsRepositoryElsewhere;
    hide EnvironmentOf;
    hide RealPath;
    hide ResolveReal;
    assert s.argv == [COMMAND] && s.argv[1..] == [];
    assert Locate(w, d, s) == Some(Located(COMMAND, [], FILE, DIRECTORY));
    hide Locate;
    if guarded {
      Guarded(w, d, s);
    }
  }

  lemma Guarded(w: World, d: Daemon, s: Scene)
    requires exists runs, end :: w == Machine(true, runs, end)
    requires d == OneDaemon() && s.env == map[HOME := OWN_HOME, "PATH" := DIRECTORY, "AI_AGENT" := "a"]
    requires RealPath(w, DIRECTORY, OWN_HOME) == DIRECTORY
    ensures PlanGoverned(w, d, s, Located(COMMAND, [], FILE, DIRECTORY)) == OnePlan(true)
    ensures !PassesThrough(w, d, s)
  {
    hide RealPath;
    assert Marker(s.env, MARKERS).Some? by {
      assert MARKERS[3] == "AI_AGENT";
      MarkerFound(s.env, MARKERS, 3);
    }
    assert Warned([]) == [];
  }

  lemma {:induction false} MarkerFound(env: Environment, names: seq<string>, i: nat)
    requires i < |names| && ValueOf(env, names[i]) != ""
    ensures Marker(env, names).Some?
  {
    if i > 0 && ValueOf(env, names[0]) == "" {
      MarkerFound(env, names[1..], i - 1);
    }
  }

  // ---------------------------------------------------------------- the daemon's line

  lemma {:induction false} EndsInBrace(members: Members)
    ensures var s := PrintMembers(members); s != "" && s[|s| - 1] == '}'
  {
    match members
    case LastMember(name, item) =>
    case NextMember(name, item, more) => EndsInBrace(more);
  }

  /** A spelling of some fields, and what is read of it once it is sent as a line. */
  lemma Sends(fields: map<string, Json>) returns (line: string)
    requires Tree(Object(fields), 2)
    ensures Spells(line, fields) && Native.LineOf(Some(line + "\n")) == Some(line)
  {
    var d := Written(Object(fields), 2);
    line := PrintPadded(Unpadded(d));
    assert line == Print(d) by { assert "" + (Print(d) + "") == Print(d); }
    if d.ObjectDoc? {
      EndsInBrace(d.members);
    }
    assert line[|line| - 1] == '}';
    Trimmed(line);
  }

  lemma Trimmed(line: string)
    requires line != "" && !Native.IsWhite(line[|line| - 1])
    ensures Native.LineOf(Some(line + "\n")) == Some(line)
  {
    var whole := line + "\n";
    assert whole[..|whole| - 1] == line && whole[|whole| - 1] == '\n';
    assert TrimEnd(Native.IsWhite, line) == line;
  }

  lemma {:induction false} WordTrees(notes: seq<string>)
    ensures forall x | x in Wire.WordValues(notes) :: x.Text?
  {
    if notes != [] {
      WordTrees(notes[1..]);
    }
  }

  lemma AnswerIsTree(guarded: bool)
    ensures Tree(Object(Wire.AnswerFields(ToWire(OnePlan(guarded)))), 2)
  {
    WordTrees([]);
    var fields := Wire.AnswerFields(ToWire(OnePlan(guarded)));
    assert (Wire.PLAN_ID as real).Floor == Wire.PLAN_ID && (Wire.VERSION as real).Floor == Wire.VERSION;
    forall name | name in fields ensures Tree(fields[name], 1) {
    }
  }

  lemma WrapperAsks(answer: string, end: ChildEnd, reported: bool)
    ensures var nw := OneWrapper(answer, end, reported);
      && Native.MayAsk(nw) && OneScene() == SceneFor(Native.Argv(nw.args), Native.Pairs(nw.vars), nw.cwd.value, nw.ppid)
  {
    var nw := OneWrapper(answer, end, reported);
    assert Native.Argv(nw.args) == [COMMAND];
    assert Native.Pairs(nw.vars) == VARS;
    SplitsOnce(COMMAND, '/');
    assert !Native.IsSelf(COMMAND);
  }

  lemma FileRuns()
    ensures Native.Runnable(FILE)
  {
    assert Split("c", '/') == ["c"] by { SplitsOnce("c", '/'); }
    assert FILE[1..] == "c";
    assert Split(FILE, '/') == ["", "c"];
    assert ["", "c"][1..] == ["c"] && ["c"][1..] == [];
    assert Native.Components(["c"]) == ["c"] && Native.Components(["", "c"]) == ["c"];
  }

  lemma EndsThere(guarded: bool, runs: bool, end: ChildEnd)
    ensures var w, s := Machine(guarded, runs, end), OneScene();
      EndFor(w, s, OnePlan(guarded)) == end && NodeFile(w, s, OnePlan(guarded)) == if runs then Some(FILE) else None
  {
    LooksUp(guarded, runs, end);
    hide NodeFinds;
  }

  /** The wrapper and the daemon are about one command there, and the wrapper acts on the daemon's plan. */
  lemma WrapperActs(numberOf: NumberReader, guarded: bool, runs: bool, end: ChildEnd, reported: bool)
    returns (nw: Native.World)
    requires WholeNumbers(numberOf) && (end.Exited? ==> -0x8000_0000 <= end.code < 0x8000_0000)
    ensures OneMachine(Machine(guarded, runs, end), OneDaemon(), OneScene(), nw)
    ensures !Native.PlanFor(numberOf, nw).Node? && nw.actedWritten && nw.ranWritten == reported
  {
    var w, d, s := Machine(guarded, runs, end), OneDaemon(), OneScene();
    var plan := OnePlan(guarded);
    AnswerIsTree(guarded);
    PlanIs(guarded, runs, end);
    EndsThere(guarded, runs, end);
    FileRuns();
    hide *;
    var line := Sends(Wire.AnswerFields(ToWire(plan)));
    nw := OneWrapper(line, end, reported);
    WrapperIs(line, end, reported);
    WrapperAsks(line, end, reported);
    PlanFits(guarded);
    Machined(w, d, s, nw, plan, line, end);
    PlanActed(numberOf, w, d, s, nw, line);
  }

  lemma WrapperIs(line: string, end: ChildEnd, reported: bool)
    ensures var nw := OneWrapper(line, end, reported);
      && nw.ppid == 1 && nw.answer == Some(line + "\n") && nw.spawned == Spawned(end) && nw.report == None
      && nw.requestWritten && nw.actedWritten && nw.ranWritten == reported
  {
  }

  lemma PlanFits(guarded: bool)
    ensures var plan := OnePlan(guarded); (plan.Pass? || plan.RunAs?) && plan.file == FILE
  {
  }

  lemma Machined(w: World, d: Daemon, s: Scene, nw: Native.World, plan: Plan, line: string, end: ChildEnd)
    requires PlanIntercept(w, d, s) == plan && (plan.Pass? || plan.RunAs?) && EndFor(w, s, plan) == end
    requires nw.ppid == 1 && nw.spawned == Spawned(end) && nw.report == None
    requires Native.MayAsk(nw) && s == SceneFor(Native.Argv(nw.args), Native.Pairs(nw.vars), nw.cwd.value, nw.ppid)
    requires Native.LineOf(nw.answer) == Some(line) && Spells(line, Wire.AnswerFields(ToWire(plan)))
    requires end.Exited? ==> -0x8000_0000 <= end.code < 0x8000_0000
    ensures OneMachine(w, d, s, nw)
  {
    hide PlanIntercept;
    hide Native.MayAsk;
    hide Spells;
    hide Wire.AnswerFields;
    hide EndOf;
    assert Native.LineOf(None).None?;
    hide Native.LineOf;
  }

  lemma PlanActed(numberOf: NumberReader, w: World, d: Daemon, s: Scene, nw: Native.World, line: string)
    requires WholeNumbers(numberOf) && Native.MayAsk(nw) && nw.requestWritten && Native.LineOf(nw.answer) == Some(line)
    requires var plan := PlanIntercept(w, d, s);
      (plan.Pass? || plan.RunAs?) && Native.Runnable(plan.file) && Spells(line, Wire.AnswerFields(ToWire(plan)))
    ensures !Native.PlanFor(numberOf, nw).Node?
  {
    hide PlanIntercept;
    hide Native.MayAsk;
    hide Native.LineOf;
    hide Native.Runnable;
    hide Wire.PlanOf;
    hide Wire.AnswerFields;
    var text: Padded :| LegalPadded(text) && Height(text.doc) <= MOST_DEPTH
      && Meaning(text.doc) == Object(Wire.AnswerFields(ToWire(PlanIntercept(w, d, s)))) && line == PrintPadded(text);
    PlansSurvive(numberOf, w, d, s, text);
  }

  // ---------------------------------------------------------------- the runs that differ

  lemma SceneIs(guarded: bool, runs: bool, end: ChildEnd)
    ensures ArgsOf(OneScene()) == [] && NameOf(Machine(guarded, runs, end), OneScene()) == COMMAND
  {
    assert [COMMAND][1..] == [];
  }

  /** A command a signal ends, for every signal. */
  lemma SignalledRun(number: nat) returns (numberOf: NumberReader, nw: Native.World)
    ensures var w, d, s := Machine(false, true, Signalled(Some(number))), OneDaemon(), OneScene();
      && WholeNumbers(numberOf) && OneMachine(w, d, s, nw)
      && FastRun(numberOf, w, d, s, nw).exitCode == 1 && NodeMain(w, s).exitCode == 128 + number
  {
    hide Machine;
    hide PlanIntercept;
    hide NodeMain;
    hide FastRun;
    hide OneMachine;
    hide Native.PlanFor;
    hide NodeFile;
    hide EndFor;
    var end := Signalled(Some(number));
    numberOf := WholeNumbersMet();
    nw := WrapperActs(numberOf, false, true, end, true);
    PlanIs(false, true, end);
    EndsThere(false, true, end);
    SignalDiffers(numberOf, Machine(false, true, end), OneDaemon(), OneScene(), nw, number);
  }

  /** A file that is there and will not start, for every reason: Node says so, and the wrapper does not. */
  lemma UnstartedRun(error: SpawnError, said: string) returns (numberOf: NumberReader, nw: Native.World)
    ensures var w, d, s := Machine(false, true, NotStarted(error, said)), OneDaemon(), OneScene();
      && WholeNumbers(numberOf) && OneMachine(w, d, s, nw)
      && FastRun(numberOf, w, d, s, nw) == Run([Start(FILE, [], DIRECTORY)], 1)
      && NodeMain(w, s) == Run([Start(FILE, [], DIRECTORY), Say("memnox: could not run " + COMMAND + ": " + said)],
           if error.Missing? then 127 else if error.NotExecutable? then 126 else 1)
  {
    hide Machine;
    hide PlanIntercept;
    hide NodeMain;
    hide FastRun;
    hide OneMachine;
    hide Native.PlanFor;
    hide NodeFile;
    hide EndFor;
    var end := NotStarted(error, said);
    numberOf := WholeNumbersMet();
    nw := WrapperActs(numberOf, false, true, end, true);
    PlanIs(false, true, end);
    EndsThere(false, true, end);
    SceneIs(false, true, end);
    UnstartedDiffers(numberOf, Machine(false, true, end), OneDaemon(), OneScene(), nw);
  }

  /** A file that is there and may not be run: the daemon has it started, and Node says there is none. */
  lemma PresentRun(end: ChildEnd) returns (numberOf: NumberReader, nw: Native.World)
    requires end.Exited? ==> -0x8000_0000 <= end.code < 0x8000_0000
    ensures var w, d, s := Machine(false, false, end), OneDaemon(), OneScene();
      && WholeNumbers(numberOf) && OneMachine(w, d, s, nw)
      && FastRun(numberOf, w, d, s, nw).deeds == [Start(FILE, [], DIRECTORY)]
      && NodeMain(w, s) == Run([NotFound(COMMAND)], NOT_FOUND)
  {
    hide Machine;
    hide PlanIntercept;
    hide NodeMain;
    hide FastRun;
    hide OneMachine;
    hide Native.PlanFor;
    hide NodeFile;
    hide EndFor;
    numberOf := WholeNumbersMet();
    nw := WrapperActs(numberOf, false, false, end, true);
    PlanIs(false, false, end);
    EndsThere(false, false, end);
    SceneIs(false, false, end);
    PresentDiffers(numberOf, Machine(false, false, end), OneDaemon(), OneScene(), nw);
  }

  /** A ruled command whose report is lost: its row says no code, and nothing is counted. */
  lemma UnreportedRun() returns (numberOf: NumberReader, nw: Native.World)
    ensures var w, d, s := Machine(true, true, Exited(0)), OneDaemon(), OneScene();
      && WholeNumbers(numberOf) && OneMachine(w, d, s, nw)
      && FastRun(numberOf, w, d, s, nw).deeds == [Start(FILE, [], DIRECTORY), Record(OnePlan(true).pending.row)]
      && NodeMain(w, s) != FastRun(numberOf, w, d, s, nw)
  {
    hide Machine;
    hide PlanIntercept;
    hide NodeMain;
    hide FastRun;
    hide OneMachine;
    hide Native.PlanFor;
    hide NodeFile;
    hide EndFor;
    var end := ChildEnd.Exited(0);
    numberOf := WholeNumbersMet();
    nw := WrapperActs(numberOf, true, true, end, false);
    PlanIs(true, true, end);
    EndsThere(true, true, end);
    SceneIs(true, true, end);
    LostReport(numberOf, Machine(true, true, end), OneDaemon(), OneScene(), nw);
    assert Said([]) == [];
    FastIsNode(numberOf, Machine(true, true, end), OneDaemon(), OneScene(), nw);
  }
}
