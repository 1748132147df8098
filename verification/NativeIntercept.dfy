/** The native wrapper as one run: what it asks of the daemon, what it starts or says, and when it
    leaves the command to Node. Whatever the socket, the environment and the child process do is in
    the `World`; what the wrapper does is the list of its effects. */
module NativeIntercept {
  import opened Basics
  import opened Json
  import opened JsonDoc
  import opened Protocol

  const NODE_INTERCEPTOR := "memnox-intercept"
  const MEMNOX_HOME := ".memnox"
  const INTERCEPTOR_DIR := "bin"

  /** The exit code for a child that ended without one, and for a child that never started. */
  const FAILED := 1

  /** What everything outside the wrapper does, in any combination. */
  datatype World = World(
    off: bool,                                        // the switch that sends every command to Node
    args: seq<Option<string>>,                        // after the program's own name; None is not UTF-8
    vars: seq<(Option<string>, Option<string>)>,
    home: Option<string>,
    cwd: Option<string>,
    ppid: nat,
    connects: bool,
    readTimeoutSet: bool,
    writeTimeoutSet: bool,
    requestWritten: bool,
    answer: Option<string>,                           // what `read_line` gave, or None for an error
    actedWritten: bool,
    spawned: Option<Option<int>>,                     // an exit code, none for a signal, or no start at all
    reportTimeoutSet: bool,
    ranWritten: bool,
    report: Option<string>)

  datatype Effect =
    | Sent(line: string)
    | Said(line: string)
    | Started(file: string, args: seq<string>, path: string)
    | HandedToNode(forwarded: seq<Option<string>>)
    | Exited(code: int)

  // ---------------------------------------------------------------- small readers

  predicate IsWhite(c: char) {
    var n := c as int;
    || 9 <= n <= 13 || n == 0x20 || n == 0x85 || n == 0xA0 || n == 0x1680 || 0x2000 <= n <= 0x200A
    || n == 0x2028 || n == 0x2029 || n == 0x202F || n == 0x205F || n == 0x3000
  }

  /** A whole line, or None for an error, the end of the stream and a line cut short. */
  function LineOf(read: Option<string>): Option<string> {
    if read.None? || read.value == "" || read.value[|read.value| - 1] != '\n' then None
    else Some(TrimEnd(IsWhite, read.value))
  }

  /** What is read of an answer is a whole line without the white space at its end; a line cut short, and the
      end of the stream, are no answer. */
  lemma WholeLines(read: Option<string>)
    ensures LineOf(read).Some? <==> read.Some? && exists text :: read.value == text + "\n"
    ensures LineOf(read).Some? ==>
      exists white :: read.value == LineOf(read).value + white && forall c | c in white :: IsWhite(c)
    ensures LineOf(read).Some? && LineOf(read).value != "" ==> !IsWhite(LineOf(read).value[|LineOf(read).value| - 1])
  {
    if read.Some? && read.value != "" && read.value[|read.value| - 1] == '\n' {
      assert read.value == read.value[..|read.value| - 1] + "\n";
      var white := Trimmed(read.value);
    }
    if read.Some? {
      if text :| read.value == text + "\n" {
        assert read.value[|read.value| - 1] == '\n';
      }
    }
  }

  lemma {:induction false} Trimmed(s: string) returns (white: string)
    ensures s == TrimEnd(IsWhite, s) + white && forall c | c in white :: IsWhite(c)
    ensures TrimEnd(IsWhite, s) != "" ==> !IsWhite(TrimEnd(IsWhite, s)[|TrimEnd(IsWhite, s)| - 1])
  {
    if s != "" && IsWhite(s[|s| - 1]) {
      var rest := Trimmed(s[..|s| - 1]);
      white := rest + [s[|s| - 1]];
      assert s == s[..|s| - 1] + [s[|s| - 1]];
      Associate(TrimEnd(IsWhite, s), rest, [s[|s| - 1]]);
    } else {
      white := "";
    }
  }

  function FileName(path: string): string {
    var parts := Split(path, '/');
    parts[|parts| - 1]
  }

  /** A path's components after its root: empty pieces and single dots name nothing. */
  function Components(parts: seq<string>): seq<string> {
    if parts == [] then []
    else if parts[0] == "" || parts[0] == "." then Components(parts[1..])
    else [parts[0]] + Components(parts[1..])
  }

  predicate IsSelf(file: string) {
    NODE_INTERCEPTOR <= FileName(file)
  }

  predicate EndsWith(s: seq<string>, tail: seq<string>) {
    |tail| <= |s| && s[|s| - |tail|..] == tail
  }

  /** The directory a file is in, by components. */
  function Parent(file: string): Option<seq<string>> {
    var parts := Components(Split(file, '/'));
    if parts == [] then None else Some(parts[..|parts| - 1])
  }

  /** The daemon's answer checked again: absolute, never ourselves, never in anybody's shims. */
  predicate Runnable(file: string) {
    && "/" <= file
    && !IsSelf(file)
    && Parent(file).Some?
    && !EndsWith(Parent(file).value, [MEMNOX_HOME, INTERCEPTOR_DIR])
  }

  // ---------------------------------------------------------------- what is decided

  ghost predicate AllText(args: seq<Option<string>>) {
    forall i | 0 <= i < |args| :: args[i].Some?
  }

  function Argv(args: seq<Option<string>>): seq<string>
    requires AllText(args)
  {
    seq(|args|, i requires 0 <= i < |args| => args[i].value)
  }

  ghost predicate NamedOnce(vars: seq<(Option<string>, Option<string>)>) {
    && (forall i | 0 <= i < |vars| :: vars[i].0.Some? && vars[i].1.Some?)
    && (forall i, j | 0 <= i < j < |vars| :: vars[i].0 != vars[j].0)
  }

  function Pairs(vars: seq<(Option<string>, Option<string>)>): seq<Pair>
    requires forall i | 0 <= i < |vars| :: vars[i].0.Some? && vars[i].1.Some?
  {
    seq(|vars|, i requires 0 <= i < |vars| => (vars[i].0.value, vars[i].1.value))
  }

  /** Nothing about the command keeps the daemon from being asked about it. */
  ghost predicate MayAsk(w: World) {
    && !w.off
    && AllText(w.args) && w.args != [] && !IsSelf(w.args[0].value)
    && NamedOnce(w.vars)
    && w.home.Some? && w.home.value != "" && w.cwd.Some?
    && w.connects && w.readTimeoutSet && w.writeTimeoutSet
  }

  ghost function Request(w: World): string
    requires MayAsk(w)
  {
    LineText(Argv(w.args), Pairs(w.vars), w.cwd.value, w.ppid)
  }

  /** The plan acted on: the daemon's where everything went well and its file may be run. */
  ghost function PlanFor(numberOf: NumberReader, w: World): Plan {
    if !MayAsk(w) || !w.requestWritten || LineOf(w.answer).None? then Plan.Node
    else
      var plan := PlanOf(numberOf, LineOf(w.answer).value);
      if (plan.Pass? || plan.Run?) && !Runnable(plan.file) then Plan.Node else plan
  }

  ghost function SaidAll(notes: seq<string>): seq<Effect> {
    if notes == [] then [] else [Said(notes[0])] + SaidAll(notes[1..])
  }

  ghost function SentIf(written: bool, line: string): seq<Effect> {
    if written then [Sent(line)] else []
  }

  function ExitCode(spawned: Option<Option<int>>): int {
    match spawned
    case Some(Some(code)) => code
    case _ => FAILED
  }

  /** The notes of the report's answer, where one came for this report. */
  function ReportNotes(numberOf: NumberReader, report: Option<string>): seq<string> {
    match LineOf(report)
    case None => []
    case Some(line) =>
      match Parsed(numberOf, line)
      case None => []
      case Some(value) =>
        if IntegerField(value, "id") != Some(RAN_ID) || NotesOf(value).None? then []
        else NotesOf(value).value
  }

  ghost function ReportEffects(numberOf: NumberReader, w: World, code: int): seq<Effect> {
    if !w.reportTimeoutSet || !w.ranWritten then []
    else [Sent(RanLine(code))] + SaidAll(ReportNotes(numberOf, w.report))
  }

  ghost function Asked(w: World): seq<Effect> {
    if MayAsk(w) then SentIf(w.requestWritten, Request(w)) else []
  }

  /** What follows a plan. */
  ghost function Acted(numberOf: NumberReader, w: World, plan: Plan): seq<Effect>
    requires !plan.Node? ==> AllText(w.args) && w.args != []
  {
    match plan
    case Node => [HandedToNode(w.args)]
    case Pass(file, path) => [Started(file, Argv(w.args)[1..], path)] + [Exited(ExitCode(w.spawned))]
    case Refuse(notes, exitCode) =>
      SaidAll(notes) + (SentIf(w.actedWritten, ActedLine()) + [Exited(exitCode)])
    case Run(file, path, notes) =>
      SaidAll(notes) + (SentIf(w.actedWritten, ActedLine())
        + ([Started(file, Argv(w.args)[1..], path)]
          + (ReportEffects(numberOf, w, ExitCode(w.spawned)) + [Exited(ExitCode(w.spawned))])))
  }

  /** Everything one run of the wrapper does, in order. */
  ghost function Effects(numberOf: NumberReader, w: World): seq<Effect> {
    Asked(w) + Acted(numberOf, w, PlanFor(numberOf, w))
  }

  // ---------------------------------------------------------------- what that comes to

  function Starts(e: seq<Effect>): nat {
    if e == [] then 0 else (if e[0].Started? then 1 else 0) + Starts(e[1..])
  }

  function Handovers(e: seq<Effect>): nat {
    if e == [] then 0 else (if e[0].HandedToNode? then 1 else 0) + Handovers(e[1..])
  }

  lemma {:induction false} CountConcat(a: seq<Effect>, b: seq<Effect>)
    ensures Starts(a + b) == Starts(a) + Starts(b)
    ensures Handovers(a + b) == Handovers(a) + Handovers(b)
  {
    if a == [] {
      assert a + b == b;
    } else {
      assert (a + b)[0] == a[0] && (a + b)[1..] == a[1..] + b;
      CountConcat(a[1..], b);
    }
  }

  lemma CountOne(e: Effect)
    ensures Starts([e]) == if e.Started? then 1 else 0
    ensures Handovers([e]) == if e.HandedToNode? then 1 else 0
  {
    assert [e][1..] == [];
  }

  lemma {:induction false} CountSaid(notes: seq<string>)
    ensures Starts(SaidAll(notes)) == 0 && Handovers(SaidAll(notes)) == 0
  {
    if notes != [] {
      CountSaid(notes[1..]);
      CountConcat([Said(notes[0])], SaidAll(notes[1..]));
      CountOne(Said(notes[0]));
    }
  }

  lemma CountSent(written: bool, line: string)
    ensures Starts(SentIf(written, line)) == 0 && Handovers(SentIf(written, line)) == 0
  {
    CountOne(Sent(line));
  }

  lemma CountReport(numberOf: NumberReader, w: World, code: int)
    ensures Starts(ReportEffects(numberOf, w, code)) == 0 && Handovers(ReportEffects(numberOf, w, code)) == 0
  {
    CountOne(Sent(RanLine(code)));
    CountSaid(ReportNotes(numberOf, w.report));
    CountConcat([Sent(RanLine(code))], SaidAll(ReportNotes(numberOf, w.report)));
  }

  lemma CountAsked(w: World)
    ensures Starts(Asked(w)) == 0 && Handovers(Asked(w)) == 0
  {
    if MayAsk(w) {
      CountSent(w.requestWritten, Request(w));
    }
  }

  lemma CountActed(numberOf: NumberReader, w: World, plan: Plan)
    requires !plan.Node? ==> AllText(w.args) && w.args != []
    ensures var e := Acted(numberOf, w, plan);
      && Starts(e) == (if plan.Pass? || plan.Run? then 1 else 0)
      && Handovers(e) == (if plan.Node? then 1 else 0)
  {
    var code := ExitCode(w.spawned);
    var sent := SentIf(w.actedWritten, ActedLine());
    CountSent(w.actedWritten, ActedLine());
    CountOne(Exited(code));
    match plan
    case Node => CountOne(HandedToNode(w.args));
    case Pass(file, path) =>
      var start := Started(file, Argv(w.args)[1..], path);
      CountOne(start);
      CountConcat([start], [Exited(code)]);
    case Refuse(notes, exitCode) =>
      CountSaid(notes);
      CountOne(Exited(exitCode));
      CountConcat(sent, [Exited(exitCode)]);
      CountConcat(SaidAll(notes), sent + [Exited(exitCode)]);
    case Run(file, path, notes) =>
      var start := Started(file, Argv(w.args)[1..], path);
      CountOne(start);
      CountSaid(notes);
      CountReport(numberOf, w, code);
      var ending := ReportEffects(numberOf, w, code) + [Exited(code)];
      CountConcat(ReportEffects(numberOf, w, code), [Exited(code)]);
      CountConcat([start], ending);
      CountConcat(sent, [start] + ending);
      CountConcat(SaidAll(notes), sent + ([start] + ending));
  }

  /** Whatever the daemon, the socket and the child do, the command is started once and never
      handed to Node, or handed to Node once and never started, or refused and neither. */
  lemma OneHandler(numberOf: NumberReader, w: World)
    ensures var e := Effects(numberOf, w);
      match PlanFor(numberOf, w)
      case Node => Starts(e) == 0 && Handovers(e) == 1
      case Refuse(_, _) => Starts(e) == 0 && Handovers(e) == 0
      case _ => Starts(e) == 1 && Handovers(e) == 0
  {
    CountAsked(w);
    CountActed(numberOf, w, PlanFor(numberOf, w));
    CountConcat(Asked(w), Acted(numberOf, w, PlanFor(numberOf, w)));
  }

  /** What an effect that starts a command rests on: a whole line that answers request 1 at version 1
      and says all is well, whose file, which may be run, is the one started, with the arguments the
      wrapper was given and the answer's PATH. */
  ghost predicate Answered(numberOf: NumberReader, w: World, e: Effect)
    requires e.Started?
  {
    && w.requestWritten && LineOf(w.answer).Some? && Parsed(numberOf, LineOf(w.answer).value).Some?
    && AllText(w.args) && w.args != []
    && var value := Parsed(numberOf, LineOf(w.answer).value).value;
       && IntegerField(value, "id") == Some(PLAN_ID)
       && IntegerField(value, "fast") == Some(VERSION)
       && value.Field("ok") == Some(Bool(true))
       && TextField(value, "real") == Some(e.file)
       && TextField(value, "path") == Some(e.path)
       && e.args == Argv(w.args)[1..]
       && Runnable(e.file)
  }

  lemma {:induction false} OnlySaid(notes: seq<string>)
    ensures forall e | e in SaidAll(notes) :: e.Said?
  {
    if notes != [] {
      OnlySaid(notes[1..]);
    }
  }

  lemma OnlyStart(numberOf: NumberReader, w: World, plan: Plan, e: Effect)
    requires !plan.Node? ==> AllText(w.args) && w.args != []
    requires e in Acted(numberOf, w, plan) && e.Started?
    ensures plan.Pass? || plan.Run?
    ensures e == Started(plan.file, Argv(w.args)[1..], plan.path)
  {
    if plan.Run? || plan.Refuse? {
      OnlySaid(plan.notes);
    }
    OnlySaid(ReportNotes(numberOf, w.report));
    hide SaidAll;
    hide ReportNotes;
    hide ActedLine;
    hide RanLine;
  }

  /** Whatever is started was answered for. */
  lemma StartNeedsAnswer(numberOf: NumberReader, w: World, e: Effect)
    requires e in Effects(numberOf, w) && e.Started?
    ensures Answered(numberOf, w, e)
  {
    hide PlanOf;
    hide Acted;
    hide Parsed;
    hide LineOf;
    hide Runnable;
    var plan := PlanFor(numberOf, w);
    assert e in Acted(numberOf, w, plan);
    OnlyStart(numberOf, w, plan, e);
    PlanNeedsVersion(numberOf, LineOf(w.answer).value);
  }

  // ---------------------------------------------------------------- the wrapper

  class Wrapper {
    const numberOf: NumberReader
    const world: World
    var effects: seq<Effect>

    constructor (numberOf: NumberReader, world: World)
      ensures this.numberOf == numberOf && this.world == world && effects == []
    {
      this.numberOf, this.world, effects := numberOf, world, [];
    }

    method Say(notes: seq<string>)
      modifies this
      ensures effects == old(effects) + SaidAll(notes)
    {
      var i := 0;
      while i < |notes|
        invariant 0 <= i <= |notes|
        invariant effects + SaidAll(notes[i..]) == old(effects) + SaidAll(notes)
      {
        Associate(effects, [Said(notes[i])], SaidAll(notes[i + 1..]));
        effects := effects + [Said(notes[i])];
        i := i + 1;
      }
    }

    method Send(line: string, written: bool) returns (ok: bool)
      modifies this
      ensures ok == written && effects == old(effects) + SentIf(written, line)
    {
      if written {
        effects := effects + [Sent(line)];
      }
      ok := written;
    }

    /** Every argument as text, or None where one is not. */
    method TextArgs() returns (argv: Option<seq<string>>)
      ensures argv == if AllText(world.args) then Some(Argv(world.args)) else None
    {
      var out: seq<string> := [];
      for i := 0 to |world.args|
        invariant AllText(world.args[..i]) && out == Argv(world.args[..i])
      {
        if world.args[i].None? {
          return None;
        }
        out := out + [world.args[i].value];
      }
      assert world.args[..|world.args|] == world.args;
      argv := Some(out);
    }

    /** The environment as pairs, if every name and value is text and no name comes twice. */
    method Environment() returns (pairs: Option<seq<Pair>>)
      ensures pairs == if NamedOnce(world.vars) then Some(Pairs(world.vars)) else None
    {
      var vars := world.vars;
      var seen: set<string> := {};
      var out: seq<Pair> := [];
      for i := 0 to |vars|
        invariant NamedOnce(vars[..i]) && out == Pairs(vars[..i])
        invariant forall name :: name in seen <==> exists j | 0 <= j < i :: vars[j].0 == Some(name)
      {
        if vars[i].0.None? || vars[i].1.None? {
          return None;
        }
        var name := vars[i].0.value;
        if name in seen {
          return None;
        }
        seen := seen + {name};
        out := out + [(name, vars[i].1.value)];
      }
      assert vars[..|vars|] == vars;
      pairs := Some(out);
    }

    /** Asks the daemon, where nothing about the command keeps it from being asked. */
    method Ask() returns (argv: seq<string>, answer: Option<string>)
      modifies this
      ensures effects == old(effects) + Asked(world)
      ensures answer == if MayAsk(world) && world.requestWritten then LineOf(world.answer) else None
      ensures answer.Some? ==> argv == Argv(world.args)
    {
      var w := world;
      argv, answer := [], None;
      if w.off {
        return;
      }
      var texts := TextArgs();
      if texts.None? || texts.value == [] || IsSelf(texts.value[0]) {
        return;
      }
      argv := texts.value;
      var env := Environment();
      if env.None? || w.home.None? || w.home.value == "" || w.cwd.None? {
        return;
      }
      var line := InterceptLine(argv, env.value, w.cwd.value, w.ppid);
      if !w.connects || !w.readTimeoutSet || !w.writeTimeoutSet {
        return;
      }
      var written := Send(line, w.requestWritten);
      if written {
        answer := LineOf(w.answer);
      }
    }

    /** Does what a plan says; past a started command nothing falls back to Node. */
    method Act(plan: Plan, argv: seq<string>) returns (exit: int)
      requires !plan.Node? && AllText(world.args) && world.args != [] && argv == Argv(world.args)
      modifies this
      ensures effects + [Exited(exit)] == old(effects) + Acted(numberOf, world, plan)
    {
      ghost var sent := SentIf(world.actedWritten, ActedLine());
      if plan.Pass? {
        Associate(effects, [Started(plan.file, argv[1..], plan.path)], [Exited(ExitCode(world.spawned))]);
        effects := effects + [Started(plan.file, argv[1..], plan.path)];
        return ExitCode(world.spawned);
      }
      exit := if plan.Refuse? then plan.exitCode else ExitCode(world.spawned);
      ghost var start := [Started(if plan.Run? then plan.file else "", argv[1..], if plan.Run? then plan.path else "")];
      ghost var ending := if plan.Refuse? then [Exited(exit)]
        else start + (ReportEffects(numberOf, world, exit) + [Exited(exit)]);
      Associate(effects, SaidAll(plan.notes), sent + ending);
      Say(plan.notes);
      Associate(effects, sent, ending);
      var _ := Send(ActedLine(), world.actedWritten);
      if plan.Refuse? {
        return;
      }
      Associate(effects, start, ReportEffects(numberOf, world, exit) + [Exited(exit)]);
      effects := effects + [Started(plan.file, argv[1..], plan.path)];
      Associate(effects, ReportEffects(numberOf, world, exit), [Exited(exit)]);
      Report(exit);
    }

    /** Runs the fast path; none means that Node is to run the command instead. */
    method Fast() returns (code: Option<int>)
      requires effects == []
      modifies this
      ensures match code
        case Some(exit) => effects + [Exited(exit)] == Effects(numberOf, world)
        case None => effects + [HandedToNode(world.args)] == Effects(numberOf, world)
      ensures code.None? <==> PlanFor(numberOf, world).Node?
    {
      var argv, answer := Ask();
      assert effects == Asked(world);
      if answer.None? {
        return None;
      }
      var plan := PlanOf(numberOf, answer.value);
      if plan.Node? || ((plan.Pass? || plan.Run?) && !Runnable(plan.file)) {
        return None;
      }
      var exit := Act(plan, argv);
      return Some(exit);
    }

    /** Reports the exit code, and prints what the reply to that report holds. */
    method Report(exit: int)
      modifies this
      ensures effects == old(effects) + ReportEffects(numberOf, world, exit)
    {
      if !world.reportTimeoutSet {
        return;
      }
      var written := Send(RanLine(exit), world.ranWritten);
      if !written {
        return;
      }
      Associate(old(effects), [Sent(RanLine(exit))], SaidAll(ReportNotes(numberOf, world.report)));
      var line := LineOf(world.report);
      if line.None? {
        return;
      }
      var value := Parsed(numberOf, line.value);
      if value.None? || IntegerField(value.value, "id") != Some(RAN_ID) {
        return;
      }
      var notes := NotesOf(value.value);
      if notes.Some? {
        Say(notes.value);
      }
    }

    method Handle()
      requires effects == []
      modifies this
      ensures effects == Effects(numberOf, world)
    {
      var code := Fast();
      if code.Some? {
        effects := effects + [Exited(code.value)];
      } else {
        effects := effects + [HandedToNode(world.args)];
      }
    }
  }
}
