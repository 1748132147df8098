/** What a guarded command comes to, told from what the rules answer: when it is let through, when a
    person is asked, what is started, and what the record says. */
module InterceptRulings {
  import opened Basics
  import opened ShellAction
  import opened ShellClaims
  import opened FastIntercept

  // ---------------------------------------------------------------- one ruling

  /** What the rules in force answer for a command, from where it is run. */
  function Answered(w: World, env: Environment, gate: Option<Gate>, cwd: string, binary: string, args: seq<string>)
    : Option<LocalVerdict>
  {
    if gate.None? then None
    else
      var v := w.rules.verdict(binary, args, env);
      Some(gate.value(Request(v.action, v.cls, v.target), v.target.Some? && w.seams.touches(v.target.value, cwd)))
  }

  /** An answer that stops a command or asks about it: a freeze is a person's own and stops in any mode, and
      enforcing is the one mode in which other answers do. */
  predicate Stops(d: LocalVerdict, mode: Mode) {
    !d.effect.Allow? && (d.frozen || mode.Enforce?)
  }

  /** A command is let through exactly where there are no rules, they do not stop it, or they ask and the
      person says yes; a person is asked exactly where they ask and it stops; and the outcome says of the
      command what the rules said. */
  lemma RulingExactly(
    w: World, env: Environment, gate: Option<Gate>, mode: Mode, overlays: seq<string>, cwd: string,
    person: (BinaryVerdict, string) -> Answer, binary: string, args: seq<string>)
    ensures var v, d := w.rules.verdict(binary, args, env), Answered(w, env, gate, cwd, binary, args);
      var told := RuleOnCommand(w, env, gate, mode, overlays, cwd, person, binary, args);
      var o := told.value; var stops := d.Some? && Stops(d.value, mode);
      && (o.allowed <==> !stops || (d.value.effect.Ask? && person(v, d.value.reason).Yes?))
      && (told.asked <==> stops && d.value.effect.Ask?)
      && o.binary == binary && o.args == args && o.mode == mode
      && o.action == v.action && o.cls == v.cls && o.target == v.target
      && (o.outOfScope <==> d.Some? && d.value.outOfScope)
      && (o.shadowEffect.Some? <==> d.Some? && !d.value.effect.Allow? && !stops)
      && (o.shadowEffect.Some? ==> o.shadowEffect.value == d.value.effect)
      && (o.reason.Some? <==> d.Some? && (!d.value.effect.Allow? || d.value.shadow.Some?))
      && (o.reason.Some? ==> o.reason.value == d.value.reason)
      && (o.rule.Some? <==> d.Some? && !d.value.effect.Allow? && d.value.policies != [])
      && (o.rule.Some? ==> o.rule.value == d.value.policies[0])
      && (o.message.Some? <==> !o.allowed)
  {
  }

  /** What is said of a refusal: the person's words and what they typed where one was asked, and otherwise
      how the refusal reads with what it rests on under it. */
  lemma RefusalSays(
    w: World, env: Environment, gate: Option<Gate>, mode: Mode, overlays: seq<string>, cwd: string,
    person: (BinaryVerdict, string) -> Answer, binary: string, args: seq<string>)
    requires !RuleOnCommand(w, env, gate, mode, overlays, cwd, person, binary, args).value.allowed
    ensures var told := RuleOnCommand(w, env, gate, mode, overlays, cwd, person, binary, args);
      var v, d := w.rules.verdict(binary, args, env), Answered(w, env, gate, cwd, binary, args);
      && d.Some? && told.value.message.Some?
      && (told.asked ==> person(v, d.value.reason) == No(told.value.message.value, told.value.edited))
      && (!told.asked ==>
            && told.value.edited.None?
            && told.value.message.value
               == JoinWith([w.rules.refusal(v, d.value)] + w.rules.evidence(d.value.policies, overlays), "\n"))
  {
  }

  // ---------------------------------------------------------------- what a run holds

  /** The commands started, the calls counted and the rows recorded, each in order. */
  datatype Tally = Tally(starts: seq<Deed>, counts: seq<Deed>, rows: seq<Row>)

  const NOTHING := Tally([], [], [])

  function Add(a: Tally, b: Tally): Tally {
    Tally(a.starts + b.starts, a.counts + b.counts, a.rows + b.rows)
  }

  function One(e: Deed): Tally {
    Tally(if e.Start? then [e] else [], if e.Report? then [e] else [], if e.Record? then [e.row] else [])
  }

  function Sum(deeds: seq<Deed>): Tally {
    if deeds == [] then NOTHING else Add(One(deeds[0]), Sum(deeds[1..]))
  }

  lemma AddNothing(a: Tally)
    ensures Add(a, NOTHING) == a && Add(NOTHING, a) == a
  {
  }

  lemma AddThree(a: Tally, b: Tally, c: Tally)
    ensures Add(Add(a, b), c) == Add(a, Add(b, c))
  {
  }

  lemma {:induction false} SumBoth(a: seq<Deed>, b: seq<Deed>)
    ensures Sum(a + b) == Add(Sum(a), Sum(b))
  {
    hide Add;
    hide One;
    AddNothing(Sum(b));
    if a == [] {
      assert a + b == b;
    } else {
      assert (a + b)[0] == a[0] && (a + b)[1..] == a[1..] + b;
      SumBoth(a[1..], b);
      AddThree(One(a[0]), Sum(a[1..]), Sum(b));
    }
  }

  lemma SumOne(e: Deed)
    ensures Sum([e]) == One(e)
  {
    assert [e][1..] == [];
    AddNothing(One(e));
  }

  lemma SumTwo(e: Deed, f: Deed)
    ensures Sum([e, f]) == Add(One(e), One(f))
  {
    assert [e, f][1..] == [f];
    SumOne(f);
  }

  lemma {:induction false} OnlySaid(lines: seq<string>)
    ensures Sum(Said(lines)) == NOTHING
  {
    if lines != [] {
      OnlySaid(lines[1..]);
      assert Said(lines)[1..] == Said(lines[1..]);
    }
  }

  // ---------------------------------------------------------------- a command let through

  /** Why another agent's claim stops a command, if one does. */
  function ClaimedAway(w: World, binary: string, args: seq<string>, o: Outcome): Option<string> {
    var action := ActionOf(w.seams.names, binary, args, Ruled(o.action, o.cls, o.target), w.seams.checkout).value;
    if action.None? then None else w.seams.claim(action.value)
  }

  /** The row of a command that ran. */
  function RanRow(c: Context, o: Outcome, status: int): Row {
    Row(
      c.provenance, o, Allow, if o.reason.None? then "no rule matched" else o.reason.value, o.rule, c.session,
      Some(status))
  }

  /** A run of a command the rules let through: nothing is started where another agent has claimed what it
      acts on, and it is recorded as refused; where it is not on PATH nothing is started or recorded; and
      otherwise it is started once, counted once, and recorded once with its exit code. */
  ghost predicate CarriedOut(w: World, c: Context, binary: string, args: seq<string>, o: Outcome, run: Run) {
    var refused, file := ClaimedAway(w, binary, args, o), NodeFinds(w, binary, c.path);
    if refused.Some? then
      && run.exitCode == FAILED
      && Sum(run.deeds)
         == Tally([], [], [Row(c.provenance, o.(allowed := false), Deny, refused.value, None, c.session, None)])
    else if file.None? then
      run.exitCode == NOT_FOUND && Sum(run.deeds) == NOTHING
    else
      && run.exitCode == NodeStatus(w.seams.end(file.value, args, c.path))
      && Sum(run.deeds) == Tally(
           [Start(file.value, args, c.path)],
           [Report(o.action, o.target, Some(run.exitCode), o.outOfScope, c.session)],
           [RanRow(c, o, run.exitCode)])
  }

  /** And around it: what another agent's claim is told and noted as; and otherwise a checkpoint first,
      exactly where the command destroys, and the line of a mode that only advises. */
  ghost predicate Announced(w: World, binary: string, args: seq<string>, o: Outcome, run: Run) {
    var refused := ClaimedAway(w, binary, args, o);
    if refused.Some? then
      |run.deeds| == 3 && run.deeds[..2] == [Say("memnox: " + refused.value), Clash(refused.value)]
    else
      && (Checkpoint in run.deeds <==> w.seams.destructive([binary] + args))
      && (w.seams.destructive([binary] + args) ==> run.deeds[0] == Checkpoint)
      && (o.mode.Advise? && o.shadowEffect.Some? ==>
            Say(w.rules.advice(o.shadowEffect.value, o.action, o.target, o.reason)) in run.deeds)
  }

  lemma AfterRun(w: World, c: Context, o: Outcome, status: int)
    ensures var deeds := Afterwards(w, c, o, status);
      && Sum(deeds) == Tally(
           [], [Report(o.action, o.target, Some(status), o.outOfScope, c.session)], [RanRow(c, o, status)])
      && Checkpoint !in deeds
  {
    var report := Report(o.action, o.target, Some(status), o.outOfScope, c.session);
    var row := Record(RanRow(c, o, status));
    var tripped := w.memory.tripped(c.home, c.session);
    SumTwo(report, row);
    if tripped.Some? {
      SumOne(Say(tripped.value));
      SumBoth([report, row], [Say(tripped.value)]);
    } else {
      assert [report, row] + [] == [report, row];
    }
  }

  lemma HandedOne(w: World, path: string, binary: string, args: seq<string>)
    ensures var (deeds, status, ran) := Hand(w, path, binary, args); var file := NodeFinds(w, binary, path);
      && Checkpoint !in deeds && (ran <==> file.Some?)
      && Sum(deeds) == (if file.None? then NOTHING else Tally([Start(file.value, args, path)], [], []))
      && status == if file.None? then NOT_FOUND else NodeStatus(w.seams.end(file.value, args, path))
  {
    hide NodeFinds;
    hide NodeStatus;
    var (deeds, status, ran) := Hand(w, path, binary, args);
    if |deeds| == 2 {
      SumTwo(deeds[0], deeds[1]);
      assert [deeds[0], deeds[1]] == deeds;
    } else {
      SumOne(deeds[0]);
      assert deeds == [deeds[0]];
    }
  }

  lemma ClaimRefuses(w: World, c: Context, binary: string, args: seq<string>, o: Outcome)
    requires ClaimedAway(w, binary, args, o).Some?
    ensures var run := HandAndRecord(w, c, binary, args, o);
      CarriedOut(w, c, binary, args, o, run) && Announced(w, binary, args, o, run)
  {
    hide ActionOf;
    hide NodeFinds;
    hide KeepAndRun;
    var refused := ClaimedAway(w, binary, args, o).value;
    var said, clash := Say("memnox: " + refused), Clash(refused);
    var row := Record(Row(c.provenance, o.(allowed := false), Deny, refused, None, c.session, None));
    SumTwo(said, clash);
    SumOne(row);
    SumBoth([said, clash], [row]);
    assert [said, clash] + [row] == [said, clash, row];
  }

  lemma BeginsWith(kept: seq<Deed>, said: seq<Deed>)
    requires kept == [] || kept == [Checkpoint]
    requires said == [] || (|said| == 1 && said[0].Say?)
    ensures Sum(kept + said) == NOTHING
  {
    SumBoth(kept, said);
    SumOne(Checkpoint);
    if said != [] {
      SumOne(said[0]);
      assert said == [said[0]];
    }
  }

  /** The parts of a run the rules let through. */
  lemma RunInParts(w: World, c: Context, binary: string, args: seq<string>, o: Outcome)
    returns (kept: seq<Deed>, said: seq<Deed>, deeds: seq<Deed>, after: seq<Deed>, status: int)
    ensures kept == if w.seams.destructive([binary] + args) then [Checkpoint] else []
    ensures said == if o.mode.Advise? && o.shadowEffect.Some?
      then [Say(w.rules.advice(o.shadowEffect.value, o.action, o.target, o.reason))] else []
    ensures (deeds, status) == (Hand(w, c.path, binary, args).0, Hand(w, c.path, binary, args).1)
    ensures after == if NodeFinds(w, binary, c.path).Some? then Afterwards(w, c, o, status) else []
    ensures KeepAndRun(w, c, binary, args, o) == Run(kept + said + deeds + after, status)
  {
    hide NodeFinds;
    hide NodeStatus;
    hide Afterwards;
    kept := if w.seams.destructive([binary] + args) then [Checkpoint] else [];
    said := if o.mode.Advise? && o.shadowEffect.Some?
      then [Say(w.rules.advice(o.shadowEffect.value, o.action, o.target, o.reason))] else [];
    deeds, status := Hand(w, c.path, binary, args).0, Hand(w, c.path, binary, args).1;
    after := if NodeFinds(w, binary, c.path).Some? then Afterwards(w, c, o, status) else [];
    HandedOne(w, c.path, binary, args);
    hide Hand;
    assert kept + said + deeds + [] == kept + said + deeds;
  }

  lemma KeptAndRun(w: World, c: Context, binary: string, args: seq<string>, o: Outcome)
    requires ClaimedAway(w, binary, args, o).None?
    ensures var run := KeepAndRun(w, c, binary, args, o);
      CarriedOut(w, c, binary, args, o, run) && Announced(w, binary, args, o, run)
  {
    hide ClaimedAway;
    hide NodeFinds;
    hide NodeStatus;
    hide Hand;
    hide Afterwards;
    hide RanRow;
    hide KeepAndRun;
    hide Sum;
    var kept, said, deeds, after, status := RunInParts(w, c, binary, args, o);
    HandedOne(w, c.path, binary, args);
    AfterRun(w, c, o, status);
    BeginsWith(kept, said);
    SumBoth(kept + said, deeds);
    SumBoth(kept + said + deeds, after);
    InOrder(kept, said, deeds, after);
    assert Sum([]) == NOTHING by { OnlySaid([]); assert Said([]) == []; }
  }

  lemma InOrder(kept: seq<Deed>, said: seq<Deed>, deeds: seq<Deed>, after: seq<Deed>)
    requires (kept == [] || kept == [Checkpoint]) && (said == [] || (|said| == 1 && said[0].Say?))
    requires Checkpoint !in deeds && Checkpoint !in after
    ensures var all := kept + said + deeds + after;
      && (Checkpoint in all <==> kept != []) && (kept != [] ==> all[0] == Checkpoint) && (said != [] ==> said[0] in all)
  {
    var all := kept + said + deeds + after;
    assert forall e :: e in all <==> e in kept || e in said || e in deeds || e in after;
  }

  /** Whatever the rules let through comes to that. */
  lemma LetThroughRuns(w: World, c: Context, binary: string, args: seq<string>, o: Outcome)
    ensures var run := HandAndRecord(w, c, binary, args, o);
      CarriedOut(w, c, binary, args, o, run) && Announced(w, binary, args, o, run)
  {
    if ClaimedAway(w, binary, args, o).Some? {
      ClaimRefuses(w, c, binary, args, o);
    } else {
      KeptAndRun(w, c, binary, args, o);
      hide CarriedOut;
      hide Announced;
      hide KeepAndRun;
      hide ActionOf;
    }
  }

  /** A line claimed under a resource that another agent holds is not started. */
  lemma MeetsAnother(w: World, c: Context, binary: string, args: seq<string>, o: Outcome, resource: string)
    requires ClaimedAs(w.seams.names, binary, args, Ruled(o.action, o.cls, o.target), w.seams.checkout, resource)
    requires w.seams.claim(Action(o.action, o.target, args, Some(resource))).Some?
    ensures var run := HandAndRecord(w, c, binary, args, o);
      && run.exitCode == FAILED && Sum(run.deeds).starts == []
      && |Sum(run.deeds).rows| == 1 && Sum(run.deeds).rows[0].effect == Deny
  {
    LetThroughRuns(w, c, binary, args, o);
    hide HandAndRecord;
    hide ActionOf;
    hide Sum;
  }

  // ---------------------------------------------------------------- a guarded command, whole

  /** The home a scene's environment names, or the one the system has for its user. */
  function HomeFor(w: World, s: Scene): string {
    if "HOME" in s.env then s.env["HOME"] else w.lookup.passwdHome
  }

  /** What Node reads for a scene: the rules of its home and repository, and how they are in force. */
  function Reads(w: World, s: Scene): Context {
    var home := HomeFor(w, s);
    Context(
      home, s.env, s.cwd, RealPath(w, ValueOf(s.env, "PATH"), home), ValueIn(s.env, "MEMNOX_SESSION"),
      w.rules.gate(home, s.env, s.cwd, w.rules.rootOf(s.cwd, Discovery(s.env))),
      w.memory.mode(home), w.memory.overlays(home), w.memory.provenance(home, w.memory.overlays(home)))
  }

  /** What is said of the rules before anything else. */
  function WarningsFor(w: World, s: Scene): seq<string> {
    w.rules.warnings(HomeFor(w, s), s.env, s.cwd, w.rules.rootOf(s.cwd, Discovery(s.env)))
  }

  lemma ReadsIs(w: World, s: Scene)
    ensures HomeOf(w, s.env) == HomeFor(w, s)
    ensures ContextOf(w, HomeOf(w, s.env), s.env, s.cwd, w.rules.rootOf(s.cwd, Discovery(s.env))) == Reads(w, s)
  {
    hide Discovery;
    hide RealPath;
  }

  /** Whether the rules let a command through, a person's yes included. */
  predicate LetThrough(w: World, c: Context, binary: string, args: seq<string>) {
    var d := Answered(w, c.env, c.gate, c.cwd, binary, args);
    || d.None?
    || !Stops(d.value, c.mode)
    || (d.value.effect.Ask? && w.seams.person(w.rules.verdict(binary, args, c.env), d.value.reason).Yes?)
  }

  /** The words a person asked about a command typed in its place, where they make a command. */
  function Typed(w: World, c: Context, binary: string, args: seq<string>): Option<seq<string>> {
    var d := Answered(w, c.env, c.gate, c.cwd, binary, args);
    if d.None? || !Stops(d.value, c.mode) || !d.value.effect.Ask? then None
    else
      match w.seams.person(w.rules.verdict(binary, args, c.env), d.value.reason)
      case No(_, Some(line)) =>
        var words := w.seams.words(line);
        if words == [] || w.lookup.baseName(words[0]) == "memnox-intercept" then None else Some(words)
      case _ => None
  }

  /** An agent's command, under no pause. */
  ghost predicate Guarded(w: World, s: Scene, binary: string, args: seq<string>) {
    && InvokedFor(w, s.argv) == Some((binary, args))
    && !Unguarded(w, s, HomeFor(w, s))
    && PausedBy(w, s, HomeFor(w, s)).None?
  }

  /** What holds the session a scene is in, if it names one and it is paused. */
  function PausedBy(w: World, s: Scene, home: string): Option<string> {
    if ValueOf(s.env, "MEMNOX_SESSION") == "" then None else w.memory.pause(home, ValueOf(s.env, "MEMNOX_SESSION"))
  }

  lemma PauseIs(w: World, s: Scene, home: string)
    ensures PauseHolding(w, home, ValueIn(s.env, SESSION_VAR)) == PausedBy(w, s, home)
  {
  }

  /** A run that starts and counts nothing, fails, and records the refusal of an outcome. */
  ghost predicate Refused(c: Context, o: Outcome, run: Run) {
    && run.exitCode == FAILED && o.reason.Some?
    && Sum(run.deeds) == Tally([], [], [Row(c.provenance, o, Deny, o.reason.value, o.rule, c.session, None)])
  }

  /** What a guarded command comes to, for every machine: let through, it is carried out, unless it is a
      browser that goes where it may not; not let through, it is refused, unless a person asked about it
      typed a command in its place that is itself let through, which is then carried out. */
  ghost predicate ComesTo(w: World, c: Context, binary: string, args: seq<string>, run: Run) {
    if LetThrough(w, c, binary, args) then
      if w.seams.isBrowser(binary) && w.seams.visit(args).Some?
      then run.exitCode == FAILED && Sum(run.deeds) == NOTHING && Say(w.seams.visit(args).value) in run.deeds
      else CarriedOut(w, c, binary, args, RuleIn(w, c, binary, args), run)
    else
      var typed := Typed(w, c, binary, args);
      && RuleIn(w, c, binary, args).message.Some? && Say(RuleIn(w, c, binary, args).message.value) in run.deeds
      && if typed.Some? && LetThrough(w, c, w.lookup.baseName(typed.value[0]), typed.value[1..]) then
        var (binary', args') := (w.lookup.baseName(typed.value[0]), typed.value[1..]);
        CarriedOut(w, c, binary', args', RuleIn(w, c, binary', args'), run)
      else Refused(c, RuleIn(w, c, binary, args), run)
  }

  lemma RuledIn(w: World, c: Context, binary: string, args: seq<string>)
    ensures RuleIn(w, c, binary, args).allowed <==> LetThrough(w, c, binary, args)
  {
    RulingExactly(w, c.env, c.gate, c.mode, c.overlays, c.cwd, w.seams.person, binary, args);
    hide RuleOnCommand;
  }

  lemma TypedIn(w: World, c: Context, binary: string, args: seq<string>)
    requires !LetThrough(w, c, binary, args)
    ensures var o := RuleIn(w, c, binary, args);
      && o.message.Some? && o.reason.Some?
      && Typed(w, c, binary, args) ==
        if o.edited.None? then None
        else
          var words := w.seams.words(o.edited.value);
          if words == [] || w.lookup.baseName(words[0]) == "memnox-intercept" then None else Some(words)
  {
    RulingExactly(w, c.env, c.gate, c.mode, c.overlays, c.cwd, w.seams.person, binary, args);
    RefusalSays(w, c.env, c.gate, c.mode, c.overlays, c.cwd, w.seams.person, binary, args);
    hide RuleOnCommand;
    hide Answered;
    hide Stops;
  }

  lemma RefusedRow(c: Context, o: Outcome, said: seq<Deed>)
    requires o.reason.Some? && Sum(said) == NOTHING
    ensures Refused(c, o, Run(said + RefuseRecord(c, o).deeds, FAILED))
  {
    var row := Record(Row(c.provenance, o, Deny, o.reason.value, o.rule, c.session, None));
    SumOne(row);
    SumBoth(said, [row]);
  }

  lemma NotLetThrough(w: World, c: Context, binary: string, args: seq<string>)
    requires !LetThrough(w, c, binary, args)
    ensures ComesTo(w, c, binary, args, Refuse(w, c, RuleIn(w, c, binary, args)))
  {
    TypedIn(w, c, binary, args);
    hide Typed;
    hide LetThrough;
    hide RuleIn;
    hide HandAndRecord;
    hide RefuseRecord;
    hide Sum;
    hide Refused;
    hide CarriedOut;
    var o, typed := RuleIn(w, c, binary, args), Typed(w, c, binary, args);
    var said := Say(o.message.value);
    SumOne(said);
    if typed.None? {
      RefusedRow(c, o, [said]);
    } else {
      var ruling := Say("memnox: ruling on the replacement");
      var (binary', args') := (w.lookup.baseName(typed.value[0]), typed.value[1..]);
      var again := RuleIn(w, c, binary', args');
      RuledIn(w, c, binary', args');
      SumTwo(said, ruling);
      assert [said] + [ruling] == [said, ruling];
      if again.allowed {
        LetThroughRuns(w, c, binary', args', again);
        SaidBefore(w, c, binary', args', again, [said, ruling], HandAndRecord(w, c, binary', args', again));
      } else {
        var last := Say(OrElse(again.message, "denied"));
        SumOne(last);
        SumBoth([said, ruling], [last]);
        RefusedRow(c, o, [said, ruling] + [last]);
      }
    }
  }

  lemma SaidBefore(w: World, c: Context, binary: string, args: seq<string>, o: Outcome, said: seq<Deed>, run: Run)
    requires Sum(said) == NOTHING && CarriedOut(w, c, binary, args, o, run)
    ensures CarriedOut(w, c, binary, args, o, Run(said + run.deeds, run.exitCode))
  {
    hide ClaimedAway;
    hide NodeFinds;
    hide NodeStatus;
    hide RanRow;
    SumBoth(said, run.deeds);
    hide Sum;
  }

  lemma AfterRulingComes(w: World, c: Context, binary: string, args: seq<string>)
    ensures ComesTo(w, c, binary, args, AfterRuling(w, c, binary, args, RuleIn(w, c, binary, args)))
  {
    RuledIn(w, c, binary, args);
    hide LetThrough;
    hide RuleIn;
    hide HandAndRecord;
    hide Refuse;
    if !LetThrough(w, c, binary, args) {
      NotLetThrough(w, c, binary, args);
    } else if w.seams.isBrowser(binary) && w.seams.visit(args).Some? {
      SumOne(Say(w.seams.visit(args).value));
    } else {
      LetThroughRuns(w, c, binary, args, RuleIn(w, c, binary, args));
    }
  }

  lemma WarnedBefore(w: World, c: Context, binary: string, args: seq<string>, lines: seq<string>, run: Run)
    requires ComesTo(w, c, binary, args, run)
    ensures ComesTo(w, c, binary, args, Run(Said(lines) + run.deeds, run.exitCode))
  {
    OnlySaid(lines);
    SumBoth(Said(lines), run.deeds);
    hide Sum;
    hide Said;
    hide LetThrough;
    hide Typed;
    hide RuleIn;
    hide ClaimedAway;
    hide NodeFinds;
    hide NodeStatus;
    hide RanRow;
  }

  lemma GuardedIs(w: World, s: Scene, binary: string, args: seq<string>)
    requires Guarded(w, s, binary, args)
    ensures var c := Reads(w, s); var run := AfterRuling(w, c, binary, args, RuleIn(w, c, binary, args));
      NodeMain(w, s) == Run(Said(Warned(WarningsFor(w, s))) + run.deeds, run.exitCode)
  {
    PauseIs(w, s, HomeFor(w, s));
    ReadsIs(w, s);
    hide PausedBy;
    hide Reads;
    hide AfterRuling;
    hide RuleIn;
    hide ContextOf;
    hide HomeOf;
    hide HomeFor;
    hide Discovery;
    hide PauseHolding;
    hide AgentBehind;
    hide InvokedFor;
    hide Said;
    hide Warned;
  }

  /** Whatever the machine, a guarded command comes to that, after the warnings, each on a line. */
  lemma GuardedRun(w: World, s: Scene, binary: string, args: seq<string>)
    requires Guarded(w, s, binary, args)
    ensures ComesTo(w, Reads(w, s), binary, args, NodeMain(w, s))
    ensures var lines := WarningsFor(w, s);
      |lines| <= |NodeMain(w, s).deeds|
      && forall i | 0 <= i < |lines| :: NodeMain(w, s).deeds[i] == Say("[memnox] " + lines[i])
  {
    GuardedIs(w, s, binary, args);
    hide *;
    var c, lines := Reads(w, s), WarningsFor(w, s);
    var run := AfterRuling(w, c, binary, args, RuleIn(w, c, binary, args));
    AfterRulingComes(w, c, binary, args);
    WarnedBefore(w, c, binary, args, Warned(lines), run);
    WarnedLines(lines, run.deeds);
  }

  lemma WarnedLines(lines: seq<string>, rest: seq<Deed>)
    ensures var deeds := Said(Warned(lines)) + rest;
      |lines| <= |deeds| && forall i | 0 <= i < |lines| :: deeds[i] == Say("[memnox] " + lines[i])
  {
  }

  lemma {:induction false} StartIsCounted(deeds: seq<Deed>, e: Deed)
    requires e in deeds && e.Start?
    ensures e in Sum(deeds).starts
  {
    if e != deeds[0] {
      StartIsCounted(deeds[1..], e);
    }
  }

  /** Whether a start is of a command the rules let through, by the file on PATH. */
  ghost predicate StartsLet(w: World, c: Context, binary: string, args: seq<string>, e: Deed) {
    e.Start? && LetThrough(w, c, binary, args) && NodeFinds(w, binary, c.path) == Some(e.file) && e.args == args
  }

  /** Whatever a guarded command starts, the rules let through: the command itself, or the one a person
      typed in its place. */
  lemma StartsWereLetThrough(w: World, s: Scene, binary: string, args: seq<string>, e: Deed)
    requires Guarded(w, s, binary, args) && e in NodeMain(w, s).deeds && e.Start?
    ensures var c, typed := Reads(w, s), Typed(w, Reads(w, s), binary, args);
      || StartsLet(w, c, binary, args, e)
      || (typed.Some? && typed.value != [] && StartsLet(w, c, w.lookup.baseName(typed.value[0]), typed.value[1..], e))
  {
    hide *;
    GuardedRun(w, s, binary, args);
    StartIsCounted(NodeMain(w, s).deeds, e);
    ComesToStarts(w, Reads(w, s), binary, args, NodeMain(w, s), e);
  }

  lemma ComesToStarts(w: World, c: Context, binary: string, args: seq<string>, run: Run, e: Deed)
    requires ComesTo(w, c, binary, args, run) && e in Sum(run.deeds).starts && e.Start?
    ensures var typed := Typed(w, c, binary, args);
      || StartsLet(w, c, binary, args, e)
      || (typed.Some? && typed.value != [] && StartsLet(w, c, w.lookup.baseName(typed.value[0]), typed.value[1..], e))
  {
    hide LetThrough;
    hide RuleIn;
    hide ClaimedAway;
    hide NodeFinds;
    hide NodeStatus;
    hide RanRow;
    hide Sum;
    hide Answered;
    hide Stops;
  }

  /** Whether the rules deny a command in a way that stops it. */
  predicate Denied(w: World, c: Context, binary: string, args: seq<string>) {
    var d := Answered(w, c.env, c.gate, c.cwd, binary, args);
    d.Some? && d.value.effect.Deny? && (d.value.frozen || c.mode.Enforce?)
  }

  /** The row of a denied command: that it was denied, why, and by which rule. */
  ghost predicate TellsDenial(d: LocalVerdict, row: Row) {
    && row.effect == Deny && row.reason == d.reason && !row.outcome.allowed && row.exitCode.None?
    && row.rule == if d.policies == [] then None else Some(d.policies[0])
  }

  lemma DeniedRefused(w: World, c: Context, binary: string, args: seq<string>, run: Run)
    requires Denied(w, c, binary, args) && ComesTo(w, c, binary, args, run)
    ensures var d := Answered(w, c.env, c.gate, c.cwd, binary, args).value;
      run.exitCode == FAILED && exists row :: Sum(run.deeds) == Tally([], [], [row]) && TellsDenial(d, row)
  {
    var o := RuleIn(w, c, binary, args);
    RuledIn(w, c, binary, args);
    RulingExactly(w, c.env, c.gate, c.mode, c.overlays, c.cwd, w.seams.person, binary, args);
    hide RuleOnCommand;
    hide Answered;
    hide CarriedOut;
    hide Sum;
    assert TellsDenial(
      Answered(w, c.env, c.gate, c.cwd, binary, args).value,
      Row(c.provenance, o, Deny, o.reason.value, o.rule, c.session, None));
  }

  /** A command the rules deny, frozen or in the mode that enforces, is never started: it fails, and its one
      row says so. */
  lemma DeniedNeverStarts(w: World, s: Scene, binary: string, args: seq<string>)
    requires Guarded(w, s, binary, args) && Denied(w, Reads(w, s), binary, args)
    ensures var run, c := NodeMain(w, s), Reads(w, s);
      && run.exitCode == FAILED && (forall e | e in run.deeds :: !e.Start? && !e.Report?)
      && exists row :: Sum(run.deeds) == Tally([], [], [row])
           && TellsDenial(Answered(w, c.env, c.gate, c.cwd, binary, args).value, row)
  {
    hide *;
    GuardedRun(w, s, binary, args);
    DeniedRefused(w, Reads(w, s), binary, args, NodeMain(w, s));
    DeniedAnswers(w, Reads(w, s), binary, args);
    forall e | e in NodeMain(w, s).deeds ensures !e.Start? && !e.Report? {
      Uncounted(NodeMain(w, s).deeds, e);
    }
  }

  lemma DeniedAnswers(w: World, c: Context, binary: string, args: seq<string>)
    requires Denied(w, c, binary, args)
    ensures Answered(w, c.env, c.gate, c.cwd, binary, args).Some?
  {
  }

  lemma {:induction false} Uncounted(deeds: seq<Deed>, e: Deed)
    requires e in deeds && Sum(deeds).starts == [] && Sum(deeds).counts == []
    ensures !e.Start? && !e.Report?
  {
    if e != deeds[0] {
      Uncounted(deeds[1..], e);
    }
  }

  /** A command no agent is behind, or of a home not protected, is started as it is and never ruled on. */
  lemma UnguardedRun(w: World, s: Scene, binary: string, args: seq<string>)
    requires InvokedFor(w, s.argv) == Some((binary, args)) && Unguarded(w, s, HomeFor(w, s))
    ensures var run, path := NodeMain(w, s), RealPath(w, PathOf(s.env), HomeFor(w, s));
      var file := NodeFinds(w, binary, path);
      && Sum(run.deeds) == (if file.None? then NOTHING else Tally([Start(file.value, args, path)], [], []))
      && run.exitCode == if file.None? then NOT_FOUND else NodeStatus(w.seams.end(file.value, args, path))
  {
    ReadsIs(w, s);
    HandedOne(w, RealPath(w, PathOf(s.env), HomeFor(w, s)), binary, args);
    hide Reads;
    hide HomeOf;
    hide HomeFor;
    hide Governed;
    hide ContextOf;
    hide Hand;
    hide RealPath;
    hide AgentBehind;
    hide InvokedFor;
    hide NodeFinds;
    hide NodeStatus;
  }

  /** A session held by a pause is told so, and nothing is started or recorded. */
  lemma HeldRun(w: World, s: Scene, binary: string, args: seq<string>)
    requires InvokedFor(w, s.argv) == Some((binary, args)) && !Unguarded(w, s, HomeFor(w, s))
    requires PausedBy(w, s, HomeFor(w, s)).Some?
    ensures NodeMain(w, s) == Run([Say(PausedBy(w, s, HomeFor(w, s)).value)], FAILED)
  {
    PauseIs(w, s, HomeFor(w, s));
    ReadsIs(w, s);
    hide Reads;
    hide HomeFor;
    hide PausedBy;
    hide PauseHolding;
    hide AgentBehind;
    hide InvokedFor;
    hide HomeOf;
    hide AfterRuling;
    hide RuleIn;
    hide ContextOf;
    hide Discovery;
    hide Handed;
    hide RealPath;
    hide Warned;
  }

  // ---------------------------------------------------------------- the daemon's plan, by the rules

  /** Whether something the daemon may not decide comes into running a command it is let run. */
  predicate NeedsNode(w: World, binary: string, args: seq<string>, v: BinaryVerdict) {
    || w.seams.isBrowser(binary)
    || MayBeClaimed(w.seams.names, binary, args, Ruled(v.action, v.cls, v.target))
    || w.seams.destructive([binary] + args)
  }

  /** For a located command: the plan is to pass it exactly where nobody guards it; to run it only where the
      rules do not stop it; to refuse it exactly where the session is held or the rules deny it; and to leave
      it to Node exactly where they ask about it, where its target is protected from either place, or
      where running it takes something the daemon may not decide. */
  lemma PlanExactly(w: World, d: Daemon, s: Scene)
    requires Locate(w, d, s).Some?
    ensures var plan, l := PlanIntercept(w, d, s), Locate(w, d, s).value;
      var c, v := Reads(w, s), w.rules.verdict(l.binary, l.args, s.env);
      var says := Answered(w, s.env, c.gate, d.cwd, l.binary, l.args);
      var held := PausedBy(w, s, d.home);
      var stops := says.Some? && Stops(says.value, c.mode);
      var near := v.target.Some? && (w.seams.touches(v.target.value, s.cwd) || w.seams.touches(v.target.value, d.cwd));
      if Unguarded(w, s, d.home) then plan == Pass(l.file, l.path)
      else if held.Some? then plan == RefuseAs([held.value], FAILED, None)
      else if (stops && says.value.effect.Ask?) || near then plan == ToNode
      else if stops then
        && plan.RefuseAs? && plan.exitCode == FAILED && plan.row.Some? && plan.row.value.effect == Deny
        && plan.row.value.reason == says.value.reason && !plan.row.value.outcome.allowed
      else if NeedsNode(w, l.binary, l.args, v) then plan == ToNode
      else
        && plan.RunAs? && plan.file == l.file && plan.path == l.path && plan.pending.row.effect == Allow
        && plan.pending.row.outcome.allowed && (plan.pending.outOfScope <==> says.Some? && says.value.outOfScope)
  {
    PassedAlike(w, d, s);
    LocatedAlike(w, d, s);
    PauseIs(w, s, d.home);
    ReadsIs(w, s);
    hide PausedBy;
    hide HomeFor;
    var l := Locate(w, d, s).value;
    hide Locate;
    hide PassesThrough;
    hide Unguarded;
    hide PauseHolding;
    hide MayBeClaimed;
    hide RealPath;
    hide InvokedFor;
    hide HomeOf;
    hide Discovery;
    var c := Reads(w, s);
    RulingExactly(w, s.env, c.gate, c.mode, c.overlays, d.cwd, Nobody(), l.binary, l.args);
    RulingNobody(w, s.env, c.gate, c.mode, c.overlays, d.cwd, l.binary, l.args);
    hide RuleOnCommand;
    hide Answered;
    hide Stops;
  }

  lemma RulingNobody(
    w: World, env: Environment, gate: Option<Gate>, mode: Mode, overlays: seq<string>, cwd: string, binary: string,
    args: seq<string>)
    ensures var told := RuleOnCommand(w, env, gate, mode, overlays, cwd, Nobody(), binary, args);
      !told.value.allowed ==> told.value.edited.None?
  {
  }
}
