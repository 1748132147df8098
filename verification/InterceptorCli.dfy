/** The Node interceptor as it runs, one effect after another, and the daemon's planner as it runs.
    Each comes out as the functions they are compared by say. */
module InterceptorCli {
  import opened Basics
  import opened ShellAction
  import opened FastIntercept
  import Reference = FastIntercept

  class Interceptor {
    const w: World
    const s: Scene
    /** What has been done to the world so far. */
    var deeds: seq<Deed>

    constructor (w: World, s: Scene)
      ensures this.w == w && this.s == s && deeds == []
    {
      this.w, this.s, deeds := w, s, [];
    }

    /** What was done since some point is a run's, and so is the code to exit with. */
    ghost predicate Did(before: seq<Deed>, code: int, run: Run)
      reads this
    {
      deeds == before + run.deeds && code == run.exitCode
    }

    method Write(line: string)
      modifies this
      ensures deeds == old(deeds) + [Say(line)]
    {
      deeds := deeds + [Say(line)];
    }

    method Intercept() returns (code: int)
      requires deeds == []
      modifies this
      ensures Run(deeds, code) == NodeMain(w, s)
    {
      hide *;
      var invocation := InvokedFor(w, s.argv);
      if invocation.None? {
        NodeUsage(w, s);
        Write(Usage());
        return MISUSED;
      }
      NodeIs(w, s, invocation.value.0, invocation.value.1);
      code := Begin(HomeOf(w, s.env), invocation.value.0, invocation.value.1);
    }

    method Begin(home: string, binary: string, args: seq<string>) returns (code: int)
      requires deeds == []
      modifies this
      ensures Run(deeds, code) == NodeFor(w, s, home, binary, args)
    {
      hide AgentBehind;
      hide RealPath;
      hide Hand;
      hide Governed;
      if AgentBehind(w, s.env, w.lookup.ancestors(s.ppid)).None? || w.memory.stopped(home) {
        var ran;
        code, ran := HandOver(RealPath(w, PathOf(s.env), home), binary, args);
        return;
      }
      code := Govern(home, binary, args);
    }

    method Govern(home: string, binary: string, args: seq<string>) returns (code: int)
      requires deeds == []
      modifies this
      ensures Run(deeds, code) == Governed(w, s, home, binary, args)
    {
      hide RuleIn;
      hide AfterRuling;
      hide ContextOf;
      hide PauseHolding;
      hide Discovery;
      var held := PauseHolding(w, home, ValueIn(s.env, SESSION_VAR));
      if held.Some? {
        Write(held.value);
        return FAILED;
      }
      var root := w.rules.rootOf(s.cwd, Discovery(s.env));
      var c := ContextOf(w, home, s.env, s.cwd, root);
      deeds := deeds + Said(Warned(w.rules.warnings(home, s.env, s.cwd, root)));
      code := GoOn(c, binary, args, RuleIn(w, c, binary, args));
    }

    method GoOn(c: Context, binary: string, args: seq<string>, o: Outcome) returns (code: int)
      modifies this
      ensures Did(old(deeds), code, AfterRuling(w, c, binary, args, o))
    {
      hide Reference.Refuse;
      hide Reference.HandAndRecord;
      if !o.allowed {
        code := Refuse(c, o);
        return;
      }
      if w.seams.isBrowser(binary) {
        var refused := w.seams.visit(args);
        if refused.Some? {
          Write(refused.value);
          return FAILED;
        }
      }
      code := HandAndRecord(c, binary, args, o);
    }

    method Refuse(c: Context, o: Outcome) returns (code: int)
      modifies this
      ensures Did(old(deeds), code, Reference.Refuse(w, c, o))
    {
      hide RuleIn;
      hide Reference.HandAndRecord;
      Write(OrElse(o.message, "denied"));
      if o.edited.Some? {
        var words := w.seams.words(o.edited.value);
        if words != [] && w.lookup.baseName(words[0]) != "memnox-intercept" {
          Write("memnox: ruling on the replacement");
          var binary, args := w.lookup.baseName(words[0]), words[1..];
          var again := RuleIn(w, c, binary, args);
          if again.allowed {
            code := HandAndRecord(c, binary, args, again);
            Associate(old(deeds), [Say(OrElse(o.message, "denied"))], [Say("memnox: ruling on the replacement")]);
            Associate(old(deeds), [Say(OrElse(o.message, "denied"))] + [Say("memnox: ruling on the replacement")],
              Reference.HandAndRecord(w, c, binary, args, again).deeds);
            return;
          }
          Write(OrElse(again.message, "denied"));
        }
      }
      deeds := deeds + [Record(RowOf(c, o, Deny, OrElse(o.reason, "denied"), o.rule, None))];
      code := FAILED;
    }

    method HandAndRecord(c: Context, binary: string, args: seq<string>, o: Outcome) returns (code: int)
      modifies this
      ensures Did(old(deeds), code, Reference.HandAndRecord(w, c, binary, args, o))
    {
      hide ActionOf;
      hide AdviceLine;
      hide NodeFinds;
      var action := ActionOf(w.seams.names, binary, args, Ruled(o.action, o.cls, o.target), w.seams.checkout).value;
      if action.Some? {
        var refused := w.seams.claim(action.value);
        if refused.Some? {
          Write("memnox: " + refused.value);
          deeds := deeds + [Clash(refused.value)];
          deeds := deeds + [Record(RowOf(c, o.(allowed := false), Deny, refused.value, None, None))];
          return FAILED;
        }
      }
      hide Reference.KeepAndRun;
      code := KeepAndRun(c, binary, args, o);
    }

    method KeepAndRun(c: Context, binary: string, args: seq<string>, o: Outcome) returns (code: int)
      modifies this
      ensures Did(old(deeds), code, Reference.KeepAndRun(w, c, binary, args, o))
    {
      hide AdviceLine;
      hide Hand;
      hide Reference.Afterwards;
      if w.seams.destructive([binary] + args) {
        deeds := deeds + [Checkpoint];
      }
      var advice := AdviceLine(w, o);
      if advice.Some? {
        Write(advice.value);
      }
      var ran;
      code, ran := HandOver(c.path, binary, args);
      if ran {
        Afterwards(c, o, code);
      }
    }

    method Afterwards(c: Context, o: Outcome, status: int)
      modifies this
      ensures deeds == old(deeds) + Reference.Afterwards(w, c, o, status)
    {
      deeds := deeds + [Report(o.action, o.target, Some(status), o.outOfScope, c.session)];
      deeds := deeds + [Record(RowOf(c, o, Allow, OrElse(o.reason, "no rule matched"), o.rule, Some(status)))];
      var tripped := w.memory.tripped(c.home, c.session);
      if tripped.Some? {
        Write(tripped.value);
      }
    }

    method HandOver(path: string, binary: string, args: seq<string>) returns (code: int, ran: bool)
      modifies this
      ensures (deeds, code, ran)
        == (old(deeds) + Hand(w, path, binary, args).0, Hand(w, path, binary, args).1, Hand(w, path, binary, args).2)
    {
      var file := FindReal(binary, path);
      if file.None? {
        Write("memnox: " + binary + " is not on PATH behind the interceptor");
        return NOT_FOUND, false;
      }
      deeds := deeds + [Start(file.value, args, path)];
      var end := w.seams.end(file.value, args, path);
      if end.NotStarted? {
        Write("memnox: could not run " + binary + ": " + end.said);
      }
      assert deeds == old(deeds) + Launched(w, binary, file.value, args, path);
      return NodeStatus(end), true;
    }

    /** Along PATH in order, to the first that is there and is not ours. */
    method FindReal(binary: string, path: string) returns (file: Option<string>)
      ensures file == NodeFinds(w, binary, path)
    {
      if w.lookup.isSelf(binary) {
        return None;
      }
      var entries := Split(path, ':');
      for i := 0 to |entries|
        invariant Resolve(w, w.lookup.runnable, binary, entries[i..]) == Resolve(w, w.lookup.runnable, binary, entries)
      {
        assert entries[i..][0] == entries[i] && entries[i..][1..] == entries[i + 1..];
        if entries[i] != "" {
          var candidate := w.lookup.join(entries[i], binary);
          if !w.lookup.isSelf(candidate) && w.lookup.runnable(candidate) {
            return Some(candidate);
          }
        }
      }
      file := None;
    }
  }

  /** The daemon's plan, its notes pushed as they come. */
  method PlanFor(w: World, d: Daemon, s: Scene) returns (plan: Plan)
    ensures plan == PlanIntercept(w, d, s)
  {
    hide Locate;
    hide AgentBehind;
    hide RuleOnCommand;
    hide ContextOf;
    hide Discovery;
    hide RunPlan;
    var located := Locate(w, d, s);
    if located.None? {
      return ToNode;
    }
    var l := located.value;
    if PassesThrough(w, d, s) {
      return Pass(l.file, l.path);
    }
    var held := PauseHolding(w, d.home, ValueIn(s.env, SESSION_VAR));
    if held.Some? {
      return RefuseAs([held.value], FAILED, None);
    }
    var root := w.rules.rootOf(s.cwd, Discovery(d.env));
    var c := ContextOf(w, d.home, s.env, s.cwd, root);
    var notes := Warned(w.rules.warnings(d.home, s.env, s.cwd, root));
    var told := RuleOnCommand(w, s.env, c.gate, c.mode, c.overlays, d.cwd, Nobody(), l.binary, l.args);
    if told.asked {
      return ToNode;
    }
    var o := told.value;
    var advice := AdviceLine(w, o);
    if advice.Some? {
      notes := notes + [advice.value];
    } else {
      assert notes + [] == notes;
    }
    if Touches(w, o.target, s.cwd) || Touches(w, o.target, d.cwd) {
      return ToNode;
    }
    if o.allowed {
      return RunPlan(w, l, o, notes, c.provenance, c.session);
    }
    if o.edited.Some? {
      return ToNode;
    }
    notes := notes + [OrElse(o.message, "denied")];
    return RefuseAs(
      notes, FAILED, Some(Row(c.provenance, o, Deny, OrElse(o.reason, "denied"), o.rule, c.session, None)));
  }
}
