/** Waiting for a configuration to change. One consumer calls `next` again and again; changes, the
    timer and the end of a settle come whenever they like, also between a promise resolving and the
    consumer going on from it. */
module ConfigWatch {
  import opened Basics

  /** Where the consumer is: between calls, waiting, about to go on because it was woken or because
      its time ran out, or letting a burst of writes settle. */
  datatype Consumer = Idle | Waiting | Woken | TimedOut | Settling

  /** The watch's own two fields, the consumer, and what has happened: the changes, the calls that
      returned true, the changes since the last of those, and the calls that returned false since the
      first of those changes. */
  datatype State = State(
    pending: bool,
    wake: bool,
    consumer: Consumer,
    changes: nat,
    trues: nat,
    unseen: nat,
    missed: nat)

  datatype Event = Touched | NextCalled | TimerFires | GoesOn | Settled

  function Start(): State {
    State(false, false, Idle, 0, 0, 0, 0)
  }

  ghost predicate Enabled(s: State, e: Event) {
    match e
    case Touched => true
    case NextCalled => s.consumer.Idle?
    case TimerFires => s.consumer.Waiting?
    case GoesOn => s.consumer.Woken? || s.consumer.TimedOut?
    case Settled => s.consumer.Settling?
  }

  /** A change that is not our own: kept for the next call, and a call that waits is woken. */
  function Touch(s: State): State {
    var touched := s.(pending := true, changes := s.changes + 1, unseen := s.unseen + 1);
    if s.wake then touched.(wake := false, consumer := Woken) else touched
  }

  function Next(s: State): State {
    if s.pending then s.(pending := false, consumer := Settling)
    else s.(wake := true, consumer := Waiting)
  }

  /** The consumer goes on after waiting: it settles, or returns false. */
  function GoOn(s: State): State {
    if s.consumer.Woken? then s.(pending := false, consumer := Settling)
    else s.(consumer := Idle, missed := if s.unseen > 0 then s.missed + 1 else 0)
  }

  function Step(s: State, e: Event): State {
    match e
    case Touched => Touch(s)
    case NextCalled => Next(s)
    case TimerFires => s.(wake := false, consumer := TimedOut)
    case GoesOn => GoOn(s)
    case Settled => s.(consumer := Idle, trues := s.trues + 1, unseen := 0, missed := 0)
  }

  ghost predicate Runs(events: seq<Event>, states: seq<State>) {
    && |states| == |events| + 1
    && states[0] == Start()
    && forall i | 0 <= i < |events| :: Enabled(states[i], events[i]) && states[i + 1] == Step(states[i], events[i])
  }

  // ---------------------------------------------------------------- nothing lost, nothing made up

  /** Calls that are bound to return true. */
  ghost function Coming(s: State): nat {
    (if s.pending then 1 else 0) + (if s.consumer.Settling? then 1 else 0)
  }

  /** A change nobody has been told of is pending, or about to be told of, and at most one call has
      returned false since it came; and what is bound to be told of has its own change. */
  ghost predicate Fits(s: State) {
    && (s.wake <==> s.consumer.Waiting?)
    && (s.consumer.Waiting? ==> !s.pending)
    && (s.consumer.Woken? ==> s.pending)
    && s.trues + Coming(s) <= s.changes
    && (s.unseen > 0 ==> s.pending || s.consumer.Settling?)
    && s.missed <= 1
    && (s.missed == 1 ==> s.unseen > 0 && (s.consumer.Settling? || (s.consumer.Idle? && s.pending)))
  }

  lemma StepFits(s: State, e: Event)
    requires Fits(s) && Enabled(s, e)
    ensures Fits(Step(s, e))
  {
  }

  lemma {:induction false} RunFits(events: seq<Event>, states: seq<State>, n: nat)
    requires Runs(events, states) && n < |states|
    ensures Fits(states[n])
  {
    hide Step;
    hide Enabled;
    if n == 0 {
      assert Start() == State(false, false, Idle, 0, 0, 0, 0);
    } else {
      RunFits(events, states, n - 1);
      StepFits(states[n - 1], events[n - 1]);
    }
  }

  /** How many events of a stretch are of a kind. */
  ghost function Count(events: seq<Event>, from: nat, to: nat, kind: Event): nat
    requires from <= to <= |events|
  {
    if from == to then 0 else Count(events, from, to - 1, kind) + if events[to - 1] == kind then 1 else 0
  }

  /** How many calls returned false in a stretch. */
  ghost function Falses(events: seq<Event>, states: seq<State>, from: nat, to: nat): nat
    requires Runs(events, states) && from <= to <= |events|
  {
    if from == to then 0
    else
      Falses(events, states, from, to - 1)
      + if events[to - 1].GoesOn? && states[to - 1].consumer.TimedOut? then 1 else 0
  }

  /** The counts are what the events say. */
  lemma {:induction false} CountsAre(events: seq<Event>, states: seq<State>, n: nat)
    requires Runs(events, states) && n < |states|
    ensures states[n].trues == Count(events, 0, n, Settled) && states[n].changes == Count(events, 0, n, Touched)
  {
    if n > 0 {
      CountsAre(events, states, n - 1);
    }
  }

  /** There are never more calls that return true than changes. */
  lemma NeverMoreTrues(events: seq<Event>, states: seq<State>, n: nat)
    requires Runs(events, states) && n < |states|
    ensures Count(events, 0, n, Settled) <= Count(events, 0, n, Touched)
  {
    CountsAre(events, states, n);
    RunFits(events, states, n);
  }

  lemma {:induction false} Unseen(events: seq<Event>, states: seq<State>, i: nat, n: nat)
    requires Runs(events, states) && i < n <= |events| && events[i] == Touched
    requires Count(events, i + 1, n, Settled) == 0
    ensures states[n].unseen > 0 && Falses(events, states, i + 1, n) <= states[n].missed
  {
    assert states[i + 1] == Step(states[i], events[i]);
    if n > i + 1 {
      Unseen(events, states, i, n - 1);
      assert events[n - 1] != Settled;
    }
  }

  /** No change is lost: of the calls that return after it, none or one returns false before one
      returns true. */
  lemma NoChangeLost(events: seq<Event>, states: seq<State>, i: nat, n: nat)
    requires Runs(events, states) && i < n <= |events| && events[i] == Touched
    ensures Count(events, i + 1, n, Settled) == 0 ==> Falses(events, states, i + 1, n) <= 1
  {
    if Count(events, i + 1, n, Settled) == 0 {
      Unseen(events, states, i, n);
      RunFits(events, states, n);
    }
  }

  /** And a call that begins after it, with none having returned true between, returns true: it
      settles at once. */
  lemma NextCallTells(events: seq<Event>, states: seq<State>, i: nat, n: nat)
    requires Runs(events, states) && i < n < |events| && events[i] == Touched && events[n] == NextCalled
    requires Count(events, i + 1, n, Settled) == 0
    ensures states[n + 1].consumer.Settling?
  {
    Unseen(events, states, i, n);
    RunFits(events, states, n);
    assert Enabled(states[n], events[n]) && states[n + 1] == Step(states[n], events[n]);
  }

  lemma {:induction false} StaysWoken(events: seq<Event>, states: seq<State>, i: nat, n: nat)
    requires Runs(events, states) && i < n <= |events| && events[i] == Touched && states[i].consumer.Waiting?
    requires forall j | i < j < n :: events[j] != GoesOn
    ensures states[n].consumer.Woken?
  {
    RunFits(events, states, i);
    assert states[i + 1] == Step(states[i], events[i]);
    if n > i + 1 {
      StaysWoken(events, states, i, n - 1);
      assert Enabled(states[n - 1], events[n - 1]) && events[n - 1] != GoesOn;
    }
  }

  /** A call that waits when a change comes settles as soon as it goes on, whatever comes between. */
  lemma WokenCallTells(events: seq<Event>, states: seq<State>, i: nat, n: nat)
    requires Runs(events, states) && i < n < |events| && events[i] == Touched && states[i].consumer.Waiting?
    requires events[n] == GoesOn && forall j | i < j < n :: events[j] != GoesOn
    ensures states[n + 1].consumer.Settling?
  {
    StaysWoken(events, states, i, n);
    assert states[n + 1] == Step(states[n], events[n]);
  }

  /** And one whose time ran out returns without settling. */
  lemma TimedOutReturns(s: State)
    requires s.consumer.TimedOut?
    ensures var s' := Step(s, GoesOn); s'.consumer.Idle? && s'.pending == s.pending && s'.trues == s.trues
  {
  }

  // ---------------------------------------------------------------- the watch

  const OURS := ".memnox"

  /** Whether a changed name is of the watcher's own directory; a change without a name is not. */
  predicate IsOurs(name: Option<string>) {
    && name.Some?
    && (name.value == OURS
        || (|name.value| > |OURS| && name.value[..|OURS|] == OURS && name.value[|OURS|] in {'/', '\\'}))
  }

  /** Our own directory, and whatever is in it, by either separator. */
  lemma OursExactly(name: string)
    ensures IsOurs(Some(name)) <==>
      name == ".memnox" || exists rest :: name == ".memnox/" + rest || name == ".memnox\\" + rest
    ensures !IsOurs(None)
  {
    if |name| > |OURS| && name[..|OURS|] == OURS {
      assert name == OURS + [name[|OURS|]] + name[|OURS| + 1..];
      assert OURS + "/" == ".memnox/" && OURS + "\\" == ".memnox\\";
    }
    if rest :| name == ".memnox/" + rest || name == ".memnox\\" + rest {
      assert name[..|OURS|] == OURS;
    }
  }

  class DirectoryWatch {
    var pending: bool
    var wake: bool
    var consumer: Consumer
    ghost var changes: nat
    ghost var trues: nat
    ghost var unseen: nat
    ghost var missed: nat

    ghost function View(): State
      reads this
    {
      State(pending, wake, consumer, changes, trues, unseen, missed)
    }

    constructor ()
      ensures View() == Start()
    {
      pending, wake, consumer, changes, trues, unseen, missed := false, false, Idle, 0, 0, 0, 0;
    }

    method TouchedAt(name: Option<string>)
      modifies this
      ensures View() == if IsOurs(name) then old(View()) else Step(old(View()), Touched)
    {
      if IsOurs(name) {
        return;
      }
      pending := true;
      changes, unseen := changes + 1, unseen + 1;
      if wake {
        wake := false;
        consumer := Woken;
      }
    }

    method Call()
      requires Enabled(View(), NextCalled)
      modifies this
      ensures View() == Step(old(View()), NextCalled)
    {
      if pending {
        pending := false;
        consumer := Settling;
        return;
      }
      wake := true;
      consumer := Waiting;
    }

    method TimerExpires()
      requires Enabled(View(), TimerFires)
      modifies this
      ensures View() == Step(old(View()), TimerFires)
    {
      wake := false;
      consumer := TimedOut;
    }

    /** The wait is over: a change settles before it is told of, and a time run out is told at once. */
    method WaitOver() returns (returned: bool)
      requires Enabled(View(), GoesOn)
      modifies this
      ensures View() == Step(old(View()), GoesOn) && returned == old(consumer.TimedOut?)
    {
      if consumer == Woken {
        pending := false;
        consumer := Settling;
        return false;
      }
      consumer := Idle;
      missed := if unseen > 0 then missed + 1 else 0;
      return true;
    }

    method SettleOver()
      requires Enabled(View(), Settled)
      modifies this
      ensures View() == Step(old(View()), Settled)
    {
      consumer := Idle;
      trues, unseen, missed := trues + 1, 0, 0;
    }
  }
}
