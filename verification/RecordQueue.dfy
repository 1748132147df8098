/** The guard's record: rows are pushed as they come, and flushes take them in batches and put back
    what did not go through. A flush is suspended while its batch is sent, and nothing keeps a
    second one from starting meanwhile. */
module RecordQueue {
  import opened Basics

  const RECORD_BATCH := 100

  /** The rows not taken, the batches in flight by flush, the flushes in the order they took those
      batches, what the plane has accepted in order, and everything ever pushed. */
  datatype State<T> = State(
    pending: seq<T>,
    next: nat,
    flights: map<nat, seq<T>>,
    order: seq<nat>,
    accepted: seq<seq<T>>,
    produced: seq<T>)

  datatype Event<T> = Push(row: T) | Flush | Sent(flush: nat, ok: bool)

  function Start<T>(): State<T> {
    State([], 0, map[], [], [], [])
  }

  function Least(a: nat, b: nat): nat {
    if a < b then a else b
  }

  function Without(order: seq<nat>, flush: nat): seq<nat> {
    if order == [] then []
    else (if order[0] == flush then [] else [order[0]]) + Without(order[1..], flush)
  }

  /** A flush takes its next batch, or is over. */
  function Take<T>(s: State<T>, flush: nat): State<T> {
    if s.pending == [] then s.(flights := s.flights - {flush}, order := Without(s.order, flush))
    else
      var n := Least(RECORD_BATCH, |s.pending|);
      s.(pending := s.pending[n..], flights := s.flights[flush := s.pending[..n]],
         order := Without(s.order, flush) + [flush])
  }

  ghost predicate Enabled<T>(s: State<T>, e: Event<T>) {
    e.Sent? ==> e.flush in s.flights
  }

  function Step<T>(s: State<T>, e: Event<T>): State<T>
    requires e.Sent? ==> e.flush in s.flights
  {
    match e
    case Push(row) => s.(pending := s.pending + [row], produced := s.produced + [row])
    case Flush => Take(s.(next := s.next + 1), s.next)
    case Sent(flush, ok) =>
      if ok then Take(s.(accepted := s.accepted + [s.flights[flush]]), flush)
      else s.(
        pending := s.flights[flush] + s.pending, flights := s.flights - {flush}, order := Without(s.order, flush))
  }

  ghost predicate Runs<T(!new)>(events: seq<Event<T>>, states: seq<State<T>>) {
    && |states| == |events| + 1
    && states[0] == Start()
    && forall i | 0 <= i < |events| ::
         Enabled(states[i], events[i]) && states[i + 1] == Step(states[i], events[i])
  }

  // ---------------------------------------------------------------- nothing is lost or sent twice

  function Flat<T>(batches: seq<seq<T>>): seq<T> {
    if batches == [] then [] else Flat(batches[..|batches| - 1]) + batches[|batches| - 1]
  }

  ghost function InFlight<T>(flights: map<nat, seq<T>>, n: nat): multiset<T> {
    if n == 0 then multiset{}
    else InFlight(flights, n - 1) + if n - 1 in flights then multiset(flights[n - 1]) else multiset{}
  }

  /** Every row pushed is pending, in flight or accepted, as often as it was pushed, and every batch
      has at least one row and at most a hundred. */
  ghost predicate Kept<T(!new)>(s: State<T>) {
    Sized(s) && Counted(s)
  }

  ghost predicate Sized<T(!new)>(s: State<T>) {
    && (forall f | f in s.flights :: f < s.next && 0 < |s.flights[f]| <= RECORD_BATCH)
    && (forall b | b in s.accepted :: 0 < |b| <= RECORD_BATCH)
  }

  ghost predicate Counted<T>(s: State<T>) {
    multiset(s.produced) == multiset(s.pending) + InFlight(s.flights, s.next) + multiset(Flat(s.accepted))
  }

  lemma {:induction false} FlightAdded<T>(flights: map<nat, seq<T>>, n: nat, f: nat, batch: seq<T>)
    requires f < n && f !in flights
    ensures InFlight(flights[f := batch], n) == InFlight(flights, n) + multiset(batch)
  {
    if f == n - 1 {
      FlightElsewhere(flights, flights[f := batch], n - 1);
    } else {
      FlightAdded(flights, n - 1, f, batch);
    }
  }

  lemma {:induction false} FlightElsewhere<T>(flights: map<nat, seq<T>>, flights': map<nat, seq<T>>, n: nat)
    requires forall f: nat | f < n :: (f in flights <==> f in flights') && (f in flights ==> flights[f] == flights'[f])
    ensures InFlight(flights, n) == InFlight(flights', n)
  {
    if n > 0 {
      FlightElsewhere(flights, flights', n - 1);
    }
  }

  lemma {:induction false} FlightOver<T>(flights: map<nat, seq<T>>, n: nat, f: nat)
    requires f < n && f in flights
    ensures InFlight(flights, n) == InFlight(flights - {f}, n) + multiset(flights[f])
  {
    FlightAdded(flights - {f}, n, f, flights[f]);
    assert (flights - {f})[f := flights[f]] == flights;
  }

  lemma Cut<T>(s: seq<T>, n: nat)
    requires n <= |s|
    ensures s == s[..n] + s[n..] && multiset(s) == multiset(s[..n]) + multiset(s[n..])
  {
    assert s == s[..n] + s[n..];
  }

  lemma TakeKeeps<T(!new)>(s: State<T>, f: nat)
    requires Kept(s) && f < s.next && f !in s.flights
    ensures Kept(Take(s, f))
  {
    hide InFlight;
    hide Flat;
    if s.pending != [] {
      var n := Least(RECORD_BATCH, |s.pending|);
      FlightAdded(s.flights, s.next, f, s.pending[..n]);
      Cut(s.pending, n);
    } else {
      assert s.flights - {f} == s.flights;
    }
  }

  lemma PushKeeps<T(!new)>(s: State<T>, row: T)
    requires Kept(s)
    ensures Kept(Step(s, Push(row)))
  {
  }

  /** A batch that went through is accepted and not in flight. */
  lemma AcceptedKeeps<T(!new)>(s: State<T>, f: nat)
    requires Kept(s) && f in s.flights
    ensures Kept(s.(accepted := s.accepted + [s.flights[f]], flights := s.flights - {f}))
  {
    FlightOver(s.flights, s.next, f);
    hide InFlight;
    var accepted := s.accepted + [s.flights[f]];
    assert accepted[..|s.accepted|] == s.accepted;
    assert multiset(Flat(accepted)) == multiset(Flat(s.accepted)) + multiset(s.flights[f]);
    hide Flat;
  }

  lemma PutBackKeeps<T(!new)>(s: State<T>, f: nat)
    requires Kept(s) && f in s.flights
    ensures Kept(s.(pending := s.flights[f] + s.pending, flights := s.flights - {f}, order := Without(s.order, f)))
  {
    FlightOver(s.flights, s.next, f);
    hide InFlight;
    hide Flat;
    hide Without;
    assert multiset(s.flights[f] + s.pending) == multiset(s.flights[f]) + multiset(s.pending);
  }

  lemma SentKeeps<T(!new)>(s: State<T>, f: nat, ok: bool)
    requires Kept(s) && f in s.flights
    ensures Kept(Step(s, Sent(f, ok)))
  {
    assert f < s.next;
    hide Kept;
    if ok {
      AcceptedKeeps(s, f);
      TakeKeeps(s.(accepted := s.accepted + [s.flights[f]], flights := s.flights - {f}), f);
      SameTake(s.(accepted := s.accepted + [s.flights[f]]), f);
      hide Take;
    } else {
      PutBackKeeps(s, f);
    }
  }

  lemma SameTake<T(!new)>(s: State<T>, f: nat)
    ensures Take(s, f) == Take(s.(flights := s.flights - {f}), f)
  {
    assert s.flights - {f} - {f} == s.flights - {f};
    if s.pending != [] {
      var n := Least(RECORD_BATCH, |s.pending|);
      assert s.flights[f := s.pending[..n]] == (s.flights - {f})[f := s.pending[..n]];
    }
  }

  lemma FlushKeeps<T(!new)>(s: State<T>)
    requires Kept(s)
    ensures Kept(Step(s, Flush))
  {
    var next := s.(next := s.next + 1);
    assert s.next !in s.flights;
    FlightNext(s, next);
    hide Counted;
    TakeKeeps(next, s.next);
  }

  lemma FlightNext<T>(s: State<T>, next: State<T>)
    requires Counted(s) && s.next !in s.flights && next == s.(next := s.next + 1)
    ensures Counted(next)
  {
    assert InFlight(s.flights, s.next + 1) == InFlight(s.flights, s.next);
    hide InFlight;
  }

  /** However flushes overlap and sends fail, every row pushed is in one place. */
  lemma {:induction false} Conserved<T(!new)>(events: seq<Event<T>>, states: seq<State<T>>, n: nat)
    requires Runs(events, states) && n < |states|
    ensures Kept(states[n])
  {
    if n > 0 {
      Conserved(events, states, n - 1);
      var s, e := states[n - 1], events[n - 1];
      assert Enabled(s, e) && states[n] == Step(s, e);
      hide Kept;
      hide Take;
      match e {
        case Push(row) => PushKeeps(s, row);
        case Flush => FlushKeeps(s);
        case Sent(f, ok) => SentKeeps(s, f, ok);
      }
    }
  }

  // ---------------------------------------------------------------- in order

  /** The batches in flight, end to end in the order they were taken. */
  ghost function Flying<T>(flights: map<nat, seq<T>>, order: seq<nat>): seq<T>
    requires forall f | f in order :: f in flights
  {
    if order == [] then [] else flights[order[0]] + Flying(flights, order[1..])
  }

  /** What is in flight is in the order once, and no batch is empty. */
  ghost predicate Ordered<T(!new)>(s: State<T>) {
    && NoRepeats(s.order)
    && (forall f :: f in s.order <==> f in s.flights)
    && (forall f | f in s.flights :: s.flights[f] != [] && f < s.next)
  }

  /** Everything pushed is what was accepted, what is in flight and what waits, in that order. */
  ghost predicate InOrder<T(!new)>(s: State<T>)
    requires Ordered(s)
  {
    s.produced == Flat(s.accepted) + (Flying(s.flights, s.order) + s.pending)
  }

  /** What goes through is the oldest in flight, and what fails the newest. */
  ghost predicate InTurn<T>(s: State<T>, e: Event<T>) {
    e.Sent? && s.order != [] ==> e.flush == if e.ok then s.order[0] else s.order[|s.order| - 1]
  }

  lemma {:induction false} FlyingConcat<T>(flights: map<nat, seq<T>>, a: seq<nat>, b: seq<nat>)
    requires forall f | f in a + b :: f in flights
    ensures Flying(flights, a + b) == Flying(flights, a) + Flying(flights, b)
  {
    if a == [] {
      assert a + b == b;
    } else {
      assert (a + b)[0] == a[0] && (a + b)[1..] == a[1..] + b;
      FlyingConcat(flights, a[1..], b);
      Associate(flights[a[0]], Flying(flights, a[1..]), Flying(flights, b));
    }
  }

  lemma {:induction false} FlyingAlike<T>(flights: map<nat, seq<T>>, flights': map<nat, seq<T>>, order: seq<nat>)
    requires forall f | f in order :: f in flights && f in flights' && flights[f] == flights'[f]
    ensures Flying(flights, order) == Flying(flights', order)
  {
    if order != [] {
      FlyingAlike(flights, flights', order[1..]);
    }
  }

  lemma {:induction false} WithoutIs(order: seq<nat>, f: nat)
    ensures forall g :: g in Without(order, f) <==> g in order && g != f
    ensures NoRepeats(order) ==> NoRepeats(Without(order, f))
    ensures f !in order ==> Without(order, f) == order
  {
    if order != [] {
      WithoutIs(order[1..], f);
      assert order == [order[0]] + order[1..];
      if NoRepeats(order) {
        assert NoRepeats(order[1..]);
        assert order[0] !in order[1..];
      }
    }
  }

  lemma {:induction false} WithoutMiddle(a: seq<nat>, f: nat, b: seq<nat>)
    requires f !in a && f !in b
    ensures Without(a + [f] + b, f) == a + b
  {
    if a == [] {
      assert (a + [f] + b)[1..] == b && a + b == b;
      WithoutIs(b, f);
    } else {
      assert (a + [f] + b)[0] == a[0] && (a + [f] + b)[1..] == a[1..] + [f] + b;
      WithoutMiddle(a[1..], f, b);
      assert a + b == [a[0]] + (a[1..] + b);
    }
  }

  /** Where a flush stands among those in flight. */
  lemma Place(order: seq<nat>, f: nat) returns (a: seq<nat>, b: seq<nat>)
    requires NoRepeats(order) && f in order
    ensures order == a + [f] + b && f !in a && f !in b && Without(order, f) == a + b
    ensures (a == [] <==> order[0] == f) && (b == [] <==> order[|order| - 1] == f)
  {
    var i :| 0 <= i < |order| && order[i] == f;
    a, b := order[..i], order[i + 1..];
    assert order == a + [f] + b;
    WithoutMiddle(a, f, b);
  }

  lemma TakeOrdered<T(!new)>(s: State<T>, f: nat)
    requires Ordered(s) && f !in s.flights && f < s.next
    ensures Ordered(Take(s, f))
  {
    WithoutIs(s.order, f);
    hide Without;
  }

  /** A batch taken goes to the end of what is in flight. */
  lemma TakeLine<T(!new)>(s: State<T>, f: nat)
    requires Ordered(s) && Ordered(Take(s, f)) && f !in s.flights && f < s.next
    ensures Flying(Take(s, f).flights, Take(s, f).order) + Take(s, f).pending == Flying(s.flights, s.order) + s.pending
  {
    TakeIs(s, f);
    hide Ordered;
    hide Flying;
    hide Take;
    if s.pending != [] {
      var n := Least(RECORD_BATCH, |s.pending|);
      assert n <= |s.pending|;
      hide Least;
      TakenLast(s.flights, s.order, f, s.pending[..n]);
      Cut(s.pending, n);
      Associate(Flying(s.flights, s.order), s.pending[..n], s.pending[n..]);
    }
  }

  lemma TakeIs<T(!new)>(s: State<T>, f: nat)
    requires Ordered(s) && f !in s.flights
    ensures forall g | g in s.order :: g in s.flights && g != f
    ensures Take(s, f) == if s.pending == [] then s else
      var n := Least(RECORD_BATCH, |s.pending|);
      s.(pending := s.pending[n..], flights := s.flights[f := s.pending[..n]], order := s.order + [f])
  {
    WithoutIs(s.order, f);
    assert f !in s.order;
    hide NoRepeats;
    hide Without;
    if s.pending == [] {
      assert s.flights - {f} == s.flights;
    }
  }

  lemma TakenLast<T>(flights: map<nat, seq<T>>, order: seq<nat>, f: nat, batch: seq<T>)
    requires f !in order && forall g | g in order :: g in flights
    ensures Flying(flights[f := batch], order + [f]) == Flying(flights, order) + batch
  {
    var more := flights[f := batch];
    FlyingConcat(more, order, [f]);
    FlyingAlike(more, flights, order);
    assert [f][1..] == [];
    assert batch + [] == batch;
  }

  /** Two different stretches that both begin somewhere cannot change places where nothing repeats. */
  lemma Swapped<T(!new)>(head: seq<T>, x: seq<T>, y: seq<T>, tail: seq<T>)
    requires NoRepeats(head + (x + (y + tail))) && y != []
    ensures head + (x + (y + tail)) == head + (y + (x + tail)) <==> x == []
  {
    var a, b := head + (x + (y + tail)), head + (y + (x + tail));
    if x == [] {
      assert a == b;
    } else {
      assert a[|head|] == x[0] && a[|head| + |x|] == y[0] && b[|head|] == y[0];
    }
  }

  lemma FlyingThree<T>(flights: map<nat, seq<T>>, a: seq<nat>, f: nat, b: seq<nat>)
    requires forall g | g in a + [f] + b :: g in flights
    ensures Flying(flights, a + [f] + b) == Flying(flights, a) + (flights[f] + Flying(flights, b))
  {
    FlyingConcat(flights, a + [f], b);
    FlyingConcat(flights, a, [f]);
    assert [f][1..] == [];
    assert flights[f] + [] == flights[f];
    Associate(Flying(flights, a), flights[f], Flying(flights, b));
  }

  lemma {:induction false} FlyingSome<T>(flights: map<nat, seq<T>>, order: seq<nat>)
    requires forall f | f in order :: f in flights && flights[f] != []
    ensures Flying(flights, order) == [] <==> order == []
  {
  }

  lemma FlatMore<T>(batches: seq<seq<T>>, batch: seq<T>, rest: seq<T>)
    ensures Flat(batches + [batch]) + rest == Flat(batches) + (batch + rest)
  {
    assert (batches + [batch])[..|batches|] == batches;
  }

  /** The flight of a flush is over: it leaves the others in their order. */
  lemma OverLine<T(!new)>(s: State<T>, f: nat)
    requires Ordered(s) && f in s.flights
    ensures Ordered(s.(flights := s.flights - {f}, order := Without(s.order, f)))
    ensures Flying(s.flights - {f}, Without(s.order, f)) == Flying(s.flights, Without(s.order, f))
  {
    WithoutIs(s.order, f);
    FlyingAlike(s.flights - {f}, s.flights, Without(s.order, f));
  }

  /** What is in flight, around one flush: with it, and without. */
  lemma Around<T(!new)>(s: State<T>, f: nat) returns (x: seq<T>, y: seq<T>)
    requires Ordered(s) && f in s.flights
    ensures Flying(s.flights, s.order) == x + (s.flights[f] + y)
    ensures Ordered(s.(flights := s.flights - {f}, order := Without(s.order, f)))
    ensures Flying(s.flights - {f}, Without(s.order, f)) == x + y
    ensures (x == [] <==> f == s.order[0]) && (y == [] <==> f == s.order[|s.order| - 1]) && s.flights[f] != []
  {
    OverLine(s, f);
    var a, b := Place(s.order, f);
    x, y := Flying(s.flights, a), Flying(s.flights, b);
    FlyingThree(s.flights, a, f, b);
    FlyingConcat(s.flights, a, b);
    FlyingSome(s.flights, a);
    FlyingSome(s.flights, b);
  }

  lemma SameOrdered<T(!new)>(s: State<T>, s': State<T>)
    requires Ordered(s) && s'.flights == s.flights && s'.order == s.order && s'.next == s.next
    ensures Ordered(s')
  {
  }

  lemma LineIs<T(!new)>(s: State<T>)
    requires Ordered(s)
    ensures forall f | f in s.order :: f in s.flights
    ensures InOrder(s) <==> s.produced == Flat(s.accepted) + (Flying(s.flights, s.order) + s.pending)
  {
  }

  lemma AcceptedEq<T(!new)>(head: seq<T>, x: seq<T>, batch: seq<T>, y: seq<T>, pending: seq<T>)
    requires NoRepeats(head + (x + (batch + y) + pending)) && batch != []
    ensures head + (x + (batch + y) + pending) == head + (batch + (x + y + pending)) <==> x == []
  {
    Associate(batch, y, pending);
    Associate(x, batch + y, pending);
    Associate(x, y, pending);
    Swapped(head, x, batch, y + pending);
  }

  /** A batch that goes through keeps the order exactly where nothing older is in flight. */
  lemma AcceptedLine<T(!new)>(s: State<T>, f: nat)
    requires Ordered(s) && InOrder(s) && f in s.flights && NoRepeats(s.produced)
    ensures var s' := s.(
        accepted := s.accepted + [s.flights[f]], flights := s.flights - {f}, order := Without(s.order, f));
      Ordered(s') && (InOrder(s') <==> f == s.order[0])
  {
    var s' := s.(accepted := s.accepted + [s.flights[f]], flights := s.flights - {f}, order := Without(s.order, f));
    hide *;
    var x, y := Around(s, f);
    SameOrdered(s.(flights := s'.flights, order := s'.order), s');
    LineIs(s);
    LineIs(s');
    FlatMore(s.accepted, s.flights[f], x + y + s.pending);
    AcceptedEq(Flat(s.accepted), x, s.flights[f], y, s.pending);
  }

  lemma PutBackEq<T(!new)>(head: seq<T>, x: seq<T>, batch: seq<T>, y: seq<T>, pending: seq<T>)
    requires NoRepeats(head + (x + (batch + y) + pending)) && batch != []
    ensures head + (x + (batch + y) + pending) == head + (x + y + (batch + pending)) <==> y == []
  {
    Associate(batch, y, pending);
    Associate(x, batch + y, pending);
    Associate(x, y, batch + pending);
    Associate(head, x, batch + (y + pending));
    Associate(head, x, y + (batch + pending));
    if y != [] {
      Swapped(head + x, batch, y, pending);
    }
  }

  /** A batch put back keeps the order exactly where nothing newer is in flight. */
  lemma PutBackLine<T(!new)>(s: State<T>, f: nat)
    requires Ordered(s) && InOrder(s) && f in s.flights && NoRepeats(s.produced)
    ensures var s' := s.(pending := s.flights[f] + s.pending, flights := s.flights - {f}, order := Without(s.order, f));
      Ordered(s') && (InOrder(s') <==> f == s.order[|s.order| - 1])
  {
    var s' := s.(pending := s.flights[f] + s.pending, flights := s.flights - {f}, order := Without(s.order, f));
    hide *;
    var x, y := Around(s, f);
    SameOrdered(s.(flights := s'.flights, order := s'.order), s');
    LineIs(s);
    LineIs(s');
    PutBackEq(Flat(s.accepted), x, s.flights[f], y, s.pending);
  }

  lemma PushLine<T(!new)>(s: State<T>, row: T)
    requires Ordered(s)
    ensures Ordered(Step(s, Push(row))) && (InOrder(s) ==> InOrder(Step(s, Push(row))))
  {
    var line := Flying(s.flights, s.order);
    Associate(line, s.pending, [row]);
    Associate(Flat(s.accepted), line + s.pending, [row]);
  }

  /** A batch to be taken leaves the line as it is. */
  lemma TakeOrder<T(!new)>(s: State<T>, f: nat)
    requires Ordered(s) && f !in s.flights && f < s.next
    ensures Ordered(Take(s, f)) && (InOrder(Take(s, f)) <==> InOrder(s))
  {
    TakeOrdered(s, f);
    TakeLine(s, f);
  }

  lemma SentOrder<T(!new)>(s: State<T>, f: nat, ok: bool)
    requires Ordered(s) && InOrder(s) && f in s.flights && NoRepeats(s.produced)
    ensures Ordered(Step(s, Sent(f, ok))) && (InOrder(Step(s, Sent(f, ok))) <==> InTurn(s, Sent(f, ok)))
  {
    assert f in s.order && f < s.next;
    if ok {
      AcceptedLine(s, f);
      Sending(s, f);
      var s' := s.(accepted := s.accepted + [s.flights[f]], flights := s.flights - {f}, order := Without(s.order, f));
      hide InOrder;
      hide Ordered;
      TakeOrder(s', f);
    } else {
      PutBackLine(s, f);
    }
  }

  /** A step keeps everything in order exactly where what goes through is the oldest in flight and what
      fails the newest, whatever overlaps. */
  lemma StepOrder<T(!new)>(s: State<T>, e: Event<T>)
    requires Ordered(s) && InOrder(s) && Enabled(s, e) && NoRepeats(s.produced)
    ensures Ordered(Step(s, e)) && (InOrder(Step(s, e)) <==> InTurn(s, e))
  {
    match e {
      case Push(row) => PushLine(s, row);
      case Flush =>
        var next := s.(next := s.next + 1);
        assert Ordered(next) && InOrder(next);
        TakeOrder(next, s.next);
      case Sent(f, ok) => SentOrder(s, f, ok);
    }
  }

  lemma StepOrdered<T(!new)>(s: State<T>, e: Event<T>)
    requires Ordered(s) && Enabled(s, e)
    ensures Ordered(Step(s, e)) && s.produced <= Step(s, e).produced
  {
    match e {
      case Push(row) => PushLine(s, row);
      case Flush =>
        assert Ordered(s.(next := s.next + 1));
        TakeOrdered(s.(next := s.next + 1), s.next);
      case Sent(f, ok) => SentOrdered(s, f, ok);
    }
  }

  lemma SentOrdered<T(!new)>(s: State<T>, f: nat, ok: bool)
    requires Ordered(s) && f in s.flights
    ensures Ordered(Step(s, Sent(f, ok))) && s.produced <= Step(s, Sent(f, ok)).produced
  {
    OverLine(s, f);
    if ok {
      Sending(s, f);
      var s' := s.(accepted := s.accepted + [s.flights[f]], flights := s.flights - {f}, order := Without(s.order, f));
      SameOrdered(s.(flights := s'.flights, order := s'.order), s');
      assert f < s'.next && f !in s'.flights && s'.produced == s.produced;
      hide Ordered;
      TakeOrdered(s', f);
    }
  }

  /** A batch that goes through is accepted first, and the next then taken. */
  lemma Sending<T(!new)>(s: State<T>, f: nat)
    requires f in s.flights
    ensures Step(s, Sent(f, true))
      == Take(s.(accepted := s.accepted + [s.flights[f]], flights := s.flights - {f}, order := Without(s.order, f)), f)
  {
    WithoutIs(s.order, f);
    WithoutIs(Without(s.order, f), f);
    SameTake(s.(accepted := s.accepted + [s.flights[f]]), f);
  }

  lemma {:induction false} RunOrdered<T(!new)>(events: seq<Event<T>>, states: seq<State<T>>, i: nat, n: nat)
    requires Runs(events, states) && i <= n < |states|
    ensures Ordered(states[n]) && states[i].produced <= states[n].produced
  {
    if n > 0 {
      RunOrdered(events, states, if i == n then n - 1 else i, n - 1);
      StepOrdered(states[n - 1], events[n - 1]);
    }
  }

  ghost predicate AllInOrder<T(!new)>(states: seq<State<T>>, n: nat)
    requires n < |states|
  {
    forall i | 0 <= i <= n :: Ordered(states[i]) && InOrder(states[i])
  }

  ghost predicate AllInTurn<T>(events: seq<Event<T>>, states: seq<State<T>>, n: nat)
    requires |states| == |events| + 1 && n <= |events|
  {
    forall i | 0 <= i < n :: InTurn(states[i], events[i])
  }

  /** Throughout a run of distinct rows, what was accepted, what is in flight and what waits are the rows
      in the order they were pushed, exactly where each batch that goes through was the oldest in
      flight and each that fails the newest. */
  lemma {:induction false} OrderKept<T(!new)>(events: seq<Event<T>>, states: seq<State<T>>, n: nat)
    requires Runs(events, states) && n < |states| && NoRepeats(states[n].produced)
    ensures AllInOrder(states, n) <==> AllInTurn(events, states, n)
  {
    hide Step;
    RunOrdered(events, states, n, n);
    if n > 0 {
      RunOrdered(events, states, n - 1, n);
      var s, s' := states[n - 1], states[n];
      assert NoRepeats(s.produced) by {
        assert s'.produced[..|s.produced|] == s.produced;
      }
      OrderKept(events, states, n - 1);
      assert s' == Step(s, events[n - 1]) && Enabled(s, events[n - 1]);
      hide Ordered;
      hide InOrder;
      hide InTurn;
      if AllInOrder(states, n - 1) {
        StepOrder(s, events[n - 1]);
      }
      assert AllInTurn(events, states, n) <==> AllInTurn(events, states, n - 1) && InTurn(s, events[n - 1]);
      assert AllInOrder(states, n) <==> AllInOrder(states, n - 1) && InOrder(s');
    } else {
      assert states[0] == Start();
    }
  }

  /** No flush starts while a batch is in flight. */
  ghost predicate Alone<T>(s: State<T>, e: Event<T>) {
    e.Flush? ==> s.order == []
  }

  lemma {:induction false} OneAtATime<T(!new)>(events: seq<Event<T>>, states: seq<State<T>>, n: nat)
    requires Runs(events, states) && n < |states|
    requires forall i | 0 <= i < n :: Alone(states[i], events[i])
    ensures |states[n].order| <= 1
  {
    if n > 0 {
      OneAtATime(events, states, n - 1);
      RunOrdered(events, states, n - 1, n - 1);
      assert states[n] == Step(states[n - 1], events[n - 1]) && Alone(states[n - 1], events[n - 1]);
      AloneStep(states[n - 1], events[n - 1]);
    }
  }

  lemma AloneStep<T(!new)>(s: State<T>, e: Event<T>)
    requires Ordered(s) && |s.order| <= 1 && Enabled(s, e) && Alone(s, e)
    ensures |Step(s, e).order| <= 1
  {
    if e.Sent? {
      assert e.flush in s.order && s.order == [e.flush];
      hide Ordered;
      assert [e.flush][1..] == [];
      assert Without([e.flush], e.flush) == [];
    }
  }

  /** So where no flush starts while another is under way, everything stays in order. */
  lemma SentInOrder<T(!new)>(events: seq<Event<T>>, states: seq<State<T>>, n: nat)
    requires Runs(events, states) && n < |states| && NoRepeats(states[n].produced)
    requires forall i | 0 <= i < n :: Alone(states[i], events[i])
    ensures AllInOrder(states, n)
  {
    forall i | 0 <= i < n ensures InTurn(states[i], events[i]) {
      OneAtATime(events, states, i);
      RunOrdered(events, states, i, i);
      assert Enabled(states[i], events[i]);
      if events[i].Sent? {
        assert events[i].flush in states[i].order;
      }
    }
    OrderKept(events, states, n);
  }

  // ---------------------------------------------------------------- a run that reorders

  lemma RunMore<T(!new)>(events: seq<Event<T>>, states: seq<State<T>>, e: Event<T>)
    requires Runs(events, states) && Enabled(states[|events|], e)
    ensures Runs(events + [e], states + [Step(states[|events|], e)])
  {
  }

  lemma {:induction false} PushRun<T(!new)>(rows: seq<T>) returns (events: seq<Event<T>>, states: seq<State<T>>)
    ensures Runs(events, states) && states[|events|] == State(rows, 0, map[], [], [], rows)
  {
    if rows == [] {
      events, states := [], [Start()];
    } else {
      var n := |rows| - 1;
      events, states := PushRun(rows[..n]);
      assert rows[..n] + [rows[n]] == rows;
      RunMore(events, states, Push(rows[n]));
      states := states + [Step(states[|events|], Push(rows[n]))];
      events := events + [Push(rows[n])];
    }
  }

  /** More than a hundred rows and two flushes, the first of which fails and the second does not: the
      later rows go first. */
  lemma OverlapReorders<T(!new)>(first: seq<T>, later: seq<T>) returns (events: seq<Event<T>>, states: seq<State<T>>)
    requires |first| == RECORD_BATCH && 0 < |later| <= RECORD_BATCH
    ensures Runs(events, states)
    ensures states[|events|].produced == first + later && states[|events|].accepted == [later, first]
  {
    events, states := PushRun(first + later);
    var s := states[|events|];
    Overlapping(s, first, later);
    var todo := [Flush, Flush, Sent(0, false), Sent(1, true), Sent(1, true)];
    for i := 0 to 5
      invariant Runs(events, states)
      invariant states[|events|] == After(s, i)
    {
      RunMore(events, states, todo[i]);
      states := states + [Step(states[|events|], todo[i])];
      events := events + [todo[i]];
    }
  }

  /** The five steps of that run, one after another. */
  ghost function After<T>(s: State<T>, n: nat): State<T> {
    if n == 0 then s
    else
      var before := After(s, n - 1);
      if n <= 2 then Step(before, Flush)
      else if n == 3 then (if 0 in before.flights then Step(before, Sent(0, false)) else before)
      else if 1 in before.flights then Step(before, Sent(1, true)) else before
  }

  lemma Overlapping<T(!new)>(s: State<T>, first: seq<T>, later: seq<T>)
    requires s == State(first + later, 0, map[], [], [], first + later)
    requires |first| == RECORD_BATCH && 0 < |later| <= RECORD_BATCH
    ensures 0 in After(s, 2).flights && 1 in After(s, 3).flights && 1 in After(s, 4).flights
    ensures After(s, 5).accepted == [later, first] && After(s, 5).produced == first + later
  {
    Slices(first, later);
    var a := After(s, 1);
    assert a == Step(After(s, 0), Flush);
    assert a.flights == map[0 := first] && a.pending == later;
    var b := After(s, 2);
    assert later[..|later|] == later && later[|later|..] == [];
    assert b.flights == map[0 := first, 1 := later] && b.pending == [];
    var c := After(s, 3);
    assert first + [] == first;
    assert c.flights == map[1 := later] && c.pending == first;
    var d := After(s, 4);
    assert first[..RECORD_BATCH] == first && first[RECORD_BATCH..] == [];
    assert d.flights == map[1 := first] && d.accepted == [later];
  }

  // ---------------------------------------------------------------- the queue itself

  class Queue<T(!new)> {
    var pending: seq<T>
    var next: nat
    var flights: map<nat, seq<T>>
    ghost var order: seq<nat>
    var accepted: seq<seq<T>>
    ghost var produced: seq<T>

    ghost function View(): State<T>
      reads this
    {
      State(pending, next, flights, order, accepted, produced)
    }

    constructor ()
      ensures View() == Start()
    {
      pending, next, flights, order, accepted, produced := [], 0, map[], [], [], [];
    }

    method Append(row: T)
      modifies this
      ensures View() == Step(old(View()), Push(row))
    {
      pending := pending + [row];
      produced := produced + [row];
    }

    /** A flush begins, up to its first send. */
    method Begin() returns (flush: nat)
      modifies this
      ensures View() == Step(old(View()), Flush) && flush == old(next)
    {
      flush := next;
      next := next + 1;
      Splice(flush);
    }

    method Splice(flush: nat)
      modifies this`pending, this`flights, this`order
      ensures View() == Take(old(View()), flush)
    {
      if |pending| > 0 {
        var n := if |pending| < RECORD_BATCH then |pending| else RECORD_BATCH;
        flights := flights[flush := pending[..n]];
        pending := pending[n..];
        order := Without(order, flush) + [flush];
      } else {
        flights := flights - {flush};
        order := Without(order, flush);
      }
    }

    /** A send came out: the flush goes on, or puts its batch back and ends. */
    method Replied(flush: nat, ok: bool)
      requires flush in flights
      modifies this
      ensures View() == Step(old(View()), Sent(flush, ok))
    {
      if ok {
        accepted := accepted + [flights[flush]];
        Splice(flush);
      } else {
        pending := flights[flush] + pending;
        flights := flights - {flush};
        order := Without(order, flush);
      }
    }

    /** A flush nothing interrupts, by what the plane says to each send in turn: it goes on to the
        end of the rows or to the first send that fails, and loses and reorders nothing. */
    method FlushAll(answers: nat -> bool)
      requires flights == map[]
      modifies this
      ensures flights == map[] && produced == old(produced)
      ensures Flat(accepted) + pending == Flat(old(accepted)) + old(pending)
      ensures old(accepted) <= accepted
      ensures pending == [] || !answers(|accepted| - |old(accepted)|)
      ensures forall i | 0 <= i < |accepted| - |old(accepted)| :: answers(i)
      ensures forall j | |old(accepted)| <= j < |accepted| :: 0 < |accepted[j]| <= RECORD_BATCH
    {
      hide Flat;
      ghost var before := accepted;
      var sent := 0;
      while |pending| > 0
        invariant sent == |accepted| - |before| && accepted[..|before|] == before
        invariant flights == map[] && produced == old(produced)
        invariant Flat(accepted) + pending == Flat(before) + old(pending)
        invariant forall i | 0 <= i < sent :: answers(i)
        invariant forall j | |before| <= j < |accepted| :: 0 < |accepted[j]| <= RECORD_BATCH
      {
        var n := Least(RECORD_BATCH, |pending|);
        var batch, rest := pending[..n], pending[n..];
        Cut(pending, n);
        if !answers(sent) {
          pending := batch + rest;
          return;
        }
        FlatMore(accepted, batch, rest);
        accepted, pending, sent := accepted + [batch], rest, sent + 1;
      }
    }
  }
}
