/** Claims made from saved files, at most so many a minute, and notices of collisions, at most so
    often about one file. Saves are handled at once, each suspended while its claim is taken, and
    the takes come out in any order. Times are whole milliseconds. */
module EditWatcher {
  import opened Basics

  const MINUTE_MS := 60_000
  const MOST_CLAIMS_PER_MINUTE := 60
  const NOTICE_EVERY_MS := 300_000

  /** A notice: about what, the time of the save it stands for, and when it was shown. */
  datatype Notice = Notice(path: string, stamp: int, shown: int)

  /** A claim being taken. */
  datatype Taking = Taking(path: string, stamp: int)

  /** The fields of the watcher, the clock, every claim ever made, the takes under way and the notices
      so far. */
  datatype State = State(
    claims: seq<int>,
    noticed: map<string, int>,
    clock: int,
    made: seq<int>,
    next: nat,
    taking: map<nat, Taking>,
    notices: seq<Notice>)

  datatype Event =
    | Saved(path: string, now: int)
    | Taken(save: nat, heldByAnother: bool, now: int)

  function Start(clock: int): State {
    State([], map[], clock, [], 0, map[], [])
  }

  /** The claims less than a minute old. */
  function Recent(claims: seq<int>, now: int): seq<int> {
    if claims == [] then []
    else (if now - claims[0] < MINUTE_MS then [claims[0]] else []) + Recent(claims[1..], now)
  }

  /** A save that has something to claim: it is claimed, or put off where the minute is full. */
  function Save(s: State, path: string, now: int): State {
    var recent := Recent(s.claims, now);
    if |recent| >= MOST_CLAIMS_PER_MINUTE then s.(claims := recent, clock := now)
    else s.(
      claims := recent + [now], clock := now, made := s.made + [now],
      next := s.next + 1, taking := s.taking[s.next := Taking(path, now)])
  }

  /** Somebody else had the lines: a notice, unless one about the file was given lately. */
  function NoticeCollision(s: State, path: string, stamp: int): State {
    if path in s.noticed && stamp - s.noticed[path] < NOTICE_EVERY_MS then s
    else s.(noticed := s.noticed[path := stamp], notices := s.notices + [Notice(path, stamp, s.clock)])
  }

  function Take(s: State, save: nat, heldByAnother: bool, now: int): State
    requires save in s.taking
  {
    var taking := s.taking[save];
    var done := s.(taking := s.taking - {save}, clock := now);
    if heldByAnother then NoticeCollision(done, taking.path, taking.stamp) else done
  }

  /** The clock never goes back. */
  ghost predicate Enabled(s: State, e: Event) {
    && s.clock <= e.now
    && (e.Taken? ==> e.save in s.taking)
  }

  ghost function Step(s: State, e: Event): State
    requires Enabled(s, e)
  {
    match e
    case Saved(path, now) => Save(s, path, now)
    case Taken(save, held, now) => Take(s, save, held, now)
  }

  ghost predicate Runs(clock: int, events: seq<Event>, states: seq<State>) {
    && |states| == |events| + 1
    && states[0] == Start(clock)
    && forall i | 0 <= i < |events| :: Enabled(states[i], events[i]) && states[i + 1] == Step(states[i], events[i])
  }

  // ---------------------------------------------------------------- sixty a minute

  ghost predicate InOrder(times: seq<int>) {
    forall i, j | 0 <= i <= j < |times| :: times[i] <= times[j]
  }

  /** The watcher keeps the latest of the claims ever made, and every claim left out is at least a
      minute old; sixty claims on, at least a minute has passed. */
  ghost predicate ClaimsOk(s: State) {
    ClaimsFit(s.made, s.claims, s.clock) && Spaced(s.made)
  }

  ghost predicate ClaimsFit(made: seq<int>, claims: seq<int>, clock: int) {
    && InOrder(made)
    && (forall i | 0 <= i < |made| :: made[i] <= clock)
    && |claims| <= |made| && claims == made[|made| - |claims|..]
    && (forall i | 0 <= i < |made| - |claims| :: clock - made[i] >= MINUTE_MS)
  }

  ghost predicate Spaced(made: seq<int>) {
    forall i | 0 <= i < |made| - MOST_CLAIMS_PER_MINUTE :: made[i + MOST_CLAIMS_PER_MINUTE] - made[i] >= MINUTE_MS
  }

  /** In order, the recent claims are the last ones. */
  lemma {:induction false} RecentAreLast(claims: seq<int>, now: int)
    requires InOrder(claims)
    ensures |Recent(claims, now)| <= |claims|
    ensures Recent(claims, now) == claims[|claims| - |Recent(claims, now)|..]
    ensures forall i | 0 <= i < |claims| - |Recent(claims, now)| :: now - claims[i] >= MINUTE_MS
    ensures forall i | 0 <= i < |Recent(claims, now)| :: now - Recent(claims, now)[i] < MINUTE_MS
  {
    if claims != [] {
      RecentAreLast(claims[1..], now);
      var rest := Recent(claims[1..], now);
      if now - claims[0] < MINUTE_MS {
        assert |rest| == |claims| - 1;
        assert Recent(claims, now) == claims;
      }
    }
  }

  /** The recent claims the watcher finds are all the recent ones there are. */
  lemma RecentOfMade(s: State, now: int) returns (recent: seq<int>)
    requires ClaimsOk(s) && s.clock <= now
    ensures recent == Recent(s.claims, now) && |recent| <= |s.made|
    ensures recent == s.made[|s.made| - |recent|..]
    ensures forall i | 0 <= i < |s.made| - |recent| :: now - s.made[i] >= MINUTE_MS
    ensures forall i | 0 <= i < |recent| :: now - MINUTE_MS < recent[i] <= now
  {
    var kept := |s.made| - |s.claims|;
    assert InOrder(s.claims) by {
      forall i, j | 0 <= i <= j < |s.claims| ensures s.claims[i] <= s.claims[j] {
        assert s.made[kept + i] <= s.made[kept + j];
      }
    }
    RecentAreLast(s.claims, now);
    hide InOrder;
    recent := Recent(s.claims, now);
    forall i | 0 <= i < |s.made| - |recent| ensures now - s.made[i] >= MINUTE_MS {
      if i >= kept {
        assert s.made[i] == s.claims[i - kept];
      }
    }
    forall i | 0 <= i < |recent| ensures recent[i] <= now {
      assert recent[i] == s.made[|s.made| - |recent| + i];
    }
  }

  lemma SaveClaims(s: State, path: string, now: int)
    requires ClaimsOk(s) && s.clock <= now
    ensures ClaimsOk(Save(s, path, now))
  {
    var recent := RecentOfMade(s, now);
    StillFit(s.made, s.claims, recent, s.clock, now);
    if |recent| < MOST_CLAIMS_PER_MINUTE {
      AddedFits(s.made, recent, now);
      AddedSpaced(s.made, recent, now);
    }
    hide Recent;
    hide ClaimsFit;
    hide Spaced;
  }

  lemma StillFit(made: seq<int>, claims: seq<int>, recent: seq<int>, clock: int, now: int)
    requires ClaimsFit(made, claims, clock) && clock <= now
    requires |recent| <= |made| && recent == made[|made| - |recent|..]
    requires forall i | 0 <= i < |made| - |recent| :: now - made[i] >= MINUTE_MS
    ensures ClaimsFit(made, recent, now)
  {
    hide InOrder;
  }

  lemma AddedFits(made: seq<int>, recent: seq<int>, now: int)
    requires ClaimsFit(made, recent, now)
    ensures ClaimsFit(made + [now], recent + [now], now)
  {
    assert (made + [now])[|made| - |recent|..] == recent + [now];
  }

  lemma AddedSpaced(made: seq<int>, recent: seq<int>, now: int)
    requires ClaimsFit(made, recent, now) && Spaced(made) && |recent| < MOST_CLAIMS_PER_MINUTE
    ensures Spaced(made + [now])
  {
    hide InOrder;
    var more := made + [now];
    forall i | 0 <= i < |more| - MOST_CLAIMS_PER_MINUTE
      ensures more[i + MOST_CLAIMS_PER_MINUTE] - more[i] >= MINUTE_MS
    {
      if i + MOST_CLAIMS_PER_MINUTE < |made| {
        assert made[i + MOST_CLAIMS_PER_MINUTE] - made[i] >= MINUTE_MS;
      }
    }
  }

  lemma TakeClaims(s: State, save: nat, held: bool, now: int)
    requires ClaimsOk(s) && s.clock <= now && save in s.taking
    ensures ClaimsOk(Take(s, save, held, now))
  {
  }

  lemma {:induction false} RunClaims(clock: int, events: seq<Event>, states: seq<State>, n: nat)
    requires Runs(clock, events, states) && n < |states|
    ensures ClaimsOk(states[n])
  {
    hide ClaimsOk;
    if n == 0 {
      assert ClaimsOk(Start(clock)) by { StartClaims(clock); }
    } else {
      RunClaims(clock, events, states, n - 1);
      match events[n - 1] {
        case Saved(path, now) => SaveClaims(states[n - 1], path, now);
        case Taken(save, held, now) => TakeClaims(states[n - 1], save, held, now);
      }
    }
  }

  lemma StartClaims(clock: int)
    ensures ClaimsOk(Start(clock))
  {
  }

  /** How many of some times are in the minute from `t`. */
  ghost function Within(times: seq<int>, t: int): nat {
    if times == [] then 0
    else Within(times[..|times| - 1], t) + if t <= times[|times| - 1] < t + MINUTE_MS then 1 else 0
  }

  /** In order, the times within a minute are those between two places. */
  lemma {:induction false} WithinAreBetween(times: seq<int>, t: int) returns (from: nat)
    requires InOrder(times)
    ensures from + Within(times, t) <= |times|
    ensures forall i | from <= i < from + Within(times, t) :: t <= times[i] < t + MINUTE_MS
    ensures from + Within(times, t) < |times| ==> times[|times| - 1] >= t + MINUTE_MS || Within(times, t) == 0
  {
    if times == [] {
      return 0;
    }
    var front, last := times[..|times| - 1], times[|times| - 1];
    from := WithinAreBetween(front, t);
    if t <= last < t + MINUTE_MS {
      if Within(front, t) == 0 {
        from := |front|;
      }
    }
  }

  lemma {:induction false} SpacedIsSparse(times: seq<int>, t: int)
    requires InOrder(times) && Spaced(times)
    ensures Within(times, t) <= MOST_CLAIMS_PER_MINUTE
  {
    var from := WithinAreBetween(times, t);
    assert from < |times| - MOST_CLAIMS_PER_MINUTE ==>
      times[from + MOST_CLAIMS_PER_MINUTE] - times[from] >= MINUTE_MS;
  }

  /** However the saves and their takes interleave, no minute has more than sixty claims in it. */
  lemma AtMostSixty(clock: int, events: seq<Event>, states: seq<State>, n: nat, t: int)
    requires Runs(clock, events, states) && n < |states|
    ensures Within(states[n].made, t) <= MOST_CLAIMS_PER_MINUTE
  {
    RunClaims(clock, events, states, n);
    SpacedIsSparse(states[n].made, t);
  }

  lemma {:induction false} AllWithin(times: seq<int>, t: int)
    requires forall i | 0 <= i < |times| :: t <= times[i] < t + MINUTE_MS
    ensures Within(times, t) == |times|
  {
    if times != [] {
      AllWithin(times[..|times| - 1], t);
    }
  }

  lemma {:induction false} WithinSplits(a: seq<int>, b: seq<int>, t: int)
    ensures Within(a + b, t) == Within(a, t) + Within(b, t)
  {
    if b == [] {
      assert a + b == a;
    } else {
      WithinSplits(a, b[..|b| - 1], t);
      assert (a + b)[..|a + b| - 1] == a + b[..|b| - 1];
    }
  }

  /** And a save is put off exactly where sixty claims were made in the minute before it. */
  lemma PutOffExactly(clock: int, events: seq<Event>, states: seq<State>, n: nat, path: string, now: int)
    requires Runs(clock, events, states) && n < |events| && events[n] == Saved(path, now)
    ensures states[n + 1].made == states[n].made <==>
      Within(states[n].made, now - MINUTE_MS + 1) == MOST_CLAIMS_PER_MINUTE
  {
    RunClaims(clock, events, states, n);
    AtMostSixty(clock, events, states, n, now - MINUTE_MS + 1);
    var s := states[n];
    assert s.clock <= now && states[n + 1] == Save(s, path, now);
    hide Runs;
    var recent := RecentOfMade(s, now);
    hide ClaimsOk;
    hide Recent;
    WithinRecent(s.made, recent, now);
    assert s.made + [now] != s.made by { assert |s.made + [now]| > |s.made|; }
  }

  lemma WithinRecent(made: seq<int>, recent: seq<int>, now: int)
    requires |recent| <= |made| && recent == made[|made| - |recent|..]
    requires forall i | 0 <= i < |made| - |recent| :: now - made[i] >= MINUTE_MS
    requires forall i | 0 <= i < |recent| :: now - MINUTE_MS < recent[i] <= now
    ensures Within(made, now - MINUTE_MS + 1) == |recent|
  {
    var k := |made| - |recent|;
    assert made == made[..k] + recent;
    WithinSplits(made[..k], recent, now - MINUTE_MS + 1);
    AllWithin(recent, now - MINUTE_MS + 1);
    NoneWithin(made[..k], now - MINUTE_MS + 1);
  }

  lemma {:induction false} NoneWithin(times: seq<int>, t: int)
    requires forall i | 0 <= i < |times| :: times[i] < t
    ensures Within(times, t) == 0
  {
    if times != [] {
      NoneWithin(times[..|times| - 1], t);
    }
  }

  // ---------------------------------------------------------------- notices

  /** The last notice about a file is the one remembered, each stands for a save no later than when
      it was shown, and two about one file stand for saves at least five minutes apart. */
  ghost predicate NoticesOk(s: State) {
    && (forall id | id in s.taking :: s.taking[id].stamp <= s.clock)
    && (forall i | 0 <= i < |s.notices| ::
         s.notices[i].stamp <= s.notices[i].shown <= s.clock
         && s.notices[i].path in s.noticed && s.notices[i].stamp <= s.noticed[s.notices[i].path])
    && (forall i, j | 0 <= i < j < |s.notices| && s.notices[i].path == s.notices[j].path ::
         s.notices[j].stamp - s.notices[i].stamp >= NOTICE_EVERY_MS)
  }

  lemma StepNotices(s: State, e: Event)
    requires NoticesOk(s) && Enabled(s, e)
    ensures NoticesOk(Step(s, e))
  {
    hide Recent;
  }

  lemma {:induction false} RunNotices(clock: int, events: seq<Event>, states: seq<State>, n: nat)
    requires Runs(clock, events, states) && n < |states|
    ensures NoticesOk(states[n])
  {
    hide Step;
    hide Enabled;
    if n > 0 {
      RunNotices(clock, events, states, n - 1);
      hide NoticesOk;
      StepNotices(states[n - 1], events[n - 1]);
    }
  }

  /** Two notices about one file stand for saves five minutes apart, and are shown five minutes apart
      less what taking the first one's claim took. */
  lemma NoticesApart(clock: int, events: seq<Event>, states: seq<State>, n: nat, i: nat, j: nat)
    requires Runs(clock, events, states) && n < |states| && i < j < |states[n].notices|
    requires states[n].notices[i].path == states[n].notices[j].path
    ensures var a, b := states[n].notices[i], states[n].notices[j];
      && b.stamp - a.stamp >= NOTICE_EVERY_MS
      && b.shown - a.shown >= NOTICE_EVERY_MS - (a.shown - a.stamp)
  {
    RunNotices(clock, events, states, n);
  }

  /** What is remembered of a file is a notice given about it. */
  ghost predicate Remembers(s: State) {
    forall path | path in s.noticed :: GivenFor(s.notices, path, s.noticed[path])
  }

  ghost predicate GivenFor(notices: seq<Notice>, path: string, stamp: int) {
    exists i :: 0 <= i < |notices| && notices[i].path == path && notices[i].stamp == stamp
  }

  lemma StepRemembers(s: State, e: Event)
    requires Remembers(s) && Enabled(s, e)
    ensures Remembers(Step(s, e))
  {
    hide Recent;
    var s' := Step(s, e);
    forall path | path in s'.noticed ensures GivenFor(s'.notices, path, s'.noticed[path]) {
      if path in s.noticed && s'.noticed[path] == s.noticed[path] {
        var i :| 0 <= i < |s.notices| && s.notices[i].path == path && s.notices[i].stamp == s.noticed[path];
        assert s'.notices[i] == s.notices[i];
      } else {
        assert s'.notices[|s.notices|].path == path;
      }
    }
  }

  lemma {:induction false} RunRemembers(clock: int, events: seq<Event>, states: seq<State>, n: nat)
    requires Runs(clock, events, states) && n < |states|
    ensures Remembers(states[n])
  {
    hide Step;
    hide Enabled;
    hide Remembers;
    if n == 0 {
      assert Start(clock).noticed == map[];
      NothingRemembered(clock);
    } else {
      RunRemembers(clock, events, states, n - 1);
      StepRemembers(states[n - 1], events[n - 1]);
    }
  }

  lemma NothingRemembered(clock: int)
    ensures Remembers(Start(clock))
  {
  }

  /** A save whose claim comes out is noticed exactly where another had the lines and no notice about the
      file stands for a save less than five minutes before; and its claim is not waited for any more. */
  lemma NoticedExactly(clock: int, events: seq<Event>, states: seq<State>, n: nat, save: nat, held: bool, now: int)
    requires Runs(clock, events, states) && n < |events| && events[n] == Taken(save, held, now)
    ensures save in states[n].taking && states[n + 1].taking == states[n].taking - {save}
    ensures var taking, given := states[n].taking[save], states[n].notices;
      var lately := exists i ::
        0 <= i < |given| && given[i].path == taking.path && taking.stamp - given[i].stamp < 300_000;
      states[n + 1].notices == if held && !lately then given + [Notice(taking.path, taking.stamp, now)] else given
  {
    RunNotices(clock, events, states, n);
    RunRemembers(clock, events, states, n);
    assert Enabled(states[n], events[n]) && states[n + 1] == Step(states[n], events[n]);
    hide Runs;
  }

  /** No more than that: where the first claim took `delay` to come out, two notices can be shown
      that much closer together. */
  lemma ShownSooner(path: string, delay: int)
    requires 0 <= delay <= NOTICE_EVERY_MS
    ensures var s1 := Save(Start(0), path, 0);
      var s2 := Take(s1, 0, true, delay);
      var s3 := Save(s2, path, NOTICE_EVERY_MS);
      Enabled(s1, Taken(0, true, delay)) && Enabled(s2, Saved(path, NOTICE_EVERY_MS))
      && Enabled(s3, Taken(1, true, NOTICE_EVERY_MS))
      && Take(s3, 1, true, NOTICE_EVERY_MS).notices
         == [Notice(path, 0, delay), Notice(path, NOTICE_EVERY_MS, NOTICE_EVERY_MS)]
  {
    var s1 := Save(Start(0), path, 0);
    assert s1.taking == map[0 := Taking(path, 0)] && s1.next == 1;
    var s2 := Take(s1, 0, true, delay);
    assert s2.noticed == map[path := 0] && s2.notices == [Notice(path, 0, delay)];
    assert s2.claims == [0] && Recent([0], NOTICE_EVERY_MS) == [];
    var s3 := Save(s2, path, NOTICE_EVERY_MS);
    assert s3.taking[1] == Taking(path, NOTICE_EVERY_MS);
  }

  // ---------------------------------------------------------------- the watcher

  class Watcher {
    var claims: seq<int>
    var noticed: map<string, int>
    ghost var clock: int
    ghost var made: seq<int>
    var next: nat
    var taking: map<nat, Taking>
    ghost var notices: seq<Notice>

    ghost function View(): State
      reads this
    {
      State(claims, noticed, clock, made, next, taking, notices)
    }

    constructor (ghost clock: int)
      ensures View() == Start(clock)
    {
      claims, noticed, this.clock, made, next, taking, notices := [], map[], clock, [], 0, map[], [];
    }

    /** A save with something in it to claim, up to where its claim is taken. */
    method Handle(path: string, now: int) returns (save: Option<nat>)
      requires Enabled(View(), Saved(path, now))
      modifies this
      ensures View() == Step(old(View()), Saved(path, now))
      ensures save == if made == old(made) then None else Some(old(next))
    {
      hide Recent;
      clock := now;
      claims := RecentClaims(now);
      if |claims| >= MOST_CLAIMS_PER_MINUTE {
        return None;
      }
      claims := claims + [now];
      made := made + [now];
      assert made != old(made) by { assert |made| > |old(made)|; }
      taking := taking[next := Taking(path, now)];
      save := Some(next);
      next := next + 1;
    }

    method RecentClaims(now: int) returns (recent: seq<int>)
      ensures recent == Recent(claims, now)
    {
      recent := [];
      for i := 0 to |claims|
        invariant recent + Recent(claims[i..], now) == Recent(claims, now)
      {
        RecentFirst(recent, claims[i..], now);
        assert claims[i..][1..] == claims[i + 1..];
        if now - claims[i] < MINUTE_MS {
          recent := recent + [claims[i]];
        }
      }
      assert claims[|claims|..] == [];
    }

    /** Its claim has been taken, or somebody else has the lines. */
    method Took(save: nat, heldByAnother: bool, ghost now: int)
      requires Enabled(View(), Taken(save, heldByAnother, now))
      modifies this
      ensures View() == Step(old(View()), Taken(save, heldByAnother, now))
    {
      clock := now;
      var taken := taking[save];
      taking := taking - {save};
      if heldByAnother {
        Notify(taken.path, taken.stamp);
      }
    }

    method Notify(path: string, stamp: int)
      modifies this`noticed, this`notices
      ensures View() == NoticeCollision(old(View()), path, stamp)
    {
      if path in noticed && stamp - noticed[path] < NOTICE_EVERY_MS {
        return;
      }
      noticed := noticed[path := stamp];
      notices := notices + [Notice(path, stamp, clock)];
    }
  }

  lemma RecentFirst(head: seq<int>, claims: seq<int>, now: int)
    requires claims != []
    ensures head + Recent(claims, now)
      == (if now - claims[0] < MINUTE_MS then head + [claims[0]] else head) + Recent(claims[1..], now)
  {
  }
}
