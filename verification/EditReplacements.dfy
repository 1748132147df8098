/** Edits applied and undone. `AfterEdit` makes an edit's replacements in order; `BeforeEdit` takes them
    back from the last to the first, by searching for what each put in. A text is a sequence of
    whatever its source counts in, so an empty search cuts between any two. */
module EditReplacements {
  import opened Basics

  /** Where a text first holds another. */
  function FirstAt<T(==)>(text: seq<T>, part: seq<T>): (at: Option<nat>)
    ensures at.Some? ==> at.value + |part| <= |text| && text[at.value..at.value + |part|] == part
    decreases |text|
  {
    if part <= text then Some(0)
    else if text == [] then None
    else match FirstAt(text[1..], part)
      case None => None
      case Some(at) =>
        assert text[1..][at..at + |part|] == text[at + 1..at + 1 + |part|];
        Some(at + 1)
  }

  /** The text before and after the first place, as `replace` cuts it. */
  function CutFirst<T(==)>(text: seq<T>, part: seq<T>): Option<(seq<T>, seq<T>)> {
    match FirstAt(text, part)
    case None => None
    case Some(at) => Some((text[..at], text[at + |part|..]))
  }

  function EachAlone<T(==)>(text: seq<T>): seq<seq<T>> {
    if text == [] then [] else [[text[0]]] + EachAlone(text[1..])
  }

  /** Every piece, as `split` cuts it. */
  function CutAll<T(==)>(text: seq<T>, part: seq<T>): seq<seq<T>>
    decreases |text|
  {
    if part == [] then EachAlone(text)
    else match FirstAt(text, part)
      case None => [text]
      case Some(at) => [text[..at]] + CutAll(text[at + |part|..], part)
  }

  function ReplaceIn<T(==)>(text: seq<T>, part: seq<T>, put: seq<T>, all: bool): seq<T> {
    if all then JoinWith(CutAll(text, part), put)
    else match CutFirst(text, part)
      case None => text
      case Some((head, tail)) => head + put + tail
  }

  function After<T(==)>(text: seq<T>, replacements: seq<Replacement<T>>): Option<seq<T>>
    decreases |replacements|
  {
    if replacements == [] then Some(text)
    else
      var r := replacements[0];
      if FirstAt(text, r.before).None? then None
      else After(ReplaceIn(text, r.before, r.after, r.all), replacements[1..])
  }

  function Before<T(==)>(text: seq<T>, replacements: seq<Replacement<T>>): Option<seq<T>>
    decreases |replacements|
  {
    if replacements == [] then Some(text)
    else
      var r := replacements[|replacements| - 1];
      if r.after == [] || FirstAt(text, r.after).None? then None
      else Before(ReplaceIn(text, r.after, r.before, r.all), replacements[..|replacements| - 1])
  }

  /** Makes an edit: each replacement in the text the one before it left, as long as each is found. */
  method AfterEdit<T(==)>(before: seq<T>, change: Change<T>) returns (r: Option<seq<T>>)
    ensures r == if change.Write? then Some(change.content) else After(before, change.replacements)
  {
    if change.Write? {
      return Some(change.content);
    }
    var rs := change.replacements;
    var text := before;
    var i := 0;
    while i < |rs|
      invariant 0 <= i <= |rs| && After(text, rs[i..]) == After(before, rs)
    {
      assert rs[i..][1..] == rs[i + 1..];
      if FirstAt(text, rs[i].before).None? {
        return None;
      }
      text := ReplaceIn(text, rs[i].before, rs[i].after, rs[i].all);
      i := i + 1;
    }
    r := Some(text);
  }

  /** Takes an edit back from a text, as long as each replacement's result is found in it. */
  method BeforeEdit<T(==)>(after: seq<T>, change: Change<T>) returns (r: Option<seq<T>>)
    ensures r == if change.Write? then None else Before(after, change.replacements)
  {
    if change.Write? {
      return None;
    }
    var rs := change.replacements;
    var text := after;
    var i := |rs|;
    assert rs[..|rs|] == rs;
    while i > 0
      invariant 0 <= i <= |rs| && Before(text, rs[..i]) == Before(after, rs)
    {
      var each := rs[i - 1];
      assert rs[..i][..i - 1] == rs[..i - 1];
      if each.after == [] || FirstAt(text, each.after).None? {
        return None;
      }
      text := ReplaceIn(text, each.after, each.before, each.all);
      i := i - 1;
    }
    r := Some(text);
  }

  // ---------------------------------------------------------------- undoing

  lemma {:induction false} JoinEach<T>(text: seq<T>)
    ensures JoinWith(EachAlone(text), []) == text
  {
    if text != [] {
      JoinEach(text[1..]);
      assert EachAlone(text)[1..] == EachAlone(text[1..]);
      assert [text[0]] + text[1..] == text;
    }
  }

  /** Gluing the pieces back with what they were cut at gives the text. */
  lemma {:induction false} JoinCut<T>(text: seq<T>, part: seq<T>)
    ensures JoinWith(CutAll(text, part), part) == text
    decreases |text|
  {
    if part == [] {
      JoinEach(text);
    } else if FirstAt(text, part).Some? {
      var at := FirstAt(text, part).value;
      var tail := text[at + |part|..];
      JoinCut(tail, part);
      assert CutAll(tail, part) != [];
      assert (CutAll(text, part))[1..] == CutAll(tail, part);
      GlueAt(text, at, |part|);
    }
  }

  /** One replacement can be told from its result: what it wrote is there to be found, and
      cutting the new text at it gives the pieces the old text was cut into. */
  predicate Traceable<T(==)>(was: seq<T>, r: Replacement<T>) {
    var now := ReplaceIn(was, r.before, r.after, r.all);
    && r.after != []
    && FirstAt(now, r.after).Some?
    && if r.all then CutAll(now, r.after) == CutAll(was, r.before)
       else CutFirst(now, r.after) == CutFirst(was, r.before)
  }

  predicate AllTraceable<T(==)>(text: seq<T>, replacements: seq<Replacement<T>>)
    decreases |replacements|
  {
    replacements != [] ==>
      var r := replacements[0];
      && FirstAt(text, r.before).Some?
      && Traceable(text, r)
      && AllTraceable(ReplaceIn(text, r.before, r.after, r.all), replacements[1..])
  }

  lemma GlueAt<T>(text: seq<T>, at: nat, length: nat)
    requires at + length <= |text|
    ensures text[..at] + text[at..at + length] + text[at + length..] == text
    ensures text[..at] + (text[at..at + length] + text[at + length..]) == text
  {
  }

  lemma UndoOne<T>(was: seq<T>, r: Replacement<T>)
    requires FirstAt(was, r.before).Some? && Traceable(was, r)
    ensures ReplaceIn(ReplaceIn(was, r.before, r.after, r.all), r.after, r.before, r.all) == was
  {
    hide FirstAt;
    hide CutAll;
    hide JoinWith;
    if r.all {
      JoinCut(was, r.before);
    } else {
      var at := FirstAt(was, r.before).value;
      GlueAt(was, at, |r.before|);
    }
  }

  lemma TraceableMeans<T>(was: seq<T>, r: Replacement<T>)
    requires Traceable(was, r)
    ensures r.after != [] && FirstAt(ReplaceIn(was, r.before, r.after, r.all), r.after).Some?
  {
  }

  lemma BeforeLast<T>(text: seq<T>, front: seq<Replacement<T>>, last: Replacement<T>)
    requires last.after != [] && FirstAt(text, last.after).Some?
    ensures Before(text, front + [last]) == Before(ReplaceIn(text, last.after, last.before, last.all), front)
  {
    hide FirstAt;
    hide ReplaceIn;
    assert (front + [last])[..|front|] == front;
  }

  lemma {:induction false} AfterLast<T>(text: seq<T>, replacements: seq<Replacement<T>>, last: Replacement<T>)
    ensures After(text, replacements + [last]) ==
      match After(text, replacements)
      case None => None
      case Some(t) => if FirstAt(t, last.before).None? then None
        else Some(ReplaceIn(t, last.before, last.after, last.all))
    ensures AllTraceable(text, replacements + [last]) ==>
      AllTraceable(text, replacements) && After(text, replacements).Some?
      && FirstAt(After(text, replacements).value, last.before).Some?
      && Traceable(After(text, replacements).value, last)
    decreases |replacements|
  {
    if replacements == [] {
      assert replacements + [last] == [last] && [last][1..] == [];
    } else {
      var r := replacements[0];
      assert (replacements + [last])[1..] == replacements[1..] + [last];
      AfterLast(ReplaceIn(text, r.before, r.after, r.all), replacements[1..], last);
    }
  }

  /** Taking every replacement back, last first, gives the text they were made in. */
  lemma {:induction false} UndoAll<T>(text: seq<T>, replacements: seq<Replacement<T>>)
    requires AllTraceable(text, replacements)
    ensures After(text, replacements).Some?
    ensures Before(After(text, replacements).value, replacements) == Some(text)
    decreases |replacements|, 1
  {
    hide *;
    if replacements == [] {
      UndoNone(text, replacements);
    } else {
      LastApart(replacements);
      UndoLast(text, replacements[..|replacements| - 1], replacements[|replacements| - 1]);
    }
  }

  lemma UndoNone<T>(text: seq<T>, replacements: seq<Replacement<T>>)
    requires replacements == []
    ensures After(text, replacements) == Some(text) && Before(text, replacements) == Some(text)
  {
  }

  lemma LastApart<T>(s: seq<T>)
    requires s != []
    ensures s == s[..|s| - 1] + [s[|s| - 1]]
  {
  }

  lemma {:induction false} UndoLast<T>(text: seq<T>, front: seq<Replacement<T>>, last: Replacement<T>)
    requires AllTraceable(text, front + [last])
    ensures After(text, front + [last]).Some?
    ensures Before(After(text, front + [last]).value, front + [last]) == Some(text)
    decreases |front| + 1, 0
  {
    hide *;
    AfterLast(text, front, last);
    UndoAll(text, front);
    UndoOne(After(text, front).value, last);
    TraceableMeans(After(text, front).value, last);
    BeforeLast(After(text, front + [last]).value, front, last);
  }

  // ---------------------------------------------------------------- exactly when

  /** Nothing before the first place is a place. */
  lemma {:induction false} FirstIsFirst<T>(text: seq<T>, part: seq<T>, i: nat)
    requires i + |part| <= |text| && text[i..i + |part|] == part
    ensures FirstAt(text, part).Some? && FirstAt(text, part).value <= i
    decreases |text|
  {
    if !(part <= text) {
      assert i > 0;
      assert text[1..][i - 1..i - 1 + |part|] == text[i..i + |part|];
      FirstIsFirst(text[1..], part, i - 1);
    }
  }

  lemma PutThere<T>(head: seq<T>, put: seq<T>, tail: seq<T>)
    ensures (head + put + tail)[|head|..|head| + |put|] == put
    ensures (head + put + tail)[..|head|] == head && (head + put + tail)[|head| + |put|..] == tail
  {
  }

  /** A first-place replacement comes back exactly where cutting the new text at what was put in gives
      the pieces the old text was cut into. */
  lemma FirstBack<T>(was: seq<T>, r: Replacement<T>)
    requires !r.all && r.after != [] && FirstAt(was, r.before).Some?
    ensures var now := ReplaceIn(was, r.before, r.after, false);
      && FirstAt(now, r.after).Some?
      && (ReplaceIn(now, r.after, r.before, false) == was ==> CutFirst(now, r.after) == CutFirst(was, r.before))
  {
    hide FirstAt;
    var at := FirstAt(was, r.before).value;
    var head, tail := was[..at], was[at + |r.before|..];
    var now := head + r.after + tail;
    assert ReplaceIn(was, r.before, r.after, false) == now;
    PutThere(head, r.after, tail);
    FirstIsFirst(now, r.after, at);
    var at' := FirstAt(now, r.after).value;
    var head', tail' := now[..at'], now[at' + |r.after|..];
    assert ReplaceIn(now, r.after, r.before, false) == head' + r.before + tail';
    if head' + r.before + tail' == was {
      hide ReplaceIn;
      PutThere(head', r.before, tail');
      FirstIsFirst(was, r.before, at');
      assert at' == at;
      assert head' == head && tail' == tail;
    }
  }

  lemma {:induction false} CutSome<T>(text: seq<T>, part: seq<T>)
    requires part != []
    ensures CutAll(text, part) != [] && (|CutAll(text, part)| == 1 <==> FirstAt(text, part).None?)
    ensures FirstAt(text, part).None? ==> CutAll(text, part) == [text]
    ensures FirstAt(text, part).Some? ==>
      CutAll(text, part) == [text[..FirstAt(text, part).value]]
        + CutAll(text[FirstAt(text, part).value + |part|..], part)
    decreases |text|
  {
    if FirstAt(text, part).Some? {
      CutSome(text[FirstAt(text, part).value + |part|..], part);
    }
  }

  lemma GluedFirst<T>(first: seq<T>, more: seq<seq<T>>, glue: seq<T>)
    requires more != []
    ensures JoinWith([first] + more, glue) == first + glue + JoinWith(more, glue)
  {
    assert ([first] + more)[1..] == more;
    Associate(first, glue, JoinWith(more, glue));
  }

  /** Replacing every place comes back exactly so too, where there was something to look for: the first
      place of what was put in can only be the first place it was put, and so on along the text. */
  lemma {:induction false} EveryBack<T>(was: seq<T>, before: seq<T>, after: seq<T>)
    requires before != [] && after != []
    requires JoinWith(CutAll(JoinWith(CutAll(was, before), after), after), before) == was
    ensures CutAll(JoinWith(CutAll(was, before), after), after) == CutAll(was, before)
    decreases |was|
  {
    hide FirstAt;
    hide CutAll;
    hide JoinWith;
    CutSome(was, before);
    if FirstAt(was, before).Some? {
      SameFirst(was, before, after);
      EveryBack(was[FirstAt(was, before).value + |before|..], before, after);
    } else {
      CutSome(was, after);
      OneGlued(was, after);
      OnlyOne(was, before, CutAll(was, after));
    }
  }

  lemma OneGlued<T>(text: seq<T>, glue: seq<T>)
    ensures JoinWith([text], glue) == text
  {
  }

  /** Where glued pieces hold none of the glue, there is one piece. */
  lemma OnlyOne<T>(text: seq<T>, glue: seq<T>, pieces: seq<seq<T>>)
    requires FirstAt(text, glue).None? && pieces != [] && JoinWith(pieces, glue) == text
    ensures pieces == [text]
  {
    if |pieces| > 1 {
      var rest := JoinWith(pieces[1..], glue);
      Associate(pieces[0], glue, rest);
      PutThere(pieces[0], glue, rest);
      FirstIsFirst(text, glue, |pieces[0]|);
    }
  }

  /** The first place of what was put in is the first place it was put, and what follows comes back by
      itself. */
  lemma SameFirst<T>(was: seq<T>, before: seq<T>, after: seq<T>)
    requires before != [] && after != [] && FirstAt(was, before).Some?
    requires JoinWith(CutAll(JoinWith(CutAll(was, before), after), after), before) == was
    ensures var at := FirstAt(was, before).value; var rest := was[at + |before|..];
      var now := JoinWith(CutAll(rest, before), after);
      && CutAll(JoinWith(CutAll(was, before), after), after) == [was[..at]] + CutAll(now, after)
      && JoinWith(CutAll(now, after), before) == rest
  {
    hide FirstAt;
    hide CutAll;
    hide JoinWith;
    var at := FirstAt(was, before).value;
    var rest := was[at + |before|..];
    var more := CutAll(rest, before);
    CutSome(was, before);
    CutSome(rest, before);
    GluedFirst(was[..at], more, after);
    var now := was[..at] + after + JoinWith(more, after);
    PutThere(was[..at], after, JoinWith(more, after));
    FirstIsFirst(now, after, at);
    var at' := FirstAt(now, after).value;
    var more' := CutAll(now[at' + |after|..], after);
    CutSome(now, after);
    CutSome(now[at' + |after|..], after);
    GluedFirst(now[..at'], more', before);
    PutThere(now[..at'], before, JoinWith(more', before));
    FirstIsFirst(was, before, at');
    assert at' == at;
  }

  /** One replacement is undone exactly where it can be told from its result; only replacing every place
      of nothing can come back by luck. */
  lemma UndoneExactly<T>(was: seq<T>, r: Replacement<T>)
    requires FirstAt(was, r.before).Some? && (r.all ==> r.before != [])
    ensures Before(ReplaceIn(was, r.before, r.after, r.all), [r]) == Some(was) <==> Traceable(was, r)
  {
    var now := ReplaceIn(was, r.before, r.after, r.all);
    OneBefore(now, r);
    if Traceable(was, r) {
      UndoOne(was, r);
    } else if r.after != [] && FirstAt(now, r.after).Some? && ReplaceIn(now, r.after, r.before, r.all) == was {
      if r.all {
        EveryBack(was, r.before, r.after);
      } else {
        FirstBack(was, r);
      }
    }
  }

  lemma OneBefore<T>(now: seq<T>, r: Replacement<T>)
    ensures Before(now, [r]) ==
      if r.after == [] || FirstAt(now, r.after).None? then None else Some(ReplaceIn(now, r.after, r.before, r.all))
  {
    assert [r][..0] == [];
    assert [r][|[r]| - 1] == r;
  }

  /** Each replacement, taken back from the very text it left, gives the text it was made in. */
  predicate EachBack<T(==)>(text: seq<T>, replacements: seq<Replacement<T>>)
    decreases |replacements|
  {
    replacements != [] ==>
      var r := replacements[0];
      && FirstAt(text, r.before).Some?
      && Before(ReplaceIn(text, r.before, r.after, r.all), [r]) == Some(text)
      && EachBack(ReplaceIn(text, r.before, r.after, r.all), replacements[1..])
  }

  /** An edit is undone step by step exactly where each of its replacements can be told from its
      result. */
  lemma {:induction false} UndoneStepByStep<T>(text: seq<T>, replacements: seq<Replacement<T>>)
    requires forall r | r in replacements :: r.all ==> r.before != []
    ensures EachBack(text, replacements) <==> AllTraceable(text, replacements)
    decreases |replacements|
  {
    if replacements != [] && FirstAt(text, replacements[0].before).Some? {
      var r := replacements[0];
      UndoneExactly(text, r);
      UndoneStepByStep(ReplaceIn(text, r.before, r.after, r.all), replacements[1..]);
    }
  }

  /** The text some replacements are taken back from lacks what the last of them put in. */
  predicate Lacks<T(==)>(text: seq<T>, r: Replacement<T>) {
    r.after == [] || FirstAt(text, r.after).None?
  }

  /** Undoing comes to nothing exactly where at some step the text then held lacks what that step put
      in. */
  lemma {:induction false} NullExactly<T(!new)>(after: seq<T>, replacements: seq<Replacement<T>>)
    ensures Before(after, replacements).None? <==> Stuck(after, replacements)
    decreases |replacements|
  {
    if replacements != [] {
      var n := |replacements| - 1;
      var r := replacements[n];
      if Lacks(after, r) {
        assert replacements[n + 1..] == [];
        assert StuckAt(after, replacements, n);
      } else {
        StuckEarlier(after, replacements);
        hide Stuck;
        hide FirstAt;
        hide ReplaceIn;
        NullExactly(ReplaceIn(after, r.after, r.before, r.all), replacements[..n]);
      }
    }
  }

  ghost predicate Stuck<T(!new)>(after: seq<T>, replacements: seq<Replacement<T>>) {
    exists k :: 0 <= k < |replacements| && StuckAt(after, replacements, k)
  }

  /** Where the last step is not where undoing sticks, it sticks where it would without it. */
  lemma StuckEarlier<T(!new)>(after: seq<T>, replacements: seq<Replacement<T>>)
    requires replacements != [] && !Lacks(after, replacements[|replacements| - 1])
    ensures var n := |replacements| - 1; var r := replacements[n];
      Stuck(after, replacements) <==> Stuck(ReplaceIn(after, r.after, r.before, r.all), replacements[..n])
  {
    var n := |replacements| - 1;
    var r, front := replacements[n], replacements[..n];
    var held := ReplaceIn(after, r.after, r.before, r.all);
    forall k | 0 <= k < n ensures StuckAt(after, replacements, k) <==> StuckAt(held, front, k) {
      StuckBefore(after, replacements, k);
    }
    assert !StuckAt(after, replacements, n) by {
      assert replacements[n + 1..] == [];
    }
    hide StuckAt;
    hide ReplaceIn;
    hide Lacks;
  }

  lemma StuckBefore<T>(after: seq<T>, replacements: seq<Replacement<T>>, k: nat)
    requires k < |replacements| - 1 && !Lacks(after, replacements[|replacements| - 1])
    ensures var n := |replacements| - 1; var r := replacements[n];
      StuckAt(after, replacements, k) <==> StuckAt(ReplaceIn(after, r.after, r.before, r.all), replacements[..n], k)
  {
    hide FirstAt;
    hide ReplaceIn;
    var n := |replacements| - 1;
    var rest := replacements[k + 1..];
    assert rest[|rest| - 1] == replacements[n] && rest[..|rest| - 1] == replacements[..n][k + 1..];
  }

  predicate StuckAt<T(==)>(after: seq<T>, replacements: seq<Replacement<T>>, k: nat)
    requires k < |replacements|
  {
    Before(after, replacements[k + 1..]).Some? && Lacks(Before(after, replacements[k + 1..]).value, replacements[k])
  }

  /** A first place not told from the result: `ab` with `b` made `a` is `aa`, whose first `a` is not the
      one that was put in. */
  lemma UntraceableExample()
    ensures var a: CodeUnit, b: CodeUnit := 97, 98;
      var r := Replacement([b], [a], false);
      && After([a, b], [r]) == Some([a, a])
      && Before([a, a], [r]) == Some([b, a])
      && !Traceable([a, b], r)
  {
    var a: CodeUnit, b: CodeUnit := 97, 98;
    var r := Replacement([b], [a], false);
    var ab: Units, aa: Units := [a, b], [a, a];
    assert !([b] <= ab) by {
      assert ab[0] == a;
    }
    assert ab[1..] == [b] && [b] <= ab[1..];
    assert FirstAt(ab[1..], [b]) == Some(0);
    assert FirstAt(ab, [b]) == Some(1);
    assert ab[..1] == [a] && ab[2..] == [];
    assert ReplaceIn(ab, [b], [a], false) == aa;
    assert [a] <= aa && FirstAt(aa, [a]) == Some(0);
    assert aa[..0] == [] && aa[1..] == [a];
    assert ReplaceIn(aa, [a], [b], false) == [b, a];
    assert [r][1..] == [] && [r][..0] == [];
    assert CutFirst(aa, [a]).value.0 != CutFirst(ab, [b]).value.0;
  }

  /** Luck: `axb` with `aa` put between any two is `aaaxaab`, which comes apart at every `aa` into nothing,
      `ax` and `b`: other pieces than it was made of, and together `axb` again. */
  lemma ByLuck()
    ensures var a: CodeUnit, x: CodeUnit, b: CodeUnit := 97, 120, 98;
      var was, r := [a, x, b], Replacement([], [a, a], true);
      && After(was, [r]) == Some([a, a, a, x, a, a, b])
      && Before([a, a, a, x, a, a, b], [r]) == Some(was)
      && !Traceable(was, r)
  {
    var a: CodeUnit, x: CodeUnit, b: CodeUnit := 97, 120, 98;
    var was: Units, glue: Units := [a, x, b], [a, a];
    var r := Replacement([], glue, true);
    var now: Units := [a, a, a, x, a, a, b];
    LuckyAfter(a, x, b);
    LuckyBefore(a, x, b);
    assert [r][1..] == [] && [] <= was;
    hide CutAll;
    hide JoinWith;
    OneBefore(now, r);
    assert CutAll(now, glue) != CutAll(was, []);
  }

  lemma LuckyAfter(a: CodeUnit, x: CodeUnit, b: CodeUnit)
    ensures CutAll([a, x, b], []) == [[a], [x], [b]]
    ensures JoinWith([[a], [x], [b]], [a, a]) == [a, a, a, x, a, a, b]
  {
    assert [a, x, b][1..] == [x, b] && [x, b][1..] == [b] && [b][1..] == [];
    assert EachAlone([b]) == [[b]] && EachAlone([x, b]) == [[x]] + [[b]];
    assert EachAlone([a, x, b]) == [[a]] + [[x], [b]];
    ThreeGlued([a], [x], [b], [a, a]);
    assert [a] + ([a, a] + ([x] + ([a, a] + [b]))) == [a, a, a, x, a, a, b];
  }

  lemma ThreeGlued(a: Units, b: Units, c: Units, glue: Units)
    ensures JoinWith([a, b, c], glue) == a + (glue + (b + (glue + c)))
  {
    assert [a, b, c][1..] == [b, c] && [b, c][1..] == [c];
    assert JoinWith([c], glue) == c;
    assert JoinWith([b, c], glue) == b + (glue + c);
  }

  lemma LuckyBefore(a: CodeUnit, x: CodeUnit, b: CodeUnit)
    requires a != x && a != b
    ensures var now := [a, a, a, x, a, a, b];
      && FirstAt(now, [a, a]) == Some(0)
      && CutAll(now, [a, a]) == [[], [a, x], [b]]
      && JoinWith([[], [a, x], [b]], []) == [a, x, b]
  {
    var glue: Units := [a, a];
    var now: Units, rest: Units, last: Units := [a, a, a, x, a, a, b], [a, x, a, a, b], [b];
    assert glue <= now && now[..0] == [] && now[2..] == rest;
    LuckyRest(a, x, b);
    assert CutAll(now, glue) == [now[..0]] + CutAll(rest, glue);
    hide CutAll;
    assert [[]] + [[a, x], [b]] == [[], [a, x], [b]];
    ThreeGlued([], [a, x], [b], []);
    assert [] + ([] + ([a, x] + ([] + [b]))) == [a, x, b];
  }

  lemma LuckyRest(a: CodeUnit, x: CodeUnit, b: CodeUnit)
    requires a != x && a != b
    ensures CutAll([a, x, a, a, b], [a, a]) == [[a, x], [b]]
  {
    var glue: Units := [a, a];
    var rest: Units, last: Units := [a, x, a, a, b], [b];
    assert rest[1..] == [x, a, a, b] && [x, a, a, b][1..] == [a, a, b];
    assert !(glue <= rest) by { assert rest[1] == x; }
    assert !(glue <= [x, a, a, b]) by { assert [x, a, a, b][0] == x; }
    assert glue <= [a, a, b];
    assert FirstAt([a, a, b], glue) == Some(0);
    assert FirstAt([x, a, a, b], glue) == Some(1);
    assert FirstAt(rest, glue) == Some(2);
    assert rest[..2] == [a, x] && rest[4..] == last;
    assert last[1..] == [] && !(glue <= last) && FirstAt(last, glue).None?;
    hide FirstAt;
    assert CutAll(last, glue) == [last];
    assert CutAll(rest, glue) == [[a, x]] + [last];
  }
}
