/** How far apart two words are: the two-row loop against the Levenshtein recursion, and the
    recursion against the shortest script of edits that turns one word into the other. */
module EditDistance {
  import opened Basics

  type Word = Units

  function Min(a: int, b: int): int {
    if a <= b then a else b
  }

  /** The distance of the first `i` letters of one word from the first `j` of the other. */
  function DistanceAt(a: Word, b: Word, i: nat, j: nat): (d: int)
    requires i <= |a| && j <= |b|
    ensures d >= 0
    decreases i + j
  {
    if i == 0 then j
    else if j == 0 then i
    else
      Min(DistanceAt(a, b, i, j - 1) + 1,
        Min(DistanceAt(a, b, i - 1, j) + 1, DistanceAt(a, b, i - 1, j - 1) + if a[i - 1] == b[j - 1] then 0 else 1))
  }

  /** One cell from its three neighbours, which is all the proofs below need of the recursion. */
  lemma Cell(a: Word, b: Word, i: nat, j: nat)
    requires i <= |a| && j <= |b|
    ensures DistanceAt(a, b, i, j) ==
      if i == 0 then j
      else if j == 0 then i
      else
        Min(DistanceAt(a, b, i, j - 1) + 1,
          Min(DistanceAt(a, b, i - 1, j) + 1,
            DistanceAt(a, b, i - 1, j - 1) + if a[i - 1] == b[j - 1] then 0 else 1))
  {
  }

  function Distance(a: Word, b: Word): int {
    DistanceAt(a, b, |a|, |b|)
  }

  /** Two rows are enough: each cell reads only the row before it and the cell beside it. */
  method EditDistance(a: Word, b: Word) returns (distance: int)
    ensures distance == Distance(a, b)
  {
    hide DistanceAt;
    var previous: seq<int> := seq(|b| + 1, index => index);
    forall k | 0 <= k <= |b| ensures previous[k] == DistanceAt(a, b, 0, k) {
      Cell(a, b, 0, k);
    }
    for i := 1 to |a| + 1
      invariant |previous| == |b| + 1
      invariant forall k | 0 <= k <= |b| :: previous[k] == DistanceAt(a, b, i - 1, k)
    {
      var current: seq<int> := [i];
      Cell(a, b, i, 0);
      for j := 1 to |b| + 1
        invariant |current| == j
        invariant forall k | 0 <= k < j :: current[k] == DistanceAt(a, b, i, k)
      {
        Cell(a, b, i, j);
        var substitution := previous[j - 1] + if a[i - 1] == b[j - 1] then 0 else 1;
        current := current + [Min(Min(previous[j] + 1, current[j - 1] + 1), substitution)];
      }
      previous := current;
    }
    distance := previous[|b|];
  }

  // ---------------------------------------------------------------- scripts of edits

  /** A script, its last edit outermost: what is done to the last letter, then to the rest. */
  datatype Script =
    | Done
    | Keep(more: Script)
    | Insert(more: Script, letter: CodeUnit)
    | Delete(more: Script)
    | Substitute(more: Script, letter: CodeUnit)

  /** The script turns the first `i` letters of `a` into the first `j` letters of `b`. */
  predicate Turns(s: Script, a: Word, i: nat, b: Word, j: nat)
    requires i <= |a| && j <= |b|
  {
    match s
    case Done => i == 0 && j == 0
    case Keep(more) => i > 0 && j > 0 && a[i - 1] == b[j - 1] && Turns(more, a, i - 1, b, j - 1)
    case Insert(more, letter) => j > 0 && b[j - 1] == letter && Turns(more, a, i, b, j - 1)
    case Delete(more) => i > 0 && Turns(more, a, i - 1, b, j)
    case Substitute(more, letter) => i > 0 && j > 0 && b[j - 1] == letter && Turns(more, a, i - 1, b, j - 1)
  }

  function Cost(s: Script): int {
    match s
    case Done => 0
    case Keep(more) => Cost(more)
    case _ => 1 + Cost(s.more)
  }

  function Best(a: Word, b: Word, i: nat, j: nat): Script
    requires i <= |a| && j <= |b|
    decreases i + j
  {
    if i == 0 && j == 0 then Done
    else if i == 0 then Insert(Best(a, b, i, j - 1), b[j - 1])
    else if j == 0 then Delete(Best(a, b, i - 1, j))
    else if DistanceAt(a, b, i, j) == DistanceAt(a, b, i, j - 1) + 1 then Insert(Best(a, b, i, j - 1), b[j - 1])
    else if DistanceAt(a, b, i, j) == DistanceAt(a, b, i - 1, j) + 1 then Delete(Best(a, b, i - 1, j))
    else if a[i - 1] == b[j - 1] then Keep(Best(a, b, i - 1, j - 1))
    else Substitute(Best(a, b, i - 1, j - 1), b[j - 1])
  }

  lemma {:induction false} BestTurns(a: Word, b: Word, i: nat, j: nat)
    requires i <= |a| && j <= |b|
    ensures Turns(Best(a, b, i, j), a, i, b, j) && Cost(Best(a, b, i, j)) == DistanceAt(a, b, i, j)
    decreases i + j
  {
    hide DistanceAt;
    Cell(a, b, i, j);
    if i == 0 && j > 0 {
      BestTurns(a, b, i, j - 1);
      Cell(a, b, i, j - 1);
    } else if i > 0 && j == 0 {
      BestTurns(a, b, i - 1, j);
      Cell(a, b, i - 1, j);
    } else if i > 0 && j > 0 {
      if DistanceAt(a, b, i, j) == DistanceAt(a, b, i, j - 1) + 1 {
        BestTurns(a, b, i, j - 1);
      } else if DistanceAt(a, b, i, j) == DistanceAt(a, b, i - 1, j) + 1 {
        BestTurns(a, b, i - 1, j);
      } else {
        BestTurns(a, b, i - 1, j - 1);
      }
    }
  }

  lemma {:induction false} NoCheaperScript(s: Script, a: Word, i: nat, b: Word, j: nat)
    requires i <= |a| && j <= |b| && Turns(s, a, i, b, j)
    ensures DistanceAt(a, b, i, j) <= Cost(s)
    decreases s
  {
    match s
    case Done =>
    case Keep(more) => NoCheaperScript(more, a, i - 1, b, j - 1);
    case Insert(more, _) => NoCheaperScript(more, a, i, b, j - 1);
    case Delete(more) => NoCheaperScript(more, a, i - 1, b, j);
    case Substitute(more, _) => NoCheaperScript(more, a, i - 1, b, j - 1);
  }

  ghost predicate Rewrites(s: Script, a: Word, b: Word) {
    Turns(s, a, |a|, b, |b|)
  }

  /** The distance is the cost of a shortest script. */
  lemma ShortestScript(a: Word, b: Word)
    ensures exists s :: Rewrites(s, a, b) && Cost(s) == Distance(a, b)
    ensures forall s | Rewrites(s, a, b) :: Distance(a, b) <= Cost(s)
  {
    BestTurns(a, b, |a|, |b|);
    assert Rewrites(Best(a, b, |a|, |b|), a, b);
    forall s | Rewrites(s, a, b) ensures Distance(a, b) <= Cost(s) {
      NoCheaperScript(s, a, |a|, b, |b|);
    }
  }

  // ---------------------------------------------------------------- a metric

  lemma {:induction false} CostIsNatural(s: Script)
    ensures Cost(s) >= 0
  {
    if !s.Done? {
      CostIsNatural(s.more);
    }
  }

  lemma {:induction false} FreeScript(s: Script, a: Word, i: nat, b: Word, j: nat)
    requires i <= |a| && j <= |b| && Turns(s, a, i, b, j) && Cost(s) == 0
    ensures i == j && forall k | 0 <= k < i :: a[k] == b[k]
    decreases s
  {
    if s.Keep? {
      FreeScript(s.more, a, i - 1, b, j - 1);
    } else if !s.Done? {
      CostIsNatural(s.more);
    }
  }

  lemma {:induction false} SelfDistance(a: Word, i: nat)
    requires i <= |a|
    ensures DistanceAt(a, a, i, i) == 0
  {
    if i > 0 {
      SelfDistance(a, i - 1);
    }
  }

  lemma ZeroOnlyForEqual(a: Word, b: Word)
    ensures Distance(a, b) == 0 <==> a == b
  {
    BestTurns(a, b, |a|, |b|);
    SelfDistance(a, |a|);
    if Distance(a, b) == 0 {
      FreeScript(Best(a, b, |a|, |b|), a, |a|, b, |b|);
    }
  }

  lemma {:induction false} SymmetricAt(a: Word, b: Word, i: nat, j: nat)
    requires i <= |a| && j <= |b|
    ensures DistanceAt(a, b, i, j) == DistanceAt(b, a, j, i)
    decreases i + j
  {
    hide DistanceAt;
    Cell(a, b, i, j);
    Cell(b, a, j, i);
    if i > 0 && j > 0 {
      SymmetricAt(a, b, i, j - 1);
      SymmetricAt(a, b, i - 1, j);
      SymmetricAt(a, b, i - 1, j - 1);
    }
  }

  lemma Symmetric(a: Word, b: Word)
    ensures Distance(a, b) == Distance(b, a)
  {
    SymmetricAt(a, b, |a|, |b|);
  }

  /** One script after another, as one script. */
  ghost function Then(s: Script, t: Script): Script
    decreases s, t
  {
    if t.Insert? then Insert(Then(s, t.more), t.letter)
    else if s.Delete? then Delete(Then(s.more, t))
    else if s.Done? || t.Done? then Done
    else if s.Insert? then
      if t.Delete? then Then(s.more, t.more)
      else Insert(Then(s.more, t.more), if t.Substitute? then t.letter else s.letter)
    else if t.Delete? then Delete(Then(s.more, t.more))
    else if t.Substitute? then Substitute(Then(s.more, t.more), t.letter)
    else if s.Substitute? then Substitute(Then(s.more, t.more), s.letter)
    else Keep(Then(s.more, t.more))
  }

  lemma {:induction false} ThenTurns(s: Script, t: Script, a: Word, i: nat, b: Word, j: nat, c: Word, k: nat)
    requires i <= |a| && j <= |b| && k <= |c|
    requires Turns(s, a, i, b, j) && Turns(t, b, j, c, k)
    ensures Turns(Then(s, t), a, i, c, k) && Cost(Then(s, t)) <= Cost(s) + Cost(t)
    decreases s, t
  {
    if t.Insert? {
      ThenTurns(s, t.more, a, i, b, j, c, k - 1);
    } else if s.Delete? {
      ThenTurns(s.more, t, a, i - 1, b, j, c, k);
    } else if !s.Done? && !t.Done? {
      ThenTurns(s.more, t.more, a, if s.Insert? then i else i - 1, b, j - 1, c, if t.Delete? then k else k - 1);
    }
  }

  lemma Triangle(a: Word, b: Word, c: Word)
    ensures Distance(a, c) <= Distance(a, b) + Distance(b, c)
  {
    var s, t := Best(a, b, |a|, |b|), Best(b, c, |b|, |c|);
    BestTurns(a, b, |a|, |b|);
    BestTurns(b, c, |b|, |c|);
    ThenTurns(s, t, a, |a|, b, |b|, c, |c|);
    NoCheaperScript(Then(s, t), a, |a|, c, |c|);
  }
}
