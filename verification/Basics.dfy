/** What several modules share: a value that may be missing, and a text rewritten piece by piece. */
module Basics {
  /** Every `null`, `undefined` and Rust `None` of the source reads here as `None`. */
  datatype Option<+T> = None | Some(value: T)

  /** JavaScript's strings are sequences of code units, compared and cut one unit at a time. */
  type CodeUnit = c: int | 0 <= c < 0x10000

  type Units = seq<CodeUnit>

  /** An edit to a file: its whole new content, or stretches replaced one after another, the first place
      each is found at or every one. */
  datatype Replacement<T> = Replacement(before: seq<T>, after: seq<T>, all: bool)
  datatype Change<T> = Write(content: seq<T>) | Edit(replacements: seq<Replacement<T>>)

  ghost predicate NoRepeats<T(!new)>(s: seq<T>) {
    forall i, j | 0 <= i < j < |s| :: s[i] != s[j]
  }

  /** Pieces with the same glue between each two. */
  function JoinWith<T>(pieces: seq<seq<T>>, glue: seq<T>): seq<T> {
    if pieces == [] then []
    else if |pieces| == 1 then pieces[0]
    else pieces[0] + (glue + JoinWith(pieces[1..], glue))
  }

  /** What lies between the places a character is at. */
  function Split(s: string, at: char): (parts: seq<string>)
    ensures parts != []
  {
    if s == "" then [""]
    else
      var more := Split(s[1..], at);
      if s[0] == at then [""] + more else [[s[0]] + more[0]] + more[1..]
  }

  /** A text without the white space at its end; what is white is the language's to say. */
  function TrimEnd(white: char -> bool, s: string): string {
    if s != "" && white(s[|s| - 1]) then TrimEnd(white, s[..|s| - 1]) else s
  }

  lemma Associate<T>(a: seq<T>, b: seq<T>, c: seq<T>)
    ensures (a + b) + c == a + (b + c)
  {
  }

  lemma Regroup<T>(a: seq<T>, b: seq<T>, c: seq<T>, d: seq<T>)
    ensures (a + (b + c)) + d == a + (b + (c + d))
  {
  }

  lemma Slices<T>(a: seq<T>, b: seq<T>)
    ensures (a + b)[..|a|] == a && (a + b)[|a|..] == b
    ensures b != [] ==> (a + b)[|a| + 1..] == b[1..]
  {
  }

  /** Each element replaced by its own piece, the pieces laid end to end. */
  function Spread<A, B>(f: A -> seq<B>, s: seq<A>): seq<B> {
    if s == [] then [] else f(s[0]) + Spread(f, s[1..])
  }

  lemma {:induction false} SpreadConcat<A, B>(f: A -> seq<B>, a: seq<A>, b: seq<A>)
    ensures Spread(f, a + b) == Spread(f, a) + Spread(f, b)
  {
    if a == [] {
      assert a + b == b;
    } else {
      SpreadConcat(f, a[1..], b);
      assert (a + b)[0] == a[0] && (a + b)[1..] == a[1..] + b;
      Associate(f(a[0]), Spread(f, a[1..]), Spread(f, b));
    }
  }

  lemma SpreadOne<A, B>(f: A -> seq<B>, x: A)
    ensures Spread(f, [x]) == f(x)
  {
    assert [x][1..] == [];
  }

  lemma SpreadFirst<A, B>(f: A -> seq<B>, s: seq<A>, tail: seq<B>)
    requires s != []
    ensures Spread(f, s) + tail == f(s[0]) + (Spread(f, s[1..]) + tail)
  {
  }

  /** One more turn of a loop that appends each element's piece to `head`. */
  lemma SpreadStep<A, B>(f: A -> seq<B>, head: seq<B>, s: seq<A>, i: nat)
    requires i < |s|
    ensures head + Spread(f, s[..i]) + f(s[i]) == head + Spread(f, s[..i + 1])
  {
    SpreadConcat(f, s[..i], [s[i]]);
    SpreadOne(f, s[i]);
    assert s[..i + 1] == s[..i] + [s[i]];
  }

  // ---------------------------------------------------------------- picking from a list

  /** The places of what is picked from a list: in order, exactly those of the elements to keep. */
  ghost predicate Picks<T>(keep: T -> bool, all: seq<T>, picked: seq<T>, at: seq<nat>) {
    && |at| == |picked|
    && (forall i, j | 0 <= i < j < |at| :: at[i] < at[j])
    && (forall i | 0 <= i < |at| :: at[i] < |all| && picked[i] == all[at[i]])
    && (forall k | 0 <= k < |all| :: k in at <==> keep(all[k]))
  }

  /** The same, but for the first element. */
  ghost predicate PicksLater<T>(keep: T -> bool, all: seq<T>, picked: seq<T>, at: seq<nat>) {
    && |at| == |picked|
    && (forall i, j | 0 <= i < j < |at| :: at[i] < at[j])
    && (forall i | 0 <= i < |at| :: 0 < at[i] < |all| && picked[i] == all[at[i]])
    && (forall k | 0 < k < |all| :: k in at <==> keep(all[k]))
  }

  lemma PlacesLater<T>(keep: T -> bool, all: seq<T>, picked: seq<T>, rest: seq<nat>) returns (later: seq<nat>)
    requires all != [] && Picks(keep, all[1..], picked, rest)
    ensures PicksLater(keep, all, picked, later)
  {
    later := seq(|rest|, i requires 0 <= i < |rest| => rest[i] + 1);
    forall k | 0 < k < |all| ensures k in later <==> keep(all[k]) {
      assert all[k] == all[1..][k - 1];
      if k - 1 in rest {
        var i :| 0 <= i < |rest| && rest[i] == k - 1;
        assert later[i] == k;
      }
      if k in later {
        var i :| 0 <= i < |later| && later[i] == k;
        assert rest[i] == k - 1;
      }
    }
  }

  lemma PicksFirst<T>(keep: T -> bool, all: seq<T>, picked: seq<T>, later: seq<nat>)
    requires all != [] && keep(all[0]) && PicksLater(keep, all, picked, later)
    ensures Picks(keep, all, [all[0]] + picked, [0] + later)
  {
    forall k | 0 <= k < |all| ensures k in [0] + later <==> keep(all[k]) {
      assert k in [0] + later <==> k == 0 || k in later;
    }
  }

  lemma PicksWithout<T>(keep: T -> bool, all: seq<T>, picked: seq<T>, later: seq<nat>)
    requires all != [] && !keep(all[0]) && PicksLater(keep, all, picked, later)
    ensures Picks(keep, all, picked, later)
  {
  }

  /** One more element in front. */
  lemma PicksMore<T>(keep: T -> bool, all: seq<T>, picked: seq<T>, rest: seq<nat>) returns (at: seq<nat>)
    requires all != [] && Picks(keep, all[1..], picked, rest)
    ensures Picks(keep, all, if keep(all[0]) then [all[0]] + picked else picked, at)
  {
    var later := PlacesLater(keep, all, picked, rest);
    hide Picks;
    hide PicksLater;
    if keep(all[0]) {
      at := [0] + later;
      PicksFirst(keep, all, picked, later);
    } else {
      at := later;
      PicksWithout(keep, all, picked, later);
    }
  }
}
