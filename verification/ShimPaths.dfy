/** Which paths the wrapper starts, by the pieces between their slashes: however many slashes and single
    dots are in between, nothing in anybody's shims. */
module ShimPaths {
  import opened Basics
  import opened NativeIntercept

  /** A piece that names nothing: between two slashes, or a single dot. */
  predicate Idle(piece: string) {
    piece == "" || piece == "."
  }

  predicate NoSlash(piece: string) {
    '/' !in piece
  }

  /** The pieces that name something, in order. */
  function Naming(pieces: seq<string>): seq<string> {
    if pieces == [] then []
    else Naming(pieces[..|pieces| - 1]) + if Idle(pieces[|pieces| - 1]) then [] else [pieces[|pieces| - 1]]
  }

  lemma {:induction false} SplitOne(piece: string)
    requires NoSlash(piece)
    ensures Split(piece, '/') == [piece]
  {
    if piece != "" {
      SplitOne(piece[1..]);
      assert [piece[0]] + piece[1..] == piece;
      assert [piece] + [piece[1..]][1..] == [piece];
    }
  }

  lemma {:induction false} SplitFirst(piece: string, rest: string)
    requires NoSlash(piece)
    ensures Split(piece + ("/" + rest), '/') == [piece] + Split(rest, '/')
  {
    var s := piece + ("/" + rest);
    if piece == "" {
      assert s[1..] == rest;
    } else {
      SplitFirst(piece[1..], rest);
      assert s[1..] == piece[1..] + ("/" + rest);
      assert [piece[0]] + piece[1..] == piece;
    }
  }

  /** A path falls into the pieces it is made of. */
  lemma {:induction false} SplitPieces(pieces: seq<string>)
    requires pieces != [] && forall p | p in pieces :: NoSlash(p)
    ensures Split(JoinWith(pieces, "/"), '/') == pieces
  {
    if |pieces| == 1 {
      SplitOne(pieces[0]);
    } else {
      SplitPieces(pieces[1..]);
      SplitFirst(pieces[0], JoinWith(pieces[1..], "/"));
    }
  }

  lemma {:induction false} NamingFirst(pieces: seq<string>)
    requires pieces != []
    ensures Naming(pieces) == (if Idle(pieces[0]) then [] else [pieces[0]]) + Naming(pieces[1..])
  {
    if |pieces| > 1 {
      var front := pieces[..|pieces| - 1];
      NamingFirst(front);
      assert front[1..] == pieces[1..][..|pieces| - 2];
    } else {
      assert pieces[..0] == [] && pieces[1..] == [];
    }
  }

  lemma {:induction false} ComponentsName(pieces: seq<string>)
    ensures Components(pieces) == Naming(pieces)
  {
    if pieces != [] {
      NamingFirst(pieces);
      ComponentsName(pieces[1..]);
    }
  }

  /** An absolute path is started exactly where its last piece is not the wrapper's own name and its last
      two directories are not a home's shims. */
  lemma RunnableExactly(pieces: seq<string>)
    requires pieces != [] && (forall p | p in pieces :: NoSlash(p)) && Naming(pieces) != []
    ensures var named, n := Naming(pieces), |Naming(pieces)|;
      Runnable(JoinWith(pieces, "/")) <==>
        && "/" <= JoinWith(pieces, "/")
        && !("memnox-intercept" <= pieces[|pieces| - 1])
        && !(n >= 3 && named[n - 3] == ".memnox" && named[n - 2] == "bin")
  {
    SplitPieces(pieces);
    ComponentsName(pieces);
    ShimsBefore(Naming(pieces));
    hide Split;
    hide JoinWith;
    hide Naming;
    hide Components;
    hide EndsWith;
  }

  lemma ShimsBefore(named: seq<string>)
    requires named != []
    ensures var n := |named|;
      EndsWith(named[..n - 1], [".memnox", "bin"]) <==> n >= 3 && named[n - 3] == ".memnox" && named[n - 2] == "bin"
  {
    var n, parent := |named|, named[..|named| - 1];
    if n >= 3 {
      assert parent[n - 3..] == [parent[n - 3], parent[n - 2]];
    }
  }

  lemma {:induction false} NamingBoth(a: seq<string>, b: seq<string>)
    ensures Naming(a + b) == Naming(a) + Naming(b)
  {
    if b == [] {
      assert a + b == a;
    } else {
      NamingBoth(a, b[..|b| - 1]);
      assert (a + b)[..|a + b| - 1] == a + b[..|b| - 1];
    }
  }

  lemma {:induction false} NamingIdle(gap: seq<string>)
    requires forall p | p in gap :: Idle(p)
    ensures Naming(gap) == []
  {
    if gap != [] {
      NamingIdle(gap[..|gap| - 1]);
    }
  }

  lemma NamingOne(piece: string)
    ensures Naming([piece]) == if Idle(piece) then [] else [piece]
  {
    assert [piece][..0] == [];
  }

  /** A piece that names something, after a gap. */
  lemma NamingAfter(before: seq<string>, gap: seq<string>, piece: string)
    requires (forall p | p in gap :: Idle(p)) && !Idle(piece)
    ensures Naming(before + gap + [piece]) == Naming(before) + [piece]
  {
    NamingIdle(gap);
    NamingOne(piece);
    NamingBoth(before, gap);
    NamingBoth(before + gap, [piece]);
  }

  lemma NoSlashAfter(before: seq<string>, gap: seq<string>, piece: string)
    requires (forall p | p in before :: NoSlash(p)) && (forall p | p in gap :: Idle(p)) && NoSlash(piece)
    ensures forall p | p in before + gap + [piece] :: NoSlash(p)
  {
  }

  /** Whatever directory it is in and whatever slashes and dots are between, a file in `.memnox/bin` is not
      started. */
  lemma ShimsRefused(
    directory: seq<string>, gap: seq<string>, gap': seq<string>, gap'': seq<string>, name: string)
    requires forall p | p in directory :: NoSlash(p)
    requires (forall p | p in gap :: Idle(p)) && (forall p | p in gap' :: Idle(p)) && (forall p | p in gap'' :: Idle(p))
    requires NoSlash(name) && !Idle(name)
    ensures !Runnable(JoinWith(directory + gap + [".memnox"] + gap' + ["bin"] + gap'' + [name], "/"))
  {
    var one := directory + gap + [".memnox"];
    var two := one + gap' + ["bin"];
    var pieces := two + gap'' + [name];
    NamingAfter(directory, gap, ".memnox");
    NamingAfter(one, gap', "bin");
    NamingAfter(two, gap'', name);
    NoSlashAfter(directory, gap, ".memnox");
    NoSlashAfter(one, gap', "bin");
    NoSlashAfter(two, gap'', name);
    hide *;
    var named, n := Naming(pieces), |Naming(pieces)|;
    assert named[n - 3] == ".memnox" && named[n - 2] == "bin";
    RunnableExactly(pieces);
  }
}
