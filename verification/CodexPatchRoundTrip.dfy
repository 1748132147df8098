/** Patches as Codex writes them, and what reading one back gives: the same files, in order,
    with the same changes. */
module CodexPatchRoundTrip {
  import opened Basics
  import opened CodexPatch

  /** A path as a header has it, with whatever white space is around it. */
  datatype Path = Path(before: string, name: string, after: string)

  /** What a patch does to one file. A hunk is its context, removed and added lines, and the marks that say
      the file ends there. A file may be added and moved at once. */
  datatype Op =
    | AddFile(path: Path, lines: seq<string>)
    | AddElsewhere(path: Path, to: Path, lines: seq<string>)
    | UpdateFile(path: Path, hunks: seq<seq<Line>>)
    | MoveFile(path: Path, to: Path, hunks: seq<seq<Line>>)
    | DeleteFile(path: Path)

  predicate OneLine(s: string) {
    forall i | 0 <= i < |s| :: s[i] != '\n'
  }

  predicate Blank(s: string) {
    forall i | 0 <= i < |s| :: IsWhite(s[i])
  }

  /** A path on one line, whose name neither starts nor ends with white space. It may be empty. */
  predicate CleanPath(p: Path) {
    && Blank(p.before) && Blank(p.after) && OneLine(p.before) && OneLine(p.after) && OneLine(p.name)
    && (p.name != "" ==> !IsWhite(p.name[0]) && !IsWhite(p.name[|p.name| - 1]))
  }

  function PathText(p: Path): string {
    p.before + (p.name + p.after)
  }

  predicate HunkContent(l: Line) {
    if l.kind.Ignored? then l.text == ""
    else (l.kind.Context? || l.kind.Removed? || l.kind.Added?) && OneLine(l.text)
  }

  predicate PlainHunk(hunk: seq<Line>) {
    forall i | 0 <= i < |hunk| :: HunkContent(hunk[i])
  }

  predicate PlainHunks(hunks: seq<seq<Line>>) {
    forall i | 0 <= i < |hunks| :: PlainHunk(hunks[i])
  }

  /** Whether a line was in the file before the change, and whether it is after. */
  predicate Was(l: Line) {
    l.kind.Context? || l.kind.Removed?
  }

  predicate Is(l: Line) {
    l.kind.Context? || l.kind.Added?
  }

  /** A hunk that removes or keeps a line says where it goes; one that does neither and adds does not. */
  predicate Anchored(hunk: seq<Line>) {
    exists i :: 0 <= i < |hunk| && Was(hunk[i])
  }

  predicate Adrift(hunk: seq<Line>) {
    !Anchored(hunk) && exists i :: 0 <= i < |hunk| && hunk[i].kind.Added?
  }

  /** The lines a hunk is about as they were, and as they are. */
  function Stood(hunk: seq<Line>): seq<string> {
    if hunk == [] then [] else (if Was(hunk[0]) then [hunk[0].text] else []) + Stood(hunk[1..])
  }

  function Stands(hunk: seq<Line>): seq<string> {
    if hunk == [] then [] else (if Is(hunk[0]) then [hunk[0].text] else []) + Stands(hunk[1..])
  }

  function EditsOf(hunks: seq<seq<Line>>): seq<Replacement<char>> {
    if hunks == [] then []
    else
      var first := Replacement(Join(Stood(hunks[0])), Join(Stands(hunks[0])), false);
      (if Anchored(hunks[0]) then [first] else []) + EditsOf(hunks[1..])
  }

  /** Whether every hunk of an update has its place, and one of them at least. */
  predicate Placed(hunks: seq<seq<Line>>) {
    && (exists hunk | hunk in hunks :: Anchored(hunk))
    && (forall hunk | hunk in hunks :: !Adrift(hunk))
  }

  predicate WellFormed(op: Op) {
    && CleanPath(op.path)
    && (op.AddFile? || op.AddElsewhere? ==> forall i | 0 <= i < |op.lines| :: OneLine(op.lines[i]))
    && (op.UpdateFile? ==> PlainHunks(op.hunks))
    && (op.MoveFile? ==> CleanPath(op.to) && PlainHunks(op.hunks))
    && (op.AddElsewhere? ==> CleanPath(op.to))
  }

  /** The file at a path, where it has a name. */
  function FileAt(path: Path, change: Option<Change<char>>): seq<PatchedFile> {
    if path.name == "" then [] else [PatchedFile(path.name, change)]
  }

  /** The files an operation touches and the change to each. */
  function FilesOf(op: Op): seq<PatchedFile> {
    match op
    case AddFile(path, lines) => FileAt(path, Some(Write(Join(lines) + "\n")))
    case AddElsewhere(path, to, _) => FileAt(path, None) + FileAt(to, None)
    case UpdateFile(path, hunks) => FileAt(path, if Placed(hunks) then Some(Edit(EditsOf(hunks))) else None)
    case MoveFile(path, to, _) => FileAt(path, None) + FileAt(to, None)
    case DeleteFile(path) => FileAt(path, None)
  }

  function AllFiles(ops: seq<Op>): seq<PatchedFile> {
    if ops == [] then [] else AllFiles(Front(ops)) + FilesOf(Last(ops))
  }

  // ---------------------------------------------------------------- the text of a patch

  function LineText(l: Line): string {
    if l.kind.Ignored? then END_OF_FILE
    else (if l.kind.Removed? then "-" else if l.kind.Added? then "+" else " ") + l.text
  }

  function HunkTexts(hunk: seq<Line>): seq<string> {
    seq(|hunk|, i requires 0 <= i < |hunk| => LineText(hunk[i]))
  }

  function HunksTexts(hunks: seq<seq<Line>>): seq<string> {
    if hunks == [] then [] else HunksTexts(Front(hunks)) + (["@@"] + HunkTexts(Last(hunks)))
  }

  function AddedTexts(lines: seq<string>): seq<string> {
    seq(|lines|, i requires 0 <= i < |lines| => "+" + lines[i])
  }

  function OpTexts(op: Op): seq<string> {
    match op
    case AddFile(path, lines) => [ADD + PathText(path)] + AddedTexts(lines)
    case AddElsewhere(path, to, lines) => [ADD + PathText(path)] + ([MOVE + PathText(to)] + AddedTexts(lines))
    case UpdateFile(path, hunks) => [UPDATE + PathText(path)] + HunksTexts(hunks)
    case MoveFile(path, to, hunks) => [UPDATE + PathText(path)] + ([MOVE + PathText(to)] + HunksTexts(hunks))
    case DeleteFile(path) => [DELETE + PathText(path)] + []
  }

  const BEGIN := "*** Begin Patch"
  const END := "*** End Patch"

  function OpsTexts(ops: seq<Op>): seq<string> {
    if ops == [] then [BEGIN] else OpsTexts(Front(ops)) + OpTexts(Last(ops))
  }

  function PatchText(ops: seq<Op>): string {
    Join(OpsTexts(ops) + [END])
  }

  // ---------------------------------------------------------------- single lines

  lemma {:induction false} TrimStartBlank(blank: string, rest: string)
    requires Blank(blank) && (rest != "" ==> !IsWhite(rest[0]))
    ensures TrimStart(blank + rest) == rest
  {
    if blank == "" {
      assert blank + rest == rest;
    } else {
      assert (blank + rest)[1..] == blank[1..] + rest;
      TrimStartBlank(blank[1..], rest);
    }
  }

  lemma {:induction false} TrimEndBlank(rest: string, blank: string)
    requires Blank(blank) && (rest != "" ==> !IsWhite(rest[|rest| - 1]))
    ensures TrimEnd(IsWhite, rest + blank) == rest
  {
    if blank == "" {
      assert rest + blank == rest;
    } else {
      assert (rest + blank)[..|rest + blank| - 1] == rest + Front(blank);
      TrimEndBlank(rest, Front(blank));
    }
  }

  lemma TrimClean(p: Path)
    requires CleanPath(p)
    ensures Trim(PathText(p)) == p.name
  {
    if p.name == "" {
      assert PathText(p) == (p.before + p.after) + "" && Blank(p.before + p.after);
      TrimStartBlank(p.before + p.after, "");
    } else {
      TrimStartBlank(p.before, p.name + p.after);
      TrimEndBlank(p.name, p.after);
    }
  }

  lemma HeaderLines(p: Path)
    requires CleanPath(p)
    ensures ClassifyPatchLine(UPDATE + PathText(p)) == Line(Update, p.name)
    ensures ClassifyPatchLine(ADD + PathText(p)) == Line(Add, p.name)
  {
    TrimClean(p);
    hide Trim;
    hide PathText;
    Slices(UPDATE, PathText(p));
    Slices(ADD, PathText(p));
    assert (ADD + PathText(p))[4] == 'A' && UPDATE[4] == 'U';
  }

  lemma MoreHeaderLines(p: Path)
    requires CleanPath(p)
    ensures ClassifyPatchLine(DELETE + PathText(p)) == Line(Delete, p.name)
    ensures ClassifyPatchLine(MOVE + PathText(p)) == Line(Move, p.name)
  {
    TrimClean(p);
    hide Trim;
    hide PathText;
    Slices(DELETE, PathText(p));
    Slices(MOVE, PathText(p));
    assert (DELETE + PathText(p))[4] == 'D' && (MOVE + PathText(p))[4] == 'M';
    assert UPDATE[4] == 'U' && ADD[4] == 'A' && DELETE[4] == 'D';
  }

  lemma MarkerLines()
    ensures ClassifyPatchLine(BEGIN) == Line(Marker, "")
    ensures ClassifyPatchLine(END) == Line(Marker, "")
    ensures ClassifyPatchLine("@@") == Line(Hunk, "")
  {
    assert UPDATE[4] == 'U' && ADD[4] == 'A' && DELETE[4] == 'D' && MOVE[4] == 'M';
    assert BEGIN[4] == 'B' && END[4] == 'E' && END[5] == 'n' && END[8] == 'P' && END_OF_FILE[8] == 'o'
      && END_OF_FILE[4] == 'E';
    assert HUNK[0] == '@' && BEGIN[0] == '*' && END[0] == '*';
    assert MARKER == "***" && BEGIN[..3] == MARKER && END[..3] == MARKER;
  }

  lemma EndLine()
    ensures ClassifyPatchLine(END_OF_FILE) == Line(Ignored, "")
  {
    assert UPDATE[4] == 'U' && ADD[4] == 'A' && DELETE[4] == 'D' && MOVE[4] == 'M' && END_OF_FILE[4] == 'E';
  }

  lemma ContentLines(l: Line)
    requires HunkContent(l)
    ensures ClassifyPatchLine(LineText(l)) == l
  {
    if l.kind.Ignored? {
      EndLine();
    } else {
      var s := LineText(l);
      assert s[1..] == l.text;
      assert UPDATE[0] == '*' && ADD[0] == '*' && DELETE[0] == '*' && MOVE[0] == '*';
      assert END_OF_FILE[0] == '*' && MARKER[0] == '*' && HUNK[0] == '@';
      assert s[..1] == [s[0]];
    }
  }

  // ---------------------------------------------------------------- sections

  lemma ClassifiedConcat(a: seq<string>, b: seq<string>)
    ensures Classified(a + b) == Classified(a) + Classified(b)
  {
    hide ClassifyPatchLine;
  }

  lemma ClassifiedHunk(hunk: seq<Line>)
    requires PlainHunk(hunk)
    ensures Classified(HunkTexts(hunk)) == hunk
  {
    hide ClassifyPatchLine;
    hide LineText;
    forall i | 0 <= i < |hunk| ensures ClassifyPatchLine(LineText(hunk[i])) == hunk[i] {
      ContentLines(hunk[i]);
    }
  }

  /** A section's lines for some hunks: a hunk line and then its own lines, for each. */
  function Flat(hunks: seq<seq<Line>>): seq<Line> {
    if hunks == [] then [] else Flat(Front(hunks)) + ([Line(Hunk, "")] + Last(hunks))
  }

  lemma {:induction false} ClassifiedHunks(hunks: seq<seq<Line>>)
    requires PlainHunks(hunks)
    ensures Classified(HunksTexts(hunks)) == Flat(hunks)
  {
    hide ClassifyPatchLine;
    if hunks != [] {
      ClassifiedHunks(Front(hunks));
      ClassifiedHunk(Last(hunks));
      MarkerLines();
      var texts := HunkTexts(Last(hunks));
      ClassifiedConcat(HunksTexts(Front(hunks)), ["@@"] + texts);
      ClassifiedConcat(["@@"], texts);
      ClassifiedSingle("@@");
    }
  }

  lemma ClassifiedSingle(line: string)
    ensures Classified([line]) == [ClassifyPatchLine(line)]
  {
    hide ClassifyPatchLine;
  }

  /** Lines that are only a change extend the hunk in progress. */
  lemma {:induction false} HunksOfContent(body: seq<Line>, hunk: seq<Line>)
    requires PlainHunk(hunk)
    ensures Hunks(body + hunk) == Front(Hunks(body)) + [Last(Hunks(body)) + hunk]
    ensures MovedTo(body + hunk) == MovedTo(body)
  {
    hide Hunks;
    hide MovedTo;
    if hunk == [] {
      assert body + hunk == body && Last(Hunks(body)) + hunk == Last(Hunks(body));
    } else {
      var l := Last(hunk);
      HunksOfContent(body, Front(hunk));
      assert body + hunk == body + Front(hunk) + [l];
      HunksOneMore(body + Front(hunk), l);
      MovedOneMore(body + Front(hunk), l);
      assert hunk == Front(hunk) + [l];
      Associate(Last(Hunks(body)), Front(hunk), [l]);
    }
  }

  lemma {:induction false} HunksOfFlat(hunks: seq<seq<Line>>)
    requires PlainHunks(hunks)
    ensures Hunks(Flat(hunks)) == [[]] + hunks && MovedTo(Flat(hunks)).None?
  {
    hide HunkContent;
    if hunks != [] {
      HunksOfFlat(Front(hunks));
      FlatMore(Flat(Front(hunks)), Last(hunks));
      assert [[]] + hunks == ([[]] + Front(hunks)) + [Last(hunks)];
      hide Hunks;
      hide MovedTo;
    }
  }

  /** One more hunk after some lines. */
  lemma FlatMore(before: seq<Line>, hunk: seq<Line>)
    requires PlainHunk(hunk)
    ensures var lines := before + ([Line(Hunk, "")] + hunk);
      Hunks(lines) == Hunks(before) + [hunk] && MovedTo(lines) == MovedTo(before)
  {
    hide PlainHunk;
    hide Hunks;
    hide MovedTo;
    Associate(before, [Line(Hunk, "")], hunk);
    HunksOneMore(before, Line(Hunk, ""));
    MovedOneMore(before, Line(Hunk, ""));
    HunksOfContent(before + [Line(Hunk, "")], hunk);
    var now := Hunks(before) + [[]];
    assert Front(now) == Hunks(before) && Last(now) + hunk == hunk;
  }

  lemma {:induction false} FlatOpensNothing(hunks: seq<seq<Line>>)
    requires PlainHunks(hunks)
    ensures forall i | 0 <= i < |Flat(hunks)| :: !Opens(Flat(hunks)[i])
  {
    if hunks != [] {
      FlatOpensNothing(Front(hunks));
      assert forall i | 0 <= i < |Last(hunks)| :: HunkContent(Last(hunks)[i]);
    }
  }

  lemma {:induction false} TextsFirst(l: Line, rest: seq<Line>, kinds: set<Kind>)
    ensures Texts([l] + rest, kinds) == (if l.kind in kinds then [l.text] else []) + Texts(rest, kinds)
  {
    var body := [l] + rest;
    if rest == [] {
      assert Front(body) == [] && Last(body) == l;
    } else {
      assert Front(body) == [l] + Front(rest) && Last(body) == Last(rest);
      TextsFirst(l, Front(rest), kinds);
    }
  }

  /** What the reader takes a hunk's old and new lines to be. */
  lemma {:induction false} HunkLines(hunk: seq<Line>)
    ensures OldLines(hunk) == Stood(hunk) && NewLines(hunk) == Stands(hunk)
    ensures OldLines(hunk) == [] <==> !Anchored(hunk)
    ensures OldLines(hunk) == [] && NewLines(hunk) != [] <==> Adrift(hunk)
  {
    if hunk != [] {
      HunkLines(hunk[1..]);
      TextsFirst(hunk[0], hunk[1..], {Removed, Context});
      TextsFirst(hunk[0], hunk[1..], {Added, Context});
      assert hunk == [hunk[0]] + hunk[1..];
      AnchoredFirst(hunk);
    }
  }

  lemma AnchoredFirst(hunk: seq<Line>)
    requires hunk != []
    ensures Anchored(hunk) <==> Was(hunk[0]) || Anchored(hunk[1..])
    ensures Adrift(hunk) <==> !Anchored(hunk) && (hunk[0].kind.Added? || Adrift(hunk[1..]))
  {
    var rest := hunk[1..];
    if Anchored(rest) {
      var i :| 0 <= i < |rest| && Was(rest[i]);
      assert Was(hunk[i + 1]);
    }
    if i :| 0 <= i < |rest| && rest[i].kind.Added? {
      assert hunk[i + 1].kind.Added?;
    }
    if i :| 1 <= i < |hunk| && Was(hunk[i]) {
      assert Was(rest[i - 1]);
    }
    if i :| 1 <= i < |hunk| && hunk[i].kind.Added? {
      assert rest[i - 1].kind.Added?;
    }
  }

  lemma {:induction false} EditsMore(hunks: seq<seq<Line>>, h: seq<Line>)
    ensures EditsOf(hunks + [h])
      == EditsOf(hunks) + if Anchored(h) then [Replacement(Join(Stood(h)), Join(Stands(h)), false)] else []
  {
    hide Join;
    hide Anchored;
    if hunks == [] {
      assert [h][1..] == [] && hunks + [h] == [h];
    } else {
      assert (hunks + [h])[1..] == hunks[1..] + [h];
      EditsMore(hunks[1..], h);
    }
  }

  lemma NoHunk()
    ensures Replacements([[]]) == [] && !Unplaced([[]])
  {
    var empty: seq<Line> := [];
    assert OldLines(empty) == [] && NewLines(empty) == [];
    assert Front([empty]) == [];
  }

  lemma HunksButLast(hunks: seq<seq<Line>>)
    requires hunks != []
    ensures hunks == Front(hunks) + [Last(hunks)] && [[]] + hunks == [[]] + Front(hunks) + [Last(hunks)]
    ensures |Front(hunks)| < |hunks|
  {
  }

  /** The edits the reader makes of some hunks. */
  lemma {:induction false} ReadEdits(hunks: seq<seq<Line>>)
    ensures Replacements([[]] + hunks) == EditsOf(hunks)
    decreases |hunks|
  {
    NoHunk();
    assert EditsOf([]) == [];
    hide *;
    if hunks == [] {
      assert [[]] + hunks == [[]];
    } else {
      HunksButLast(hunks);
      ReadEdits(Front(hunks));
      HunkOneMore([[]] + Front(hunks), Last(hunks));
      HunkLines(Last(hunks));
      EditsMore(Front(hunks), Last(hunks));
    }
  }

  /** Whether it takes one of them to be out of place. */
  lemma {:induction false} ReadAdrift(hunks: seq<seq<Line>>)
    ensures Unplaced([[]] + hunks) <==> exists h | h in hunks :: Adrift(h)
    decreases |hunks|
  {
    NoHunk();
    hide *;
    if hunks == [] {
      assert [[]] + hunks == [[]];
    } else {
      HunksButLast(hunks);
      ReadAdrift(Front(hunks));
      HunkOneMore([[]] + Front(hunks), Last(hunks));
      HunkLines(Last(hunks));
      OneMoreAdrift(Front(hunks), Last(hunks));
    }
  }

  lemma OneMoreAdrift(front: seq<seq<Line>>, h: seq<Line>)
    ensures (exists x | x in front + [h] :: Adrift(x)) <==> (exists x | x in front :: Adrift(x)) || Adrift(h)
  {
    hide Adrift;
    assert forall x :: x in front + [h] <==> x in front || x == h;
  }

  lemma {:induction false} NoEdits(hunks: seq<seq<Line>>)
    ensures EditsOf(hunks) == [] <==> forall h | h in hunks :: !Anchored(h)
  {
    hide Join;
    hide Anchored;
    if hunks != [] {
      NoEdits(hunks[1..]);
    }
  }

  lemma EditedIs(path: Path, hunks: seq<seq<Line>>)
    ensures Named([EditedFile(path.name, [[]] + hunks)]) == FilesOf(UpdateFile(path, hunks))
  {
    ReadEdits(hunks);
    ReadAdrift(hunks);
    NoEdits(hunks);
    NamedOne(EditedFile(path.name, [[]] + hunks));
    hide Anchored;
    hide Adrift;
    hide EditsOf;
    hide Replacements;
    hide Unplaced;
    hide Named;
  }

  lemma NamedOne(file: PatchedFile)
    ensures Named([file]) == if file.path == "" then [] else [file]
  {
    assert [file][1..] == [];
  }

  lemma NamedTwo(file: PatchedFile, other: PatchedFile)
    ensures Named([file, other]) == (if file.path == "" then [] else [file]) + if other.path == "" then [] else [other]
  {
    assert [file, other][1..] == [other];
    NamedOne(other);
  }

  lemma ReadUpdate(path: Path, hunks: seq<seq<Line>>)
    requires PlainHunks(hunks)
    ensures Named(ReadSection(Line(Update, path.name), Flat(hunks))) == FilesOf(UpdateFile(path, hunks))
  {
    HunksOfFlat(hunks);
    EditedIs(path, hunks);
    hide Hunks;
    hide EditedFile;
    hide MovedTo;
    hide FilesOf;
    hide Named;
  }

  lemma {:induction false} TextsOfAdded(body: seq<Line>, lines: seq<string>)
    requires |body| == |lines| && forall i | 0 <= i < |body| :: body[i] == Line(Added, lines[i])
    ensures Texts(body, {Added}) == lines && MovedTo(body).None?
  {
    if body != [] {
      TextsOfAdded(Front(body), Front(lines));
      assert Front(lines) + [Last(lines)] == lines;
    }
  }

  lemma {:induction false} MovedByFirst(to: string, rest: seq<Line>)
    requires MovedTo(rest).None?
    ensures MovedTo([Line(Move, to)] + rest) == Some(to)
  {
    var body := [Line(Move, to)] + rest;
    if rest == [] {
      assert body == [Line(Move, to)];
    } else {
      assert Front(body) == [Line(Move, to)] + Front(rest) && Last(body) == Last(rest);
      MovedByFirst(to, Front(rest));
    }
  }

  lemma AddedLines(lines: seq<string>)
    requires forall i | 0 <= i < |lines| :: OneLine(lines[i])
    ensures var body := Classified(AddedTexts(lines));
      && |body| == |lines| && forall i | 0 <= i < |body| :: body[i] == Line(Added, lines[i])
  {
    hide ClassifyPatchLine;
    forall i | 0 <= i < |lines| ensures Classified(AddedTexts(lines))[i] == Line(Added, lines[i]) {
      ContentLines(Line(Added, lines[i]));
    }
  }

  /** A section that moves its file, however it goes on. */
  lemma ReadMove(header: Line, path: Path, to: Path, rest: seq<Line>)
    requires (header.kind.Add? || header.kind.Update?) && header.text == path.name && MovedTo(rest).None?
    ensures Named(ReadSection(header, [Line(Move, to.name)] + rest)) == FileAt(path, None) + FileAt(to, None)
  {
    MovedByFirst(to.name, rest);
    NamedTwo(PatchedFile(path.name, None), PatchedFile(to.name, None));
    hide MovedTo;
    hide Named;
    hide Hunks;
  }

  lemma ReadAdd(path: Path, lines: seq<string>, body: seq<Line>)
    requires |body| == |lines| && forall i | 0 <= i < |body| :: body[i] == Line(Added, lines[i])
    ensures Named(ReadSection(Line(Add, path.name), body)) == FileAt(path, Some(Write(Join(lines) + "\n")))
  {
    TextsOfAdded(body, lines);
    NamedOne(CreatedFile(path.name, lines));
    hide Named;
    hide Hunks;
  }

  lemma ClassifiedMove(to: Path, rest: seq<string>)
    requires CleanPath(to)
    ensures Classified([MOVE + PathText(to)] + rest) == [Line(Move, to.name)] + Classified(rest)
  {
    hide ClassifyPatchLine;
    MoreHeaderLines(to);
    ClassifiedConcat([MOVE + PathText(to)], rest);
    ClassifiedSingle(MOVE + PathText(to));
  }

  /** The lines of one operation are one section, and it reads as the operation's files. */
  lemma ReadOp(op: Op) returns (header: Line, body: seq<Line>)
    requires WellFormed(op)
    ensures Classified(OpTexts(op)) == [header] + body
    ensures Opens(header) && forall i | 0 <= i < |body| :: !Opens(body[i])
    ensures Named(ReadSection(header, body)) == FilesOf(op)
  {
    hide ClassifyPatchLine;
    hide ReadSection;
    hide CleanPath;
    hide PathText;
    hide Join;
    HeaderLines(op.path);
    MoreHeaderLines(op.path);
    match op
    case AddFile(path, lines) =>
      header, body := Line(Add, path.name), Classified(AddedTexts(lines));
      ClassifiedConcat([ADD + PathText(path)], AddedTexts(lines));
      ClassifiedSingle(ADD + PathText(path));
      AddedLines(lines);
      ReadAdd(path, lines, body);
    case AddElsewhere(path, to, lines) =>
      var rest := Classified(AddedTexts(lines));
      header, body := Line(Add, path.name), [Line(Move, to.name)] + rest;
      ClassifiedConcat([ADD + PathText(path)], [MOVE + PathText(to)] + AddedTexts(lines));
      ClassifiedMove(to, AddedTexts(lines));
      ClassifiedSingle(ADD + PathText(path));
      AddedLines(lines);
      TextsOfAdded(rest, lines);
      ReadMove(header, path, to, rest);
    case UpdateFile(path, hunks) =>
      header, body := Line(Update, path.name), Flat(hunks);
      ClassifiedConcat([UPDATE + PathText(path)], HunksTexts(hunks));
      ClassifiedSingle(UPDATE + PathText(path));
      ClassifiedHunks(hunks);
      FlatOpensNothing(hunks);
      ReadUpdate(path, hunks);
    case MoveFile(path, to, hunks) =>
      header, body := Line(Update, path.name), [Line(Move, to.name)] + Flat(hunks);
      ClassifiedConcat([UPDATE + PathText(path)], [MOVE + PathText(to)] + HunksTexts(hunks));
      ClassifiedMove(to, HunksTexts(hunks));
      ClassifiedSingle(UPDATE + PathText(path));
      ClassifiedHunks(hunks);
      FlatOpensNothing(hunks);
      HunksOfFlat(hunks);
      ReadMove(header, path, to, Flat(hunks));
    case DeleteFile(path) =>
      header, body := Line(Delete, path.name), [];
      assert [DELETE + PathText(path)] + [] == [DELETE + PathText(path)];
      ClassifiedSingle(DELETE + PathText(path));
      ReadDelete(path);
  }

  lemma ReadDelete(path: Path)
    ensures Named(ReadSection(Line(Delete, path.name), [])) == FileAt(path, None)
  {
    NamedOne(PatchedFile(path.name, None));
    hide Named;
  }

  // ---------------------------------------------------------------- whole patches

  lemma {:induction false} NamedBoth(a: seq<PatchedFile>, b: seq<PatchedFile>)
    ensures Named(a + b) == Named(a) + Named(b)
  {
    if a == [] {
      assert a + b == b;
    } else {
      NamedBoth(a[1..], b);
      assert (a + b)[0] == a[0] && (a + b)[1..] == a[1..] + b;
    }
  }

  lemma {:induction false} CutOps(ops: seq<Op>)
    requires forall i | 0 <= i < |ops| :: WellFormed(ops[i])
    ensures Named(Cut(Classified(OpsTexts(ops)))) == AllFiles(ops)
  {
    hide ClassifyPatchLine;
    if ops == [] {
      MarkerLines();
      ClassifiedSingle(BEGIN);
      CutNothing([]);
      CutSection([], Line(Marker, ""), []);
      assert [] + [Line(Marker, "")] + [] == [Line(Marker, "")];
    } else {
      CutOps(Front(ops));
      var header, body := ReadOp(Last(ops));
      var before := Classified(OpsTexts(Front(ops)));
      ClassifiedConcat(OpsTexts(Front(ops)), OpTexts(Last(ops)));
      Associate(before, [header], body);
      CutSection(before, header, body);
      NamedBoth(Cut(before), ReadSection(header, body));
    }
  }

  lemma {:induction false} SplitLine(line: string, rest: string)
    requires OneLine(line)
    ensures Split(line + "\n" + rest, '\n') == [line] + Split(rest, '\n')
    ensures Split(line, '\n') == [line]
  {
    if line == "" {
      assert (line + "\n" + rest)[1..] == rest;
    } else {
      SplitLine(line[1..], rest);
      assert (line + "\n" + rest)[1..] == line[1..] + "\n" + rest;
      assert [line[0]] + line[1..] == line;
    }
  }

  lemma {:induction false} SplitJoin(lines: seq<string>)
    requires lines != [] && forall i | 0 <= i < |lines| :: OneLine(lines[i])
    ensures Split(Join(lines), '\n') == lines
  {
    SplitLine(lines[0], if |lines| > 1 then Join(lines[1..]) else "");
    if |lines| > 1 {
      SplitJoin(lines[1..]);
      Associate(lines[0], "\n", Join(lines[1..]));
    }
  }

  lemma {:induction false} OneLinePrefixed(a: string, b: string)
    requires OneLine(a) && OneLine(b)
    ensures OneLine(a + b)
  {
  }

  lemma {:induction false} HunksTextsOneLine(hunks: seq<seq<Line>>)
    requires PlainHunks(hunks)
    ensures forall i | 0 <= i < |HunksTexts(hunks)| :: OneLine(HunksTexts(hunks)[i])
  {
    if hunks != [] {
      HunksTextsOneLine(Front(hunks));
      forall i | 0 <= i < |Last(hunks)| ensures OneLine(LineText(Last(hunks)[i])) {
        assert HunkContent(Last(hunks)[i]);
      }
    }
  }

  lemma PathOneLine(mark: string, p: Path)
    requires OneLine(mark) && CleanPath(p)
    ensures OneLine(mark + PathText(p))
  {
    OneLinePrefixed(p.name, p.after);
    OneLinePrefixed(p.before, p.name + p.after);
    OneLinePrefixed(mark, PathText(p));
  }

  lemma OpTextsOneLine(op: Op)
    requires WellFormed(op)
    ensures forall i | 0 <= i < |OpTexts(op)| :: OneLine(OpTexts(op)[i])
  {
    PathOneLine(ADD, op.path);
    PathOneLine(UPDATE, op.path);
    PathOneLine(DELETE, op.path);
    match op
    case AddFile(path, lines) =>
    case AddElsewhere(path, to, lines) => PathOneLine(MOVE, to);
    case UpdateFile(path, hunks) => HunksTextsOneLine(hunks);
    case MoveFile(path, to, hunks) =>
      HunksTextsOneLine(hunks);
      PathOneLine(MOVE, to);
    case DeleteFile(path) =>
  }

  lemma {:induction false} OpsTextsOneLine(ops: seq<Op>)
    requires forall i | 0 <= i < |ops| :: WellFormed(ops[i])
    ensures forall i | 0 <= i < |OpsTexts(ops)| :: OneLine(OpsTexts(ops)[i])
  {
    if ops != [] {
      OpsTextsOneLine(Front(ops));
      OpTextsOneLine(Last(ops));
    }
  }

  /** Reading a patch back gives the files it was written for, in order, each with its change. */
  lemma PatchRoundTrip(ops: seq<Op>)
    requires forall i | 0 <= i < |ops| :: WellFormed(ops[i])
    ensures ParsedPatch(PatchText(ops)) == AllFiles(ops)
  {
    hide ClassifyPatchLine;
    hide Cut;
    hide Named;
    hide Join;
    hide Split;
    hide AllFiles;
    hide OpsTexts;
    hide WellFormed;
    hide OneLine;
    var lines := OpsTexts(ops) + [END];
    LinesOneLine(ops);
    SplitJoin(lines);
    CutOps(ops);
    CutEnd(OpsTexts(ops));
  }

  lemma EndOneLine()
    ensures OneLine(END)
  {
  }

  lemma LinesOneLine(ops: seq<Op>)
    requires forall i | 0 <= i < |ops| :: WellFormed(ops[i])
    ensures forall i | 0 <= i < |OpsTexts(ops) + [END]| :: OneLine((OpsTexts(ops) + [END])[i])
  {
    hide OneLine;
    OpsTextsOneLine(ops);
    EndOneLine();
  }

  lemma CutEnd(texts: seq<string>)
    ensures Cut(Classified(texts + [END])) == Cut(Classified(texts))
  {
    hide ClassifyPatchLine;
    MarkerLines();
    ClassifiedSingle(END);
    ClassifiedConcat(texts, [END]);
    CutSection(Classified(texts), Line(Marker, ""), []);
    assert Classified(texts) + [Line(Marker, "")] + [] == Classified(texts) + [Line(Marker, "")];
    assert Cut(Classified(texts)) + [] == Cut(Classified(texts));
  }
}
