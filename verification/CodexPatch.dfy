/** Codex patches, and what each does to the files it names.

    `Cut` is the short specification: a patch falls into sections, one for each file header or
    marker, and a section is read from its own lines. `PatchReader` sees one line at a time and
    keeps the section in progress in its fields; whatever it is fed, it has read what `Cut` says. */
module CodexPatch {
  import opened Basics

  const UPDATE := "*** Update File: "
  const ADD := "*** Add File: "
  const DELETE := "*** Delete File: "
  const MOVE := "*** Move to: "
  const END_OF_FILE := "*** End of File"
  const HUNK := "@@"
  const MARKER := "***"

  datatype Kind = Update | Add | Delete | Move | Hunk | Marker | Context | Removed | Added | Ignored

  /** A line by its kind, with whatever follows the kind's mark. */
  datatype Line = Line(kind: Kind, text: string)

  datatype PatchedFile = PatchedFile(path: string, change: Option<Change<char>>)

  // ---------------------------------------------------------------- lines

  /** White space as JavaScript's `trim` takes it. */
  predicate IsWhite(c: char) {
    var n := c as int;
    || 9 <= n <= 13 || n == 0x20 || n == 0xA0 || n == 0x1680 || 0x2000 <= n <= 0x200A || n == 0x2028
    || n == 0x2029 || n == 0x202F || n == 0x205F || n == 0x3000 || n == 0xFEFF
  }

  function TrimStart(s: string): string {
    if s != "" && IsWhite(s[0]) then TrimStart(s[1..]) else s
  }

  function Trim(s: string): string {
    TrimEnd(IsWhite, TrimStart(s))
  }

  function After(line: string, mark: string): string
    requires mark <= line
  {
    line[|mark|..]
  }

  function ClassifyPatchLine(line: string): Line {
    if UPDATE <= line then Line(Update, Trim(After(line, UPDATE)))
    else if ADD <= line then Line(Add, Trim(After(line, ADD)))
    else if DELETE <= line then Line(Delete, Trim(After(line, DELETE)))
    else if MOVE <= line then Line(Move, Trim(After(line, MOVE)))
    else if line == END_OF_FILE then Line(Ignored, "")
    else if HUNK <= line then Line(Hunk, "")
    else if MARKER <= line then Line(Marker, "")
    else if "-" <= line then Line(Removed, line[1..])
    else if "+" <= line then Line(Added, line[1..])
    else if " " <= line then Line(Context, line[1..])
    else Line(Ignored, "")
  }

  function Join(lines: seq<string>): string {
    JoinWith(lines, "\n")
  }

  // ---------------------------------------------------------------- the specification

  function Front<T>(s: seq<T>): seq<T>
    requires s != []
  {
    s[..|s| - 1]
  }

  function Last<T>(s: seq<T>): T
    requires s != []
  {
    s[|s| - 1]
  }

  /** What ends one section and begins the next. */
  predicate Opens(l: Line) {
    l.kind.Update? || l.kind.Add? || l.kind.Delete? || l.kind.Marker?
  }

  /** The texts of the lines of the given kinds, in order. */
  function Texts(body: seq<Line>, kinds: set<Kind>): seq<string> {
    if body == [] then []
    else Texts(Front(body), kinds) + if Last(body).kind in kinds then [Last(body).text] else []
  }

  /** A section's lines, cut at its hunk lines. */
  function Hunks(body: seq<Line>): (r: seq<seq<Line>>)
    ensures r != []
  {
    if body == [] then [[]]
    else
      var before := Hunks(Front(body));
      if Last(body).kind.Hunk? then before + [[]] else Front(before) + [Last(before) + [Last(body)]]
  }

  function OldLines(hunk: seq<Line>): seq<string> {
    Texts(hunk, {Removed, Context})
  }

  function NewLines(hunk: seq<Line>): seq<string> {
    Texts(hunk, {Added, Context})
  }

  /** What each hunk that removes something replaces. */
  function Replacements(hunks: seq<seq<Line>>): seq<Replacement<char>> {
    if hunks == [] then []
    else
      var h := Last(hunks);
      Replacements(Front(hunks))
      + if OldLines(h) == [] then [] else [Replacement(Join(OldLines(h)), Join(NewLines(h)), false)]
  }

  /** Some hunk adds without removing, so nothing says where. */
  predicate Unplaced(hunks: seq<seq<Line>>) {
    exists i | 0 <= i < |hunks| :: OldLines(hunks[i]) == [] && NewLines(hunks[i]) != []
  }

  /** The last place the section moves its file to. */
  function MovedTo(body: seq<Line>): Option<string> {
    if body == [] then None
    else if Last(body).kind.Move? then Some(Last(body).text)
    else MovedTo(Front(body))
  }

  function EditedFile(path: string, hunks: seq<seq<Line>>): PatchedFile {
    if Unplaced(hunks) || Replacements(hunks) == [] then PatchedFile(path, None)
    else PatchedFile(path, Some(Edit(Replacements(hunks))))
  }

  function CreatedFile(path: string, lines: seq<string>): PatchedFile {
    PatchedFile(path, Some(Write(Join(lines) + "\n")))
  }

  /** One section on its own: its header and the lines up to the next. */
  function ReadSection(header: Line, body: seq<Line>): seq<PatchedFile> {
    match header.kind
    case Delete => [PatchedFile(header.text, None)]
    case Add =>
      if MovedTo(body).Some? then [PatchedFile(header.text, None), PatchedFile(MovedTo(body).value, None)]
      else [CreatedFile(header.text, Texts(body, {Added}))]
    case Update =>
      if MovedTo(body).Some? then [PatchedFile(header.text, None), PatchedFile(MovedTo(body).value, None)]
      else [EditedFile(header.text, Hunks(body))]
    case _ => []
  }

  /** Where the last section begins, or None before the first. */
  function LastOpening(lines: seq<Line>): (at: Option<nat>)
    ensures at.Some? ==> at.value < |lines| && Opens(lines[at.value])
    ensures at.Some? ==> forall i | at.value < i < |lines| :: !Opens(lines[i])
    ensures at.None? ==> forall i | 0 <= i < |lines| :: !Opens(lines[i])
  {
    if lines == [] then None
    else if Opens(Last(lines)) then Some(|lines| - 1)
    else LastOpening(Front(lines))
  }

  /** Every section of a patch, each read alone, in order. */
  function Cut(lines: seq<Line>): seq<PatchedFile>
    decreases |lines|
  {
    match LastOpening(lines)
    case None => []
    case Some(at) => Cut(lines[..at]) + ReadSection(lines[at], lines[at + 1..])
  }

  function Named(files: seq<PatchedFile>): seq<PatchedFile> {
    if files == [] then []
    else (if files[0].path == "" then [] else [files[0]]) + Named(files[1..])
  }

  function Classified(lines: seq<string>): seq<Line> {
    seq(|lines|, i requires 0 <= i < |lines| => ClassifyPatchLine(lines[i]))
  }

  function ParsedPatch(patch: string): seq<PatchedFile> {
    Named(Cut(Classified(Split(patch, '\n'))))
  }

  lemma CutNothing(lines: seq<Line>)
    ensures (forall i | 0 <= i < |lines| :: !Opens(lines[i])) ==> Cut(lines) == []
  {
  }

  /** A section at the end of a patch is read after everything before it and on its own. */
  lemma CutSection(before: seq<Line>, header: Line, body: seq<Line>)
    requires Opens(header) && forall i | 0 <= i < |body| :: !Opens(body[i])
    ensures Cut(before + [header] + body) == Cut(before) + ReadSection(header, body)
  {
    var lines := before + [header] + body;
    var at := LastOpening(lines);
    assert lines[|before|] == header;
    assert forall i | |before| < i < |lines| :: lines[i] == body[i - |before| - 1];
    assert at == Some(|before|);
    assert lines[..|before|] == before && lines[|before| + 1..] == body;
  }

  function OneMoreOf(texts: seq<string>, l: Line, kinds: set<Kind>): seq<string> {
    if l.kind in kinds then texts + [l.text] else texts
  }

  lemma TextsOneMore(body: seq<Line>, l: Line, kinds: set<Kind>)
    ensures Texts(body + [l], kinds) == OneMoreOf(Texts(body, kinds), l, kinds)
  {
    assert Front(body + [l]) == body;
    assert Texts(body, kinds) + [] == Texts(body, kinds);
  }

  lemma HunksOneMore(body: seq<Line>, l: Line)
    ensures Hunks(body + [l]) ==
      if l.kind.Hunk? then Hunks(body) + [[]] else Front(Hunks(body)) + [Last(Hunks(body)) + [l]]
  {
    assert Front(body + [l]) == body;
  }

  lemma MovedOneMore(body: seq<Line>, l: Line)
    ensures MovedTo(body + [l]) == if l.kind.Move? then Some(l.text) else MovedTo(body)
  {
    assert Front(body + [l]) == body;
  }

  lemma HunkOneMore(hunks: seq<seq<Line>>, h: seq<Line>)
    ensures Replacements(hunks + [h]) == Replacements(hunks)
      + if OldLines(h) == [] then [] else [Replacement(Join(OldLines(h)), Join(NewLines(h)), false)]
    ensures Unplaced(hunks + [h]) <==> Unplaced(hunks) || (OldLines(h) == [] && NewLines(h) != [])
  {
    assert Front(hunks + [h]) == hunks;
    var all := hunks + [h];
    assert all[|hunks|] == h;
    if i :| 0 <= i < |hunks| && OldLines(hunks[i]) == [] && NewLines(hunks[i]) != [] {
      assert all[i] == hunks[i];
    }
  }

  /** What one more line does to everything a section is read by. */
  lemma ContentLine(body: seq<Line>, l: Line)
    requires !l.kind.Hunk?
    ensures Front(Hunks(body + [l])) == Front(Hunks(body))
    ensures OldLines(Last(Hunks(body + [l]))) == OneMoreOf(OldLines(Last(Hunks(body))), l, {Removed, Context})
    ensures NewLines(Last(Hunks(body + [l]))) == OneMoreOf(NewLines(Last(Hunks(body))), l, {Added, Context})
  {
    HunksOneMore(body, l);
    TextsOneMore(Last(Hunks(body)), l, {Removed, Context});
    TextsOneMore(Last(Hunks(body)), l, {Added, Context});
  }

  lemma HunkLine(body: seq<Line>, l: Line)
    requires l.kind.Hunk?
    ensures OldLines(Last(Hunks(body + [l]))) == [] && NewLines(Last(Hunks(body + [l]))) == []
    ensures Front(Hunks(body + [l])) == Hunks(body)
  {
    HunksOneMore(body, l);
    assert Front(Hunks(body) + [[]]) == Hunks(body);
  }

  lemma NothingYet()
    ensures MovedTo([]).None? && Texts([], {Added}) == [] && Last(Hunks([])) == [] && Front(Hunks([])) == []
    ensures OldLines([]) == [] && NewLines([]) == [] && Replacements([]) == [] && !Unplaced([])
  {
  }

  /** A finished edited section, from its hunks but the last and the last. */
  lemma WholeSection(body: seq<Line>)
    ensures var h := Last(Hunks(body));
      && (Unplaced(Hunks(body)) <==> Unplaced(Front(Hunks(body))) || (OldLines(h) == [] && NewLines(h) != []))
      && Replacements(Hunks(body)) == Replacements(Front(Hunks(body)))
           + if OldLines(h) == [] then [] else [Replacement(Join(OldLines(h)), Join(NewLines(h)), false)]
  {
    HunkOneMore(Front(Hunks(body)), Last(Hunks(body)));
    assert Front(Hunks(body)) + [Last(Hunks(body))] == Hunks(body);
  }

  // ---------------------------------------------------------------- the reader

  class PatchReader {
    var files: seq<PatchedFile>
    var path: Option<string>
    /** The lines of a file being created whole, or None for any other. */
    var created: Option<seq<string>>
    var hunks: seq<Replacement<char>>
    /** Set by a hunk that names no old lines: the change is then to the whole file. */
    var whole: bool
    var movedTo: Option<string>
    var removed: seq<string>
    var added: seq<string>

    /** Every line read, cut at the one that opened the last section. */
    ghost var before: seq<Line>
    ghost var header: Option<Line>
    ghost var body: seq<Line>

    ghost function Lines(): seq<Line>
      reads this
    {
      match header
      case None => body
      case Some(h) => before + [h] + body
    }

    /** The fields are what the section's lines so far come to. */
    ghost predicate InSection()
      requires header.Some?
      reads this
    {
      var h := header.value;
      && path == Some(h.text)
      && movedTo == MovedTo(body)
      && (h.kind.Add? ==> created == Some(Texts(body, {Added})) && removed == [] && added == [])
      && (h.kind.Update? ==>
        && created.None?
        && hunks == Replacements(Front(Hunks(body)))
        && whole == Unplaced(Front(Hunks(body)))
        && removed == OldLines(Last(Hunks(body)))
        && added == NewLines(Last(Hunks(body))))
    }

    ghost predicate Closed()
      reads this
    {
      path.None? && movedTo.None? && removed == [] && added == []
    }

    ghost predicate Valid()
      reads this
    {
      && (forall i | 0 <= i < |body| :: !Opens(body[i]))
      && match header
         case None => Closed() && files == []
         case Some(h) =>
           && Opens(h)
           && if h.kind.Add? || h.kind.Update? then InSection() && files == Cut(before)
              else Closed() && files == Cut(before) + ReadSection(h, [])
    }

    constructor ()
      ensures Valid() && Lines() == []
    {
      files, path, created, hunks, whole, movedTo := [], None, None, [], false, None;
      removed, added := [], [];
      before, header, body := [], None, [];
    }

    /** Closes the hunk being read: it becomes a replacement, or sets `whole` where it removes nothing. */
    method EndHunk()
      modifies this`hunks, this`whole, this`removed, this`added
      ensures path.None? || created.Some? ==>
        hunks == old(hunks) && whole == old(whole) && removed == old(removed) && added == old(added)
      ensures path.Some? && created.None? ==>
        && removed == [] && added == []
        && whole == (old(whole) || (old(removed) == [] && old(added) != []))
        && hunks == old(hunks)
             + if old(removed) == [] then [] else [Replacement(Join(old(removed)), Join(old(added)), false)]
    {
      if path.None? || created.Some? {
        return;
      }
      if removed != [] || added != [] {
        if removed == [] {
          whole := true;
        } else {
          hunks := hunks + [Replacement(Join(removed), Join(added), false)];
        }
      }
      removed, added := [], [];
    }

    /** The file of the section being read, by what has been read of it. */
    function FileSoFar(path: string): PatchedFile
      reads this
    {
      if created.Some? then CreatedFile(path, created.value)
      else if whole || hunks == [] then PatchedFile(path, None)
      else PatchedFile(path, Some(Edit(hunks)))
    }

    /** The file in progress is done; every section so far is now in the list. */
    method EndFile()
      requires Valid()
      modifies this`files, this`path, this`movedTo, this`hunks, this`whole, this`removed, this`added
      ensures Closed() && files == Cut(Lines())
    {
      hide Cut;
      hide Replacements;
      hide Unplaced;
      hide Hunks;
      hide Texts;
      CutNothing(body);
      if header.Some? {
        CutSection(before, header.value, body);
        WholeSection(body);
      }
      EndHunk();
      if path.None? {
        return;
      }
      if movedTo.None? {
        files := files + [FileSoFar(path.value)];
      } else {
        files := files + [PatchedFile(path.value, None), PatchedFile(movedTo.value, None)];
      }
      path, movedTo := None, None;
    }

    method StartFile(path: string, created: Option<seq<string>>)
      requires Valid()
      modifies this`files, this`path, this`movedTo, this`hunks, this`whole, this`removed, this`added, this`created
      ensures files == Cut(Lines())
      ensures this.path == Some(path) && this.created == created && movedTo.None?
      ensures hunks == [] && !whole && removed == [] && added == []
    {
      hide Cut;
      hide Replacements;
      hide Unplaced;
      hide Hunks;
      hide Texts;
      hide InSection;
      EndFile();
      this.path := Some(path);
      this.created := created;
      hunks := [];
      whole := false;
      movedTo := None;
    }

    /** A context, removed or added line. Between sections it changes nothing. */
    method ReadContent(kind: Kind, text: string)
      modifies this`created, this`removed, this`added
      ensures path.Some? && created.Some? && kind.Added? ==>
        old(created).Some? && created == Some(old(created).value + [text])
      ensures path.None? || !kind.Added? ==> created == old(created)
      ensures created.Some? <==> old(created).Some?
      ensures path.None? || created.Some? ==> removed == old(removed) && added == old(added)
      ensures path.Some? && created.None? ==>
        && removed == OneMoreOf(old(removed), Line(kind, text), {Removed, Context})
        && added == OneMoreOf(old(added), Line(kind, text), {Added, Context})
    {
      if path.None? {
        return;
      }
      if created.Some? {
        if kind.Added? {
          created := Some(created.value + [text]);
        }
        return;
      }
      if kind.Removed? {
        removed := removed + [text];
      } else if kind.Added? {
        added := added + [text];
      } else if kind.Context? {
        removed := removed + [text];
        added := added + [text];
      }
    }

    /** A line that begins a section, after everything before it. */
    method Open(l: Line)
      requires Valid() && Opens(l)
      modifies this
      ensures Valid() && Lines() == old(Lines()) + [l]
    {
      hide Cut;
      ghost var all := Lines();
      match l.kind {
        case Update => StartFile(l.text, None);
        case Add => StartFile(l.text, Some([]));
        case Delete =>
          EndFile();
          files := files + [PatchedFile(l.text, None)];
        case Marker => EndFile();
      }
      before, header, body := all, Some(l), [];
      assert all + [l] + [] == all + [l];
      assert l.kind.Marker? ==> Cut(all) + [] == Cut(all);
      NothingYet();
    }

    /** Any other line, inside the section in progress or outside every section. */
    method Continue(l: Line)
      requires Valid() && !Opens(l)
      modifies this
      ensures Valid() && Lines() == old(Lines()) + [l]
    {
      hide Cut;
      hide ReadSection;
      hide Texts;
      hide Hunks;
      hide MovedTo;
      hide Replacements;
      hide Unplaced;
      hide OldLines;
      hide NewLines;
      hide Join;
      MovedOneMore(body, l);
      TextsOneMore(body, l, {Added});
      if l.kind.Hunk? {
        HunkLine(body, l);
        WholeSection(body);
      } else {
        ContentLine(body, l);
      }
      if l.kind.Move? {
        if path.Some? {
          movedTo := Some(l.text);
        }
      } else if l.kind.Hunk? {
        EndHunk();
      } else {
        ReadContent(l.kind, l.text);
      }
      ghost var was := body;
      body := body + [l];
      if header.Some? {
        Associate(before + [header.value], was, [l]);
      }
    }

    method Read(line: string)
      requires Valid()
      modifies this
      ensures Valid() && Lines() == old(Lines()) + [ClassifyPatchLine(line)]
    {
      var l := ClassifyPatchLine(line);
      if Opens(l) {
        Open(l);
      } else {
        Continue(l);
      }
    }

    /** The files read, without those whose path is empty. */
    method Done() returns (r: seq<PatchedFile>)
      requires Valid()
      modifies this
      ensures r == Named(Cut(old(Lines())))
    {
      EndFile();
      r := Named(files);
    }
  }

  /** The reader is its specification, on every text. */
  method ParsePatch(patch: string) returns (files: seq<PatchedFile>)
    ensures files == ParsedPatch(patch)
  {
    hide ClassifyPatchLine;
    var reader := new PatchReader();
    var lines := Split(patch, '\n');
    for i := 0 to |lines|
      invariant reader.Valid() && reader.Lines() == Classified(lines[..i])
    {
      ClassifiedOneMore(lines, i);
      reader.Read(lines[i]);
    }
    assert lines[..|lines|] == lines;
    files := reader.Done();
  }

  lemma ClassifiedOneMore(lines: seq<string>, i: nat)
    requires i < |lines|
    ensures Classified(lines[..i + 1]) == Classified(lines[..i]) + [ClassifyPatchLine(lines[i])]
  {
    hide ClassifyPatchLine;
  }
}
